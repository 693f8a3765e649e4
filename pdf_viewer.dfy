/**
 The preview component (src/components/PDFViewer.tsx): it chooses the scale
 at which page 1 is rendered, records clicks on the canvas and reports them
 to the session, and draws the stamp and signature previews over the canvas.

 The viewer holds the session whose callbacks it was given (`onClickPosition`
 and `onScale` are the session's OnClickPosition and OnScale, as wired in
 src/App.tsx), and reads the stamp and signature presence from it.
 */
module PdfViewer {
  import opened GenerateSigned
  import App

  /** An absolutely positioned preview element: top-left corner, size and stacking order. */
  datatype Box = Box(left: real, top: real, width: real, height: real, zIndex: int)

  function BoxCentre(b: Box): Point
  {
    Point(b.left + b.width / 2.0, b.top + b.height / 2.0)
  }

  function Min(a: real, b: real): real
  {
    if a <= b then a else b
  }

  /** The reference definition of the fitted scale: the largest factor, at
      most 1, at which the page fits both bounds. */
  function FittedScale(pageWidth: real, pageHeight: real, maxWidth: real, maxHeight: real): (s: real)
    requires pageWidth > 0.0 && pageHeight > 0.0 && maxWidth > 0.0 && maxHeight > 0.0
    ensures 0.0 < s <= 1.0
    ensures pageWidth * s <= maxWidth && pageHeight * s <= maxHeight
    ensures pageWidth <= maxWidth && pageHeight <= maxHeight ==> s == 1.0
  {
    var s := Min(1.0, Min(maxWidth / pageWidth, maxHeight / pageHeight));
    assert pageWidth * (maxWidth / pageWidth) == maxWidth;
    assert pageHeight * (maxHeight / pageHeight) == maxHeight;
    s
  }

  /** No larger admissible scale exists: any factor at most 1 that fits both
      bounds is at most the fitted scale. */
  lemma FittedScaleIsLargest(pageWidth: real, pageHeight: real, maxWidth: real, maxHeight: real, t: real)
    requires pageWidth > 0.0 && pageHeight > 0.0 && maxWidth > 0.0 && maxHeight > 0.0
    requires 0.0 < t <= 1.0 && pageWidth * t <= maxWidth && pageHeight * t <= maxHeight
    ensures t <= FittedScale(pageWidth, pageHeight, maxWidth, maxHeight)
  {
  }

  /** A 1000 x 1500 page in 810 x 640 bounds: the width step gives 0.81, and
      the height re-check lowers it to 640 / 1500. */
  lemma FittedScaleHeightOverridesWidth()
    ensures 1000.0 > 810.0 && 810.0 / 1000.0 == 0.81
    ensures 1500.0 * 0.81 > 640.0
    ensures FittedScale(1000.0, 1500.0, 810.0, 640.0) == 640.0 / 1500.0
  {
  }

  /** The same example run through the two-step computation itself. */
  method FitScaleHeightOverridesWidth() returns (s: real)
    ensures s == 640.0 / 1500.0
  {
    s := FitScale(1000.0, 1500.0, 810.0, 640.0);
    FittedScaleHeightOverridesWidth();
  }

  /** The scale computed in `renderPdf`: start from 1, shrink to the width
      bound if the page is too wide, then shrink to the height bound if it is
      still too tall. */
  method FitScale(pageWidth: real, pageHeight: real, maxWidth: real, maxHeight: real) returns (s: real)
    requires pageWidth > 0.0 && pageHeight > 0.0 && maxWidth > 0.0 && maxHeight > 0.0
    ensures s == FittedScale(pageWidth, pageHeight, maxWidth, maxHeight)
  {
    s := 1.0;
    if pageWidth > maxWidth {
      s := maxWidth / pageWidth;
    }
    if pageHeight * s > maxHeight {
      s := maxHeight / pageHeight;
    }
  }

  /** The stamp preview: a square of side 200 s centred on the stored click,
      stacked above the signature. */
  function StampBox(click: Point, s: real): (b: Box)
    ensures b.width == b.height == StampWidth * s
    ensures BoxCentre(b) == click
    ensures b.zIndex == 10
  {
    Box(click.x - 100.0 * s, click.y - 100.0 * s, 200.0 * s, 200.0 * s, 10)
  }

  /** The signature preview: a square of side 100 s centred 100 s to the
      right of the stored click, stacked below the stamp. */
  function SignatureBox(click: Point, s: real): (b: Box)
    ensures b.width == b.height == SignatureWidth * s
    ensures BoxCentre(b) == Point(click.x + SignatureOffset * s, click.y)
    ensures b.zIndex == 9
  {
    Box(click.x + 50.0 * s, click.y - 50.0 * s, 100.0 * s, 100.0 * s, 9)
  }

  /** The stamp preview stacks above the signature preview. */
  lemma StampStacksAboveSignature(click: Point, s: real)
    ensures StampBox(click, s).zIndex > SignatureBox(click, s).zIndex
  {
  }

  /** A preview box read back in PDF user space, as the engine would place it:
      bottom-left corner and size, in points. */
  function BoxInPdf(b: Box, asset: Asset, s: real, pageHeight: real): (r: DrawOp)
    requires s > 0.0
    ensures ToDisplay(Point(r.x, r.y + r.height), s, pageHeight) == Point(b.left, b.top)
    ensures r.width * s == b.width && r.height * s == b.height
  {
    DrawOp(asset, b.left / s, pageHeight - (b.top + b.height) / s, b.width / s, b.height / s)
  }

  /** Preview and engine in lock-step for the stamp: with the preview drawn
      at the canvas-local click, the stamp preview read back in PDF user
      space has the engine's centre and width, and is the engine's rectangle
      exactly when the stamp image is square. */
  lemma StampPreviewMatchesPlacement(click: Point, s: real, pageHeight: real, img: ImageSize)
    requires s > 0.0
    ensures var shown, drawn := BoxInPdf(StampBox(click, s), Stamp, s, pageHeight), StampOp(ToPdf(click, s, pageHeight), img);
            Centre(shown) == Centre(drawn) && shown.width == drawn.width
            && (shown == drawn <==> img.width == img.height)
  {
  }

  /** The same lock-step for the signature: centre 100 points right of the
      transformed click and width 100, and the whole rectangle exactly for a
      square image. */
  lemma SignaturePreviewMatchesPlacement(click: Point, s: real, pageHeight: real, img: ImageSize)
    requires s > 0.0
    ensures var shown, drawn := BoxInPdf(SignatureBox(click, s), Signature, s, pageHeight), SignatureOp(ToPdf(click, s, pageHeight), img);
            Centre(shown) == Centre(drawn) && shown.width == drawn.width
            && (shown == drawn <==> img.width == img.height)
  {
  }

  class Viewer {
    const session: App.Session
    var clickX: Option<real>
    var clickY: Option<real>
    var scale: real

    ghost predicate Valid()
      reads this
    {
      scale > 0.0
    }

    /** Mounting: no click yet and scale 1. */
    constructor (session: App.Session)
      ensures Valid()
      ensures this.session == session
      ensures clickX == None && clickY == None && scale == 1.0
    {
      this.session := session;
      clickX, clickY := None, None;
      scale := 1.0;
    }

    /** `renderPdf` without the drawing: fit page 1's native size to the
        bounds, keep the scale and report it to the session. */
    method RenderPdf(pageWidth: real, pageHeight: real, maxWidth: real, maxHeight: real)
      requires pageWidth > 0.0 && pageHeight > 0.0 && maxWidth > 0.0 && maxHeight > 0.0
      requires Valid() && session.Valid()
      modifies this, session
      ensures Valid() && session.Valid()
      ensures scale == FittedScale(pageWidth, pageHeight, maxWidth, maxHeight)
      ensures session.scale == scale
      ensures clickX == old(clickX) && clickY == old(clickY)
      ensures session.pdfFile == old(session.pdfFile) && session.stampImg == old(session.stampImg)
      ensures session.signImg == old(session.signImg) && session.coords == old(session.coords)
    {
      var s := FitScale(pageWidth, pageHeight, maxWidth, maxHeight);
      scale := s;
      session.OnScale(s);
    }

    /** `handleClick`: the canvas-local offset of the pointer is reported to
        the session, replacing its click, while the viewer keeps the raw
        client coordinates for its previews. The previews are therefore
        centred on the reported click shifted by the canvas's on-screen
        position. */
    method HandleClick(clientX: real, clientY: real, rectLeft: real, rectTop: real)
      requires Valid() && session.Valid()
      modifies this, session
      ensures Valid() && session.Valid()
      ensures clickX == Some(clientX) && clickY == Some(clientY) && scale == old(scale)
      ensures session.coords == Point(clientX - rectLeft, clientY - rectTop)
      ensures session.pdfFile == old(session.pdfFile) && session.stampImg == old(session.stampImg)
      ensures session.signImg == old(session.signImg) && session.scale == old(session.scale)
      ensures StampPreview().Some? ==>
                BoxCentre(StampPreview().value) == Point(session.coords.x + rectLeft, session.coords.y + rectTop)
    {
      var x := clientX - rectLeft;
      var y := clientY - rectTop;
      clickX := Some(clientX);
      clickY := Some(clientY);
      session.OnClickPosition(x, y);
    }

    /** The stamp preview: shown once a click is recorded and a stamp is
        loaded, centred on the stored click with side 200 times the scale. */
    function StampPreview(): (b: Option<Box>)
      reads this, session
      ensures b.Some? <==> clickX.Some? && clickY.Some? && session.stampImg.Some?
      ensures b.Some? ==> (BoxCentre(b.value) == Point(clickX.value, clickY.value) &&
                           b.value.width == b.value.height == StampWidth * scale)
    {
      if clickX.Some? && clickY.Some? && session.stampImg.Some? then
        Some(StampBox(Point(clickX.value, clickY.value), scale))
      else
        None
    }

    /** The signature preview: shown once a click is recorded and a signature
        is loaded, centred 100 times the scale to the right of the stored
        click with side 100 times the scale. */
    function SignaturePreview(): (b: Option<Box>)
      reads this, session
      ensures b.Some? <==> clickX.Some? && clickY.Some? && session.signImg.Some?
      ensures b.Some? ==> (BoxCentre(b.value) == Point(clickX.value + SignatureOffset * scale, clickY.value) &&
                           b.value.width == b.value.height == SignatureWidth * scale)
    {
      if clickX.Some? && clickY.Some? && session.signImg.Some? then
        Some(SignatureBox(Point(clickX.value, clickY.value), scale))
      else
        None
    }
  }
}
