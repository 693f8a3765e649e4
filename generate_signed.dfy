/**
 The placement engine of EasySign (src/utils/generateSigned.ts).

 A click recorded on the rendered preview is in display space: canvas pixels,
 origin at the top-left corner, y growing downwards, everything multiplied by
 the render scale s. The PDF page is in user space: points, origin at the
 bottom-left corner, y growing upwards, unscaled. The engine maps the click
 into user space and draws up to two images on the first page, the stamp
 first, centred on the mapped point, and the signature second, 100 points to
 the right of it.

 pdf-lib is modelled abstractly: a document is a sequence of pages, a page is
 its size and the sequence of draw operations on it, and `image.scale(f)` is
 `(width * f, height * f)`.
 */
module GenerateSigned {

  datatype Option<T> = None | Some(value: T)

  /** A point, in display space or in PDF user space depending on use. */
  datatype Point = Point(x: real, y: real)

  /** Pixel dimensions of a decoded PNG are positive integers. */
  type Pixels = n: int | n > 0 witness 1

  /** The intrinsic size of an embedded PNG (pdf-lib's `image.width`, `image.height`). */
  datatype ImageSize = ImageSize(width: Pixels, height: Pixels)

  /** What a stamp or signature source leads to once fetched and handed to
      `embedPng`: the decoded image, or None when `embedPng` rejects the bytes. */
  datatype ImageSource = ImageSource(decoded: Option<ImageSize>)

  datatype Asset = Stamp | Signature

  /** One `page.drawImage` call: which image, bottom-left corner and size, in points. */
  datatype DrawOp = DrawOp(asset: Asset, x: real, y: real, width: real, height: real)

  /** A page: its size in points and the draw operations on its content. */
  datatype PageValue = PageValue(width: real, height: real, ops: seq<DrawOp>)

  datatype DocValue = DocValue(pages: seq<PageValue>)

  /** Why the generate call rejects: the document has no first page (so
      `page.getSize()` is called on nothing), or `embedPng` rejects an image. */
  datatype SignError = NoFirstPage | NotPng(asset: Asset)

  datatype Result<T> = Success(value: T) | Failure(error: SignError)

  /** The fixed drawn widths, in points, and the signature's horizontal offset. */
  const StampWidth: real := 200.0
  const SignatureWidth: real := 100.0
  const SignatureOffset: real := 100.0

  /** Display space back from user space: multiply by s, flip against the page height. */
  function ToDisplay(q: Point, s: real, pageHeight: real): Point
  {
    Point(q.x * s, (pageHeight - q.y) * s)
  }

  /** The engine's coordinate transform: divide by the render scale and flip
      the y axis against the page height. Nothing clamps the result. */
  function ToPdf(click: Point, s: real, pageHeight: real): (q: Point)
    requires s > 0.0
    ensures ToDisplay(q, s, pageHeight) == click
  {
    Point(click.x / s, pageHeight - click.y / s)
  }

  /** The transform is a bijection: it also undoes ToDisplay. */
  lemma ToPdfOfToDisplay(q: Point, s: real, pageHeight: real)
    requires s > 0.0
    ensures ToPdf(ToDisplay(q, s, pageHeight), s, pageHeight) == q
  {
  }

  /** The top edge of the canvas is the top edge of the page, and the
      vertical order is reversed while the horizontal order is kept. */
  lemma ToPdfFlipsVerticalAxis(a: Point, b: Point, s: real, pageHeight: real)
    requires s > 0.0
    ensures ToPdf(Point(a.x, 0.0), s, pageHeight).y == pageHeight
    ensures a.y < b.y ==> ToPdf(b, s, pageHeight).y < ToPdf(a, s, pageHeight).y
    ensures a.x < b.x ==> ToPdf(a, s, pageHeight).x < ToPdf(b, s, pageHeight).x
  {
  }

  /** A click below the page's extent yields a point below the page:
      H = 792, s = 0.5, click (300, 400) gives (600, -8). */
  lemma ToPdfDoesNotClamp()
    ensures ToPdf(Point(300.0, 400.0), 0.5, 792.0) == Point(600.0, -8.0)
  {
  }

  /** pdf-lib's `image.scale(f)`: both dimensions multiplied by f, so the
      aspect ratio is kept. */
  function ScaledDims(img: ImageSize, f: real): (d: Point)
    ensures d.x * img.height as real == d.y * img.width as real
  {
    Point(img.width as real * f, img.height as real * f)
  }

  /** Width fixed, height following the image's aspect ratio. */
  function Fitted(img: ImageSize, targetWidth: real): Point
  {
    ScaledDims(img, targetWidth / img.width as real)
  }

  /** Centre of a draw operation's rectangle. */
  function Centre(op: DrawOp): Point
  {
    Point(op.x + op.width / 2.0, op.y + op.height / 2.0)
  }

  /** The stamp is drawn 200 points wide, as tall as its aspect ratio makes
      it, and centred on the transformed click. */
  function StampOp(p: Point, img: ImageSize): (op: DrawOp)
    ensures op.asset == Stamp
    ensures op.width == StampWidth
    ensures op.height == img.height as real * StampWidth / img.width as real
    ensures Centre(op) == p
  {
    var d := Fitted(img, StampWidth);
    DrawOp(Stamp, p.x - d.x / 2.0, p.y - d.y / 2.0, d.x, d.y)
  }

  /** The signature is drawn 100 points wide, as tall as its aspect ratio
      makes it, and centred 100 points to the right of the transformed click. */
  function SignatureOp(p: Point, img: ImageSize): (op: DrawOp)
    ensures op.asset == Signature
    ensures op.width == SignatureWidth
    ensures op.height == img.height as real * SignatureWidth / img.width as real
    ensures Centre(op) == Point(p.x + SignatureOffset, p.y)
  {
    var d := Fitted(img, SignatureWidth);
    DrawOp(Signature, p.x - d.x / 2.0 + SignatureOffset, p.y - d.y / 2.0, d.x, d.y)
  }

  /** A 400 x 200 stamp is drawn 200 x 100. */
  lemma StampKeepsAspectRatio()
    ensures var op := StampOp(Point(0.0, 0.0), ImageSize(400, 200));
            op.width == 200.0 && op.height == 100.0
  {
  }

  /** The footprints do not depend on the render scale: only the anchor is
      divided by s, never the drawn size. */
  lemma FootprintIgnoresScale(click: Point, s1: real, s2: real, pageHeight: real, img: ImageSize)
    requires s1 > 0.0 && s2 > 0.0
    ensures var a, b := StampOp(ToPdf(click, s1, pageHeight), img), StampOp(ToPdf(click, s2, pageHeight), img);
            a.width == b.width && a.height == b.height
    ensures var a, b := SignatureOp(ToPdf(click, s1, pageHeight), img), SignatureOp(ToPdf(click, s2, pageHeight), img);
            a.width == b.width && a.height == b.height
  {
  }

  /** The draw operations one generate call appends: the stamp's if there is
      a stamp, then the signature's if there is a signature. */
  function Overlays(p: Point, stamp: Option<ImageSize>, signature: Option<ImageSize>): (ops: seq<DrawOp>)
    ensures |ops| == (if stamp.Some? then 1 else 0) + (if signature.Some? then 1 else 0)
    ensures stamp.Some? ==> ops[0] == StampOp(p, stamp.value)
    ensures signature.Some? ==> ops[|ops| - 1] == SignatureOp(p, signature.value)
    ensures |ops| == 2 ==> ops[0].asset == Stamp && ops[1].asset == Signature
    ensures stamp.Some? <==> (|ops| > 0 && ops[0].asset == Stamp)
    ensures signature.Some? <==> (|ops| > 0 && ops[|ops| - 1].asset == Signature)
  {
    (if stamp.Some? then [StampOp(p, stamp.value)] else [])
    + (if signature.Some? then [SignatureOp(p, signature.value)] else [])
  }

  /** The image a source yields once embedded, when it is supplied and decodes. */
  function Embedded(src: Option<ImageSource>): Option<ImageSize>
  {
    if src.Some? then src.value.decoded else None
  }

  /** A source that is supplied but does not decode makes the call reject. */
  predicate Rejects(src: Option<ImageSource>)
  {
    src.Some? && src.value.decoded.None?
  }

  /** What one generate call produces from the original document, the two
      optional image sources, the display click and its render scale. */
  function SignedPdf(file: DocValue, stampSrc: Option<ImageSource>, signatureSrc: Option<ImageSource>,
                     click: Point, s: real): (r: Result<DocValue>)
    requires s > 0.0
    ensures r.Failure? <==> |file.pages| == 0 || Rejects(stampSrc) || Rejects(signatureSrc)
    ensures |file.pages| == 0 ==> r == Failure(NoFirstPage)
    ensures |file.pages| > 0 && Rejects(stampSrc) ==> r == Failure(NotPng(Stamp))
    ensures |file.pages| > 0 && !Rejects(stampSrc) && Rejects(signatureSrc) ==> r == Failure(NotPng(Signature))
    ensures r.Success? ==> |r.value.pages| == |file.pages|
    ensures r.Success? ==> forall i :: 1 <= i < |file.pages| ==> r.value.pages[i] == file.pages[i]
    ensures r.Success? ==> (r.value.pages[0].width == file.pages[0].width &&
                            r.value.pages[0].height == file.pages[0].height)
    ensures r.Success? ==> (|file.pages[0].ops| <= |r.value.pages[0].ops| &&
                            r.value.pages[0].ops[..|file.pages[0].ops|] == file.pages[0].ops)
  {
    if |file.pages| == 0 then Failure(NoFirstPage)
    else if Rejects(stampSrc) then Failure(NotPng(Stamp))
    else if Rejects(signatureSrc) then Failure(NotPng(Signature))
    else
      var page := file.pages[0];
      var p := ToPdf(click, s, page.height);
      var drawn := page.(ops := page.ops + Overlays(p, Embedded(stampSrc), Embedded(signatureSrc)));
      Success(DocValue(file.pages[0 := drawn]))
  }

  /** The first page gains exactly the overlays, placed at the transformed
      click, and with no image supplied the document comes back unchanged. */
  lemma SignedPdfDrawsOnFirstPage(file: DocValue, stampSrc: Option<ImageSource>, signatureSrc: Option<ImageSource>,
                                  click: Point, s: real)
    requires s > 0.0
    requires |file.pages| > 0 && !Rejects(stampSrc) && !Rejects(signatureSrc)
    ensures var r := SignedPdf(file, stampSrc, signatureSrc, click, s);
            var p := ToPdf(click, s, file.pages[0].height);
            r.Success?
            && r.value.pages[0].ops == file.pages[0].ops + Overlays(p, Embedded(stampSrc), Embedded(signatureSrc))
    ensures stampSrc.None? && signatureSrc.None? ==> SignedPdf(file, stampSrc, signatureSrc, click, s) == Success(file)
  {
    if stampSrc.None? && signatureSrc.None? {
      var page := file.pages[0];
      assert page.(ops := page.ops + []) == page;
      assert file.pages[0 := page] == file.pages;
    }
  }

  /** The document as loaded by pdf-lib: a mutable list of pages. */
  class PdfDocument {
    var pages: seq<PageValue>

    constructor Load(file: DocValue)
      ensures pages == file.pages
    {
      pages := file.pages;
    }

    /** `page.drawImage`: appends one operation to the page's content and
        changes nothing else. */
    method DrawImage(index: nat, op: DrawOp)
      requires index < |pages|
      modifies this
      ensures pages == old(pages)[index := old(pages[index]).(ops := old(pages[index]).ops + [op])]
    {
      pages := pages[index := pages[index].(ops := pages[index].ops + [op])];
    }

    function Save(): DocValue
      reads this
    {
      DocValue(pages)
    }
  }

  /** `generateSignedPDF`: load, transform the click, draw the stamp, draw the
      signature, save. The original document value is never changed. */
  method GenerateSignedPdf(file: DocValue, stampSrc: Option<ImageSource>, signatureSrc: Option<ImageSource>,
                           x: real, y: real, scale: real)
    returns (out: Result<DocValue>)
    requires scale > 0.0
    ensures out == SignedPdf(file, stampSrc, signatureSrc, Point(x, y), scale)
  {
    var pdfDoc := new PdfDocument.Load(file);
    if |pdfDoc.pages| == 0 {
      return Failure(NoFirstPage);
    }
    var page := 0;
    var height := pdfDoc.pages[page].height;
    var scaledX := x / scale;
    var scaledY := height - y / scale;
    ghost var p := Point(scaledX, scaledY);
    assert p == ToPdf(Point(x, y), scale, height);
    ghost var first := file.pages[0];
    assert first.(ops := first.ops + []) == first;
    assert file.pages[0 := first] == file.pages;
    ghost var stampOps: seq<DrawOp> := [];
    ghost var signatureOps: seq<DrawOp> := [];

    if stampSrc.Some? {
      if stampSrc.value.decoded.None? {
        return Failure(NotPng(Stamp));
      }
      var stampImage := stampSrc.value.decoded.value;
      var stampDims := ScaledDims(stampImage, 200.0 / stampImage.width as real);
      var stampOp := DrawOp(Stamp, scaledX - stampDims.x / 2.0, scaledY - stampDims.y / 2.0,
                            stampDims.x, stampDims.y);
      pdfDoc.DrawImage(page, stampOp);
      stampOps := [stampOp];
    }
    assert stampOps == Overlays(p, Embedded(stampSrc), None);
    assert pdfDoc.pages == file.pages[0 := first.(ops := first.ops + stampOps)];

    if signatureSrc.Some? {
      if signatureSrc.value.decoded.None? {
        return Failure(NotPng(Signature));
      }
      var sigImage := signatureSrc.value.decoded.value;
      var sigDims := ScaledDims(sigImage, 100.0 / sigImage.width as real);
      var sigOp := DrawOp(Signature, scaledX - sigDims.x / 2.0 + 100.0, scaledY - sigDims.y / 2.0,
                          sigDims.x, sigDims.y);
      pdfDoc.DrawImage(page, sigOp);
      signatureOps := [sigOp];
    }
    assert signatureOps == Overlays(p, None, Embedded(signatureSrc));
    assert stampOps + signatureOps == Overlays(p, Embedded(stampSrc), Embedded(signatureSrc));
    assert first.ops + stampOps + signatureOps == first.ops + (stampOps + signatureOps);

    assert pdfDoc.pages == file.pages[0 := first.(ops := first.ops + Overlays(p, Embedded(stampSrc), Embedded(signatureSrc)))];
    out := Success(pdfDoc.Save());
  }
}
