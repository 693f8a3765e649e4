/**
 The session held by the application shell (src/App.tsx): the loaded PDF,
 the stamp and signature sources, the last click reported by the viewer and
 the render scale it reported. Handlers overwrite one field each; generate
 reads them all and hands them to the placement engine.
 */
module App {
  import opened GenerateSigned

  class Session {
    var pdfFile: Option<DocValue>
    var stampImg: Option<ImageSource>
    var signImg: Option<ImageSource>
    var coords: Point
    var scale: real

    /** The scale only ever comes from the viewer's fitted scale, which is positive. */
    ghost predicate Valid()
      reads this
    {
      scale > 0.0
    }

    /** No file, no images, the click at the origin and scale 1. */
    constructor ()
      ensures Valid()
      ensures pdfFile == None && stampImg == None && signImg == None
      ensures coords == Point(0.0, 0.0) && scale == 1.0
    {
      pdfFile, stampImg, signImg := None, None, None;
      coords, scale := Point(0.0, 0.0), 1.0;
    }

    /** A file input change: the first selected file, if any, replaces the
        document. The click and the scale of the previous document stay. */
    method HandlePdfUpload(file: Option<DocValue>)
      requires Valid()
      modifies this
      ensures Valid()
      ensures pdfFile == (if file.Some? then file else old(pdfFile))
      ensures stampImg == old(stampImg) && signImg == old(signImg)
      ensures coords == old(coords) && scale == old(scale)
    {
      if file.Some? {
        pdfFile := file;
      }
    }

    /** The stamp input: the first selected image, if any, becomes the stamp source. */
    method HandleStampUpload(file: Option<ImageSource>)
      requires Valid()
      modifies this
      ensures Valid()
      ensures stampImg == (if file.Some? then file else old(stampImg))
      ensures pdfFile == old(pdfFile) && signImg == old(signImg)
      ensures coords == old(coords) && scale == old(scale)
    {
      if file.Some? {
        stampImg := file;
      }
    }

    /** The signature input: the first selected image, if any, becomes the signature source. */
    method HandleSignatureUpload(file: Option<ImageSource>)
      requires Valid()
      modifies this
      ensures Valid()
      ensures signImg == (if file.Some? then file else old(signImg))
      ensures pdfFile == old(pdfFile) && stampImg == old(stampImg)
      ensures coords == old(coords) && scale == old(scale)
    {
      if file.Some? {
        signImg := file;
      }
    }

    /** The viewer's click callback: the latest click replaces the stored one. */
    method OnClickPosition(x: real, y: real)
      requires Valid()
      modifies this
      ensures Valid()
      ensures coords == Point(x, y)
      ensures pdfFile == old(pdfFile) && stampImg == old(stampImg) && signImg == old(signImg)
      ensures scale == old(scale)
    {
      coords := Point(x, y);
    }

    /** The viewer's scale callback: replaces the scale and nothing else. */
    method OnScale(s: real)
      requires Valid()
      requires s > 0.0
      modifies this
      ensures Valid()
      ensures scale == s
      ensures pdfFile == old(pdfFile) && stampImg == old(stampImg) && signImg == old(signImg)
      ensures coords == old(coords)
    {
      scale := s;
    }

    /** Generate: nothing without a document; otherwise the engine's result
        on exactly the stored document, images, click and scale. The session
        itself is left as it was. */
    method HandleGenerate() returns (out: Option<Result<DocValue>>)
      requires Valid()
      ensures out.None? <==> pdfFile.None?
      ensures pdfFile.Some? ==> out.value == SignedPdf(pdfFile.value, stampImg, signImg, coords, scale)
    {
      if pdfFile.None? {
        return None;
      }
      var blob := GenerateSignedPdf(pdfFile.value, stampImg, signImg, coords.x, coords.y, scale);
      out := Some(blob);
    }
  }

  /** Every generate call starts again from the stored, unchanged document,
      so pressing generate twice yields the same document twice rather than
      a second pair of overlays. */
  method GenerateIsRepeatable(session: Session) returns (first: Option<Result<DocValue>>, second: Option<Result<DocValue>>)
    requires session.Valid()
    ensures first == second
    ensures session.pdfFile.Some? && |session.pdfFile.value.pages| > 0 && session.stampImg.None? && session.signImg.None?
            ==> first == Some(Success(session.pdfFile.value))
  {
    first := session.HandleGenerate();
    second := session.HandleGenerate();
    if session.pdfFile.Some? && |session.pdfFile.value.pages| > 0 && session.stampImg.None? && session.signImg.None? {
      SignedPdfDrawsOnFirstPage(session.pdfFile.value, session.stampImg, session.signImg, session.coords, session.scale);
    }
  }
}
