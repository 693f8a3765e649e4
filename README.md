# EasySign placement model

EasySign lets a user click a point on a rendered preview of a PDF's first page. It then bakes a stamp image and a signature image into that page at the matching place. This project models the geometry and the state that join the preview to the PDF page, and proves properties of that model.

- `generate_signed.dfy` (module `GenerateSigned`) is the placement engine of `src/utils/generateSigned.ts`.
  - It maps a canvas-local click `(x, y)`, taken at render scale `s`, into PDF user space as `(x / s, H - y / s)`, where `H` is the height of page 1.
  - It computes the stamp rectangle: 200 points wide, centred on that point.
  - It computes the signature rectangle: 100 points wide, centred 100 points to its right.
  - It appends those draws to page 1, stamp first.
  - pdf-lib is abstracted. A document is a sequence of pages. A page is its size plus its sequence of draw records `(asset, x, y, width, height)`. `image.scale(f)` is `(width * f, height * f)`.
  - `GenerateSignedPdf` is the imperative call. It loads a mutable `PdfDocument`, draws into it and saves it. It is proved equal to the specification function `SignedPdf`, and the properties are proved about `SignedPdf`.
- `app.dfy` (module `App`) is the session of `src/App.tsx`.
  - It is a class with the five signals `pdfFile`, `stampImg`, `signImg`, `coords` and `scale`.
  - It has the upload handlers, the two viewer callbacks and `HandleGenerate`.
- `pdf_viewer.dfy` (module `PdfViewer`) is the preview component of `src/components/PDFViewer.tsx`.
  - It has the two-step fit-to-viewport scale, the click handler and the two preview boxes.
  - The `Viewer` class holds the `Session` whose `OnClickPosition` and `OnScale` it was given as callbacks.

Numbers are exact `real`s. Image sizes are positive integer pixel counts. Every operation that divides by the scale requires `s > 0`, because the code never guards that division.

Behaviour of the code that the model keeps:
- Generate does not accumulate. Every call reloads the unchanged `pdfFile`, so two calls give the same pages. `App.GenerateIsRepeatable` states this.
- There are no typed failures.
  - `coords` starts at `(0, 0)`, so a missing click is never detected.
  - A document without pages fails when `page.getSize()` is called on nothing. An image that `embedPng` rejects throws. Both make the promise reject with no output. They are modelled as `Failure(NoFirstPage)` and `Failure(NotPng(asset))`; the stamp is checked first, as in the code.
- Picking a new document keeps the old click and scale (`HandlePdfUpload`).
- The viewer reports the canvas-local offset `(clientX - rect.left, clientY - rect.top)` to the session. It positions its previews from the raw `clientX` and `clientY`, so a preview is shifted from the reported click by the canvas's on-screen position. `Viewer.HandleClick` states that shift. The lock-step lemmas show that the preview agrees with the engine when it is drawn at the canvas-local click.

## Model

| member | source | states |
|---|---|---|
| `GenerateSigned.ToPdf` | src/utils/generateSigned.ts:26-28 | scaling back by `s` and flipping against the page height recovers the click exactly; nothing clamps the result |
| `GenerateSigned.ToPdfOfToDisplay` | src/utils/generateSigned.ts:27-28 | the transform also undoes the display mapping, so it is a bijection between display space and user space |
| `GenerateSigned.ToPdfFlipsVerticalAxis` | src/utils/generateSigned.ts:28 | the top of the canvas (`y = 0`) maps to `y = H`; a larger display `y` gives a strictly smaller PDF `y`; horizontal order is kept |
| `GenerateSigned.ToPdfDoesNotClamp` | src/utils/generateSigned.ts:27-28 | `H = 792`, `s = 0.5`, click `(300, 400)` gives `(600, -8)`, a point below the page |
| `GenerateSigned.ScaledDims` | src/utils/generateSigned.ts:34 | pdf-lib's `image.scale(f)` keeps the image's aspect ratio |
| `GenerateSigned.StampOp` | src/utils/generateSigned.ts:34-41 | the stamp draw is 200 points wide, `imgH * 200 / imgW` tall, and centred on the transformed click |
| `GenerateSigned.SignatureOp` | src/utils/generateSigned.ts:47-54 | the signature draw is 100 points wide, `imgH * 100 / imgW` tall, and centred 100 points to the right of the transformed click |
| `GenerateSigned.StampKeepsAspectRatio` | src/utils/generateSigned.ts:34-40 | a 400 x 200 stamp is drawn 200 x 100 |
| `GenerateSigned.FootprintIgnoresScale` | src/utils/generateSigned.ts:27-54 | the drawn width and height of both overlays are the same for every render scale; only the anchor depends on `s` |
| `GenerateSigned.Overlays` | src/utils/generateSigned.ts:31-55 | one draw per supplied image; the stamp draw comes before the signature draw; each is present exactly when its image is; none when neither is |
| `GenerateSigned.SignedPdf` | src/utils/generateSigned.ts:17-58 | it rejects exactly when there is no page 1 or a supplied image does not decode; the failure names the missing page first, then the stamp, then the signature; on success the page count, the other pages, page 1's size and page 1's earlier content are all unchanged |
| `GenerateSigned.SignedPdfDrawsOnFirstPage` | src/utils/generateSigned.ts:22-55 | page 1 gains exactly the overlays at the transformed click; with no image supplied the document is returned unchanged |
| `GenerateSigned.PdfDocument.Load` | src/utils/generateSigned.ts:19-20 | the loaded document holds the file's pages |
| `GenerateSigned.PdfDocument.DrawImage` | src/utils/generateSigned.ts:36-54 | a draw appends one record to the chosen page's content and changes no other page |
| `GenerateSigned.GenerateSignedPdf` | src/utils/generateSigned.ts:9-59 | the sequence load, transform, draw stamp, draw signature, save produces exactly `SignedPdf` of its inputs |
| `App.Session.constructor` | src/App.tsx:6-10 | the session starts with no PDF, no stamp, no signature, `coords = (0, 0)` and `scale = 1` |
| `App.Session.HandlePdfUpload` | src/App.tsx:12-15 | a selected file replaces the document; with no file nothing changes; `coords` and `scale` always persist |
| `App.Session.HandleStampUpload` | src/App.tsx:17-23 | a selected image replaces the stamp source and nothing else changes; with no file nothing changes |
| `App.Session.HandleSignatureUpload` | src/App.tsx:17-23 | a selected image replaces the signature source and nothing else changes; with no file nothing changes |
| `App.Session.OnClickPosition` | src/App.tsx:64 | the latest click replaces `coords`; every other field is unchanged |
| `App.Session.OnScale` | src/App.tsx:65 | the reported scale replaces `scale`; every other field is unchanged |
| `App.Session.HandleGenerate` | src/App.tsx:25-37 | no result without a document; otherwise the engine's result on exactly the stored document, images, `coords.x`, `coords.y` and `scale` |
| `App.GenerateIsRepeatable` | src/App.tsx:25-34 | two generate calls in a row return the same result; with no image supplied the stored document comes back unchanged |
| `PdfViewer.FittedScale` | src/components/PDFViewer.tsx:42-48 | the fitted scale is in `(0, 1]`; the scaled page fits both bounds; a page that already fits gets scale 1, so there is no upscaling |
| `PdfViewer.FittedScaleIsLargest` | src/components/PDFViewer.tsx:42-48 | every factor at most 1 that fits both bounds is at most the fitted scale |
| `PdfViewer.FittedScaleHeightOverridesWidth` | src/components/PDFViewer.tsx:39-48 | a 1000 x 1500 page in 810 x 640 bounds is too wide, so the width step gives 0.81; at 0.81 it is still too tall, and the height re-check gives `640 / 1500` |
| `PdfViewer.FitScaleHeightOverridesWidth` | src/components/PDFViewer.tsx:42-48 | the two sequential steps of the fit computation, run on the 1000 x 1500 page in 810 x 640 bounds, end at `640 / 1500` |
| `PdfViewer.FitScale` | src/components/PDFViewer.tsx:42-48 | the width-then-height two-step computation equals the fitted scale, the minimum of 1, `maxWidth / w0` and `maxHeight / h0` |
| `PdfViewer.StampBox` | src/components/PDFViewer.tsx:93-99 | the stamp preview is a square of side `200 s` centred on the stored click, at z-index 10 |
| `PdfViewer.SignatureBox` | src/components/PDFViewer.tsx:107-113 | the signature preview is a square of side `100 s` centred at `(cx + 100 s, cy)`, at z-index 9 |
| `PdfViewer.StampStacksAboveSignature` | src/components/PDFViewer.tsx:99-113 | the stamp preview stacks above the signature preview |
| `PdfViewer.StampPreviewMatchesPlacement` | src/components/PDFViewer.tsx:95-98 | read back in PDF space, the stamp preview at the canvas-local click has the drawn stamp's centre and width; it is the drawn rectangle exactly when the image is square |
| `PdfViewer.SignaturePreviewMatchesPlacement` | src/components/PDFViewer.tsx:109-112 | read back in PDF space, the signature preview has the drawn signature's centre and width; it is the drawn rectangle exactly when the image is square |
| `PdfViewer.Viewer.constructor` | src/components/PDFViewer.tsx:26-28 | a mounted viewer has no click recorded and scale 1 |
| `PdfViewer.Viewer.RenderPdf` | src/components/PDFViewer.tsx:38-51 | the viewer's scale becomes the fitted scale of page 1 and is reported to the session; nothing else changes |
| `PdfViewer.Viewer.HandleClick` | src/components/PDFViewer.tsx:71-79 | the session's click is replaced by the canvas-local offset, with no history kept; the viewer keeps the client coordinates, so a visible stamp preview is centred at the reported click plus the canvas offset |
| `PdfViewer.Viewer.StampPreview` | src/components/PDFViewer.tsx:89-101 | the stamp preview is shown exactly when a click is recorded and a stamp is loaded; it is centred on the stored click, with side `200 s` |
| `PdfViewer.Viewer.SignaturePreview` | src/components/PDFViewer.tsx:103-115 | the signature preview is shown exactly when a click is recorded and a signature is loaded; it is centred `100 s` right of the stored click, with side `100 s` |

## Left out

- PDF rendering through pdfjs is not modelled: `getDocument`, `getPage`, `getViewport`, the canvas set-up, `page.render` and the worker configuration are foreign library calls. `Viewer.RenderPdf` takes page 1's native size as parameters.
- The bounds `innerWidth * 0.9` and `innerHeight * 0.8` are window I/O. `maxWidth` and `maxHeight` are parameters.
- pdf-lib's parsing (`PDFDocument.load` of bytes), PNG decoding in `embedPng` and `save` serialisation are not modelled. A document is modelled as its pages and their draw records, not as bytes. So "the other pages are unchanged" is stated on those values, not byte for byte.
- Page 1's width is read and only logged. A document whose bytes do not parse is not modelled.
- `loadImageBytes` (`fetch`) is not modelled. An image source is modelled as what it decodes to, or as a source that `embedPng` rejects. Fetch failures fall in that second case.
- `URL.createObjectURL`, `revokeObjectURL`, `window.open`, `console.log`, the file inputs, JSX styling and the async/await sequencing are not modelled. The catch around rendering only logs.
- `Viewer.constructor` models the viewer's first mount only. The viewer reads its file only when it mounts, and the code does not re-create it when another file is picked. A later `HandlePdfUpload` therefore leaves the viewer, its click and the reported scale as they were. Generate then flips the old click, at the old scale, against the new page's height. The model has no operation that re-renders the viewer for a new file.
- `StampPreviewMatchesPlacement`, `SignaturePreviewMatchesPlacement` and `BoxInPdf` assume that the canvas shows page 1's user space unrotated, with the same height `H` that the engine reads. The viewer fits the page size that pdfjs reports at scale 1. The engine flips against the height that pdf-lib reports. Nothing in the code makes the two agree, and `Viewer.RenderPdf` takes its page size as parameters that are not tied to `session.pdfFile`.
- IEEE floating point is not modelled. Exact reals stand in for JavaScript numbers, so rounding in divisions and products is not captured.
- A zero or negative render scale is not modelled. Every member that divides by the scale requires it to be positive; the code would produce `Infinity` or `NaN` for a zero scale.
