# scribe-me-back extraction core, modelled in Dafny

This project models the extraction logic behind the PDF and presentation
endpoints of `api/views.py`. Both endpoints open a document, walk its pages
or slides and optionally run OCR on each embedded image. They also send a
bounded number of images to a vision service for a description. One shared
counter (`ThreadSafeCounter`, a count of remaining image descriptions) limits
how many descriptions one request may make. The multi-image description view
is modelled too.

Modules, one per component:

- `Budget` (budget.dfy): the shared counter as a class `Counter` with one
  `int` field. `Decrement` and `GetValue` are atomic, so they are methods
  that run one at a time. `Spent(b, n)` = min(max(b, 0), n) is the number of
  successes among n decrements.
- `Languages` (languages.dfy): the Tesseract-code and prompt dictionaries,
  each with its default.
- `Documents` (documents.dfy): pages, slides, shapes and raw image bytes.
  `Services` holds the OCR engine and the description call as uninterpreted
  function values.
- `Strings` (strings.dfy): Python's `str.strip()`, the decimal rendering of
  a page number, `str.join`, and in-order concatenation (`Flatten`).
- `PdfExtraction` (pdf.dfy): `process_page`, the batched submission loop,
  and the ordered aggregation of `ExtractTextFromPDFView.post`.
- `PptxExtraction` (pptx.dfy): `extract_content_from_slide`, `process_slide`,
  the aggregation of `PptxProcessorAPIView.post`, and `extract_content_from_pptx`.
- `ImageDescription` (describe.dfy): the per-image loop of `DescribeImageView.post`.
- `Wrappers` (wrappers.dfy): `Option` and `Result`.

The thread pool is modelled as a sequential loop. Units run in submission
order against one shared counter. Every method that runs a unit is proved
against a closed-form specification function. For example, image k of a page
gets a description exactly when k is below the counter's value at the start
of the page. The aggregation methods create their own counter, as the views
do, and their results are tied to these functions. Lemmas then state the
budget bound, the exact counting identities, the ordering and the prefix shape.

Two behaviours of the code shape the model:

- A failing OCR or description call raises through `future.result()`, and
  the view's catch-all handler turns it into a 500 response
  (api/views.py:380-391). There is no per-image error marker. The model has
  no failing call; see the exceptions line under "## Left out".
- The PDF view submits pages in batches of five and reads results in
  submission order. It does not key results by index.

## Model

| member | source | states |
|---|---|---|
| `Budget.Counter.constructor` | api/views.py:295-297 | the counter starts at the requested value, unclamped |
| `Budget.Counter.Decrement` | api/views.py:299-304 | returns true and lowers the value by exactly 1 iff the value was positive; otherwise it returns false and changes nothing; a non-negative counter stays non-negative |
| `Budget.Counter.GetValue` | api/views.py:306-308 | returns the current value and changes nothing |
| `Budget.SpentBounds` | api/views.py:299-304 | the successes of n decrements are at most n and at most a positive budget, are 0 on a non-positive budget, and otherwise equal one of the two bounds |
| `Budget.SpentStep` | api/views.py:299-304 | the next decrement succeeds exactly when fewer than `budget` earlier ones did, and then adds one success |
| `Budget.SpentAdditive` | api/views.py:299-304 | spending over two consecutive runs of attempts equals spending over their total, so one shared counter across pages or slides behaves like one long run |
| `Budget.SequentialDecrements` | api/views.py:299-304 | the step-by-step model `Decrements` of n successive decrements from b counts exactly min(max(b,0), n) successes and lowers the value by that much (exclusivity: 10000 attempts on 100 give 100 successes) |
| `Budget.DecrementRepeatedly` | api/views.py:299-304 | calling `Counter.Decrement` n times on one counter follows `Decrements` call by call: exactly Spent(start, n) calls return true and the value drops by that count |
| `Languages.OcrCode` | api/views.py:324-325 | English/Spanish/Arabic map to eng/spa/ara; any other language maps to "eng" |
| `Languages.Prompt` | api/views.py:329-334 | English/Spanish/Arabic map to their own prompts; any other language maps to the English prompt |
| `Languages.LookupsAgree` | api/views.py:324-334 | the OCR code is "eng" exactly when the prompt is the English one; both lookups always land in their three values |
| `Strings.StripSpec` | api/views.py:524-525 | the result is the part of the input between leading and trailing whitespace (Python's isspace set); it has no whitespace at either end; it is empty iff the input is all whitespace |
| `Strings.StripIdempotent` | api/views.py:525 | stripping twice equals stripping once |
| `Strings.NatToStringDigits` | api/views.py:311 | a page number renders as a non-empty run of decimal digits without a leading zero |
| `Strings.NatToStringRoundTrip` | api/views.py:311 | the decimal rendering of a page number parses back to that number |
| `Strings.NatToStringInjective` | api/views.py:311 | distinct page numbers give distinct renderings |
| `PdfExtraction.ProcessImage` | api/views.py:315-340 | one image: the OCR line when OCR is on, then one decrement when descriptions are on and the description line iff it succeeded; it succeeds iff fewer than `budget` earlier images of the page were described; the counter loses exactly one per description |
| `PdfExtraction.ProcessPage` | api/views.py:310-344 | the page text is the header followed by each image's block in image order; a block is the OCR line when OCR is on plus the description line when the decrement succeeds; the count is the number of successful decrements; the counter loses exactly the count |
| `PdfExtraction.PageTextStartsWithHeader` | api/views.py:311 | every page text starts with "Page n:\n" + page text + "\n" |
| `PdfExtraction.PlainPage` | api/views.py:311-314 | with neither option set, the header is the whole output and the count is 0 |
| `PdfExtraction.OcrLineForEveryImage` | api/views.py:323-326 | with OCR on, every image's block starts with its own OCR line, whatever the budget |
| `PdfExtraction.TextIndependentOfBudget` | api/views.py:323-340 | without descriptions the page text does not depend on the counter |
| `PdfExtraction.PageCountBounds` | api/views.py:328-340 | the page count is at most the number of images and at most a non-negative budget; with descriptions on it is exactly the smaller of the two |
| `PdfExtraction.SubmitBatches` | api/views.py:370-378 | the batched loop submits every page index 0..n-1 exactly once, in ascending order, with page number index+1 |
| `PdfExtraction.ExtractTextFromPdf` | api/views.py:362-386 | with a fresh counter at `remaining`, the response text is the page texts concatenated in page order, each computed from what the earlier pages left; the count is the shared-budget total |
| `PdfExtraction.PdfBudgetRespected` | api/views.py:367-384 | the total count is at most the number of images and at most a non-negative starting budget; it is 0 on a non-positive budget; with descriptions on it equals min(budget, images) |
| `PdfExtraction.PdfCountIsSumOfPages` | api/views.py:380-383 | the response count is the sum of the per-page counts taken in submission order |
| `PdfExtraction.PdfTextIsPagesInOrder` | api/views.py:380-382 | the text built by the consuming loop is the page texts concatenated in page order |
| `PdfExtraction.PdfTextInPageOrder` | api/views.py:380-382 | the response has one segment per page in page order; segment k starts with page k+1's header |
| `PdfExtraction.EmptyPdf` | api/views.py:363-386 | a document without pages gives an empty text and count 0 |
| `PptxExtraction.ExtractContentFromSlide` | api/views.py:519-534 | the slide text is, in shape order, strip(text)+"\n" for each shape whose stripped text is non-empty; the image list is every picture shape's bytes in shape order |
| `PptxExtraction.BlankShapeAddsNothing` | api/views.py:524 | a shape with no text, or only whitespace, adds nothing to the slide text |
| `PptxExtraction.TextShapeAddsLine` | api/views.py:524-525 | a shape with non-blank text adds its stripped text and one line feed, and stripping that line gives back the stripped text |
| `PptxExtraction.SlideSplit` | api/views.py:523-532 | slide text and image list distribute over any split of the shape sequence, so they keep shape order |
| `PptxExtraction.SlideImagesAreThePictures` | api/views.py:528-532 | an image is in the slide's list iff some shape holds it as its picture |
| `PptxExtraction.ProcessSlide` | api/views.py:536-556 | with descriptions on and a positive counter, the result holds the descriptions of the longest image prefix the decrements allow; it stops at the first failed decrement; otherwise the images key is removed; the counter loses exactly the number of descriptions |
| `PptxExtraction.StopIsSpent` | api/views.py:543-552 | the exit condition of ProcessSlide's loop (the last picture reached, or the budget used up at the first refused decrement) pins the loop index to Spent(budget, pictures), the number of descriptions made |
| `PptxExtraction.SlideOutcomeFacts` | api/views.py:539-554 | a slide counts min(max(budget,0), images) with descriptions on and 0 otherwise; the key is dropped iff descriptions are off or the counter is not positive; description k is of image k |
| `PptxExtraction.ProcessPresentation` | api/views.py:558-566 | with a fresh counter at `remaining`, there is one result per slide in slide order, each computed from what the earlier slides left; the count is the shared-budget total |
| `PptxExtraction.PresentationBudgetRespected` | api/views.py:558-564 | the total count is at most the number of pictures and at most a non-negative budget; it takes every picture when the budget suffices |
| `PptxExtraction.NoDescriptionsDropImages` | api/views.py:553-554 | with descriptions off every slide result lacks its images key |
| `PptxExtraction.PresentationCountIsSum` | api/views.py:561-564 | the count is the sum of len(images) over the slide results in order |
| `PptxExtraction.ExtractContentFromPptx` | api/views.py:427-446 | one entry per slide, numbered from 1; an entry's texts are the stripped paragraphs of every text frame in shape order, blank ones included; its images are the picture bytes in shape order |
| `PptxExtraction.SlideParagraphsStripped` | api/views.py:435 | every entry of a slide's texts list is already stripped |
| `ImageDescription.DescribeImages` | api/views.py:99-132 | an empty upload is refused with the 400 message; otherwise each file gets exactly one description, in upload order; each is made from the file's JPEG re-encoding with the language's prompt |

## Left out

- Concurrency: `ThreadPoolExecutor`, `threading.Lock` and completion order. Units run sequentially in submission order. Each counter call is atomic in the source, so this order is one of the interleavings the source allows.
- The OCR engine and the OpenAI description call. They are uninterpreted function parameters (`Documents.Services`).
- The Azure Arabic OCR client (`analyze_image_with_ocr_with_arabic`, api/views.py:139-145). Nothing in the modelled core calls it: Arabic OCR goes through `perform_ocr` with the language code "ara".
- PIL's JPEG re-encoding in `DescribeImageView` is an uninterpreted parameter, `toJpeg`.
- PyMuPDF and python-pptx parsing. Pages and slides arrive already opened.
- A shape's `text` is modelled as its paragraphs joined by line feeds. A shape has a `text` attribute exactly when it has a text frame.
- Base64 encoding of image bytes. It is injective and only transports the bytes, so no contract sees it.
- Temporary files and `os.remove`. `save_temporary_ppt` and `convert_ppt_to_pptx` are not part of this model: they are file and subprocess plumbing.
- Request parsing: the "true" string flags, `int(rImages)` with default 25, and the default language. The model takes these as already-parsed values. The counter may start at any integer.
- Response construction and HTTP status codes, except the 400 message of the multi-image view.
- Exceptions raised by the external calls, and the catch-all handlers that turn them into 500 responses. The model has no failing call.
- `PdfExtraction.ProcessPage`: appends one image's OCR line and description line as one piece. The source appends them one after the other, which gives the same string.
- The History views (`create_history`, `get_history`, `get_history_by_id`), the URL table, and the wxPython desktop script ScribeMe7.py.
- The commented-out views and the unused module globals.
