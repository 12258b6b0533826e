/**
 * The PDF endpoint: process_page builds one page's text and spends the
 * shared budget on image descriptions; ExtractTextFromPDFView.post submits
 * every page in batches and joins the page texts in submission order.
 */
module PdfExtraction {
  import opened Strings
  import opened Budget
  import opened Languages
  import opened Documents

  /** The request flags that reach process_page. */
  datatype PdfOptions = PdfOptions(ocr: bool, describe: bool, language: string)

  function Header(n: nat, pageText: string): string {
    "Page " + NatToString(n) + ":\n" + pageText + "\n"
  }

  function OcrLine(n: nat, recognized: string): string {
    "\n OCR Text from image on page " + NatToString(n) + ": " + recognized + "\n"
  }

  function DescriptionLine(n: nat, description: string): string {
    "\n Image description on page " + NatToString(n) + ": " + description + "\n"
  }

  /**
   * What the k-th image (from 0) of page n adds to the page text when the
   * counter held `budget` as the page started: its OCR line when OCR is on,
   * then its description line when descriptions are on and budget is left
   * for it (the earlier images of the page took k units).
   */
  function ImageBlock(img: Image, n: nat, k: nat, opts: PdfOptions, svc: Services, budget: int): string {
    (if opts.ocr then OcrLine(n, svc.recognize(img, OcrCode(opts.language))) else "")
    + (if opts.describe && k < budget then DescriptionLine(n, svc.describe(img, Prompt(opts.language))) else "")
  }

  function ImageBlocks(page: Page, n: nat, opts: PdfOptions, svc: Services, budget: int): seq<string> {
    seq(|page.images|, k requires 0 <= k < |page.images| => ImageBlock(page.images[k], n, k, opts, svc, budget))
  }

  /** The header followed by the blocks of the first i images, built up as process_page does. */
  function PageTextUpTo(page: Page, n: nat, opts: PdfOptions, svc: Services, budget: int, i: nat): string
    requires i <= |page.images|
  {
    if i == 0 then Header(n, page.text)
    else PageTextUpTo(page, n, opts, svc, budget, i - 1) + ImageBlock(page.images[i - 1], n, i - 1, opts, svc, budget)
  }

  /** The text process_page returns for `page` numbered n, when the counter held `budget`. */
  function PageText(page: Page, n: nat, opts: PdfOptions, svc: Services, budget: int): string {
    PageTextUpTo(page, n, opts, svc, budget, |page.images|)
  }

  /** The description count process_page returns. */
  function PageCount(page: Page, opts: PdfOptions, budget: int): nat {
    if opts.describe then Spent(budget, |page.images|) else 0
  }

  /**
   * One turn of process_page's loop over the images: the OCR line when OCR
   * is on, then, when descriptions are on, one decrement and the
   * description line if it succeeded. Before the k-th image (from 0) the
   * counter has lost Spent(budget, k) to the earlier images of the page.
   */
  method ProcessImage(img: Image, n: nat, k: nat, opts: PdfOptions, svc: Services, counter: Counter, ghost budget: int)
    returns (block: string, described: bool)
    requires counter.value == budget - (if opts.describe then Spent(budget, k) else 0)
    modifies counter
    ensures block == ImageBlock(img, n, k, opts, svc, budget)
    ensures described <==> opts.describe && k < budget
    ensures counter.value == old(counter.value) - (if described then 1 else 0)
  {
    var ocrPart := "";
    if opts.ocr {
      var langCode := OcrCode(opts.language);
      ocrPart := OcrLine(n, svc.recognize(img, langCode));
    }
    var descriptionPart := "";
    described := false;
    if opts.describe {
      SpentStep(budget, k);
      described := counter.Decrement();
      if described {
        var prompt := Prompt(opts.language);
        descriptionPart := DescriptionLine(n, svc.describe(img, prompt));
      }
    }
    block := ocrPart + descriptionPart;
  }

  /**
   * process_page, one image at a time. The page text and count are the
   * specification functions above, and the counter loses exactly the count.
   */
  method ProcessPage(page: Page, n: nat, opts: PdfOptions, svc: Services, counter: Counter)
    returns (text: string, count: nat)
    modifies counter
    ensures text == PageText(page, n, opts, svc, old(counter.value))
    ensures count == PageCount(page, opts, old(counter.value))
    ensures counter.value == old(counter.value) - count
  {
    ghost var budget := counter.value;
    text := Header(n, page.text);
    count := 0;
    ghost var header := text;
    ghost var blocks := ImageBlocks(page, n, opts, svc, budget);
    if opts.ocr || opts.describe {
      var i := 0;
      while i < |page.images|
        invariant 0 <= i <= |page.images|
        invariant text == header + Flatten(blocks[..i])
        invariant count == if opts.describe then Spent(budget, i) else 0
        invariant counter.value == budget - count
      {
        var block, described := ProcessImage(page.images[i], n, i, opts, svc, counter, budget);
        if described {
          count := count + 1;
        }
        SpentStep(budget, i);
        assert block == blocks[i];
        ghost var previous := text;
        text := text + block;
        i := i + 1;
        FlattenStep(header, blocks, i, previous, text);
      }
      assert blocks[..|page.images|] == blocks;
    } else {
      assert blocks[..|page.images|] == blocks;
      FlattenAllEmpty(blocks);
    }
    PageTextIsHeaderAndBlocks(page, n, opts, svc, budget, |page.images|);
  }

  /** The page text is the header followed by every image's block, in image order. */
  lemma {:induction false} PageTextIsHeaderAndBlocks(page: Page, n: nat, opts: PdfOptions, svc: Services, budget: int, i: nat)
    requires i <= |page.images|
    ensures PageTextUpTo(page, n, opts, svc, budget, i) == Header(n, page.text) + Flatten(ImageBlocks(page, n, opts, svc, budget)[..i])
  {
    var blocks := ImageBlocks(page, n, opts, svc, budget);
    if i == 0 {
      assert blocks[..0] == [];
    } else {
      PageTextIsHeaderAndBlocks(page, n, opts, svc, budget, i - 1);
      FlattenStep(Header(n, page.text), blocks, i, PageTextUpTo(page, n, opts, svc, budget, i - 1), PageTextUpTo(page, n, opts, svc, budget, i));
    }
  }

  /** Every page's text begins with its header: label, page text, line feed. */
  lemma PageTextStartsWithHeader(page: Page, n: nat, opts: PdfOptions, svc: Services, budget: int)
    ensures var h := Header(n, page.text); var t := PageText(page, n, opts, svc, budget);
      |h| <= |t| && t[..|h|] == h
  {
    PageTextIsHeaderAndBlocks(page, n, opts, svc, budget, |page.images|);
  }

  /** With neither option set the header is the whole page and nothing is counted. */
  lemma PlainPage(page: Page, n: nat, opts: PdfOptions, svc: Services, budget: int)
    requires !opts.ocr && !opts.describe
    ensures PageText(page, n, opts, svc, budget) == Header(n, page.text)
    ensures PageCount(page, opts, budget) == 0
  {
    PageTextIsHeaderAndBlocks(page, n, opts, svc, budget, |page.images|);
    var blocks := ImageBlocks(page, n, opts, svc, budget);
    assert blocks[..|blocks|] == blocks;
    FlattenAllEmpty(blocks);
  }

  /**
   * With OCR on, every image's block, in image order, starts with that
   * image's OCR line; the line does not depend on the budget.
   */
  lemma OcrLineForEveryImage(page: Page, n: nat, opts: PdfOptions, svc: Services, budget: int, k: nat)
    requires opts.ocr && k < |page.images|
    ensures var blocks := ImageBlocks(page, n, opts, svc, budget);
      var line := OcrLine(n, svc.recognize(page.images[k], OcrCode(opts.language)));
      |blocks| == |page.images| && |line| <= |blocks[k]| && blocks[k][..|line|] == line
  {
  }

  /** Without descriptions the budget has no influence on the page text. */
  lemma TextIndependentOfBudget(page: Page, n: nat, opts: PdfOptions, svc: Services, b1: int, b2: int)
    requires !opts.describe
    ensures PageText(page, n, opts, svc, b1) == PageText(page, n, opts, svc, b2)
  {
    PageTextIsHeaderAndBlocks(page, n, opts, svc, b1, |page.images|);
    PageTextIsHeaderAndBlocks(page, n, opts, svc, b2, |page.images|);
    assert ImageBlocks(page, n, opts, svc, b1) == ImageBlocks(page, n, opts, svc, b2);
  }

  /**
   * The count is at most the number of images and at most the budget;
   * with descriptions on it is exactly the smaller of the two.
   */
  lemma PageCountBounds(page: Page, opts: PdfOptions, budget: int)
    ensures PageCount(page, opts, budget) <= |page.images|
    ensures budget >= 0 ==> PageCount(page, opts, budget) <= budget
    ensures opts.describe && budget >= 0 ==> PageCount(page, opts, budget) == MinNat(budget, |page.images|)
  {
  }

  const BatchSize: nat := 5

  /** One submitted process_page call: the page's index and the number it is given. */
  datatype Job = Job(index: nat, number: nat)

  function MinNat(a: nat, b: nat): nat {
    if a < b then a else b
  }

  /**
   * The submission loop: range(0, numPages, 5) in batches, each batch
   * enumerated from i + 1. Every page index is submitted exactly once, in
   * ascending order, numbered index + 1.
   */
  method SubmitBatches(numPages: nat) returns (jobs: seq<Job>)
    ensures |jobs| == numPages
    ensures forall k :: 0 <= k < numPages ==> jobs[k] == Job(k, k + 1)
  {
    jobs := [];
    var i := 0;
    while i < numPages
      invariant |jobs| == MinNat(i, numPages)
      invariant forall k :: 0 <= k < |jobs| ==> jobs[k] == Job(k, k + 1)
    {
      var stop := MinNat(i + BatchSize, numPages);
      var offset := 0;
      while offset < stop - i
        invariant 0 <= offset <= stop - i
        invariant |jobs| == i + offset
        invariant forall k :: 0 <= k < |jobs| ==> jobs[k] == Job(k, k + 1)
      {
        jobs := jobs + [Job(i + offset, i + 1 + offset)];
        offset := offset + 1;
      }
      i := i + BatchSize;
    }
  }

  /** The number of images across `pages`. */
  function TotalImages(pages: seq<Page>): nat {
    if pages == [] then 0 else TotalImages(pages[..|pages| - 1]) + |pages[|pages| - 1].images|
  }

  /** The total count for `pages` run one after another from `budget`. */
  function PdfCount(pages: seq<Page>, opts: PdfOptions, budget: int): nat {
    if opts.describe then Spent(budget, TotalImages(pages)) else 0
  }

  /** What the pages before page k (from 0) leave of the budget. */
  function BudgetBefore(pages: seq<Page>, k: nat, opts: PdfOptions, budget: int): int
    requires k <= |pages|
  {
    budget - PdfCount(pages[..k], opts, budget)
  }

  /** The texts of the first i pages, concatenated in submission order. */
  function PdfTextUpTo(pages: seq<Page>, opts: PdfOptions, svc: Services, budget: int, i: nat): string
    requires i <= |pages|
  {
    if i == 0 then ""
    else
      PdfTextUpTo(pages, opts, svc, budget, i - 1)
      + PageText(pages[i - 1], i, opts, svc, BudgetBefore(pages, i - 1, opts, budget))
  }

  /** The response text. */
  function PdfText(pages: seq<Page>, opts: PdfOptions, svc: Services, budget: int): string {
    PdfTextUpTo(pages, opts, svc, budget, |pages|)
  }

  lemma PdfCountSnoc(pages: seq<Page>, opts: PdfOptions, budget: int, i: nat)
    requires i < |pages|
    ensures PdfCount(pages[..i + 1], opts, budget)
      == PdfCount(pages[..i], opts, budget) + PageCount(pages[i], opts, BudgetBefore(pages, i, opts, budget))
  {
    assert pages[..i + 1][..i] == pages[..i];
    SpentAdditive(budget, TotalImages(pages[..i]), |pages[i].images|);
  }

  lemma PdfTextStep(pages: seq<Page>, opts: PdfOptions, svc: Services, budget: int, i: nat, text: string, pageText: string)
    requires i < |pages|
    requires text == PdfTextUpTo(pages, opts, svc, budget, i)
    requires pageText == PageText(pages[i], i + 1, opts, svc, BudgetBefore(pages, i, opts, budget))
    ensures text + pageText == PdfTextUpTo(pages, opts, svc, budget, i + 1)
  {
  }

  /**
   * ExtractTextFromPDFView.post after the upload is opened: one shared
   * counter starting at `remaining`, every page submitted once, results
   * taken in submission order, texts concatenated and counts summed.
   */
  method ExtractTextFromPdf(pages: seq<Page>, opts: PdfOptions, remaining: int, svc: Services)
    returns (text: string, count: nat)
    ensures text == PdfText(pages, opts, svc, remaining)
    ensures count == PdfCount(pages, opts, remaining)
  {
    var counter := new Counter(remaining);
    var jobs := SubmitBatches(|pages|);
    text := "";
    count := 0;
    var i := 0;
    while i < |jobs|
      invariant 0 <= i <= |jobs|
      invariant text == PdfTextUpTo(pages, opts, svc, remaining, i)
      invariant count == PdfCount(pages[..i], opts, remaining)
      invariant counter.value == remaining - count
    {
      var job := jobs[i];
      assert job == Job(i, i + 1);
      var pageText, imgCount := ProcessPage(pages[job.index], job.number, opts, svc, counter);
      PdfTextStep(pages, opts, svc, remaining, i, text, pageText);
      PdfCountSnoc(pages, opts, remaining, i);
      text := text + pageText;
      count := count + imgCount;
      i := i + 1;
    }
    assert pages[..|pages|] == pages;
  }

  /**
   * The budget is never over-spent: the total is at most the starting
   * budget and at most the number of images, and with descriptions on it
   * is exactly the smaller of the two.
   */
  lemma PdfBudgetRespected(pages: seq<Page>, opts: PdfOptions, budget: int)
    ensures PdfCount(pages, opts, budget) <= TotalImages(pages)
    ensures budget >= 0 ==> PdfCount(pages, opts, budget) <= budget
    ensures budget <= 0 ==> PdfCount(pages, opts, budget) == 0
    ensures opts.describe && budget >= 0 ==>
      PdfCount(pages, opts, budget) == MinNat(budget, TotalImages(pages))
  {
  }

  /** count += img_count over the pages in order, each page starting from what the earlier ones left. */
  function SumPageCounts(pages: seq<Page>, opts: PdfOptions, budget: int, i: nat): nat
    requires i <= |pages|
  {
    if i == 0 then 0
    else SumPageCounts(pages, opts, budget, i - 1) + PageCount(pages[i - 1], opts, BudgetBefore(pages, i - 1, opts, budget))
  }

  /** The total count is the sum of the per-page counts. */
  lemma {:induction false} PdfCountIsSumOfPages(pages: seq<Page>, opts: PdfOptions, budget: int, i: nat)
    requires i <= |pages|
    ensures PdfCount(pages[..i], opts, budget) == SumPageCounts(pages, opts, budget, i)
  {
    if i > 0 {
      PdfCountIsSumOfPages(pages, opts, budget, i - 1);
      PdfCountSnoc(pages, opts, budget, i - 1);
    }
  }

  /** The text of every page, in page order, each computed from what the earlier pages left. */
  function PageTexts(pages: seq<Page>, opts: PdfOptions, svc: Services, budget: int): seq<string> {
    seq(|pages|, k requires 0 <= k < |pages| =>
      PageText(pages[k], k + 1, opts, svc, BudgetBefore(pages, k, opts, budget)))
  }

  /** The response is the page texts concatenated in page order. */
  lemma {:induction false} PdfTextIsPagesInOrder(pages: seq<Page>, opts: PdfOptions, svc: Services, budget: int, i: nat)
    requires i <= |pages|
    ensures PdfTextUpTo(pages, opts, svc, budget, i) == Flatten(PageTexts(pages, opts, svc, budget)[..i])
  {
    var texts := PageTexts(pages, opts, svc, budget);
    if i == 0 {
      assert texts[..0] == [];
    } else {
      PdfTextIsPagesInOrder(pages, opts, svc, budget, i - 1);
      FlattenSnoc(texts, i - 1);
    }
  }

  /**
   * Output order equals page order: the response is one segment per page,
   * the k-th beginning with the header of page k + 1.
   */
  lemma PdfTextInPageOrder(pages: seq<Page>, opts: PdfOptions, svc: Services, budget: int, k: nat)
    requires k < |pages|
    ensures var texts := PageTexts(pages, opts, svc, budget);
      var h := Header(k + 1, pages[k].text);
      && |texts| == |pages|
      && PdfText(pages, opts, svc, budget) == Flatten(texts[..k]) + texts[k] + Flatten(texts[k + 1..])
      && |h| <= |texts[k]| && texts[k][..|h|] == h
  {
    var texts := PageTexts(pages, opts, svc, budget);
    PdfTextIsPagesInOrder(pages, opts, svc, budget, |pages|);
    assert texts[..|pages|] == texts;
    FlattenSplit(texts, k);
    PageTextStartsWithHeader(pages[k], k + 1, opts, svc, BudgetBefore(pages, k, opts, budget));
  }

  /** An empty document yields an empty response with count 0. */
  lemma EmptyPdf(opts: PdfOptions, svc: Services, budget: int)
    ensures PdfText([], opts, svc, budget) == ""
    ensures PdfCount([], opts, budget) == 0
  {
  }
}
