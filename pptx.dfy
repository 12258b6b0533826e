/**
 * The presentation endpoint: extract_content_from_slide gathers a slide's
 * text and pictures, process_slide describes pictures while the shared
 * budget lasts, and PptxProcessorAPIView.post runs every slide and sums
 * the descriptions. extract_content_from_pptx is the older per-slide
 * extraction with numbered slides and per-paragraph texts.
 */
module PptxExtraction {
  import opened Wrappers
  import opened Strings
  import opened Budget
  import opened Languages
  import opened Documents

  /** The `text` attribute of a shape: its paragraphs joined by line feeds, when it has a text frame. */
  function ShapeText(shape: Shape): Option<string> {
    match shape.textFrame
    case Some(paragraphs) => Some(Join(paragraphs, "\n"))
    case None => None
  }

  /** What one shape adds to the slide text: its stripped text and a line feed, unless that is empty. */
  function TextPiece(shape: Shape): string {
    match ShapeText(shape)
    case Some(t) => if Strip(t) != "" then Strip(t) + "\n" else ""
    case None => ""
  }

  /** What one shape adds to the slide's image list. */
  function ImagePiece(shape: Shape): seq<Image> {
    match shape.image
    case Some(img) => [img]
    case None => []
  }

  function TextPieces(shapes: seq<Shape>): seq<string> {
    seq(|shapes|, k requires 0 <= k < |shapes| => TextPiece(shapes[k]))
  }

  function ImagePieces(shapes: seq<Shape>): seq<seq<Image>> {
    seq(|shapes|, k requires 0 <= k < |shapes| => ImagePiece(shapes[k]))
  }

  /** The slide text: every shape's piece, in shape order. */
  function SlideText(shapes: seq<Shape>): string {
    Flatten(TextPieces(shapes))
  }

  /** The slide's pictures, in shape order. */
  function SlideImages(shapes: seq<Shape>): seq<Image> {
    Flatten(ImagePieces(shapes))
  }

  /** The dictionary extract_content_from_slide returns. */
  datatype SlideContent = SlideContent(text: string, images: seq<Image>)

  /**
   * extract_content_from_slide: one pass over the shapes for the text, a
   * second one for the pictures.
   */
  method ExtractContentFromSlide(slide: Slide) returns (content: SlideContent)
    ensures content == SlideContent(SlideText(slide.shapes), SlideImages(slide.shapes))
  {
    var shapes := slide.shapes;
    ghost var textPieces := TextPieces(shapes);
    ghost var imagePieces := ImagePieces(shapes);
    var text := "";
    var i := 0;
    while i < |shapes|
      invariant 0 <= i <= |shapes|
      invariant text == Flatten(textPieces[..i])
    {
      var piece := "";
      match ShapeText(shapes[i]) {
        case Some(t) =>
          var stripped := Strip(t);
          if stripped != "" {
            piece := stripped + "\n";
          }
        case None =>
      }
      assert piece == textPieces[i];
      FlattenSnoc(textPieces, i);
      text := text + piece;
      i := i + 1;
    }
    var images: seq<Image> := [];
    i := 0;
    while i < |shapes|
      invariant 0 <= i <= |shapes|
      invariant images == Flatten(imagePieces[..i])
    {
      FlattenSnoc(imagePieces, i);
      match shapes[i].image {
        case Some(img) => images := images + [img];
        case None =>
      }
      i := i + 1;
    }
    assert textPieces[..|shapes|] == textPieces;
    assert imagePieces[..|shapes|] == imagePieces;
    content := SlideContent(text, images);
  }

  /** A shape with no text frame, or only whitespace in it, adds no text. */
  lemma BlankShapeAddsNothing(shape: Shape)
    requires shape.textFrame.Some? ==> forall k :: 0 <= k < |ShapeText(shape).value| ==> IsSpace(ShapeText(shape).value[k])
    ensures TextPiece(shape) == ""
  {
    if shape.textFrame.Some? {
      StripSpec(ShapeText(shape).value);
    }
  }

  /** A shape whose text is not blank adds exactly its stripped text and one line feed. */
  lemma TextShapeAddsLine(shape: Shape, k: nat)
    requires shape.textFrame.Some? && k < |ShapeText(shape).value| && !IsSpace(ShapeText(shape).value[k])
    ensures TextPiece(shape) == Strip(ShapeText(shape).value) + "\n"
    ensures Strip(TextPiece(shape)) == Strip(ShapeText(shape).value)
  {
    StripSpec(ShapeText(shape).value);
    var s := Strip(ShapeText(shape).value);
    assert s != "";
    var p := s + "\n";
    assert IsSpace(p[|p| - 1]);
    StripIdempotent(ShapeText(shape).value);
    assert TrimEnd(p) == TrimEnd(s) by {
      assert p[..|p| - 1] == s;
    }
    StripUnchanged(s);
  }

  /** Slide text and slide images split along any split of the shapes. */
  lemma SlideSplit(a: seq<Shape>, b: seq<Shape>)
    ensures SlideText(a + b) == SlideText(a) + SlideText(b)
    ensures SlideImages(a + b) == SlideImages(a) + SlideImages(b)
  {
    assert TextPieces(a + b) == TextPieces(a) + TextPieces(b);
    assert ImagePieces(a + b) == ImagePieces(a) + ImagePieces(b);
    FlattenAppend(TextPieces(a), TextPieces(b));
    FlattenAppend(ImagePieces(a), ImagePieces(b));
  }

  /** Every picture shape's image is in the slide's list, and nothing else is. */
  lemma SlideImagesAreThePictures(shapes: seq<Shape>, img: Image)
    ensures img in SlideImages(shapes) <==> exists k :: 0 <= k < |shapes| && shapes[k].image == Some(img)
  {
    var pieces := ImagePieces(shapes);
    FlattenMembership(pieces, img);
    if img in SlideImages(shapes) {
      var k :| 0 <= k < |pieces| && img in pieces[k];
      assert shapes[k].image == Some(img);
    }
    if exists k :: 0 <= k < |shapes| && shapes[k].image == Some(img) {
      var k :| 0 <= k < |shapes| && shapes[k].image == Some(img);
      assert img in pieces[k];
    }
  }

  /**
   * What process_slide returns: the text, and under `images` either the
   * descriptions made or nothing when the key was popped.
   */
  datatype SlideResult = SlideResult(text: string, images: Option<seq<string>>)

  /** The description of every picture, in order, with the given prompt. */
  function Descriptions(images: seq<Image>, prompt: string, svc: Services): seq<string> {
    seq(|images|, k requires 0 <= k < |images| => svc.describe(images[k], prompt))
  }

  /**
   * The result of process_slide when the counter held `budget`: with
   * descriptions on and budget left, the descriptions of the longest prefix
   * of the pictures the budget covers; otherwise the images key is removed.
   */
  function SlideOutcome(slide: Slide, describe: bool, language: string, svc: Services, budget: int): SlideResult {
    var images := SlideImages(slide.shapes);
    SlideResult(
      SlideText(slide.shapes),
      if describe && budget > 0
      then Some(Descriptions(images, Prompt(language), svc)[..Spent(budget, |images|)])
      else None)
  }

  /** len(slide_content.get("images", [])) */
  function DescribedCount(r: SlideResult): nat {
    match r.images
    case Some(ds) => |ds|
    case None => 0
  }

  /** The loop stops after every picture or when the budget is gone, so it made Spent descriptions. */
  lemma StopIsSpent(budget: int, n: nat, i: nat)
    requires i <= n && i <= budget
    requires i == n || i == budget
    ensures i == Spent(budget, n)
  {
  }

  /**
   * process_slide: reads the counter, then describes pictures in order and
   * stops at the first refused decrement.
   */
  method ProcessSlide(slide: Slide, describe: bool, language: string, svc: Services, counter: Counter)
    returns (r: SlideResult)
    modifies counter
    ensures r == SlideOutcome(slide, describe, language, svc, old(counter.value))
    ensures counter.value == old(counter.value) - DescribedCount(r)
  {
    ghost var budget := counter.value;
    var content := ExtractContentFromSlide(slide);
    var images := content.images;
    var current := counter.GetValue();
    if describe && current > 0 {
      var described: seq<string> := [];
      ghost var all := Descriptions(images, Prompt(language), svc);
      var i := 0;
      while i < |images|
        invariant 0 <= i <= |images| && i <= budget
        invariant described == all[..i]
        invariant counter.value == budget - i
      {
        var ok := counter.Decrement();
        if !ok {
          break;
        }
        var prompt := Prompt(language);
        described := described + [svc.describe(images[i], prompt)];
        i := i + 1;
        assert described == all[..i];
      }
      StopIsSpent(budget, |images|, i);
      r := SlideResult(content.text, Some(described));
    } else {
      r := SlideResult(content.text, None);
    }
  }

  /** A slide's count is what it took of the budget. */
  lemma SlideOutcomeCount(slide: Slide, describe: bool, language: string, svc: Services, budget: int)
    ensures DescribedCount(SlideOutcome(slide, describe, language, svc, budget))
      == if describe then Spent(budget, |SlideImages(slide.shapes)|) else 0
  {
  }

  /**
   * A slide's count is the budget it took: min(counter, pictures) with
   * descriptions on, 0 otherwise; each description belongs to the picture
   * at the same position.
   */
  lemma SlideOutcomeFacts(slide: Slide, describe: bool, language: string, svc: Services, budget: int)
    ensures var r := SlideOutcome(slide, describe, language, svc, budget);
      var images := SlideImages(slide.shapes);
      && DescribedCount(r) == (if describe then Spent(budget, |images|) else 0)
      && DescribedCount(r) <= |images|
      && (r.images.None? <==> !describe || budget <= 0)
      && (r.images.Some? ==> forall k :: 0 <= k < |r.images.value| ==>
            r.images.value[k] == svc.describe(images[k], Prompt(language)))
  {
  }

  /** The number of pictures across `slides`. */
  function TotalSlideImages(slides: seq<Slide>): nat {
    if slides == [] then 0 else TotalSlideImages(slides[..|slides| - 1]) + |SlideImages(slides[|slides| - 1].shapes)|
  }

  /** The response count for `slides` run in order from `budget`. */
  function PresentationCount(slides: seq<Slide>, describe: bool, budget: int): nat {
    if describe then Spent(budget, TotalSlideImages(slides)) else 0
  }

  /** Slide k's result, computed from what the earlier slides left of the budget. */
  function SlideOutcomes(slides: seq<Slide>, describe: bool, language: string, svc: Services, budget: int): seq<SlideResult> {
    seq(|slides|, k requires 0 <= k < |slides| =>
      SlideOutcome(slides[k], describe, language, svc, budget - PresentationCount(slides[..k], describe, budget)))
  }

  lemma PresentationCountSnoc(slides: seq<Slide>, describe: bool, budget: int, i: nat)
    requires i < |slides|
    ensures var before := PresentationCount(slides[..i], describe, budget);
      PresentationCount(slides[..i + 1], describe, budget)
        == before + (if describe then Spent(budget - before, |SlideImages(slides[i].shapes)|) else 0)
  {
    assert slides[..i + 1][..i] == slides[..i];
    SpentAdditive(budget, TotalSlideImages(slides[..i]), |SlideImages(slides[i].shapes)|);
  }

  /** One turn of the consuming loop: slide i's result is its outcome, and the count grows by its descriptions. */
  lemma PresentationStep(slides: seq<Slide>, describe: bool, language: string, svc: Services, budget: int,
                         i: nat, count: nat, r: SlideResult)
    requires i < |slides|
    requires count == PresentationCount(slides[..i], describe, budget)
    requires r == SlideOutcome(slides[i], describe, language, svc, budget - count)
    ensures r == SlideOutcomes(slides, describe, language, svc, budget)[i]
    ensures count + DescribedCount(r) == PresentationCount(slides[..i + 1], describe, budget)
  {
    PresentationCountSnoc(slides, describe, budget, i);
    SlideOutcomeCount(slides[i], describe, language, svc, budget - count);
  }

  /**
   * PptxProcessorAPIView.post after the presentation is opened: one shared
   * counter from `remaining`, every slide processed in order, the results
   * kept in slide order and their description counts summed.
   */
  method ProcessPresentation(slides: seq<Slide>, describe: bool, language: string, remaining: int, svc: Services)
    returns (contents: seq<SlideResult>, count: nat)
    ensures |contents| == |slides|
    ensures forall k :: 0 <= k < |slides| ==> contents[k] == SlideOutcomes(slides, describe, language, svc, remaining)[k]
    ensures count == PresentationCount(slides, describe, remaining)
  {
    var counter := new Counter(remaining);
    contents := [];
    count := 0;
    var i := 0;
    while i < |slides|
      invariant 0 <= i <= |slides|
      invariant |contents| == i
      invariant forall k :: 0 <= k < i ==> contents[k] == SlideOutcomes(slides, describe, language, svc, remaining)[k]
      invariant count == PresentationCount(slides[..i], describe, remaining)
      invariant counter.value == remaining - count
    {
      var slideContent := ProcessSlide(slides[i], describe, language, svc, counter);
      PresentationStep(slides, describe, language, svc, remaining, i, count, slideContent);
      contents := contents + [slideContent];
      count := count + DescribedCount(slideContent);
      i := i + 1;
    }
    assert slides[..|slides|] == slides;
  }

  /**
   * The budget is never over-spent across slides: the total is at most the
   * starting budget and the number of pictures, and with descriptions on
   * it takes every picture when the budget suffices.
   */
  lemma PresentationBudgetRespected(slides: seq<Slide>, describe: bool, budget: int)
    ensures PresentationCount(slides, describe, budget) <= TotalSlideImages(slides)
    ensures budget >= 0 ==> PresentationCount(slides, describe, budget) <= budget
    ensures describe && budget >= TotalSlideImages(slides) ==> PresentationCount(slides, describe, budget) == TotalSlideImages(slides)
  {
  }

  /** With descriptions off every slide drops its images key. */
  lemma NoDescriptionsDropImages(slides: seq<Slide>, describe: bool, language: string, svc: Services, budget: int, k: nat)
    requires !describe && k < |slides|
    ensures SlideOutcomes(slides, describe, language, svc, budget)[k].images == None
  {
  }

  /** The response count is the sum of the per-slide counts, over every prefix of the slides. */
  lemma {:induction false} PresentationCountIsSum(slides: seq<Slide>, describe: bool, language: string, svc: Services, budget: int, i: nat)
    requires i <= |slides|
    ensures PresentationCount(slides[..i], describe, budget) == SumDescribed(SlideOutcomes(slides, describe, language, svc, budget)[..i])
  {
    if i > 0 {
      var outcomes := SlideOutcomes(slides, describe, language, svc, budget);
      var before := PresentationCount(slides[..i - 1], describe, budget);
      PresentationCountIsSum(slides, describe, language, svc, budget, i - 1);
      PresentationStep(slides, describe, language, svc, budget, i - 1, before, outcomes[i - 1]);
      SumDescribedSnoc(outcomes, i - 1);
    }
  }

  lemma SumDescribedSnoc(results: seq<SlideResult>, i: nat)
    requires i < |results|
    ensures SumDescribed(results[..i + 1]) == SumDescribed(results[..i]) + DescribedCount(results[i])
  {
    assert results[..i + 1][..i] == results[..i];
  }

  /** image_description_count += len(slide_content.get("images", [])) over the results in order. */
  function SumDescribed(results: seq<SlideResult>): nat {
    if results == [] then 0 else SumDescribed(results[..|results| - 1]) + DescribedCount(results[|results| - 1])
  }

  /** The stripped paragraphs of one shape's text frame, blank ones included. */
  function ParagraphPiece(shape: Shape): seq<string> {
    match shape.textFrame
    case Some(paragraphs) => seq(|paragraphs|, k requires 0 <= k < |paragraphs| => Strip(paragraphs[k]))
    case None => []
  }

  function ParagraphPieces(shapes: seq<Shape>): seq<seq<string>> {
    seq(|shapes|, k requires 0 <= k < |shapes| => ParagraphPiece(shapes[k]))
  }

  /** The `texts` list of one slide in extract_content_from_pptx. */
  function SlideParagraphs(shapes: seq<Shape>): seq<string> {
    Flatten(ParagraphPieces(shapes))
  }

  /** One entry of extract_content_from_pptx's result. */
  datatype SlideData = SlideData(number: nat, texts: seq<string>, images: seq<Image>)

  /**
   * extract_content_from_pptx: slides numbered from 1; for every shape in
   * order, its stripped paragraphs when it has a text frame and its picture
   * when it has one.
   */
  method ExtractContentFromPptx(slides: seq<Slide>) returns (slidesContent: seq<SlideData>)
    ensures |slidesContent| == |slides|
    ensures forall k :: 0 <= k < |slides| ==>
      slidesContent[k] == SlideData(k + 1, SlideParagraphs(slides[k].shapes), SlideImages(slides[k].shapes))
  {
    slidesContent := [];
    var slideIndex := 0;
    while slideIndex < |slides|
      invariant 0 <= slideIndex <= |slides|
      invariant |slidesContent| == slideIndex
      invariant forall k :: 0 <= k < slideIndex ==>
        slidesContent[k] == SlideData(k + 1, SlideParagraphs(slides[k].shapes), SlideImages(slides[k].shapes))
    {
      var shapes := slides[slideIndex].shapes;
      ghost var paragraphPieces := ParagraphPieces(shapes);
      ghost var imagePieces := ImagePieces(shapes);
      var texts: seq<string> := [];
      var images: seq<Image> := [];
      var i := 0;
      while i < |shapes|
        invariant 0 <= i <= |shapes|
        invariant texts == Flatten(paragraphPieces[..i])
        invariant images == Flatten(imagePieces[..i])
      {
        FlattenSnoc(paragraphPieces, i);
        FlattenSnoc(imagePieces, i);
        match shapes[i].textFrame {
          case Some(paragraphs) =>
            var stripped := seq(|paragraphs|, k requires 0 <= k < |paragraphs| => Strip(paragraphs[k]));
            texts := texts + stripped;
          case None =>
        }
        match shapes[i].image {
          case Some(img) => images := images + [img];
          case None =>
        }
        i := i + 1;
      }
      assert paragraphPieces[..|shapes|] == paragraphPieces;
      assert imagePieces[..|shapes|] == imagePieces;
      slidesContent := slidesContent + [SlideData(slideIndex + 1, texts, images)];
      slideIndex := slideIndex + 1;
    }
  }

  /** Every entry of a slide's `texts` is already stripped. */
  lemma SlideParagraphsStripped(shapes: seq<Shape>, t: string)
    requires t in SlideParagraphs(shapes)
    ensures Strip(t) == t
  {
    var pieces := ParagraphPieces(shapes);
    FlattenMembership(pieces, t);
    var k :| 0 <= k < |pieces| && t in pieces[k];
    var paragraphs := shapes[k].textFrame.value;
    var j :| 0 <= j < |paragraphs| && pieces[k][j] == t;
    StripIdempotent(paragraphs[j]);
  }
}
