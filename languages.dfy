/**
 * The two language lookups of the handlers: the Tesseract language code
 * used for OCR and the prompt sent with an image to the description
 * service. Both are dictionaries with a default for unknown languages.
 */
module Languages {

  const EnglishPrompt: string := "Describe this image in detail."
  const ArabicPrompt: string := "صف هذه الصورة بالتفصيل."
  const SpanishPrompt: string := "Describe esta imagen en detalle."

  const OcrCodes: map<string, string> := map["English" := "eng", "Spanish" := "spa", "Arabic" := "ara"]

  const Prompts: map<string, string> := map["English" := EnglishPrompt, "Arabic" := ArabicPrompt, "Spanish" := SpanishPrompt]

  /** The languages both lookups know. */
  predicate Supported(language: string) {
    language == "English" || language == "Spanish" || language == "Arabic"
  }

  /** lang_map.get(language, "eng") */
  function OcrCode(language: string): (code: string)
    ensures language == "English" ==> code == "eng"
    ensures language == "Spanish" ==> code == "spa"
    ensures language == "Arabic" ==> code == "ara"
    ensures !Supported(language) ==> code == "eng"
  {
    if language in OcrCodes then OcrCodes[language] else "eng"
  }

  /** prompt_texts.get(language, "Describe this image in detail.") */
  function Prompt(language: string): (prompt: string)
    ensures language == "English" ==> prompt == EnglishPrompt
    ensures language == "Spanish" ==> prompt == SpanishPrompt
    ensures language == "Arabic" ==> prompt == ArabicPrompt
    ensures !Supported(language) ==> prompt == EnglishPrompt
  {
    if language in Prompts then Prompts[language] else EnglishPrompt
  }

  /**
   * The two lookups fall back together: the OCR code is "eng" exactly when
   * the prompt is the English one, and each supported language gets a code
   * and a prompt of its own.
   */
  lemma LookupsAgree(language: string)
    ensures OcrCode(language) == "eng" <==> Prompt(language) == EnglishPrompt
    ensures OcrCode(language) in {"eng", "spa", "ara"}
    ensures Prompt(language) in {EnglishPrompt, SpanishPrompt, ArabicPrompt}
  {
    assert ArabicPrompt != EnglishPrompt;
    assert SpanishPrompt[9] != EnglishPrompt[9];
  }
}
