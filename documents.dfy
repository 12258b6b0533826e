/**
 * The inputs the handlers work on once the document libraries have opened
 * the upload: pages, slides and their shapes, raw image bytes, and the two
 * external recognition services.
 */
module Documents {
  import opened Wrappers

  newtype byte = x: int | 0 <= x < 256

  /** The raw bytes of one embedded image. */
  type Image = seq<byte>

  /** One PDF page: its extracted text and its embedded images in page order. */
  datatype Page = Page(text: string, images: seq<Image>)

  /**
   * One shape of a slide. `textFrame` holds the paragraphs of the shape's
   * text frame when it has one; `image` holds the picture bytes when the
   * shape is a picture.
   */
  datatype Shape = Shape(textFrame: Option<seq<string>>, image: Option<Image>)

  /** One slide: its shapes in document order. */
  datatype Slide = Slide(shapes: seq<Shape>)

  /**
   * The external services, uninterpreted: `recognize(img, languageCode)` is
   * the OCR engine, `describe(img, prompt)` the vision description call.
   */
  datatype Services = Services(recognize: (Image, string) -> string, describe: (Image, string) -> string)
}
