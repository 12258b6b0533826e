/**
 * DescribeImageView.post: every uploaded image, in upload order, is
 * re-encoded as JPEG and sent to the description service with the prompt
 * for the requested language.
 */
module ImageDescription {
  import opened Wrappers
  import opened Languages
  import opened Documents

  /** One uploaded file: its name and its bytes. */
  datatype Upload = Upload(name: string, content: Image)

  /** One entry of the response's `descriptions` list. */
  datatype Description = Description(filename: string, description: string)

  const MissingImagesError: string := "At least one image file is required."

  /**
   * `toJpeg` is the image library's decode-and-save-as-JPEG step. An empty
   * upload list is refused; otherwise there is one description per file,
   * in upload order.
   */
  method DescribeImages(files: seq<Upload>, language: string, toJpeg: Image -> Image, svc: Services)
    returns (r: Result<seq<Description>>)
    ensures files == [] <==> r.Failure?
    ensures files == [] ==> r == Failure(MissingImagesError)
    ensures r.Success? ==> |r.value| == |files|
    ensures r.Success? ==> forall k :: 0 <= k < |files| ==>
      r.value[k] == Description(files[k].name, svc.describe(toJpeg(files[k].content), Prompt(language)))
  {
    if files == [] {
      return Failure(MissingImagesError);
    }
    var prompt := Prompt(language);
    var descriptions: seq<Description> := [];
    var i := 0;
    while i < |files|
      invariant 0 <= i <= |files|
      invariant |descriptions| == i
      invariant forall k :: 0 <= k < i ==>
        descriptions[k] == Description(files[k].name, svc.describe(toJpeg(files[k].content), prompt))
    {
      var jpeg := toJpeg(files[i].content);
      var description := svc.describe(jpeg, prompt);
      descriptions := descriptions + [Description(files[i].name, description)];
      i := i + 1;
    }
    r := Success(descriptions);
  }
}
