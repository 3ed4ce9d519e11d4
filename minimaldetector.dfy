/** The detector built on the extension-based `mimetypes.guess_type`. */
module MinimalDetector {
  import opened Wrappers
  import opened Errors
  import opened FormatDetector
  import JsonTypes

  /** The detector's `repr`, which it reports as its name. */
  const Name := "MinimalDetector"

  /** `guess_file_type`; `guessed` is what `mimetypes.guess_type` returned for the path. */
  method GuessFileType(file: FileView, guessed: Option<string>, loads: string -> JsonTypes.JsonParse)
    returns (r: Result<Detection, Error>)
    ensures r == Detect(Name, guessed, file, loads)
    ensures r.Success? ==> r.value.info.detector == "MinimalDetector"
  {
    r := Identify(Name, guessed, file, loads);
    DetectNameAndFailure(Name, guessed, file, loads);
  }
}
