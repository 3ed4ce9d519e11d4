/** The detector built on Magika's content-based identification. */
module MagikaDetector {
  import opened Wrappers
  import opened Errors
  import opened Paths
  import opened FormatDetector
  import XmlTypes
  import JsonTypes

  /** The detector's class name, which it reports as its name. */
  const Name := "MagikaDetector"

  /**
   * `_fix_result`: JSON files Magika labels as JavaScript become JSON, and `text/xml` is
   * reported as `application/xml`.
   */
  function FixResult(path: Path, ctLabel: string, mime: Option<string>): (r: (string, Option<string>))
    ensures ctLabel == "javascript" && path.Suffix() in [".jsonld", ".json"] ==> r == ("json", Some("application/json"))
    ensures !(ctLabel == "javascript" && path.Suffix() in [".jsonld", ".json"]) ==>
      r.0 == ctLabel && r.1 == (if mime == Some("text/xml") then Some("application/xml") else mime)
    ensures r.1 != Some("text/xml")
  {
    var (ctLabel', mime') :=
      if ctLabel == "javascript" && path.Suffix() in [".jsonld", ".json"] then ("json", Some("application/json"))
      else (ctLabel, mime);
    (ctLabel', if mime' == Some("text/xml") then Some("application/xml") else mime')
  }

  /** `guess_file_type`; `ctLabel` and `mime` are Magika's prediction for the file. */
  method GuessFileType(file: FileView, ctLabel: string, mime: Option<string>, loads: string -> JsonTypes.JsonParse)
    returns (r: Result<Detection, Error>)
    ensures r == Detect(Name, FixResult(file.path, ctLabel, mime).1, file, loads)
    ensures r.Success? ==> r.value.info.detector == "MagikaDetector" && r.value.info.mimetype != "text/xml"
  {
    var (_, fixedMime) := FixResult(file.path, ctLabel, mime);
    r := Identify(Name, fixedMime, file, loads);
    DetectNameAndFailure(Name, fixedMime, file, loads);
    NeverTextXml(fixedMime, file, loads);
  }

  /** Once `text/xml` is fixed up, no detection reports it. */
  lemma NeverTextXml(mime: Option<string>, file: FileView, loads: string -> JsonTypes.JsonParse)
    requires mime != Some("text/xml")
    ensures var r := Detect(Name, mime, file, loads); r.Success? ==> r.value.info.mimetype != "text/xml"
  {
    if mime.Some? {
      var m := mime.value;
      if XmlTypes.IsXmlType(m) {
        var x := XmlTypes.GetFormatInfo(file.namespaces, m);
        if x.1.Some? && x.1.value in XmlTypes.MimeTypes {
          XmlTypes.TextXmlIsNoSubtypeType();
        }
      } else if JsonTypes.IsJsonType(m) {
        var d := DetectJson(Name, file, loads);
        if d.Success? {
          JsonTypes.TextXmlIsNoJsonType();
          var t := JsonTypes.JsonFormat(file.path, file.content, loads).value;
          JsonTypes.MimeTypesAreJson(t);
        }
      }
    }
  }
}
