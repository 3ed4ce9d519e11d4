/**
 * What every detector does once it has a MIME type: fall back to the default type when there
 * is none, and refine XML and JSON types through their subtype detection.
 */
module FormatDetector {
  import opened Wrappers
  import opened Errors
  import opened Paths
  import opened FormatInfo
  import XmlTypes
  import JsonTypes

  const DefaultType := "application/octet-stream"

  /**
   * What detection reads of a file: its path, the namespace URIs its XML start-ns events
   * declare (in order) and its text.
   */
  datatype FileView = FileView(path: Path, namespaces: seq<string>, content: string)

  /** A detection result and the warnings emitted on the way. */
  datatype Detection = Detection(info: FormatInfo, warnings: seq<string>)

  function NoMimeWarning(path: Path): string {
    "Could not determine mimetype for " + path.ToString() + ". Using default type."
  }

  /** The detection a detector named `detector` reports when its tool found `mime`. */
  function Detect(detector: string, mime: Option<string>, file: FileView, loads: string -> JsonTypes.JsonParse)
    : Result<Detection, Error>
  {
    match mime
    case None =>
      Success(Detection(FormatInfo(detector, DefaultType, Some("")), [NoMimeWarning(file.path)]))
    case Some(m) =>
      if XmlTypes.IsXmlType(m) then Success(DetectXml(detector, m, file))
      else if JsonTypes.IsJsonType(m) then DetectJson(detector, file, loads)
      else Success(Detection(FormatInfo(detector, m, Some("")), []))
  }

  /** An XML type refined by the namespaces the file declares. */
  function DetectXml(detector: string, m: string, file: FileView): Detection {
    var (xmlMime, t, warnings) := XmlTypes.GetFormatInfo(file.namespaces, m);
    Detection(FormatInfo(detector, xmlMime, if t.Some? then Some(t.value.Value()) else None), warnings)
  }

  /** A JSON type refined by the file's name and content. */
  function DetectJson(detector: string, file: FileView, loads: string -> JsonTypes.JsonParse): Result<Detection, Error> {
    match JsonTypes.JsonFormat(file.path, file.content, loads)
    case Failure(e) => Failure(e)
    case Success(t) => Success(Detection(FormatInfo(detector, JsonTypes.MimeTypes[t], Some(t.Value())), []))
  }

  /** The dispatch both detectors run after their own identification step. */
  method Identify(detector: string, mime: Option<string>, file: FileView, loads: string -> JsonTypes.JsonParse)
    returns (r: Result<Detection, Error>)
    ensures r == Detect(detector, mime, file, loads)
  {
    if mime.None? {
      return Success(Detection(FormatInfo(detector, DefaultType, Some("")), [NoMimeWarning(file.path)]));
    }
    var m := mime.value;
    if XmlTypes.IsXmlType(m) {
      var (xmlMime, t, warnings) := XmlTypes.GetFormatInfo(file.namespaces, m);
      return Success(Detection(FormatInfo(detector, xmlMime, if t.Some? then Some(t.value.Value()) else None), warnings));
    } else if JsonTypes.IsJsonType(m) {
      var info := JsonTypes.GetFormatInfo(file.path, file.content, m, loads);
      if info.Failure? {
        return Failure(info.error);
      }
      return Success(Detection(FormatInfo(detector, info.value.0, Some(info.value.1)), []));
    }
    return Success(Detection(FormatInfo(detector, m, Some("")), []));
  }

  /** The detector's name is kept, and only JSON subtype detection can fail. */
  lemma DetectNameAndFailure(detector: string, mime: Option<string>, file: FileView, loads: string -> JsonTypes.JsonParse)
    ensures var r := Detect(detector, mime, file, loads);
      && (r.Success? ==> r.value.info.detector == detector)
      && (r.Failure? ==> mime.Some? && !XmlTypes.IsXmlType(mime.value) && JsonTypes.IsJsonType(mime.value))
  {
    if mime.Some? && !XmlTypes.IsXmlType(mime.value) && JsonTypes.IsJsonType(mime.value) {
      match JsonTypes.JsonFormat(file.path, file.content, loads)
      case Failure(_) =>
      case Success(_) =>
    }
  }

  /** A missing MIME type becomes the default type, with one warning naming the file. */
  lemma DetectWithoutMime(detector: string, file: FileView, loads: string -> JsonTypes.JsonParse)
    ensures var r := Detect(detector, None, file, loads);
      r.Success? && r.value.info.mimetype == DefaultType && r.value.warnings == [NoMimeWarning(file.path)]
  {
  }

  /** An XML type stays an XML type, whatever subtype is found. */
  lemma DetectKeepsXml(detector: string, m: string, file: FileView, loads: string -> JsonTypes.JsonParse)
    requires XmlTypes.IsXmlType(m)
    ensures var r := Detect(detector, Some(m), file, loads);
      r.Success? && XmlTypes.IsXmlType(r.value.info.mimetype)
  {
  }

  /** A JSON type that is not also an XML type stays a JSON type when detection succeeds. */
  lemma DetectKeepsJson(detector: string, m: string, file: FileView, loads: string -> JsonTypes.JsonParse)
    requires !XmlTypes.IsXmlType(m) && JsonTypes.IsJsonType(m)
    ensures var r := Detect(detector, Some(m), file, loads);
      r.Success? ==> JsonTypes.IsJsonType(r.value.info.mimetype)
  {
    var d := DetectJson(detector, file, loads);
    if d.Success? {
      JsonTypes.MimeTypesAreJson(JsonTypes.JsonFormat(file.path, file.content, loads).value);
    }
  }
}
