/**
 * JSON subtype detection: a `.jsonld` name, a JSON-Schema `$schema`, a JSON-LD `@context` or
 * `@id`, or a document that only parses line by line decide the subtype. Parsing itself is a
 * parameter (`loads`), standing for `json.loads`.
 */
module JsonTypes {
  import opened Wrappers
  import opened Errors
  import opened Strings
  import opened Paths

  /** MIME types handled as JSON besides those of the subtype table. */
  const JsonMimeTypes: seq<string> :=
    ["application/json", "application/ld+json", "application/schema+json", "application/jsonl"]

  datatype JSONType = JSON | JSONLD | JSONSCHEMA | JSONL {
    function Value(): string {
      match this
      case JSON => "JSON"
      case JSONLD => "JSON-LD"
      case JSONSCHEMA => "JSON-Schema"
      case JSONL => "JSON Lines"
    }
  }

  /** Subtype to MIME type; the unregistered schema and lines types report plain JSON. */
  const MimeTypes: map<JSONType, string> := map[
    JSON := "application/json",
    JSONLD := "application/ld+json",
    JSONSCHEMA := "application/json",
    JSONL := "application/json"
  ]

  const SchemaDraft202012 := "https://json-schema.org/draft/2020-12/schema"

  predicate IsJsonType(mime: string) {
    mime in JsonMimeTypes || mime in MimeTypes.Values
  }

  /** No JSON type is reported as `text/xml`. */
  lemma TextXmlIsNoJsonType()
    ensures forall t | t in MimeTypes :: MimeTypes[t] != "text/xml"
  {
  }

  /** Every subtype has a MIME type, and it is a JSON type. */
  lemma MimeTypesAreJson(t: JSONType)
    ensures t in MimeTypes && IsJsonType(MimeTypes[t])
  {
    assert MimeTypes[t] in MimeTypes.Values;
  }

  /** A value nested in a document: only strings matter to the detection. */
  datatype JsonValue = JStr(s: string) | JOther

  /** What `json.loads` returns at the top level; `pyType` names a scalar's Python type. */
  datatype JsonDoc =
    | JObject(entries: seq<(string, JsonValue)>)
    | JArray(items: seq<JsonValue>)
    | JString(s: string)
    | JScalar(pyType: string)

  datatype JsonParse = Parsed(doc: JsonDoc) | DecodeError(msg: string)

  predicate HasKey(entries: seq<(string, JsonValue)>, key: string) {
    exists i :: 0 <= i < |entries| && entries[i].0 == key
  }

  /** `d[key]`: a repeated key keeps the value given last. */
  function LastValue(entries: seq<(string, JsonValue)>, key: string): JsonValue
    requires HasKey(entries, key)
  {
    var n := |entries| - 1;
    if entries[n].0 == key then entries[n].1
    else
      assert HasKey(entries[..n], key) by {
        var i :| 0 <= i < |entries| && entries[i].0 == key;
        assert entries[..n][i].0 == key;
      }
      LastValue(entries[..n], key)
  }

  /** Every line parses on its own and the text is not blank. */
  predicate IsJsonLines(data: string, loads: string -> JsonParse) {
    !IsBlank(data) && forall line :: line in SplitLines(data) ==> loads(line).Parsed?
  }

  /** The subtype of a document that parsed, or the `TypeError` Python raises on it. */
  function Classify(doc: JsonDoc): Result<JSONType, Error> {
    match doc
    case JObject(e) =>
      if HasKey(e, "$schema") && LastValue(e, "$schema") == JStr(SchemaDraft202012) then Success(JSONSCHEMA)
      else if HasKey(e, "@context") || HasKey(e, "@id") then Success(JSONLD)
      else Success(JSON)
    case JArray(items) =>
      if JStr("$schema") in items then Failure(TypeError("list indices must be integers or slices, not str"))
      else if JStr("@context") in items || JStr("@id") in items then Success(JSONLD)
      else Success(JSON)
    case JString(s) =>
      if IsSubstring("$schema", s) then Failure(TypeError("string indices must be integers, not 'str'"))
      else Success(JSON)
    case JScalar(t) => Failure(TypeError("argument of type '" + t + "' is not iterable"))
  }

  /** The outcome `guess_json_format` promises for a file name and its text. */
  function JsonFormat(path: Path, content: string, loads: string -> JsonParse): Result<JSONType, Error> {
    if path.Suffix() == ".jsonld" then Success(JSONLD)
    else match loads(content)
      case Parsed(doc) => Classify(doc)
      case DecodeError(msg) =>
        if IsJsonLines(content, loads) then Success(JSONL) else Failure(JSONDecodeError(msg))
  }

  /** `is_jsonl`: stops at the first line that does not parse. */
  method IsJsonl(data: string, loads: string -> JsonParse) returns (r: bool)
    ensures r == IsJsonLines(data, loads)
  {
    if IsBlank(data) {
      return false;
    }
    var lines := SplitLines(data);
    var isJsonl := true;
    var i := 0;
    while i < |lines|
      invariant 0 <= i <= |lines|
      invariant forall j :: 0 <= j < i ==> loads(lines[j]).Parsed?
    {
      if loads(lines[i]).DecodeError? {
        isJsonl := false;
        break;
      }
      i := i + 1;
    }
    return isJsonl;
  }

  /** Python's `key in doc`. */
  function Contains(doc: JsonDoc, key: string): Result<bool, Error> {
    match doc
    case JObject(e) => Success(HasKey(e, key))
    case JArray(items) => Success(JStr(key) in items)
    case JString(s) => Success(IsSubstring(key, s))
    case JScalar(t) => Failure(TypeError("argument of type '" + t + "' is not iterable"))
  }

  /** Python's `doc[key]` for a string key. */
  function Index(doc: JsonDoc, key: string): Result<JsonValue, Error>
    requires Contains(doc, key) == Success(true)
  {
    match doc
    case JObject(e) => Success(LastValue(e, key))
    case JArray(_) => Failure(TypeError("list indices must be integers or slices, not str"))
    case JString(_) => Failure(TypeError("string indices must be integers, not 'str'"))
  }

  /** What `for key in doc` visits: keys, items, or one-character strings. */
  function Iterated(doc: JsonDoc): (r: seq<JsonValue>)
    ensures doc.JObject? ==> |r| == |doc.entries| && forall i :: 0 <= i < |r| ==> r[i] == JStr(doc.entries[i].0)
    ensures doc.JArray? ==> r == doc.items
    ensures doc.JString? ==> forall i :: 0 <= i < |r| ==> r[i].JStr? && |r[i].s| == 1
  {
    match doc
    case JObject(e) => seq(|e|, i requires 0 <= i < |e| => JStr(e[i].0))
    case JArray(items) => items
    case JString(s) => seq(|s|, i requires 0 <= i < |s| => JStr([s[i]]))
    case JScalar(_) => []
  }

  /** `guess_json_format` on a file's name and text. */
  method GuessJsonFormat(path: Path, content: string, loads: string -> JsonParse)
    returns (r: Result<JSONType, Error>)
    ensures r == JsonFormat(path, content, loads)
  {
    if path.Suffix() == ".jsonld" {
      return Success(JSONLD);
    }
    var parsed := loads(content);
    if parsed.DecodeError? {
      var lines := IsJsonl(content, loads);
      if lines {
        return Success(JSONL);
      }
      return Failure(JSONDecodeError(parsed.msg));
    }
    r := ClassifyDoc(parsed.doc);
  }

  /** The part of `guess_json_format` that inspects a document that parsed. */
  method ClassifyDoc(doc: JsonDoc) returns (r: Result<JSONType, Error>)
    ensures r == Classify(doc)
  {
    var member := Contains(doc, "$schema");
    if member.Failure? {
      return Failure(member.error);
    }
    if member.value {
      var value := Index(doc, "$schema");
      if value.Failure? {
        return Failure(value.error);
      }
      if value.value == JStr(SchemaDraft202012) {
        return Success(JSONSCHEMA);
      }
    }
    var keys := Iterated(doc);
    var i := 0;
    while i < |keys|
      invariant 0 <= i <= |keys|
      invariant forall j :: 0 <= j < i ==> keys[j] != JStr("@context") && keys[j] != JStr("@id")
    {
      if keys[i] == JStr("@context") || keys[i] == JStr("@id") {
        return Success(JSONLD);
      }
      i := i + 1;
    }
    return Success(JSON);
  }

  /** `get_format_info`: every JSON subtype has a MIME type, so the reported one is replaced. */
  method GetFormatInfo(path: Path, content: string, mime: string, loads: string -> JsonParse)
    returns (r: Result<(string, string), Error>)
    ensures JsonFormat(path, content, loads).Failure? ==> r == Failure(JsonFormat(path, content, loads).error)
    ensures JsonFormat(path, content, loads).Success? ==>
      var t := JsonFormat(path, content, loads).value; t in MimeTypes && r == Success((MimeTypes[t], t.Value()))
    ensures r.Success? ==> IsJsonType(r.value.0)
  {
    var jsonType := GuessJsonFormat(path, content, loads);
    if jsonType.Failure? {
      return Failure(jsonType.error);
    }
    var t := jsonType.value;
    MimeTypesAreJson(t);
    return Success((MimeTypes[t], t.Value()));
  }

  /** A document that does not parse and has no line boundary is never taken for JSON Lines. */
  lemma SingleLineIsNotJsonLines(path: Path, content: string, loads: string -> JsonParse)
    requires forall i :: 0 <= i < |content| ==> !IsLineBreak(content[i])
    requires path.Suffix() != ".jsonld" && loads(content).DecodeError?
    ensures JsonFormat(path, content, loads) == Failure(JSONDecodeError(loads(content).msg))
  {
    LinesWithoutBreak(content, []);
    assert [] + content == content;
    if content != [] {
      assert content in SplitLines(content);
    }
  }

  /** JSON Lines is reported only for text that fails as a whole and parses line by line. */
  lemma JsonLinesOnlyWhenLinesParse(path: Path, content: string, loads: string -> JsonParse)
    requires JsonFormat(path, content, loads) == Success(JSONL)
    ensures loads(content).DecodeError? && path.Suffix() != ".jsonld"
    ensures !IsBlank(content) && forall line :: line in SplitLines(content) ==> loads(line).Parsed?
  {
  }
}
