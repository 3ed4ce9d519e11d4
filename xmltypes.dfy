/**
 * XML subtype detection: the first namespace declared in a document that is registered decides
 * the subtype, and the subtype may correct the MIME type another tool reported.
 */
module XmlTypes {
  import opened Wrappers
  import opened FormatInfo

  /** MIME types handled as XML besides those of the subtype table. */
  const XmlMimeTypes: seq<string> := ["application/xml", "text/xml"]

  /** Namespace URI to subtype. */
  const Namespaces: map<string, SubType> := map[
    "http://datacite.org/schema/kernel-4" := DataCite,
    "http://docbook.org/ns/docbook" := DocBook,
    "http://ead3.archivists.org/schema/" := EAD,
    "http://purl.oclc.org/dsdl/schematron" := Schematron,
    "http://purl.org/dc/elements/1.1/" := DCMI,
    "http://purl.org/rss/1.0/" := RSS,
    "http://relaxng.org/ns/structure/1.0" := RelaxNG,
    "http://schemas.openxmlformats.org/presentationml/2006/main" := PresentationML,
    "http://schemas.openxmlformats.org/spreadsheetml/2006/main" := SpreadsheetML,
    "http://schemas.openxmlformats.org/wordprocessingml/2006/main" := WordprocessingML,
    "http://schemas.xmlsoap.org/soap/envelope/" := SOAP,
    "http://schemas.xmlsoap.org/wsdl/" := WSDL,
    "http://www.collada.org/2005/11/COLLADASchema" := Collada,
    "http://www.lido-schema.org" := LIDO,
    "http://www.loc.gov/MARC21/slim" := MARC21,
    "http://www.loc.gov/METS/" := METS,
    "http://www.loc.gov/mods/v3" := MODS,
    "http://www.loc.gov/premis/rdf/v1#" := PREMIS,
    "http://www.opengis.net/gml" := GML,
    "http://www.opengis.net/kml/2.2" := KML,
    "http://www.tei-c.org/ns/1.0" := TEI,
    "http://www.w3.org/1998/Math/MathML" := MathML,
    "http://www.w3.org/1999/02/22-rdf-syntax-ns#" := RDF,
    "http://www.w3.org/1999/XSL/Transform" := XSLT,
    "http://www.w3.org/1999/xhtml" := XHTML,
    "http://www.w3.org/1999/xhtml/vocab#" := XHTML_RDFa,
    "http://www.w3.org/1999/xlink" := Xlink,
    "http://www.w3.org/2000/01/rdf-schema#" := RDFS,
    "http://www.w3.org/2000/SMIL20/" := SMIL,
    "http://www.w3.org/2000/svg" := SVG,
    "http://www.w3.org/2001/SMIL20/Language" := SMIL,
    "http://www.w3.org/2001/XMLSchema" := XSD,
    "http://www.w3.org/2001/vxml" := VoiceXML,
    "http://www.w3.org/2002/07/owl#" := OWL,
    "http://www.w3.org/2002/xforms" := XForms,
    "http://www.w3.org/2005/Atom" := ATOM,
    "http://www.w3.org/XML/1998/namespace" := XML,
    "http://www.web3d.org/specifications/x3d-namespace" := X3D,
    "urn:oasis:names:tc:opendocument:xmlns:office:1.0" := ODF
  ]

  /** Subtype to the MIME type reported for it (Dublin Core has none). */
  const MimeTypes: map<SubType, string> := map[
    DataCite := "application/datacite+xml",
    DocBook := "application/docbook+xml",
    EAD := "application/ead+xml",
    Schematron := "application/schematron+xml",
    RSS := "application/rss+xml",
    RelaxNG := "application/relax-ng+xml",
    PresentationML := "application/vnd.openxmlformats-officedocument.presentationml",
    SpreadsheetML := "application/vnd.openxmlformats-officedocument.spreadsheetml",
    WordprocessingML := "application/vnd.openxmlformats-officedocument.wordprocessingml.document",
    SOAP := "application/soap+xml",
    WSDL := "application/wsdl+xml",
    Collada := "application/vnd.collada+xml",
    LIDO := "application/xml",
    MARC21 := "application/marcxml+xml",
    METS := "application/mets+xml",
    MODS := "application/mods+xml",
    PREMIS := "application/rdf+xml",
    GML := "application/gml+xml",
    KML := "application/vnd.google-earth.kml+xml",
    TEI := "application/tei+xml",
    MathML := "application/mathml+xml",
    RDF := "application/rdf+xml",
    XSLT := "application/xslt+xml",
    XHTML := "application/xhtml+xml",
    XHTML_RDFa := "application/xhtml+xml",
    Xlink := "application/xlink+xml",
    RDFS := "application/rdf+xml",
    SMIL := "application/smil+xml",
    SVG := "image/svg+xml",
    SVG_Animation := "application/smil+xml",
    XSD := "application/xml",
    VoiceXML := "application/voicexml+xml",
    OWL := "application/owl+xml",
    XForms := "application/xforms+xml",
    ATOM := "application/atom+xml",
    XML := "application/xml",
    X3D := "model/x3d+xml",
    ODF := "application/vnd.oasis.opendocument.text"
  ]

  predicate IsXmlType(mime: string) {
    mime in MimeTypes.Values || mime in XmlMimeTypes
  }

  /** No subtype is reported as `text/xml`. */
  lemma TextXmlIsNoSubtypeType()
    ensures forall t | t in MimeTypes :: MimeTypes[t] != "text/xml"
  {
  }

  /** Every registered namespace except Dublin Core's leads to a subtype with a MIME type. */
  lemma RegisteredSubtypesHaveMimeTypes()
    ensures forall u :: u in Namespaces && Namespaces[u] != DCMI ==> Namespaces[u] in MimeTypes
  {
  }

  const UnknownNamespacePrefix := "xml format detection failed because of unknown namespace: "

  function UnknownNamespace(namespace: string): string {
    UnknownNamespacePrefix + namespace
  }

  /**
   * A first-match scan of `ns` against `registry`: the entry of the first registered name, and
   * one warning for each unregistered name scanned before it.
   */
  function FirstRegistered<T>(registry: map<string, T>, ns: seq<string>): (r: (Option<T>, seq<string>))
    ensures r.0.None? <==> forall j :: 0 <= j < |ns| ==> ns[j] !in registry
    ensures r.0.None? ==> |r.1| == |ns|
    ensures forall j :: 0 <= j < |r.1| ==> j < |ns| && r.1[j] == UnknownNamespace(ns[j])
  {
    if ns == [] then (None, [])
    else if ns[0] in registry then (Some(registry[ns[0]]), [])
    else
      var rest := FirstRegistered(registry, ns[1..]);
      assert forall j :: 0 <= j < |ns[1..]| ==> ns[1..][j] == ns[j + 1];
      (rest.0, [UnknownNamespace(ns[0])] + rest.1)
  }

  /** When `ns[k]` is the first registered name, its entry is found after `k` warnings. */
  lemma {:induction false} FirstRegisteredAt<T>(registry: map<string, T>, ns: seq<string>, k: nat)
    requires k < |ns| && ns[k] in registry
    requires forall j :: 0 <= j < k ==> ns[j] !in registry
    ensures FirstRegistered(registry, ns).0 == Some(registry[ns[k]])
    ensures |FirstRegistered(registry, ns).1| == k
  {
    if k > 0 {
      assert ns[0] !in registry;
      assert ns[1..][k - 1] == ns[k];
      assert forall j :: 0 <= j < k - 1 ==> ns[1..][j] !in registry by {
        forall j | 0 <= j < k - 1 ensures ns[1..][j] !in registry { assert ns[1..][j] == ns[j + 1]; }
      }
      FirstRegisteredAt(registry, ns[1..], k - 1);
    }
  }

  /**
   * `guess_xml_subtype`, given the namespace URIs of the document's start-ns events in order
   * (warnings are returned instead of emitted).
   */
  function GuessXmlSubtype(ns: seq<string>): (r: (Option<SubType>, seq<string>))
  {
    FirstRegistered(Namespaces, ns)
  }

  /**
   * `get_format_info`: the subtype and warnings of `GuessXmlSubtype`, and the subtype's MIME
   * type when it has one, the detected MIME type otherwise.
   */
  function GetFormatInfo(ns: seq<string>, mime: string): (r: (string, Option<SubType>, seq<string>))
    ensures (r.1, r.2) == GuessXmlSubtype(ns)
    ensures r.1.Some? && r.1.value in MimeTypes ==> r.0 == MimeTypes[r.1.value]
    ensures !(r.1.Some? && r.1.value in MimeTypes) ==> r.0 == mime
    ensures IsXmlType(mime) ==> IsXmlType(r.0)
  {
    var (subtype, warnings) := GuessXmlSubtype(ns);
    if subtype.None? then (mime, None, warnings)
    else (if subtype.value in MimeTypes then MimeTypes[subtype.value] else mime, subtype, warnings)
  }
}
