/** The description of a file's format that every detector returns. */
module FormatInfo {
  import opened Wrappers

  /** The known format subtypes; `Value()` is the string each member stands for. */
  datatype SubType =
    | ATOM
    | Collada
    | DataCite
    | DCMI
    | DocBook
    | EAD
    | GML
    | KML
    | LIDO
    | MARC21
    | MathML
    | METS
    | MODS
    | ODF
    | OWL
    | PREMIS
    | PresentationML
    | RDF
    | RDFS
    | RelaxNG
    | RSS
    | Schematron
    | SMIL
    | SOAP
    | SpreadsheetML
    | SVG
    | SVG_Animation
    | TEI
    | VoiceXML
    | WordprocessingML
    | WSDL
    | X3D
    | XBRL
    | XForms
    | XHTML
    | XHTML_RDFa
    | Xlink
    | XML
    | XSD
    | XSLT
    | JSON
    | JSONLD
    | JSONSCHEMA
    | JSONL
  {
    /** The enumeration's string value. */
    function Value(): string {
      match this
      case ATOM => "Atom Syndication Format"
      case Collada => "Collada"
      case DataCite => "DataCite Metadata Schema"
      case DCMI => "Dublin Core Metadata Initiative"
      case DocBook => "DocBook"
      case EAD => "Encoded Archival Description"
      case GML => "Geography Markup Language"
      case KML => "Keyhole Markup Language"
      case LIDO => "Lightweight Information Describing Objects Schema"
      case MARC21 => "MARC 21 XML Schema"
      case MathML => "Mathematical Markup Language"
      case METS => "Metadata Encoding and Transmission Standard"
      case MODS => "Metadata Object Description Schema"
      case ODF => "OpenDocument Format"
      case OWL => "Web Ontology Language"
      case PREMIS => "Preservation Metadata Implementation Strategies"
      case PresentationML => "Office Open XML PresentationML"
      case RDF => "Resource Description Framework"
      case RDFS => "RDF Schema"
      case RelaxNG => "Relax NG Schema"
      case RSS => "Really Simple Syndication"
      case Schematron => "Schematron Schema"
      case SMIL => "Synchronized Multimedia Integration Language"
      case SOAP => "Simple Object Access Protocol"
      case SpreadsheetML => "Office Open XML SpreadsheetML"
      case SVG => "Scalable Vector Graphics"
      case SVG_Animation => "SVG Animation (part of SMIL)"
      case TEI => "Text Encoding Initiative"
      case VoiceXML => "Voice Extensible Markup Language"
      case WordprocessingML => "Office Open XML WordprocessingML"
      case WSDL => "Web Services Description Language"
      case X3D => "Extensible 3D"
      case XBRL => "eXtensible Business Reporting Language"
      case XForms => "XForms"
      case XHTML => "Extensible Hypertext Markup Language"
      case XHTML_RDFa => "XHTML+RDFa"
      case Xlink => "XML Linking Language"
      case XML => "Extensible Markup Language"
      case XSD => "XML Schema Definition"
      case XSLT => "Extensible Stylesheet Language Transformations"
      case JSON => "JSON"
      case JSONLD => "JSON-LD"
      case JSONSCHEMA => "JSON-Schema"
      case JSONL => "JSON Lines"
    }
  }

  /**
   * The detector's name, the (possibly corrected) MIME type and the subtype. The subtype is
   * `None` when no XML namespace was recognised, `Some("")` when no subtype detection ran,
   * and otherwise the value of a subtype.
   */
  datatype FormatInfo = FormatInfo(detector: string, mimetype: string, subtype: Option<string>)
}
