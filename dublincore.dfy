/**
 * `DublinCore` (dublincore.py): the texts of a DC.xml grouped by element and language, the
 * language fallback of `get_element`, and the flattening of `get_element_as_str`. The XML parser
 * is not modelled: its output is the sequence of the root's `dc:*` children.
 */
module DublinCore {
  import opened Wrappers
  import opened Errors
  import opened Strings
  import opened Paths

  /** The fifteen Dublin Core elements, in the order `_parse` visits them. */
  const DcElements: seq<string> := [
    "contributor", "coverage", "creator", "date", "description", "format", "identifier",
    "language", "publisher", "relation", "rights", "source", "subject", "title", "type"
  ]

  const DefaultLookupOrder: seq<string> := ["en", "de", "fr", "es", "it"]

  /** The language a child without `xml:lang` is filed under. */
  const Unspecified := "unspecified"

  /** A `dc:*` child of the root: its local name, its `xml:lang` attribute, its text (None for an empty element). */
  datatype DcChild = DcChild(element: string, lang: Option<string>, text: Option<string>)

  function LangOf(c: DcChild): string {
    c.lang.GetOr(Unspecified)
  }

  /** `_data[element][lang]` is the list of texts. */
  type DcData = map<string, map<string, seq<Option<string>>>>

  /** `root.findall("dc:" + e)`: the children named `e`, in document order. */
  function Found(children: seq<DcChild>, e: string): (r: seq<DcChild>)
    ensures forall c :: c in r <==> c in children && c.element == e
  {
    if children == [] then []
    else
      var init := children[..|children| - 1];
      var c := children[|children| - 1];
      assert children == init + [c];
      Found(init, e) + (if c.element == e then [c] else [])
  }

  /** The texts of those of `cs` whose language is `l`, in order. */
  function TextsIn(cs: seq<DcChild>, l: string): seq<Option<string>> {
    if cs == [] then []
    else
      var c := cs[|cs| - 1];
      TextsIn(cs[..|cs| - 1], l) + (if LangOf(c) == l then [c.text] else [])
  }

  function LangsIn(cs: seq<DcChild>): set<string> {
    set c | c in cs :: LangOf(c)
  }

  /** What the inner loop of `_parse` builds for one element out of its children `cs`. */
  function ElementMap(cs: seq<DcChild>): map<string, seq<Option<string>>> {
    map l | l in LangsIn(cs) :: TextsIn(cs, l)
  }

  /** What `_parse` has built after visiting the elements `elems`. */
  function Grouped(children: seq<DcChild>, elems: seq<string>): DcData {
    map e | e in elems && Found(children, e) != [] :: ElementMap(Found(children, e))
  }

  /** What `_parse` builds. */
  function Parsed(children: seq<DcChild>): DcData {
    Grouped(children, DcElements)
  }

  /** Reference definition: the texts of the children named `e` in language `l`, in document order. */
  function Texts(children: seq<DcChild>, e: string, l: string): seq<Option<string>> {
    if children == [] then []
    else
      var c := children[|children| - 1];
      Texts(children[..|children| - 1], e, l) + (if c.element == e && LangOf(c) == l then [c.text] else [])
  }

  lemma DcElementsDistinct(i: nat)
    requires i < |DcElements|
    ensures DcElements[i] !in DcElements[..i]
  {
  }

  lemma {:induction false} TextsInAbsent(cs: seq<DcChild>, l: string)
    requires l !in LangsIn(cs)
    ensures TextsIn(cs, l) == []
  {
    if cs != [] {
      var init := cs[..|cs| - 1];
      assert cs[|cs| - 1] in cs;
      assert LangsIn(init) <= LangsIn(cs) by {
        forall x | x in LangsIn(init) ensures x in LangsIn(cs) {
          var c :| c in init && LangOf(c) == x;
          assert c in cs;
        }
      }
      TextsInAbsent(init, l);
    }
  }

  lemma LangsInStep(cs: seq<DcChild>, c: DcChild)
    ensures LangsIn(cs + [c]) == LangsIn(cs) + {LangOf(c)}
  {
    var ext := cs + [c];
    forall x | x in LangsIn(ext) ensures x in LangsIn(cs) + {LangOf(c)} {
      var d :| d in ext && LangOf(d) == x;
    }
    forall x | x in LangsIn(cs) ensures x in LangsIn(ext) {
      var d :| d in cs && LangOf(d) == x;
      assert d in ext;
    }
    assert c in ext;
  }

  /** One more child adds its text at the end of its language's list. */
  lemma ElementMapStep(cs: seq<DcChild>, c: DcChild)
    ensures ElementMap(cs + [c]) == ElementMap(cs)[LangOf(c) :=
      (if LangOf(c) in ElementMap(cs) then ElementMap(cs)[LangOf(c)] else []) + [c.text]]
  {
    var ext := cs + [c];
    var m := ElementMap(cs);
    var want := m[LangOf(c) := (if LangOf(c) in m then m[LangOf(c)] else []) + [c.text]];
    assert ext[..|ext| - 1] == cs;
    LangsInStep(cs, c);
    if LangOf(c) !in LangsIn(cs) {
      TextsInAbsent(cs, LangOf(c));
    }
    forall l | l in LangsIn(ext) ensures TextsIn(ext, l) == want[l] {
      assert TextsIn(ext, l) == TextsIn(cs, l) + (if LangOf(c) == l then [c.text] else []);
    }
    assert ElementMap(ext).Keys == want.Keys;
  }

  lemma GroupedStep(children: seq<DcChild>, elems: seq<string>, e: string)
    ensures Grouped(children, elems + [e])
         == if Found(children, e) != [] then Grouped(children, elems)[e := ElementMap(Found(children, e))]
            else Grouped(children, elems)
  {
  }

  /** One step of the inner loop of `_parse`: `text` is appended to `data[elem][lang]`. */
  function AddText(data: DcData, elem: string, lang: string, text: Option<string>): DcData {
    var element := if elem in data then data[elem] else map[];
    var values := if lang in element then element[lang] else [];
    data[elem := element[lang := values + [text]]]
  }

  lemma AddTextStep(data: DcData, elem: string, found: seq<DcChild>, j: nat)
    requires elem !in data && j < |found|
    ensures AddText(if j == 0 then data else data[elem := ElementMap(found[..j])], elem, LangOf(found[j]), found[j].text)
         == data[elem := ElementMap(found[..j + 1])]
  {
    var c := found[j];
    var m := ElementMap(found[..j]);
    var next := m[LangOf(c) := (if LangOf(c) in m then m[LangOf(c)] else []) + [c.text]];
    assert ElementMap(found[..j + 1]) == next by {
      assert found[..j + 1] == found[..j] + [c];
      ElementMapStep(found[..j], c);
    }
    if j == 0 {
      assert m == map[] by { assert LangsIn([]) == {}; }
    } else {
      assert data[elem := m][elem := next] == data[elem := next];
    }
  }

  /** The inner loop of `_parse`: the children `found` of one element, filed by language. */
  method FileElement(data: DcData, elem: string, found: seq<DcChild>) returns (data': DcData)
    requires elem !in data
    ensures data' == if found == [] then data else data[elem := ElementMap(found)]
  {
    data' := data;
    var j := 0;
    while j < |found|
      invariant j <= |found|
      invariant data' == if j == 0 then data else data[elem := ElementMap(found[..j])]
    {
      var child := found[j];
      var lang := LangOf(child);
      var element := if elem in data' then data'[elem] else map[];
      var values := if lang in element then element[lang] else [];
      element := element[lang := values + [child.text]];
      AddTextStep(data, elem, found, j);
      data' := data'[elem := element];
      j := j + 1;
    }
    assert found[..j] == found;
  }

  /**
   * `_parse`: for each Dublin Core element in its fixed order, each child of that name appends
   * its text to the list of its language ("unspecified" without `xml:lang`).
   */
  method ParseChildren(children: seq<DcChild>) returns (data: DcData)
    ensures data == Parsed(children)
  {
    data := map[];
    var i := 0;
    while i < |DcElements|
      invariant i <= |DcElements|
      invariant data == Grouped(children, DcElements[..i])
    {
      var elem := DcElements[i];
      DcElementsDistinct(i);
      data := FileElement(data, elem, Found(children, elem));
      GroupedStep(children, DcElements[..i], elem);
      assert DcElements[..i + 1] == DcElements[..i] + [elem];
      i := i + 1;
    }
    assert DcElements[..i] == DcElements;
  }

  lemma {:induction false} TextsInFound(children: seq<DcChild>, e: string, l: string)
    ensures TextsIn(Found(children, e), l) == Texts(children, e, l)
  {
    if children != [] {
      var init := children[..|children| - 1];
      var c := children[|children| - 1];
      TextsInFound(init, e, l);
      var f := Found(init, e);
      if c.element == e {
        assert (f + [c])[..|f + [c]| - 1] == f;
      } else {
        assert Found(children, e) == f;
      }
    }
  }

  /**
   * What parsing builds: an entry for exactly the Dublin Core elements that occur, under each
   * exactly the languages they occur in, holding their texts in document order.
   */
  lemma ParsedGroups(children: seq<DcChild>, e: string, l: string)
    ensures e in Parsed(children) <==> e in DcElements && exists c :: c in children && c.element == e
    ensures e in Parsed(children) ==>
      (l in Parsed(children)[e] <==> exists c :: c in children && c.element == e && LangOf(c) == l)
    ensures e in Parsed(children) && l in Parsed(children)[e] ==> Parsed(children)[e][l] == Texts(children, e, l)
  {
    if exists c :: c in children && c.element == e {
      var c :| c in children && c.element == e;
      assert c in Found(children, e);
    }
    if e in Parsed(children) {
      if exists c :: c in children && c.element == e && LangOf(c) == l {
        var c :| c in children && c.element == e && LangOf(c) == l;
        assert c in Found(children, e);
      }
    }
    TextsInFound(children, e, l);
  }

  /**
   * `get_element`: a name outside the Dublin Core set raises ValueError; an element without
   * data gives `[default]`; otherwise the preferred language's list, or the list of the first
   * language of `lookup_order + ["unspecified"]` that is present, or KeyError when none is.
   */
  function Element(data: DcData, lookupOrder: seq<string>, name: string, preferred: string, default: Option<string>)
    : Result<seq<Option<string>>, Error>
  {
    if name !in DcElements then Failure(ValueError("Element " + name + " is not a Dublin Core element."))
    else if name !in data then Success([default])
    else if preferred in data[name] then Success(data[name][preferred])
    else
      var langs := data[name];
      var order := lookupOrder + [Unspecified];
      match FirstWhere(order, (l: string) => l in langs)
      case None => Failure(KeyError(preferred))
      case Some(k) => Success(langs[order[k]])
  }

  /** The cases of `get_element`, one by one, with the first-present-language fallback spelled out. */
  lemma ElementCases(data: DcData, lookupOrder: seq<string>, name: string, preferred: string, default: Option<string>)
    ensures var r := Element(data, lookupOrder, name, preferred, default);
      (name !in DcElements ==> r == Failure(ValueError("Element " + name + " is not a Dublin Core element.")))
      && (name in DcElements && name !in data ==> r == Success([default]))
      && (name in DcElements && name in data && preferred in data[name] ==> r == Success(data[name][preferred]))
    ensures var r := Element(data, lookupOrder, name, preferred, default);
      name in DcElements && name in data && preferred !in data[name] ==>
        var order := lookupOrder + [Unspecified];
        (r.Failure? <==> forall j :: 0 <= j < |order| ==> order[j] !in data[name])
        && (r.Failure? ==> r.error == KeyError(preferred))
        && (r.Success? ==>
              exists k :: 0 <= k < |order| && order[k] in data[name] && r.value == data[name][order[k]]
                && forall j :: 0 <= j < k ==> order[j] !in data[name])
  {
    if name in DcElements && name in data && preferred !in data[name] {
      var langs := data[name];
      var order := lookupOrder + [Unspecified];
      var k := FirstWhere(order, (l: string) => l in langs);
    }
  }

  /**
   * Looked up on freshly parsed data, a present element in a present language gives its texts
   * in document order, and an element absent from the document gives `[default]`.
   */
  lemma ElementOfParsed(children: seq<DcChild>, lookupOrder: seq<string>, e: string, l: string, default: Option<string>)
    requires e in DcElements
    ensures (exists c :: c in children && c.element == e && LangOf(c) == l) ==>
      Element(Parsed(children), lookupOrder, e, l, default) == Success(Texts(children, e, l))
    ensures (forall c :: c in children ==> c.element != e) ==>
      Element(Parsed(children), lookupOrder, e, l, default) == Success([default])
  {
    ParsedGroups(children, e, l);
  }

  /** A fallback to "unspecified" (as for `creator` without `xml:lang`) when no listed language is present. */
  lemma UnspecifiedFallback(data: DcData, lookupOrder: seq<string>, name: string, preferred: string, default: Option<string>)
    requires name in DcElements && name in data && preferred !in data[name]
    requires Unspecified in data[name] && forall j :: 0 <= j < |lookupOrder| ==> lookupOrder[j] !in data[name]
    ensures Element(data, lookupOrder, name, preferred, default) == Success(data[name][Unspecified])
  {
    var order := lookupOrder + [Unspecified];
    ElementCases(data, lookupOrder, name, preferred, default);
    assert order[|lookupOrder|] in data[name];
    forall j | 0 <= j < |lookupOrder| ensures order[j] !in data[name] {
      assert order[j] == lookupOrder[j];
    }
  }

  /** `f"{v}"`: a missing text formats as "None". */
  function Formatted(v: Option<string>): string {
    v.GetOr("None")
  }

  /** The texts of `values`, none of which is missing. */
  function Present(values: seq<Option<string>>): (r: seq<string>)
    requires forall k :: 0 <= k < |values| ==> values[k].Some?
    ensures |r| == |values| && forall k :: 0 <= k < |r| ==> values[k] == Some(r[k])
  {
    seq(|values|, k requires 0 <= k < |values| => values[k].value)
  }

  /** The TypeError of `str.join` for a None at position `k`. */
  function NoneItem(k: nat): Error {
    TypeError("sequence item " + Decimal(k) + ": expected str instance, NoneType found")
  }

  /** `sep.join(values)`: the joined texts, or TypeError at the first missing text. */
  function JoinTexts(values: seq<Option<string>>, sep: string): (r: Result<string, Error>)
    ensures r.Success? <==> forall k :: 0 <= k < |values| ==> values[k].Some?
    ensures r.Success? ==> r.value == Join(Present(values), sep)
    ensures r.Failure? ==>
      exists k :: 0 <= k < |values| && values[k].None? && (forall j :: 0 <= j < k ==> values[j].Some?)
        && r.error == NoneItem(k)
  {
    match FirstWhere(values, (v: Option<string>) => v.None?)
    case Some(k) => Failure(NoneItem(k))
    case None => Success(Join(Present(values), sep))
  }

  /**
   * `get_element_as_str` on the list of values: a single value as it is (None included); two
   * rights values as "licence (url)", a missing one written "None"; anything else joined with
   * "; ", which raises TypeError for a missing text.
   */
  function Flatten(name: string, values: seq<Option<string>>): Result<Option<string>, Error> {
    if |values| == 1 then Success(values[0])
    else if name == "rights" && |values| == 2 then Success(Some(Formatted(values[0]) + " (" + Formatted(values[1]) + ")"))
    else
      var s :- JoinTexts(values, "; ");
      Success(Some(s))
  }

  /** `get_element_as_str`: the looked-up values, flattened. */
  function ElementAsStr(data: DcData, lookupOrder: seq<string>, name: string, preferred: string, default: Option<string>)
    : Result<Option<string>, Error>
  {
    var values :- Element(data, lookupOrder, name, preferred, default);
    Flatten(name, values)
  }

  /**
   * The shapes of `get_element_as_str`: a lone value (possibly None), a rights pair, a "; "-joined
   * list, and the TypeError of a list holding a missing text.
   */
  lemma FlattenCases(name: string, values: seq<Option<string>>)
    ensures |values| == 1 ==> Flatten(name, values) == Success(values[0])
    ensures |values| == 2 && name == "rights" ==>
      Flatten(name, values) == Success(Some(Formatted(values[0]) + " (" + Formatted(values[1]) + ")"))
    ensures |values| == 2 && name != "rights" && values[0].Some? && values[1].Some? ==>
      Flatten(name, values) == Success(Some(values[0].value + "; " + values[1].value))
    ensures values == [] ==> Flatten(name, values) == Success(Some(""))
    ensures |values| >= 2 && !(name == "rights" && |values| == 2) && values[0] == None ==>
      Flatten(name, values) == Failure(NoneItem(0))
  {
    if |values| == 2 && values[0].Some? && values[1].Some? {
      assert Present(values) == [values[0].value, values[1].value];
      JoinTwo(values[0].value, values[1].value, "; ");
    }
  }

  /** An empty element alone flattens to None: the case `get_rights` treats as "no rights". */
  lemma EmptyElementIsNone(children: seq<DcChild>, lookupOrder: seq<string>, e: string, default: Option<string>)
    requires e in DcElements && children == [DcChild(e, None, None)]
    ensures ElementAsStr(Parsed(children), lookupOrder, e, "en", default) == Success(None)
  {
    var data := Parsed(children);
    ParsedGroups(children, e, "en");
    ParsedGroups(children, e, Unspecified);
    assert children[0] in children;
    assert Texts(children, e, Unspecified) == [None];
    assert "en" !in data[e];
    var order := lookupOrder + [Unspecified];
    ElementCases(data, lookupOrder, e, "en", default);
    var r := Element(data, lookupOrder, e, "en", default);
    assert order[|lookupOrder|] in data[e];
    if r.Success? {
      var k :| 0 <= k < |order| && order[k] in data[e] && r.value == data[e][order[k]];
      assert order[k] == Unspecified by {
        var c :| c in children && c.element == e && LangOf(c) == order[k];
      }
    }
  }

  lemma {:induction false} JoinSeparators(values: seq<string>)
    requires values != []
    requires forall k :: 0 <= k < |values| ==> ';' !in values[k]
    ensures CountChar(Join(values, "; "), ';') == |values| - 1
  {
    CountCharAbsent(values[0], ';');
    if |values| > 1 {
      JoinSeparators(values[1..]);
      CountCharAppend(values[0] + "; ", Join(values[1..], "; "), ';');
      CountCharAppend(values[0], "; ", ';');
    }
  }

  /**
   * Reading a flattened list back: when no text is missing or holds a ';' and the rights
   * special case does not apply, splitting the string at ';' gives one piece per value.
   */
  lemma FlattenSplits(name: string, values: seq<Option<string>>)
    requires values != [] && !(name == "rights" && |values| == 2)
    requires forall k :: 0 <= k < |values| ==> values[k].Some? && ';' !in values[k].value
    ensures Flatten(name, values).Success? && Flatten(name, values).value.Some?
    ensures |SplitOn(Flatten(name, values).value.value, ';')| == |values|
  {
    var texts := Present(values);
    SplitOnParts(Flatten(name, values).value.value, ';');
    if |values| == 1 {
      CountCharAbsent(texts[0], ';');
    } else {
      JoinSeparators(texts);
    }
  }

  /** The data of one DC.xml and the lookup order given at construction. */
  class DublinCore {
    var path: Path
    var lookupOrder: seq<string>
    var data: DcData

    constructor (path: Path, lookupOrder: seq<string>, children: seq<DcChild>)
      ensures this.path == path && this.lookupOrder == lookupOrder
      ensures data == Parsed(children)
    {
      this.path := path;
      this.lookupOrder := lookupOrder;
      var parsed := ParseChildren(children);
      data := parsed;
    }

    method GetElement(name: string, preferredLang: string, default: Option<string>)
      returns (r: Result<seq<Option<string>>, Error>)
      ensures r == Element(data, lookupOrder, name, preferredLang, default)
    {
      if name !in DcElements {
        return Failure(ValueError("Element " + name + " is not a Dublin Core element."));
      }
      if name !in data {
        return Success([default]);
      }
      var lang := preferredLang;
      if lang !in data[name] {
        var order := lookupOrder + [Unspecified];
        var i := 0;
        while i < |order|
          invariant i <= |order|
          invariant forall j :: 0 <= j < i ==> order[j] !in data[name]
        {
          if order[i] in data[name] {
            lang := order[i];
            break;
          }
          i := i + 1;
        }
      }
      if lang !in data[name] {
        return Failure(KeyError(lang));
      }
      return Success(data[name][lang]);
    }

    method GetElementAsStr(name: string, preferredLang: string, default: Option<string>)
      returns (r: Result<Option<string>, Error>)
      ensures var e := Element(data, lookupOrder, name, preferredLang, default);
        (e.Failure? ==> r == Failure(e.error)) && (e.Success? ==> r == Flatten(name, e.value))
    {
      var values := GetElement(name, preferredLang, default);
      if values.Failure? {
        return Failure(values.error);
      }
      var vs := values.value;
      if |vs| == 1 {
        return Success(vs[0]);
      }
      if name == "rights" && |vs| == 2 {
        return Success(Some(Formatted(vs[0]) + " (" + Formatted(vs[1]) + ")"));
      }
      var joined := JoinTexts(vs, "; ");
      if joined.Failure? {
        return Failure(joined.error);
      }
      return Success(Some(joined.value));
    }
  }
}
