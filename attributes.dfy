/** The token's two attributes, `id` and `label`, and how they map to and
    from the `data-id` / `data-label` attributes of the external markup. */
module Attributes {
  import opened JsText

  /** An attribute bag of an element: attribute name to value. */
  type AttrMap = map<Text, Text>

  /** `node.attrs` of a variable token; both default to null. The `label`
      attribute is `labelText` here, `label` being a Dafny keyword. */
  datatype Attrs = Attrs(id: Option<Text>, labelText: Option<Text>)

  const DEFAULT_ATTRS: Attrs := Attrs(None, None)

  /** The node type's name, also the value of its `data-type` marker. */
  const NAME: Text := Units("variable")
  const SPAN: Text := Units("span")
  const DATA_TYPE: Text := Units("data-type")
  const DATA_ID: Text := Units("data-id")
  const DATA_LABEL: Text := Units("data-label")

  /** Keys of an attribute bag, made distinct once here. */
  lemma KeysDistinct()
    ensures DATA_ID != DATA_LABEL && DATA_ID != DATA_TYPE && DATA_LABEL != DATA_TYPE
  {
    assert DATA_ID[5] != DATA_LABEL[5];
    assert DATA_ID[5] != DATA_TYPE[5];
    assert DATA_LABEL[5] != DATA_TYPE[5];
  }

  /** The attribute merge the host library provides: keys of both bags, a key
      present in both taking the value of the later bag. */
  function Merge(a: AttrMap, b: AttrMap): (m: AttrMap)
    ensures m.Keys == a.Keys + b.Keys
    ensures forall k :: k in b ==> m[k] == b[k]
    ensures forall k :: k in a && k !in b ==> m[k] == a[k]
  {
    a + b
  }

  /** Rendering of `id`: `{'data-id': id}` when `id` is truthy, otherwise no key at all. */
  function RenderId(a: Attrs): (m: AttrMap)
    ensures m.Keys <= {DATA_ID}
    ensures DATA_ID in m <==> Truthy(a.id)
    ensures DATA_ID in m ==> m[DATA_ID] == a.id.value
  {
    if !Truthy(a.id) then map[] else map[DATA_ID := a.id.value]
  }

  /** Rendering of `label`: `{'data-label': label}` when `label` is truthy, otherwise no key. */
  function RenderLabel(a: Attrs): (m: AttrMap)
    ensures m.Keys <= {DATA_LABEL}
    ensures DATA_LABEL in m <==> Truthy(a.labelText)
    ensures DATA_LABEL in m ==> m[DATA_LABEL] == a.labelText.value
  {
    if !Truthy(a.labelText) then map[] else map[DATA_LABEL := a.labelText.value]
  }

  /** The bag the host hands to the node's renderer: both attribute renderings merged. */
  function RenderAttributes(a: Attrs): (m: AttrMap)
    ensures m.Keys <= {DATA_ID, DATA_LABEL}
    ensures DATA_ID in m <==> Truthy(a.id)
    ensures DATA_LABEL in m <==> Truthy(a.labelText)
  {
    KeysDistinct();
    Merge(RenderId(a), RenderLabel(a))
  }

  /** Parsing of `id`: `getAttribute('data-id')`, null when the attribute is absent. */
  function ParseId(el: AttrMap): (v: Option<Text>)
    ensures v.Some? <==> DATA_ID in el
    ensures v.Some? ==> v.value == el[DATA_ID]
  {
    if DATA_ID in el then Some(el[DATA_ID]) else None
  }

  /** Parsing of `label`: `getAttribute('data-label')`, null when the attribute is absent. */
  function ParseLabel(el: AttrMap): (v: Option<Text>)
    ensures v.Some? <==> DATA_LABEL in el
    ensures v.Some? ==> v.value == el[DATA_LABEL]
  {
    if DATA_LABEL in el then Some(el[DATA_LABEL]) else None
  }

  function ParseAttributes(el: AttrMap): Attrs
  {
    Attrs(ParseId(el), ParseLabel(el))
  }

  /** What survives rendering: a falsy value ("" or null) becomes null. */
  function Canonical(v: Option<Text>): (w: Option<Text>)
    ensures Truthy(v) ==> w == v
    ensures !Truthy(v) ==> w == None
  {
    if Truthy(v) then v else None
  }

  /** Render then parse gives back every truthy value exactly and null for every falsy one. */
  lemma RoundTrip(a: Attrs)
    ensures ParseAttributes(RenderAttributes(a)) == Attrs(Canonical(a.id), Canonical(a.labelText))
    ensures Truthy(a.id) && Truthy(a.labelText) ==> ParseAttributes(RenderAttributes(a)) == a
    ensures a.id.None? && a.labelText.None? ==> ParseAttributes(RenderAttributes(a)) == DEFAULT_ATTRS
  {
    KeysDistinct();
  }

  /** Parse then render keeps exactly the non-empty `data-id` and `data-label` entries. */
  lemma ParseThenRender(el: AttrMap)
    ensures RenderAttributes(ParseAttributes(el))
         == map k | k in el && (k == DATA_ID || k == DATA_LABEL) && el[k] != [] :: el[k]
  {
    KeysDistinct();
  }

  /** The parse rule `span[data-type="variable"]`. */
  predicate ParseRuleMatches(tag: Text, el: AttrMap)
  {
    tag == SPAN && DATA_TYPE in el && el[DATA_TYPE] == NAME
  }

  /** Recognising an external element as a token: unmatched elements are not
      claimed; a matched one yields the attributes it carries. */
  function ParseElement(tag: Text, el: AttrMap): (r: Option<Attrs>)
    ensures r.Some? <==> ParseRuleMatches(tag, el)
    ensures r.Some? ==> r.value.id == ParseId(el) && r.value.labelText == ParseLabel(el)
  {
    if ParseRuleMatches(tag, el) then Some(ParseAttributes(el)) else None
  }
}
