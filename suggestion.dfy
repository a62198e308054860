/** The callbacks the variable extension gives the trigger-character
    suggestion engine: the default candidate provider (`items`) and the
    commit of a chosen candidate (`command`). */
module Suggestion {
  import opened JsText
  import opened Attributes
  import opened Document

  /** A candidate; `label` is `labelText` here, `label` being a Dafny keyword. */
  datatype Item = Item(labelText: Text, value: Text)

  /** The built-in candidates, in order. */
  const DEFAULT_ITEMS: seq<Item> := [
    Item(Units("Primeiro Nome"), Units("{{ contact.contactFirstname }}")),
    Item(Units("Sobrenome"), Units("{{ contact.contactLastname }}")),
    Item(Units("E-mail"), Units("{{ contact.contactEmail }}")),
    Item(Units("Telefone"), Units("{{ contact.contactPhone }}"))
  ]

  /** `.slice(0, 5)` bounds the candidate list. */
  const MAX_ITEMS: nat := 5

  /** `item.label.toLowerCase().startsWith(query.toLowerCase())` */
  predicate LabelMatches(item: Item, query: Text)
  {
    StartsWith(Lower(item.labelText), Lower(query))
  }

  /** `a` is `b` with some elements dropped, the rest kept in order. */
  predicate IsSublist<T(==)>(a: seq<T>, b: seq<T>)
    decreases |b|
  {
    a == [] || (b != [] && ((a[0] == b[0] && IsSublist(a[1..], b[1..])) || IsSublist(a, b[1..])))
  }

  lemma {:induction false} SublistLength<T>(a: seq<T>, b: seq<T>)
    requires IsSublist(a, b)
    ensures |a| <= |b|
    decreases |b|
  {
    if a != [] {
      if a[0] == b[0] && IsSublist(a[1..], b[1..]) {
        SublistLength(a[1..], b[1..]);
      } else {
        SublistLength(a, b[1..]);
      }
    }
  }

  lemma {:induction false} SublistPrefix<T>(a: seq<T>, b: seq<T>, k: nat)
    requires IsSublist(a, b) && k <= |a|
    ensures IsSublist(a[..k], b)
    decreases |b|
  {
    if k > 0 {
      if a[0] == b[0] && IsSublist(a[1..], b[1..]) {
        SublistPrefix(a[1..], b[1..], k - 1);
        assert a[..k][1..] == a[1..][..k - 1];
      } else {
        SublistPrefix(a, b[1..], k);
      }
    }
  }

  /** `items.filter(item => LabelMatches(item, query))`: exactly the matching
      items, in their original order. */
  function FilterByLabel(items: seq<Item>, query: Text): (r: seq<Item>)
    ensures IsSublist(r, items)
    ensures forall i :: 0 <= i < |r| ==> LabelMatches(r[i], query)
    ensures forall i :: 0 <= i < |items| && LabelMatches(items[i], query) ==> items[i] in r
    decreases |items|
  {
    if items == [] then []
    else
      var rest := FilterByLabel(items[1..], query);
      assert forall i :: 1 <= i < |items| ==> items[i] == items[1..][i - 1];
      if LabelMatches(items[0], query) then [items[0]] + rest else rest
  }

  /** The filter keeps every matching item as many times as it occurs, and
      no other item. */
  lemma {:induction false} FilterCounts(items: seq<Item>, query: Text)
    ensures forall x :: multiset(FilterByLabel(items, query))[x]
                     == if LabelMatches(x, query) then multiset(items)[x] else 0
    decreases |items|
  {
    if items != [] {
      FilterCounts(items[1..], query);
      assert items == [items[0]] + items[1..];
    }
  }

  /** The default `items` provider: the matching built-in candidates, at most five. */
  function DefaultItems(query: Text): (r: seq<Item>)
    ensures |r| <= MAX_ITEMS
    ensures IsSublist(r, DEFAULT_ITEMS)
    ensures forall i :: 0 <= i < |r| ==> LabelMatches(r[i], query)
    ensures forall i :: 0 <= i < |DEFAULT_ITEMS| && LabelMatches(DEFAULT_ITEMS[i], query) ==> DEFAULT_ITEMS[i] in r
  {
    var matching := FilterByLabel(DEFAULT_ITEMS, query);
    SublistLength(matching, DEFAULT_ITEMS);
    var k := if |matching| < MAX_ITEMS then |matching| else MAX_ITEMS;
    SublistPrefix(matching, DEFAULT_ITEMS, k);
    matching[..k]
  }

  /** When every item matches, the filter keeps the whole list. */
  lemma {:induction false} FilterKeepsAllMatching(items: seq<Item>, query: Text)
    requires forall i :: 0 <= i < |items| ==> LabelMatches(items[i], query)
    ensures FilterByLabel(items, query) == items
    decreases |items|
  {
    if items != [] {
      FilterKeepsAllMatching(items[1..], query);
    }
  }

  /** An empty query offers every built-in candidate, in order. */
  lemma DefaultItemsEmptyQuery()
    ensures DefaultItems([]) == DEFAULT_ITEMS
  {
    assert Lower([]) == [];
    FilterKeepsAllMatching(DEFAULT_ITEMS, []);
  }

  /** A label whose first unit differs, after lower-casing, from the query's does not match. */
  lemma FirstUnitMismatch(item: Item, query: Text)
    requires 0 < |query| && 0 < |item.labelText|
    requires LowerUnit(item.labelText[0]) != LowerUnit(query[0])
    ensures !LabelMatches(item, query)
  {
  }

  /** A one-unit query that lower-cases to "e" selects only "E-mail". */
  lemma OnlyEmailMatches(query: Text)
    requires |query| == 1 && LowerUnit(query[0]) == 'e' as CodeUnit
    ensures FilterByLabel(DEFAULT_ITEMS, query) == [DEFAULT_ITEMS[2]]
  {
    var e := DEFAULT_ITEMS[2];
    assert Lower(e.labelText)[..1] == Lower(query);
    assert LabelMatches(e, query);
    FirstUnitMismatch(DEFAULT_ITEMS[0], query);
    FirstUnitMismatch(DEFAULT_ITEMS[1], query);
    FirstUnitMismatch(DEFAULT_ITEMS[3], query);
    assert DEFAULT_ITEMS[3..][1..] == [];
    assert FilterByLabel(DEFAULT_ITEMS[3..], query) == [];
    assert DEFAULT_ITEMS[2..][1..] == DEFAULT_ITEMS[3..];
    assert FilterByLabel(DEFAULT_ITEMS[2..], query) == [e];
    assert DEFAULT_ITEMS[1..][1..] == DEFAULT_ITEMS[2..];
    assert FilterByLabel(DEFAULT_ITEMS[1..], query) == [e];
  }

  /** Only "E-mail" starts with "e", in either case. */
  lemma DefaultItemsQueryE()
    ensures DefaultItems(Units("e")) == [DEFAULT_ITEMS[2]]
    ensures DefaultItems(Units("E")) == [DEFAULT_ITEMS[2]]
  {
    OnlyEmailMatches(Units("e"));
    OnlyEmailMatches(Units("E"));
  }

  /** The suggestion range `{from, to}` the engine hands to `command`. */
  class SuggestionRange {
    var from: nat
    var to: nat

    constructor (from: nat, to: nat)
      ensures this.from == from && this.to == to
    {
      this.from := from;
      this.to := to;
    }
  }

  /** `$to.nodeAfter?.text?.startsWith(' ')`: a text node beginning with a space follows `pos`. */
  predicate FollowedBySpace(doc: seq<Inline>, pos: nat)
  {
    pos < |doc| && doc[pos] == Char(' ' as CodeUnit)
  }

  /** `command`: swallow one following space by widening the range, then
      replace the range with a single token carrying `props`, leaving the
      cursor right after it. The requires says the (possibly widened) range
      lies inside the document, which the replace step needs. */
  method Command(editor: Editor, range: SuggestionRange, props: Attrs)
    requires editor.Valid()
    requires range.from <= range.to <= |editor.doc|
    requires FollowedBySpace(editor.doc, editor.SelectionTo()) ==> range.to < |editor.doc|
    modifies editor, range
    ensures editor.Valid()
    ensures range.from == old(range.from)
    ensures range.to == old(range.to) + if FollowedBySpace(old(editor.doc), old(editor.SelectionTo())) then 1 else 0
    ensures editor.doc == Replace(old(editor.doc), range.from, range.to, [Variable(props)])
    ensures editor.anchor == editor.head == range.from + 1
  {
    var overrideSpace := FollowedBySpace(editor.doc, editor.SelectionTo());
    if overrideSpace {
      range.to := range.to + 1;
    }
    editor.doc := Replace(editor.doc, range.from, range.to, [Variable(props)]);
    editor.anchor, editor.head := range.from + 1, range.from + 1;
  }

  /** A commit adds exactly one token and removes those the range covered. */
  lemma CommitCount(doc: seq<Inline>, from: nat, to: nat, props: Attrs)
    requires from <= to <= |doc|
    ensures CountVariables(Replace(doc, from, to, [Variable(props)]))
         == CountVariables(doc) - CountVariables(doc[from..to]) + 1
    ensures Replace(doc, from, to, [Variable(props)])[from] == Variable(props)
  {
    ReplaceCount(doc, from, to, [Variable(props)]);
    assert [Variable(props)][1..] == [];
  }
}
