/** The host editor state the token's commands act on, reduced to one flat
    run of inline content: each item is a text character or a variable token,
    and each occupies one position, as an inline leaf does in the document. */
module Document {
  import opened JsText
  import opened Attributes

  datatype Inline = Char(unit: CodeUnit) | Variable(attrs: Attrs)

  /** The inline content of a text node holding `t`. */
  function Chars(t: Text): (s: seq<Inline>)
    ensures |s| == |t|
    ensures forall i :: 0 <= i < |t| ==> s[i] == Char(t[i])
  {
    seq(|t|, i requires 0 <= i < |t| => Char(t[i]))
  }

  /** How many variable tokens a run of inline content holds. */
  function CountVariables(s: seq<Inline>): nat
  {
    if s == [] then 0 else (if s[0].Variable? then 1 else 0) + CountVariables(s[1..])
  }

  lemma {:induction false} CountVariablesConcat(a: seq<Inline>, b: seq<Inline>)
    ensures CountVariables(a + b) == CountVariables(a) + CountVariables(b)
    decreases |a|
  {
    if a == [] {
      assert a + b == b;
    } else {
      assert (a + b)[1..] == a[1..] + b;
      CountVariablesConcat(a[1..], b);
    }
  }

  lemma {:induction false} CharsHoldNoVariable(t: Text)
    ensures CountVariables(Chars(t)) == 0
    decreases |t|
  {
    if t != [] {
      assert Chars(t)[1..] == Chars(t[1..]);
      CharsHoldNoVariable(t[1..]);
    }
  }

  /** A replace-range step: `[from, to)` of `doc` becomes `ins`; everything
      before `from` and after `to` is kept as it was. */
  function Replace(doc: seq<Inline>, from: nat, to: nat, ins: seq<Inline>): (r: seq<Inline>)
    requires from <= to <= |doc|
    ensures |r| == |doc| - (to - from) + |ins|
    ensures r[..from] == doc[..from]
    ensures r[from..from + |ins|] == ins
    ensures r[from + |ins|..] == doc[to..]
  {
    doc[..from] + ins + doc[to..]
  }

  /** The tokens after a replace are those outside the range plus those inserted. */
  lemma ReplaceCount(doc: seq<Inline>, from: nat, to: nat, ins: seq<Inline>)
    requires from <= to <= |doc|
    ensures CountVariables(Replace(doc, from, to, ins))
         == CountVariables(doc) - CountVariables(doc[from..to]) + CountVariables(ins)
  {
    assert doc == doc[..from] + doc[from..to] + doc[to..];
    CountVariablesConcat(doc[..from] + doc[from..to], doc[to..]);
    CountVariablesConcat(doc[..from], doc[from..to]);
    CountVariablesConcat(doc[..from] + ins, doc[to..]);
    CountVariablesConcat(doc[..from], ins);
  }

  /** The editor: its document content and its selection (anchor and head). */
  class Editor {
    var doc: seq<Inline>
    var anchor: nat
    var head: nat

    ghost predicate Valid()
      reads this
    {
      anchor <= |doc| && head <= |doc|
    }

    /** `selection.empty` */
    predicate SelectionEmpty()
      reads this
    {
      anchor == head
    }

    /** `selection.to`, the end of the selection. */
    function SelectionTo(): (p: nat)
      reads this
      ensures p == anchor || p == head
      ensures anchor <= p && head <= p
    {
      if anchor <= head then head else anchor
    }

    constructor (doc: seq<Inline>, anchor: nat, head: nat)
      requires anchor <= |doc| && head <= |doc|
      ensures Valid()
      ensures this.doc == doc && this.anchor == anchor && this.head == head
    {
      this.doc := doc;
      this.anchor := anchor;
      this.head := head;
    }
  }
}
