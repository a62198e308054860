/** The palette hash: an identifier is coloured by the sum of its UTF-16 code
    units modulo the size of a fixed seven-colour table. */
module Palette {
  import opened JsText

  /** The colour table, in order; each entry is a six-digit hex colour. */
  const COLORS: seq<Text> := [
    Units("ab7df6"),
    Units("7f8fa4"),
    Units("26c1c9"),
    Units("fd7b1f"),
    Units("e0102b"),
    Units("40b630"),
    Units("0079c4")
  ]

  /** The sum of the code units of `s`, added left to right. */
  function CodeUnitSum(s: Text): nat
  {
    if s == [] then 0 else CodeUnitSum(s[..|s| - 1]) + s[|s| - 1] as nat
  }

  /** The table index `generatePalette` selects for `id`. */
  function ColorIndex(id: Text): (k: nat)
    ensures k < |COLORS|
    ensures (k - CodeUnitSum(id)) % |COLORS| == 0
  {
    CodeUnitSum(id) % |COLORS|
  }

  /** `generatePalette`: accumulate the code units of `id`, then index the table. */
  method GeneratePalette(id: Text) returns (color: Text)
    ensures color == COLORS[ColorIndex(id)]
    ensures color in COLORS
  {
    var i := 0;
    var a := 0;
    while a < |id|
      invariant 0 <= a <= |id|
      invariant i == CodeUnitSum(id[..a])
    {
      assert id[..a + 1][..a] == id[..a];
      i := i + id[a] as int;
      a := a + 1;
    }
    assert id[..a] == id;
    color := COLORS[i % |COLORS|];
  }

  /** The empty identifier takes the first colour. */
  lemma EmptyIdColor()
    ensures ColorIndex([]) == 0
    ensures COLORS[ColorIndex([])] == Units("ab7df6")
  {
  }

  lemma {:induction false} CodeUnitSumConcat(a: Text, b: Text)
    ensures CodeUnitSum(a + b) == CodeUnitSum(a) + CodeUnitSum(b)
    decreases |b|
  {
    if b == [] {
      assert a + b == a;
    } else {
      var b' := b[..|b| - 1];
      assert (a + b)[..|a + b| - 1] == a + b';
      CodeUnitSumConcat(a, b');
    }
  }

  /** Taking out the code unit at `k` lowers the sum by exactly that unit. */
  lemma CodeUnitSumRemove(b: Text, k: nat)
    requires k < |b|
    ensures CodeUnitSum(b) == CodeUnitSum(b[..k] + b[k + 1..]) + b[k] as nat
  {
    var p, x, q := b[..k], b[k], b[k + 1..];
    assert b == (p + [x]) + q;
    CodeUnitSumConcat(p + [x], q);
    CodeUnitSumConcat(p, [x]);
    CodeUnitSumConcat(p, q);
    assert [x][..0] == [];
  }

  /** Removing the unit at `k` removes one occurrence of it from the multiset. */
  lemma MultisetRemove(b: Text, k: nat)
    requires k < |b|
    ensures multiset(b[..k] + b[k + 1..]) == multiset(b) - multiset{b[k]}
  {
    assert b == b[..k] + [b[k]] + b[k + 1..];
    calc {
      multiset(b);
      multiset(b[..k]) + multiset([b[k]]) + multiset(b[k + 1..]);
      multiset(b[..k] + b[k + 1..]) + multiset{b[k]};
    }
  }

  /** The sum does not depend on the order of the code units. */
  lemma {:induction false} CodeUnitSumPermutation(a: Text, b: Text)
    requires multiset(a) == multiset(b)
    ensures CodeUnitSum(a) == CodeUnitSum(b)
    decreases |a|
  {
    if a == [] {
      assert |b| == |multiset(b)|;
    } else {
      var n := |a| - 1;
      assert a[n] in multiset(b);
      var k :| 0 <= k < |b| && b[k] == a[n];
      MultisetRemove(a, n);
      MultisetRemove(b, k);
      assert a[..n] + a[n + 1..] == a[..n];
      CodeUnitSumPermutation(a[..n], b[..k] + b[k + 1..]);
      CodeUnitSumRemove(b, k);
    }
  }

  /** Identifiers made of the same code units, in any order, get the same colour. */
  lemma ColorPermutationInvariant(a: Text, b: Text)
    requires multiset(a) == multiset(b)
    ensures ColorIndex(a) == ColorIndex(b)
  {
    CodeUnitSumPermutation(a, b);
  }
}
