/** JavaScript strings as sequences of UTF-16 code units, with the few string
    operations the variable extension uses (`startsWith`, `toLowerCase`,
    template interpolation of a possibly-null value). */
module JsText {

  /** The conventional Some/None datatype; `None` stands for JavaScript `null`. */
  datatype Option<+T> = None | Some(value: T)

  /** One UTF-16 code unit, the value `charCodeAt` returns. */
  newtype CodeUnit = x: int | 0 <= x < 0x1_0000

  /** A JavaScript string. */
  type Text = seq<CodeUnit>

  /** Every character of `s` lies in the Basic Multilingual Plane, so it is one code unit. */
  predicate IsBmp(s: string)
  {
    forall i :: 0 <= i < |s| ==> s[i] as int < 0x1_0000
  }

  /** The code units of a BMP string literal. */
  function Units(s: string): (t: Text)
    requires IsBmp(s)
    ensures |t| == |s|
    ensures forall i :: 0 <= i < |s| ==> t[i] as int == s[i] as int
  {
    seq(|s|, i requires 0 <= i < |s| => s[i] as int as CodeUnit)
  }

  /** `s.startsWith(p)` */
  predicate StartsWith(s: Text, p: Text)
  {
    |p| <= |s| && s[..|p|] == p
  }

  /** Lower-cases one code unit; only the ASCII letters A-Z are mapped. */
  function LowerUnit(c: CodeUnit): (d: CodeUnit)
    ensures 'A' as CodeUnit <= c <= 'Z' as CodeUnit ==> d == c + 32
    ensures !('A' as CodeUnit <= c <= 'Z' as CodeUnit) ==> d == c
  {
    if 'A' as CodeUnit <= c <= 'Z' as CodeUnit then c + 32 else c
  }

  /** `s.toLowerCase()`, restricted to ASCII case mapping. */
  function Lower(s: Text): (t: Text)
    ensures |t| == |s|
    ensures forall i :: 0 <= i < |s| ==> t[i] == LowerUnit(s[i])
  {
    seq(|s|, i requires 0 <= i < |s| => LowerUnit(s[i]))
  }

  /** JavaScript's truthiness of a string-or-null: neither null nor "". */
  predicate Truthy(v: Option<Text>)
  {
    v.Some? && v.value != []
  }

  /** The template literal `${v}`: a null value prints as "null". */
  function Interpolate(v: Option<Text>): (t: Text)
    ensures v.Some? ==> t == v.value
    ensures v.None? ==> t == Units("null")
  {
    match v
    case None => Units("null")
    case Some(s) => s
  }
}
