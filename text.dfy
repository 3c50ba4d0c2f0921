/**
 * Spreadsheet cells and the text operations the pipeline applies to them:
 * `str.strip()`, `str.lower()`, `astype(str)`, `pd.to_numeric(errors="coerce")`
 * and the substring test `p in s`.
 */
module Text {
  import opened Wrappers

  /** One cell as the table reader delivers it: text, a number with the text
      form `astype(str)` gives it, or a missing value (NaN). */
  datatype Cell = Str(text: string) | Num(value: real, shown: string) | Nan

  /** The characters `str.strip()` removes (the ASCII members of Python's whitespace class). */
  predicate IsSpace(c: char) {
    c == ' ' || c == '\t' || c == '\n' || c == '\r' || c == '\U{B}' || c == '\U{C}'
    || c == '\U{1C}' || c == '\U{1D}' || c == '\U{1E}' || c == '\U{1F}'
  }

  /** `lstrip()`: the longest suffix of `s` that does not start with whitespace. */
  function TrimStart(s: string): (r: string)
    ensures |r| <= |s| && r == s[|s| - |r|..]
    ensures r == [] || !IsSpace(r[0])
    ensures forall i :: 0 <= i < |s| - |r| ==> IsSpace(s[i])
  {
    s[LeadingSpaces(s)..]
  }

  /** The number of whitespace characters `s` starts with. */
  function LeadingSpaces(s: string): (n: nat)
    ensures n <= |s|
    ensures n == |s| || !IsSpace(s[n])
    ensures forall i :: 0 <= i < n ==> IsSpace(s[i])
  {
    if |s| > 0 && IsSpace(s[0]) then 1 + LeadingSpaces(s[1..]) else 0
  }

  /** `rstrip()`: the longest prefix of `s` that does not end with whitespace. */
  function TrimEnd(s: string): (r: string)
    ensures |r| <= |s| && r == s[..|r|]
    ensures r == [] || !IsSpace(r[|r| - 1])
    ensures forall i :: |r| <= i < |s| ==> IsSpace(s[i])
  {
    if |s| > 0 && IsSpace(s[|s| - 1]) then
      var r := TrimEnd(s[..|s| - 1]);
      assert s[..|s| - 1][..|r|] == s[..|r|];
      r
    else s
  }

  /** `strip()`: drops leading and trailing whitespace. */
  function Trim(s: string): (r: string)
    ensures r == [] || (!IsSpace(r[0]) && !IsSpace(r[|r| - 1]))
    ensures r == [] <==> forall i :: 0 <= i < |s| ==> IsSpace(s[i])
    ensures exists a, b :: 0 <= a <= b <= |s| && r == s[a..b]
                           && (forall i :: 0 <= i < a ==> IsSpace(s[i]))
                           && (forall i :: b <= i < |s| ==> IsSpace(s[i]))
  {
    var t := TrimStart(s);
    var r := TrimEnd(t);
    assert r != [] ==> r[0] == t[0];
    assert t != [] ==> t[0] == s[|s| - |t|];
    assert r == s[|s| - |t|..|s| - |t| + |r|];
    r
  }

  /** A string with no whitespace at either end is left alone by `strip()`. */
  lemma TrimTrimmed(s: string)
    requires s == [] || (!IsSpace(s[0]) && !IsSpace(s[|s| - 1]))
    ensures Trim(s) == s
  {
    assert TrimStart(s) == s;
  }

  /** `strip()` is idempotent. */
  lemma TrimIdempotent(s: string)
    ensures Trim(Trim(s)) == Trim(s)
  {
    TrimTrimmed(Trim(s));
  }

  /** `str.lower()` on one character (ASCII letters only). */
  function LowerChar(c: char): (d: char)
    ensures IsSpace(d) == IsSpace(c)
    ensures !('A' <= d <= 'Z')
  {
    if 'A' <= c <= 'Z' then (c as int + 32) as char else c
  }

  /** `str.lower()`. */
  function Lower(s: string): (r: string)
    ensures |r| == |s|
    ensures forall i :: 0 <= i < |s| ==> r[i] == LowerChar(s[i])
  {
    seq(|s|, i requires 0 <= i < |s| => LowerChar(s[i]))
  }

  /** A column label as `columns.str.strip().str.lower()` leaves it. */
  function NormalizeLabel(s: string): (r: string) {
    Lower(Trim(s))
  }

  /** Normalising a label twice changes nothing, so normalised labels are
      fixed points: both inputs can be compared label for label. */
  lemma NormalizeLabelIdempotent(s: string)
    ensures NormalizeLabel(NormalizeLabel(s)) == NormalizeLabel(s)
  {
    var t := Trim(s);
    var l := Lower(t);
    assert l != [] ==> l[0] == LowerChar(t[0]) && l[|l| - 1] == LowerChar(t[|t| - 1]);
    TrimTrimmed(l);
    assert Trim(l) == l;
    assert forall i :: 0 <= i < |l| ==> Lower(l)[i] == LowerChar(LowerChar(t[i])) == l[i];
    assert Lower(l) == l;
  }

  /** A normalised label holds no upper-case letter, so it never equals a
      label the pipeline adds with capitals ("Brand", "Vendor SKU"). */
  lemma NormalizedHasNoCapitals(s: string, i: nat)
    requires i < |NormalizeLabel(s)|
    ensures !('A' <= NormalizeLabel(s)[i] <= 'Z')
  {
  }

  /** Python's substring test `p in s`. */
  predicate Contains(s: string, p: string)
    decreases |s|
  {
    p <= s || (|s| > 0 && Contains(s[1..], p))
  }

  /** `p` occurs in `s` starting at offset `k`. */
  predicate OccursAt(s: string, p: string, k: nat) {
    k + |p| <= |s| && s[k..k + |p|] == p
  }

  /** `p in s` holds exactly when `p` occurs at some offset of `s`. */
  lemma {:induction false} ContainsIff(s: string, p: string)
    ensures Contains(s, p) <==> exists k: nat :: OccursAt(s, p, k)
    decreases |s|
  {
    if p <= s {
      assert OccursAt(s, p, 0);
    } else if |s| > 0 {
      ContainsIff(s[1..], p);
      if Contains(s[1..], p) {
        var k: nat :| OccursAt(s[1..], p, k);
        assert s[k + 1..k + 1 + |p|] == s[1..][k..k + |p|];
        assert OccursAt(s, p, k + 1);
      }
      if exists k: nat :: OccursAt(s, p, k) {
        var k: nat :| OccursAt(s, p, k);
        if k != 0 {
          assert s[1..][k - 1..k - 1 + |p|] == s[k..k + |p|];
          assert OccursAt(s[1..], p, k - 1);
        }
      }
    }
  }

  /** `astype(str)`: a missing value becomes the text "nan". */
  function AsText(c: Cell): (t: string)
    ensures c.Nan? ==> t == "nan"
    ensures c.Str? ==> t == c.text
  {
    match c
    case Str(s) => s
    case Num(_, shown) => shown
    case Nan => "nan"
  }

  /** `pd.to_numeric(errors="coerce")` on one cell; `parse` is the reading of a
      text cell as a number, None when it is not one. */
  function ToNumeric(c: Cell, parse: string -> Option<real>): (r: Option<real>)
    ensures c.Num? ==> r == Some(c.value)
    ensures c.Nan? ==> r == None
  {
    match c
    case Str(s) => parse(s)
    case Num(v, _) => Some(v)
    case Nan => None
  }

  /** `fillna(0)` on a number. */
  function FillZero(x: Option<real>): (r: real)
    ensures x.None? ==> r == 0.0
    ensures x.Some? ==> r == x.value
  {
    if x.Some? then x.value else 0.0
  }

  /** The label a cell stands for as a group key; a missing value is no key. */
  function KeyOf(c: Cell): (k: Option<string>)
    ensures k.None? <==> c.Nan?
  {
    match c
    case Str(s) => Some(s)
    case Num(_, shown) => Some(shown)
    case Nan => None
  }
}
