/** The PHP string functions the code relies on, on strings of characters:
 *  case mapping of ASCII letters, decimal rendering of integers, `strpos`,
 *  `explode`, and the byte order `ksort` applies to string keys. */
module Strings {
  import opened Base

  function LowerChar(c: char): char {
    if 'A' <= c <= 'Z' then (c as int + 32) as char else c
  }

  function UpperChar(c: char): char {
    if 'a' <= c <= 'z' then (c as int - 32) as char else c
  }

  /** `strtolower` (ASCII letters only). */
  function Lower(s: string): (r: string)
    ensures |r| == |s|
    ensures forall i :: 0 <= i < |s| ==> r[i] == LowerChar(s[i])
  {
    seq(|s|, i requires 0 <= i < |s| => LowerChar(s[i]))
  }

  /** `strtoupper` (ASCII letters only). */
  function Upper(s: string): (r: string)
    ensures |r| == |s|
    ensures forall i :: 0 <= i < |s| ==> r[i] == UpperChar(s[i])
  {
    seq(|s|, i requires 0 <= i < |s| => UpperChar(s[i]))
  }

  /** Equality under the case-insensitive collation of the working tables. */
  predicate SameText(a: string, b: string) {
    Lower(a) == Lower(b)
  }

  predicate StartsWith(s: string, p: string) {
    |p| <= |s| && s[..|p|] == p
  }

  function Digit(d: nat): char
    requires d < 10
  {
    "0123456789"[d]
  }

  /** PHP's decimal rendering of a non-negative integer. */
  function NatToString(n: nat): (r: string)
    ensures |r| >= 1
    ensures forall i :: 0 <= i < |r| ==> '0' <= r[i] <= '9'
    decreases n
  {
    if n < 10 then [Digit(n)] else NatToString(n / 10) + [Digit(n % 10)]
  }

  /** PHP's decimal rendering of an integer: `(string) $n`. */
  function IntToString(n: int): (r: string)
    ensures |r| >= 1
    ensures (r[0] == '-') == (n < 0)
  {
    if n < 0 then "-" + NatToString(-n) else NatToString(n)
  }

  /** The value of a non-empty string of decimal digits. */
  predicate AllDigits(s: string) {
    |s| > 0 && forall i :: 0 <= i < |s| ==> '0' <= s[i] <= '9'
  }

  function DigitsValue(s: string): nat
    requires AllDigits(s)
    decreases |s|
  {
    var d := (s[|s| - 1] as int - '0' as int) as nat;
    if |s| == 1 then d else 10 * DigitsValue(s[..|s| - 1]) + d
  }

  /** PHP's conversion of a scalar to a string. */
  function Text(j: Json): string {
    match j
    case JNull => ""
    case JBool(b) => if b then "1" else ""
    case JNum(n) => IntToString(n)
    case JStr(s) => s
    case JList(_) => "Array"
    case JMap(_) => "Array"
    case JObj(_) => ""
  }

  /** PHP's `(int)` cast of a decoded value; a string counts when it is made of
   *  decimal digits only. */
  function IntCast(j: Json): int {
    match j
    case JNull => 0
    case JBool(b) => if b then 1 else 0
    case JNum(n) => n
    case JStr(s) => if AllDigits(s) then DigitsValue(s) else 0
    case JList(xs) => if xs == [] then 0 else 1
    case JMap(es) => if es == [] then 0 else 1
    case JObj(_) => 1
  }

  /** PHP's loose `==` between a decoded value and a string that does not
   *  look like a number (PHP 8 rules). */
  predicate LooseEqualsText(j: Json, s: string) {
    match j
    case JNull => s == ""
    case JBool(b) => b == !EmptyText(Some(s))
    case JNum(n) => IntToString(n) == s
    case JStr(t) => t == s
    case _ => false
  }

  predicate OccursAt(s: string, p: string, i: nat) {
    i + |p| <= |s| && s[i..i + |p|] == p
  }

  /** `strpos($s, $p, $from)`: the first position at or after `from` where `p`
   *  occurs. */
  function IndexFrom(s: string, p: string, from: nat): (r: Option<nat>)
    ensures r.Some? ==> from <= r.value && OccursAt(s, p, r.value)
    ensures r.Some? ==> forall j :: from <= j < r.value ==> !OccursAt(s, p, j)
    ensures r.None? ==> forall j :: from <= j ==> !OccursAt(s, p, j)
    decreases |s| - from
  {
    if from + |p| > |s| then None
    else if s[from..from + |p|] == p then Some(from)
    else IndexFrom(s, p, from + 1)
  }

  /** `strpos($s, $p)`: the first position where `p` occurs, if any. */
  function IndexOf(s: string, p: string): (r: Option<nat>)
    ensures r.Some? ==> OccursAt(s, p, r.value)
    ensures r.Some? ==> forall j :: 0 <= j < r.value ==> !OccursAt(s, p, j)
    ensures r.None? ==> forall j :: 0 <= j ==> !OccursAt(s, p, j)
  {
    IndexFrom(s, p, 0)
  }

  predicate Contains(s: string, p: string) {
    IndexOf(s, p).Some?
  }

  /** `explode($sep, $s)`. */
  function Explode(s: string, sep: string): (r: seq<string>)
    requires |sep| > 0
    ensures |r| >= 1
    decreases |s|
  {
    match IndexOf(s, sep)
    case None => [s]
    case Some(i) => [s[..i]] + Explode(s[i + |sep|..], sep)
  }

  /** `implode($sep, $pieces)`. */
  function Implode(pieces: seq<string>, sep: string): string
    decreases |pieces|
  {
    if pieces == [] then ""
    else if |pieces| == 1 then pieces[0]
    else pieces[0] + sep + Implode(pieces[1..], sep)
  }

  /** A string with no occurrence of `sep` before position `i` keeps none
   *  when cut at `i`. */
  lemma PrefixHasNoSeparator(s: string, sep: string, i: nat)
    requires |sep| > 0 && i <= |s|
    requires forall j :: 0 <= j < i ==> !OccursAt(s, sep, j)
    ensures !Contains(s[..i], sep)
  {
    if Contains(s[..i], sep) {
      var j := IndexOf(s[..i], sep).value;
      assert j + |sep| <= i;
      assert s[..i][j..j + |sep|] == s[j..j + |sep|];
      assert OccursAt(s, sep, j);
      assert false;
    }
  }

  /** Cutting out the first occurrence of `sep` at `i` and gluing the pieces
   *  back with `sep` restores the string. */
  lemma GlueAt(s: string, sep: string, i: nat)
    requires OccursAt(s, sep, i)
    ensures s[..i] + sep + s[i + |sep|..] == s
  {
    assert s == s[..i] + s[i..i + |sep|] + s[i + |sep|..];
  }

  /** `explode` loses nothing: joining its pieces with the separator gives
   *  back the string, and no piece contains the separator. */
  lemma {:induction false} ExplodeImplode(s: string, sep: string)
    requires |sep| > 0
    ensures Implode(Explode(s, sep), sep) == s
    ensures forall k :: 0 <= k < |Explode(s, sep)| ==> !Contains(Explode(s, sep)[k], sep)
    decreases |s|
  {
    var r := Explode(s, sep);
    match IndexOf(s, sep)
    case None =>
      assert r == [s];
      assert s[..|s|] == s;
      PrefixHasNoSeparator(s, sep, |s|);
    case Some(i) =>
      var rest := s[i + |sep|..];
      var tail := Explode(rest, sep);
      assert r == [s[..i]] + tail;
      ExplodeImplode(rest, sep);
      assert Implode(r, sep) == s[..i] + sep + Implode(tail, sep);
      GlueAt(s, sep, i);
      PrefixHasNoSeparator(s, sep, i);
      forall k | 0 <= k < |r|
        ensures !Contains(r[k], sep)
      {
        if k > 0 {
          assert r[k] == tail[k - 1];
        }
      }
  }

  /** The byte order PHP compares non-numeric string keys in. */
  predicate StrLess(a: string, b: string)
    decreases |a|
  {
    if a == [] then b != []
    else if b == [] then false
    else if a[0] != b[0] then a[0] < b[0]
    else StrLess(a[1..], b[1..])
  }

  lemma {:induction false} StrLessIrreflexive(a: string)
    ensures !StrLess(a, a)
    decreases |a|
  {
    if a != [] { StrLessIrreflexive(a[1..]); }
  }

  lemma {:induction false} StrLessTotal(a: string, b: string)
    requires a != b
    ensures StrLess(a, b) || StrLess(b, a)
    decreases |a|
  {
    if a != [] && b != [] && a[0] == b[0] {
      assert a == [a[0]] + a[1..] && b == [b[0]] + b[1..];
      StrLessTotal(a[1..], b[1..]);
    }
  }

  lemma {:induction false} StrLessTransitive(a: string, b: string, c: string)
    requires StrLess(a, b) && StrLess(b, c)
    ensures StrLess(a, c)
    decreases |a|
  {
    if a != [] && b != [] && c != [] && a[0] == b[0] && b[0] == c[0] {
      StrLessTransitive(a[1..], b[1..], c[1..]);
    }
  }

  lemma {:induction false} StrLessAsymmetric(a: string, b: string)
    requires StrLess(a, b)
    ensures !StrLess(b, a)
    decreases |a|
  {
    if a != [] && b != [] && a[0] == b[0] {
      StrLessAsymmetric(a[1..], b[1..]);
    }
  }
}
