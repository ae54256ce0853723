/** String building as Python's f-strings and `str` methods do it. */
module Text {
  import opened Wrappers

  /** `"".join(ss)` */
  function Concat(ss: seq<string>): string {
    if ss == [] then "" else Concat(ss[..|ss| - 1]) + ss[|ss| - 1]
  }

  lemma ConcatSnoc(ss: seq<string>, s: string)
    ensures Concat(ss + [s]) == Concat(ss) + s
  {
    assert (ss + [s])[..|ss|] == ss;
  }

  function DigitChar(d: nat): char
    requires d < 10
  {
    "0123456789"[d]
  }

  /** Decimal rendering of a natural number, as `str(n)`. */
  function NatToString(n: nat): (s: string)
    ensures |s| >= 1
    ensures forall i :: 0 <= i < |s| ==> '0' <= s[i] <= '9'
  {
    if n < 10 then [DigitChar(n)] else NatToString(n / 10) + [DigitChar(n % 10)]
  }

  /** The number a string of decimal digits denotes, read from its last digit. */
  function DecimalValue(s: string): nat
    requires forall i :: 0 <= i < |s| ==> '0' <= s[i] <= '9'
  {
    if s == [] then 0 else DecimalValue(s[..|s| - 1]) * 10 + (s[|s| - 1] as int - '0' as int)
  }

  /** `str(n)` reads back as `n`. */
  lemma {:induction false} NatToStringValue(n: nat)
    ensures DecimalValue(NatToString(n)) == n
  {
    var s := NatToString(n);
    if n >= 10 {
      assert s[..|s| - 1] == NatToString(n / 10);
      NatToStringValue(n / 10);
    }
  }

  /** `str(i)` for an integer. */
  function IntToString(i: int): string {
    if i < 0 then "-" + NatToString(-i) else NatToString(i)
  }

  /** An optional string as an f-string renders it: None becomes "None". */
  function ShowStr(s: Option<string>): string {
    match s
    case None => "None"
    case Some(v) => v
  }

  /** An optional integer as an f-string renders it. */
  function ShowInt(i: Option<int>): string {
    match i
    case None => "None"
    case Some(v) => IntToString(v)
  }

  function Repeat(c: char, n: nat): (r: string)
    ensures |r| == n && forall i :: 0 <= i < n ==> r[i] == c
  {
    if n == 0 then "" else Repeat(c, n - 1) + [c]
  }

  /** `s.rstrip(c)` for a single character `c`. */
  function TrimTrailing(s: string, c: char): string {
    if s != [] && s[|s| - 1] == c then TrimTrailing(s[..|s| - 1], c) else s
  }

  /** `rstrip` removes exactly the run of `c` at the end, and nothing else. */
  lemma {:induction false} TrimTrailingSpec(s: string, c: char)
    ensures var r := TrimTrailing(s, c);
      && |r| <= |s|
      && (r == [] || r[|r| - 1] != c)
      && s == r + Repeat(c, |s| - |r|)
  {
    if s != [] && s[|s| - 1] == c {
      var p := s[..|s| - 1];
      TrimTrailingSpec(p, c);
      var r := TrimTrailing(p, c);
      assert TrimTrailing(s, c) == r;
      assert Repeat(c, |s| - |r|) == Repeat(c, |p| - |r|) + [c];
      assert s == p + [c];
    }
  }
}
