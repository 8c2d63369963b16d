/** Decimal numerals as the session manager prints them, and the identifiers built from them. */
module Identifiers {
  import opened Common

  const MIN := -0x8000_0000_0000_0000
  const MAX := 0x7FFF_FFFF_FFFF_FFFF

  /** Go's 64-bit `int`. */
  type Int64 = n: int | MIN <= n <= MAX

  function Negate(n: Int64): Int64 { if n == MIN then MIN else -n }

  function Increment(n: Int64): Int64 { if n == MAX then MIN else n + 1 }

  /***** Numerals *****/

  function Digit(d: nat): char
    requires d < 10
  {
    '0' + d as char
  }

  predicate IsDigit(c: char) { '0' <= c <= '9' }

  /** The numeral of a natural number. */
  function Decimal(n: nat): string {
    if n < 10 then [Digit(n)] else Decimal(n / 10) + [Digit(n % 10)]
  }

  function Value(s: string): nat {
    if s == "" || !IsDigit(s[|s| - 1]) then 0 else 10 * Value(s[..|s| - 1]) + (s[|s| - 1] - '0') as nat
  }

  /** Reading a numeral back. */
  function Parse(s: string): Option<int> {
    if s != "" && s[0] == '-' then (if Numeric(s[1..]) then var v: int := Value(s[1..]); Some(0 - v) else None)
    else if Numeric(s) then Some(Value(s)) else None
  }

  predicate Numeric(s: string) { s != "" && forall i :: 0 <= i < |s| ==> IsDigit(s[i]) }

  lemma {:induction false} DecimalRoundTrip(n: nat)
    ensures Numeric(Decimal(n)) && Value(Decimal(n)) == n
  {
    if n < 10 {
      assert Decimal(n)[..0] == "";
    } else {
      DecimalRoundTrip(n / 10);
      assert Decimal(n)[..|Decimal(n)| - 1] == Decimal(n / 10);
    }
  }

  function Pow10(k: nat): nat { if k == 0 then 1 else 10 * Pow10(k - 1) }

  lemma TwentyDigits()
    ensures Pow10(20) > MAX
  {
    assert Pow10(4) == 10000;
    assert Pow10(8) == 10000 * Pow10(4);
    assert Pow10(12) == 10000 * Pow10(8);
    assert Pow10(16) == 10000 * Pow10(12);
    assert Pow10(20) == 10000 * Pow10(16);
  }

  lemma DecimalOfZero()
    ensures Decimal(0) == "0"
  {
  }

  /** One digit: there is room for it, and it goes before the digits that are there. */
  lemma FillStep(v: nat, i: nat, rest: string)
    requires 0 < v < Pow10(i)
    ensures i > 0 && v / 10 < Pow10(i - 1)
    ensures Decimal(v) + rest == (if v / 10 > 0 then Decimal(v / 10) else "") + ([Digit(v % 10)] + rest)
  {
  }

  /**
   * `itoa`. The index into the 20-byte buffer stays in range; the least integer, which has no
   * negation, comes out as a bare sign.
   */
  method Itoa(n: Int64) returns (s: string)
    ensures s == if n == MIN then "-" else if n < 0 then "-" + Decimal(-n) else Decimal(n)
  {
    hide Decimal, Pow10;
    DecimalOfZero();
    if n == 0 { return "0"; }
    var sign, v := "", n;
    if v < 0 {
      sign := "-";
      v := Negate(v);
    }
    var buf := new char[20];
    var i := 20;
    ghost var whole := v;
    TwentyDigits();
    while v > 0
      invariant 0 <= i <= 20
      invariant v >= 0 ==> v < Pow10(i)
      invariant v < 0 ==> v == whole && i == 20
      invariant whole > 0 && v > 0 ==> Decimal(whole) == Decimal(v) + buf[i..]
      invariant whole > 0 && v == 0 ==> Decimal(whole) == buf[i..]
      invariant v >= 0 ==> whole > 0
    {
      FillStep(v, i, buf[i..]);
      i := i - 1;
      ghost var before := buf[i + 1..];
      buf[i] := Digit(v % 10);
      assert buf[i..] == [Digit(v % 10)] + before;
      v := v / 10;
    }
    s := sign + buf[i..];
    assert "-" + buf[20..] == "-";
  }

  /** Printing is undone by parsing for every integer but the least. */
  lemma ItoaDecodes(n: Int64, s: string)
    requires s == if n == MIN then "-" else if n < 0 then "-" + Decimal(-n) else Decimal(n)
    ensures Parse(s) == Some(n as int) <==> n != MIN
  {
    if n == MIN {
    } else if n < 0 {
      DecimalRoundTrip(-n);
      assert s[1..] == Decimal(-n);
    } else {
      DecimalRoundTrip(n);
    }
  }

  /***** Identifiers: a name, a separator without digits at its end, a numeral *****/

  /** A text that ends in a separator and then only digits. */
  ghost predicate NumberedFrom(s: string, k: nat) {
    0 < k <= |s| && !IsDigit(s[k - 1]) && forall i :: k <= i < |s| ==> IsDigit(s[i])
  }

  lemma NumberedOnce(s: string, j: nat, k: nat)
    requires NumberedFrom(s, j) && NumberedFrom(s, k)
    ensures j == k
  {
  }

  lemma NumberedText(a: string, sep: string, n: nat)
    requires sep != "" && !IsDigit(sep[|sep| - 1])
    ensures NumberedFrom(a + sep + Decimal(n), |a| + |sep|)
  {
    DecimalRoundTrip(n);
    var s, k := a + sep + Decimal(n), |a| + |sep|;
    assert s[k - 1] == sep[|sep| - 1];
    assert forall i :: k <= i < |s| ==> s[i] == Decimal(n)[i - k];
  }

  /** The numeral at the end of a text and what precedes it are determined. */
  lemma SuffixDetermined(a: string, m: nat, b: string, n: nat, sep: string)
    requires sep != "" && !IsDigit(sep[|sep| - 1])
    requires a + sep + Decimal(m) == b + sep + Decimal(n)
    ensures a == b && m == n
  {
    var s := a + sep + Decimal(m);
    NumberedText(a, sep, m);
    NumberedText(b, sep, n);
    NumberedOnce(s, |a| + |sep|, |b| + |sep|);
    assert s[|a| + |sep|..] == Decimal(m) && s[|b| + |sep|..] == Decimal(n);
    assert s[..|a|] == a && s[..|b|] == b;
    DecimalRoundTrip(m);
    DecimalRoundTrip(n);
  }

  function ForkId(base: string, n: nat): string { base + "#fork-" + Decimal(n) }

  function UserId(session: string, n: nat): string { session + "-u" + Decimal(n) }

  /** What identifiers look like. */
  lemma IdentifiersRead(session: string)
    ensures UserId(session, 12) == session + "-u12" && ForkId(session, 7) == session + "#fork-7"
    ensures Forks.Base(session) == if session == "" then "default" else session
  {
    assert Decimal(12) == Decimal(1) + [Digit(2)];
    assert Decimal(1) == "1" && Decimal(7) == "7" && "1" + "2" == "12";
    assert "-u" + "12" == "-u12" && "#fork-" + "7" == "#fork-7";
  }

  lemma ForkIdInjective(a: string, m: nat, b: string, n: nat)
    ensures ForkId(a, m) == ForkId(b, n) ==> a == b && m == n
  {
    if ForkId(a, m) == ForkId(b, n) { SuffixDetermined(a, m, b, n, "#fork-"); }
  }

  lemma UserIdInjective(a: string, m: nat, b: string, n: nat)
    ensures UserId(a, m) == UserId(b, n) ==> a == b && m == n
  {
    if UserId(a, m) == UserId(b, n) { SuffixDetermined(a, m, b, n, "-u"); }
  }

  /** The fork counters of a session manager. */
  class Forks {
    var counters: map<string, Int64>

    /** Every identifier issued so far, as its base and number. */
    ghost var issued: seq<(string, nat)>

    ghost function Counter(base: string): int
      reads this
    {
      if base in counters then counters[base] else 0
    }

    /** No counter has wrapped, numbers are within their counter, and no identifier came twice. */
    ghost predicate Valid()
      reads this
    {
      && (forall b :: b in counters ==> counters[b] >= 0)
      && (forall i :: 0 <= i < |issued| ==> issued[i].1 <= Counter(issued[i].0))
      && (forall i, j :: 0 <= i < j < |issued| ==> Text(issued[i]) != Text(issued[j]))
    }

    static function Text(id: (string, nat)): string { ForkId(id.0, id.1) }

    constructor ()
      ensures Valid() && issued == [] && counters == map[]
    {
      counters, issued := map[], [];
    }

    static function Base(base: string): string { if base == "" then "default" else base }

    /** `NewForkID`. The counter must have room: a wrapped one would start over. */
    method NewForkID(base: string) returns (id: string)
      requires Valid() && Counter(Base(base)) < MAX
      modifies this
      ensures Valid() && forall i :: 0 <= i < |old(issued)| ==> id != Text(old(issued)[i])
      ensures id == ForkId(Base(base), Counter(Base(base)))
      ensures issued == old(issued) + [(Base(base), Counter(Base(base)))]
      ensures forall b :: Counter(b) == old(Counter(b)) + if b == Base(base) then 1 else 0
    {
      var b := if base == "" then "default" else base;
      var next := Increment(if b in counters then counters[b] else 0);
      counters := counters[b := next];
      var n := Itoa(next);
      id := b + "#fork-" + n;
      forall i | 0 <= i < |issued| ensures Text(issued[i]) != id {
        ForkIdInjective(issued[i].0, issued[i].1, b, next);
      }
      issued := issued + [(b, next)];
    }

    /** Over all bases, a manager never issues the same fork identifier twice. */
    method IssueAll(bases: seq<string>) returns (ids: seq<string>)
      requires Valid() && forall b :: Counter(b) + |bases| <= MAX
      modifies this
      ensures Valid() && |ids| == |bases|
      ensures forall i, j :: 0 <= i < j < |ids| ==> ids[i] != ids[j]
      ensures forall i, j :: 0 <= i < |ids| && 0 <= j < |old(issued)| ==> ids[i] != Text(old(issued)[j])
    {
      ids := [];
      for k := 0 to |bases|
        invariant Valid() && |ids| == k && |issued| == |old(issued)| + k
        invariant forall i :: 0 <= i < |old(issued)| ==> issued[i] == old(issued)[i]
        invariant forall i :: 0 <= i < k ==> ids[i] == Text(issued[|old(issued)| + i])
        invariant forall b :: Counter(b) + |bases| - k <= MAX
      {
        var id := NewForkID(bases[k]);
        ids := ids + [id];
      }
    }
  }
}
