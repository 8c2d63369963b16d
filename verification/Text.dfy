/** Text operations the SDK takes from Go's `strings` package. */
module Text {

  /** `unicode.IsSpace`. */
  predicate IsSpace(c: char) {
    c == ' ' || '\t' <= c <= '\r' || c == '\U{0085}' || c == '\U{00A0}' || c == '\U{1680}' ||
    '\U{2000}' <= c <= '\U{200A}' || c == '\U{2028}' || c == '\U{2029}' || c == '\U{202F}' ||
    c == '\U{205F}' || c == '\U{3000}'
  }

  /** The white space of Unicode, by code point. */
  lemma SpacesAre(c: char)
    ensures IsSpace(c) <==>
              c as int in {9, 10, 11, 12, 13, 32, 0x85, 0xA0, 0x1680, 0x2000, 0x2001, 0x2002, 0x2003, 0x2004, 0x2005, 0x2006,
                           0x2007, 0x2008, 0x2009, 0x200A, 0x2028, 0x2029, 0x202F, 0x205F, 0x3000}
  {
  }

  predicate Blank(s: string) {
    forall i :: 0 <= i < |s| ==> IsSpace(s[i])
  }

  function TrimLeft(s: string): string {
    if s != "" && IsSpace(s[0]) then TrimLeft(s[1..]) else s
  }

  function TrimRight(s: string): string {
    if s != "" && IsSpace(s[|s| - 1]) then TrimRight(s[..|s| - 1]) else s
  }

  /** `strings.TrimSpace`. */
  function TrimSpace(s: string): string {
    TrimRight(TrimLeft(s))
  }

  lemma {:induction false} TrimLeftSpec(s: string)
    ensures var r := TrimLeft(s);
      && |r| <= |s| && r == s[|s| - |r|..] && Blank(s[..|s| - |r|])
      && (r != "" ==> !IsSpace(r[0]))
  {
    if s != "" && IsSpace(s[0]) {
      TrimLeftSpec(s[1..]);
      var r := TrimLeft(s[1..]);
      assert s[..|s| - |r|] == [s[0]] + s[1..][..|s| - 1 - |r|];
    }
  }

  lemma {:induction false} TrimRightSpec(s: string)
    ensures var r := TrimRight(s);
      && r <= s && Blank(s[|r|..])
      && (r != "" ==> !IsSpace(r[|r| - 1]))
  {
    if s != "" && IsSpace(s[|s| - 1]) {
      TrimRightSpec(s[..|s| - 1]);
      var r := TrimRight(s[..|s| - 1]);
      assert s[|r|..] == s[..|s| - 1][|r|..] + [s[|s| - 1]];
    }
  }

  /** Trimming removes white space on both sides and nothing else. */
  lemma TrimSpec(s: string) returns (a: nat, b: nat)
    ensures a <= b <= |s| && TrimSpace(s) == s[a..b] && Blank(s[..a]) && Blank(s[b..])
    ensures a < b ==> !IsSpace(s[a]) && !IsSpace(s[b - 1])
  {
    var t := TrimLeft(s);
    TrimLeftSpec(s);
    TrimRightSpec(t);
    a := |s| - |t|;
    b := a + |TrimSpace(s)|;
    assert s[b..] == t[|TrimSpace(s)|..];
  }

  lemma {:induction false} TrimLeftDropsBlank(w: string, s: string)
    requires Blank(w)
    ensures TrimLeft(w + s) == TrimLeft(s)
  {
    if w == "" {
      assert w + s == s;
    } else {
      assert (w + s)[1..] == w[1..] + s;
      TrimLeftDropsBlank(w[1..], s);
    }
  }

  /** Two texts that differ only by leading white space have the same trimmed form. */
  lemma TrimDropsBlankPrefix(w: string, s: string)
    requires Blank(w)
    ensures TrimSpace(w + s) == TrimSpace(s)
  {
    TrimLeftDropsBlank(w, s);
  }

  lemma TrimOfBlank(w: string)
    requires Blank(w)
    ensures TrimSpace(w) == ""
  {
    TrimLeftDropsBlank(w, "");
    assert w + "" == w;
  }

  lemma TrimIsFixed(s: string)
    requires s != "" ==> !IsSpace(s[0]) && !IsSpace(s[|s| - 1])
    ensures TrimSpace(s) == s
  {
  }

  lemma TrimTwice(s: string)
    ensures TrimSpace(TrimSpace(s)) == TrimSpace(s)
  {
    var a, b := TrimSpec(s);
    TrimIsFixed(TrimSpace(s));
  }

  /** `strings.TrimSpace(s) == ""` exactly when `s` is white space only. */
  lemma TrimEmptyIffBlank(s: string)
    ensures TrimSpace(s) == "" <==> Blank(s)
  {
    if Blank(s) { TrimOfBlank(s); }
    var a, b := TrimSpec(s);
    if a == b { assert s == s[..a] + s[b..]; }
  }

  /** Concatenation of a list of texts. */
  function Flatten(parts: seq<string>): string {
    if parts == [] then "" else Flatten(parts[..|parts| - 1]) + parts[|parts| - 1]
  }

  lemma FlattenSnoc(parts: seq<string>, p: string)
    ensures Flatten(parts + [p]) == Flatten(parts) + p
  {
    assert (parts + [p])[..|parts|] == parts;
  }

  /** `strings.Contains`, by the position of an occurrence. */
  predicate At(s: string, p: string, i: int) {
    0 <= i && i + |p| <= |s| && s[i..i + |p|] == p
  }

  ghost predicate Contains(s: string, p: string) {
    exists i :: At(s, p, i)
  }

  ghost predicate FirstAt(s: string, p: string, i: int) {
    At(s, p, i) && forall j :: 0 <= j < i ==> !At(s, p, j)
  }

  /** `strings.Index`: the first occurrence, or -1. */
  function Index(s: string, p: string): (i: int)
    ensures i == -1 || (0 <= i && i + |p| <= |s|)
  {
    IndexFrom(s, p, 0)
  }

  function IndexFrom(s: string, p: string, k: nat): (i: int)
    ensures i == -1 || (0 <= i && i + |p| <= |s|)
    decreases |s| + 1 - k
  {
    if At(s, p, k) then k
    else if k >= |s| then -1
    else IndexFrom(s, p, k + 1)
  }

  lemma {:induction false} IndexFromIsFirst(s: string, p: string, k: nat)
    requires forall j :: 0 <= j < k ==> !At(s, p, j)
    ensures IndexFrom(s, p, k) == -1 <==> !Contains(s, p)
    ensures IndexFrom(s, p, k) != -1 ==> FirstAt(s, p, IndexFrom(s, p, k))
    decreases |s| + 1 - k
  {
    if !At(s, p, k) && k < |s| { IndexFromIsFirst(s, p, k + 1); }
  }

  lemma IndexIsFirst(s: string, p: string)
    ensures Index(s, p) == -1 <==> !Contains(s, p)
    ensures Index(s, p) != -1 ==> FirstAt(s, p, Index(s, p))
  {
    IndexFromIsFirst(s, p, 0);
  }

  lemma SplitAtIndex(s: string, p: string)
    requires Index(s, p) != -1
    ensures var i := Index(s, p); s == s[..i] + p + s[i + |p|..]
  {
    IndexIsFirst(s, p);
  }

  lemma IndexIsUnique(s: string, p: string, i: nat)
    requires FirstAt(s, p, i)
    ensures Index(s, p) == i
  {
    IndexIsFirst(s, p);
  }
}
