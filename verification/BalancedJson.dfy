/**
 * The scanner that finds JSON inside prose (`findBalancedJSON`), against the grammar of RFC 8259.
 */
module BalancedJson {
  import opened Text

  /***** What "balanced" means *****/

  /** Where a position stands with respect to string literals. */
  datatype Lex = Outside | Inside | Escaped

  function LexStep(l: Lex, c: char): Lex {
    match l
    case Outside => if c == '"' then Inside else Outside
    case Inside => if c == '\\' then Escaped else if c == '"' then Outside else Inside
    case Escaped => Inside
  }

  function LexAfter(s: string): Lex {
    if s == "" then Outside else LexStep(LexAfter(s[..|s| - 1]), s[|s| - 1])
  }

  /** Occurrences of `ch` outside string literals. */
  function Count(s: string, ch: char): nat {
    if s == "" then 0
    else Count(s[..|s| - 1], ch) +
         if LexAfter(s[..|s| - 1]) == Outside && s[|s| - 1] == ch then 1 else 0
  }

  predicate IsOpener(c: char) { c == '{' || c == '[' }

  function CloserOf(c: char): char { if c == '{' then '}' else ']' }

  /** Openers of one kind minus their closers. */
  function Depth(s: string, o: char): int { Count(s, o) - Count(s, CloserOf(o)) }

  /** As many openers as closers of the kind `s` starts with, string literals not counted. */
  predicate Balanced(s: string) {
    s != "" && IsOpener(s[0]) && Depth(s, s[0]) == 0
  }

  predicate FirstOpener(text: string, start: int) {
    0 <= start < |text| && IsOpener(text[start]) &&
    forall i :: 0 <= i < start ==> !IsOpener(text[i])
  }

  /** `r` is the shortest balanced slice that begins at the first opener, or "" when there is none. */
  ghost predicate Found(text: string, r: string) {
    forall start :: FirstOpener(text, start) ==>
      if r == "" then forall e :: start < e <= |text| ==> !Balanced(text[start..e])
      else start + |r| <= |text| && r == text[start..start + |r|] && Balanced(r) &&
           forall e :: start < e < start + |r| ==> !Balanced(text[start..e])
  }

  lemma ScanOne(text: string, start: nat, i: nat, o: char)
    requires start <= i < |text| && IsOpener(o)
    ensures LexAfter(text[start..i + 1]) == LexStep(LexAfter(text[start..i]), text[i])
    ensures Depth(text[start..i + 1], o) ==
            Depth(text[start..i], o) +
            if LexAfter(text[start..i]) != Outside then 0
            else if text[i] == o then 1 else if text[i] == CloserOf(o) then -1 else 0
  {
    var s := text[start..i + 1];
    assert s[..|s| - 1] == text[start..i];
  }

  lemma EmptyScan()
    ensures LexAfter("") == Outside && forall ch :: Count("", ch) == 0
  {
  }

  /** `findBalancedJSON`. */
  method FindBalancedJSON(text: string) returns (r: string)
    ensures (forall i :: 0 <= i < |text| ==> !IsOpener(text[i])) ==> r == ""
    ensures Found(text, r)
  {
    hide LexAfter, Count;
    var start := 0;
    while start < |text| && !IsOpener(text[start])
      invariant 0 <= start <= |text|
      invariant forall i :: 0 <= i < start ==> !IsOpener(text[i])
    {
      start := start + 1;
    }
    if start == |text| { return ""; }
    var openCh, closeCh := text[start], CloserOf(text[start]);
    var depth := 0;
    var inStr, escape := false, false;
    var i := start;
    EmptyScan();
    assert text[start..i] == "";
    while i < |text|
      invariant start <= i <= |text|
      invariant LexAfter(text[start..i]) == if !inStr then Outside else if escape then Escaped else Inside
      invariant !inStr ==> !escape
      invariant depth == Depth(text[start..i], openCh)
      invariant if i == start then depth == 0 && !inStr else depth > 0
      invariant forall e :: start < e <= i ==> !Balanced(text[start..e])
    {
      var c := text[i];
      ScanOne(text, start, i, openCh);
      i := i + 1;
      if inStr {
        if escape {
          escape := false;
        } else if c == '\\' {
          escape := true;
        } else if c == '"' {
          inStr := false;
        }
        continue;
      }
      if c == '"' {
        inStr := true;
      } else if c == openCh {
        depth := depth + 1;
      } else if c == closeCh {
        depth := depth - 1;
        if depth == 0 {
          return text[start..i];
        }
      }
    }
    return "";
  }

  lemma FoundIsUnique(text: string, a: string, b: string, start: int)
    requires FirstOpener(text, start) && Found(text, a) && Found(text, b)
    ensures a == b
  {
  }

  /***** JSON texts: RFC 8259, sections 2 to 7 *****/

  /** The white space allowed around structural characters (section 2). */
  type Ws = s: string | forall i :: 0 <= i < |s| ==> s[i] in {' ', '\t', '\n', '\r'} witness ""

  /** The literal names and all numbers (sections 3 and 6) are such lexemes. */
  type Lexeme = s: string | forall i :: 0 <= i < |s| ==> s[i] !in {'"', '{', '}', '[', ']'} witness ""

  /** A character of a string literal (section 7); `\uXXXX` is an escaped `u` and four unescaped digits. */
  datatype StrChar = Unescaped(c: PlainChar) | Escape(e: char)
  type PlainChar = c: char | c != '"' && c != '\\' witness 'a'

  datatype Value =
    | Scalar(text: Lexeme)
    | Str(chars: seq<StrChar>)
    | Array(pad: Ws, items: seq<Item>)
    | Object(pad: Ws, members: seq<Member>)
  datatype Item = Item(before: Ws, value: Value, after: Ws)
  datatype Member = Member(before: Ws, key: seq<StrChar>, gap: Ws, sep: Ws, value: Value, after: Ws)

  function PrintChars(cs: seq<StrChar>): string {
    if cs == [] then ""
    else PrintChars(cs[..|cs| - 1]) +
         match cs[|cs| - 1] { case Unescaped(c) => [c] case Escape(e) => ['\\', e] }
  }

  function PrintStr(cs: seq<StrChar>): string { "\"" + PrintChars(cs) + "\"" }

  function Print(v: Value): string
    decreases v
  {
    match v
    case Scalar(text) => text
    case Str(chars) => PrintStr(chars)
    case Array(pad, items) => "[" + (if items == [] then pad else PrintItems(items)) + "]"
    case Object(pad, members) => "{" + (if members == [] then pad else PrintMembers(members)) + "}"
  }

  function PrintItems(items: seq<Item>): string
    requires items != []
    decreases items
  {
    var i := items[0];
    i.before + Print(i.value) + i.after + if |items| == 1 then "" else "," + PrintItems(items[1..])
  }

  function PrintMembers(members: seq<Member>): string
    requires members != []
    decreases members
  {
    var m := members[0];
    m.before + PrintStr(m.key) + m.gap + ":" + m.sep + Print(m.value) + m.after +
    if |members| == 1 then "" else "," + PrintMembers(members[1..])
  }

  /***** Printed JSON is balanced and no proper prefix of it is *****/

  predicate NoDip(s: string, o: char, c: char) {
    forall k :: 0 <= k <= |s| ==> Count(s[..k], o) >= Count(s[..k], c)
  }

  /** Complete: ends outside string literals, both kinds of brackets match and never go negative. */
  predicate Complete(s: string) {
    && LexAfter(s) == Outside
    && Count(s, '{') == Count(s, '}') && NoDip(s, '{', '}')
    && Count(s, '[') == Count(s, ']') && NoDip(s, '[', ']')
  }

  lemma {:induction false} Concatenation(a: string, b: string, ch: char)
    requires LexAfter(a) == Outside
    ensures LexAfter(a + b) == LexAfter(b)
    ensures Count(a + b, ch) == Count(a, ch) + Count(b, ch)
  {
    if b == "" {
      assert a + b == a;
    } else {
      assert (a + b)[..|a + b| - 1] == a + b[..|b| - 1];
      Concatenation(a, b[..|b| - 1], ch);
    }
  }

  lemma NoDipConcat(a: string, b: string, o: char, c: char)
    requires LexAfter(a) == Outside && Count(a, o) >= Count(a, c)
    requires NoDip(a, o, c) && NoDip(b, o, c)
    ensures NoDip(a + b, o, c)
  {
    forall k | 0 <= k <= |a + b| ensures Count((a + b)[..k], o) >= Count((a + b)[..k], c) {
      if k <= |a| {
        assert (a + b)[..k] == a[..k];
      } else {
        assert (a + b)[..k] == a + b[..k - |a|];
        Concatenation(a, b[..k - |a|], o);
        Concatenation(a, b[..k - |a|], c);
      }
    }
  }

  lemma CompleteConcat(a: string, b: string)
    requires Complete(a) && Complete(b)
    ensures Complete(a + b)
  {
    Concatenation(a, b, '{');
    Concatenation(a, b, '}');
    Concatenation(a, b, '[');
    Concatenation(a, b, ']');
    NoDipConcat(a, b, '{', '}');
    NoDipConcat(a, b, '[', ']');
  }

  lemma {:induction false} NoneCounted(s: string, ch: char)
    requires ch !in s
    ensures Count(s, ch) == 0
  {
    if s != "" { NoneCounted(s[..|s| - 1], ch); }
  }

  lemma {:induction false} PlainStaysOutside(s: string)
    requires '"' !in s
    ensures LexAfter(s) == Outside
  {
    if s != "" { PlainStaysOutside(s[..|s| - 1]); }
  }

  lemma PlainComplete(s: string)
    requires forall i :: 0 <= i < |s| ==> s[i] !in {'"', '{', '}', '[', ']'}
    ensures Complete(s)
  {
    PlainStaysOutside(s);
    forall k | 0 <= k <= |s|
      ensures Count(s[..k], '{') == Count(s[..k], '}') == Count(s[..k], '[') == Count(s[..k], ']') == 0
    {
      NoneCounted(s[..k], '{');
      NoneCounted(s[..k], '}');
      NoneCounted(s[..k], '[');
      NoneCounted(s[..k], ']');
    }
    assert s[..|s|] == s;
  }

  /** A text whose first character is a quote that stays open counts nothing. */
  ghost predicate Quoted(s: string) {
    s != "" && s[0] == '"' && forall k :: 0 < k <= |s| ==> LexAfter(s[..k]) != Outside
  }

  lemma {:induction false} QuotedCountsNothing(s: string, ch: char)
    requires Quoted(s) && ch != '"'
    ensures Count(s, ch) == 0
  {
    var p := s[..|s| - 1];
    assert s[..|s|] == s;
    if p != "" {
      forall k | 0 < k <= |p| ensures LexAfter(p[..k]) != Outside { assert p[..k] == s[..k]; }
      assert p[..|p|] == p;
      QuotedCountsNothing(p, ch);
    }
  }

  lemma QuotedSnoc(s: string, c: char)
    requires Quoted(s) && LexStep(LexAfter(s), c) != Outside
    ensures Quoted(s + [c]) && LexAfter(s + [c]) == LexStep(LexAfter(s), c)
  {
    var t := s + [c];
    assert t[..|s|] == s && t[..|t|] == t;
    forall k | 0 < k <= |t| ensures LexAfter(t[..k]) != Outside {
      if k <= |s| { assert t[..k] == s[..k]; }
    }
  }

  lemma {:induction false} CharsStayInside(cs: seq<StrChar>)
    ensures Quoted("\"" + PrintChars(cs)) && LexAfter("\"" + PrintChars(cs)) == Inside
  {
    var q := "\"" + PrintChars(cs);
    if cs == [] {
      assert q == "\"" && q[..0] == "" && q[..1] == q;
    } else {
      var p := "\"" + PrintChars(cs[..|cs| - 1]);
      CharsStayInside(cs[..|cs| - 1]);
      match cs[|cs| - 1]
      case Unescaped(c) =>
        QuotedSnoc(p, c);
        assert q == p + [c];
      case Escape(e) =>
        QuotedSnoc(p, '\\');
        QuotedSnoc(p + ['\\'], e);
        assert q == p + ['\\'] + [e];
    }
  }

  lemma StrComplete(cs: seq<StrChar>)
    ensures Complete(PrintStr(cs))
  {
    var q := "\"" + PrintChars(cs);
    var s := PrintStr(cs);
    CharsStayInside(cs);
    assert s == q + ['"'] && s[..|s| - 1] == q && s[..|s|] == s;
    forall k, ch | 0 <= k <= |s| && ch != '"' ensures Count(s[..k], ch) == 0 {
      StrCountsNothing(q, k, ch);
    }
  }

  lemma StrCountsNothing(q: string, k: nat, ch: char)
    requires Quoted(q) && LexAfter(q) == Inside && k <= |q| + 1 && ch != '"'
    ensures Count((q + ['"'])[..k], ch) == 0
  {
    var s := q + ['"'];
    if 0 < k <= |q| {
      var p := s[..k];
      assert p == q[..k];
      forall j | 0 < j <= |p| ensures LexAfter(p[..j]) != Outside { assert p[..j] == q[..j]; }
      QuotedCountsNothing(p, ch);
    } else if k == |s| {
      assert s[..k] == s && s[..|s| - 1] == q;
      QuotedCountsNothing(q, ch);
    }
  }

  /** What a prefix of a bracketed text counts. */
  lemma WrapCounts(o: char, body: string, k: nat, ch: char)
    requires IsOpener(o) && 0 < k <= |body| + 1
    ensures Count(([o] + body + [CloserOf(o)])[..k], ch) == Count(body[..k - 1], ch) + if ch == o then 1 else 0
  {
    assert ([o] + body + [CloserOf(o)])[..k] == [o] + body[..k - 1];
    assert [o][..0] == "";
    Concatenation([o], body[..k - 1], ch);
  }

  lemma WrapWhole(o: char, body: string, ch: char)
    requires IsOpener(o) && LexAfter(body) == Outside
    ensures LexAfter([o] + body + [CloserOf(o)]) == Outside
    ensures Count([o] + body + [CloserOf(o)], ch) ==
            Count(body, ch) + (if ch == o then 1 else 0) + if ch == CloserOf(o) then 1 else 0
  {
    var s := [o] + body + [CloserOf(o)];
    assert s[..|s| - 1] == [o] + body && [o][..0] == "";
    Concatenation([o], body, ch);
  }

  lemma WrapNoDip(o: char, body: string, m: char)
    requires IsOpener(o) && IsOpener(m) && Complete(body)
    ensures NoDip([o] + body + [CloserOf(o)], m, CloserOf(m))
  {
    var s := [o] + body + [CloserOf(o)];
    WrapWhole(o, body, m);
    WrapWhole(o, body, CloserOf(m));
    assert s[..|s|] == s;
    forall k | 0 <= k <= |s| ensures Count(s[..k], m) >= Count(s[..k], CloserOf(m)) {
      if 0 < k < |s| {
        WrapCounts(o, body, k, m);
        WrapCounts(o, body, k, CloserOf(m));
      }
    }
  }

  /** Brackets around a complete text: complete, and unmatched at every proper prefix. */
  lemma WrapComplete(o: char, body: string)
    requires IsOpener(o) && Complete(body)
    ensures var s := [o] + body + [CloserOf(o)];
      && Complete(s) && Balanced(s)
      && forall k :: 0 < k < |s| ==> Count(s[..k], o) > Count(s[..k], CloserOf(o))
  {
    var s := [o] + body + [CloserOf(o)];
    WrapNoDip(o, body, '{');
    WrapNoDip(o, body, '[');
    WrapWhole(o, body, '{');
    WrapWhole(o, body, '}');
    WrapWhole(o, body, '[');
    WrapWhole(o, body, ']');
    forall k | 0 < k < |s| ensures Count(s[..k], o) > Count(s[..k], CloserOf(o)) {
      WrapCounts(o, body, k, o);
      WrapCounts(o, body, k, CloserOf(o));
    }
  }

  lemma {:induction false} PrintComplete(v: Value)
    ensures Complete(Print(v))
    decreases v
  {
    match v
    case Scalar(text) => PlainComplete(text);
    case Str(chars) => StrComplete(chars);
    case Array(pad, items) =>
      if items == [] { PlainComplete(pad); WrapComplete('[', pad); }
      else { ItemsComplete(items); WrapComplete('[', PrintItems(items)); }
    case Object(pad, members) =>
      if members == [] { PlainComplete(pad); WrapComplete('{', pad); }
      else { MembersComplete(members); WrapComplete('{', PrintMembers(members)); }
  }

  lemma {:induction false} ItemsComplete(items: seq<Item>)
    requires items != []
    ensures Complete(PrintItems(items))
    decreases items
  {
    var i := items[0];
    PlainComplete(i.before);
    PrintComplete(i.value);
    PlainComplete(i.after);
    CompleteConcat(i.before, Print(i.value));
    CompleteConcat(i.before + Print(i.value), i.after);
    var first := i.before + Print(i.value) + i.after;
    if |items| == 1 {
      assert first + "" == first;
    } else {
      ItemsComplete(items[1..]);
      PlainComplete(",");
      CompleteConcat(",", PrintItems(items[1..]));
      CompleteConcat(first, "," + PrintItems(items[1..]));
    }
  }

  lemma {:induction false} MembersComplete(members: seq<Member>)
    requires members != []
    ensures Complete(PrintMembers(members))
    decreases members
  {
    var m := members[0];
    PlainComplete(m.before);
    StrComplete(m.key);
    PlainComplete(m.gap);
    PlainComplete(":");
    PlainComplete(m.sep);
    PrintComplete(m.value);
    PlainComplete(m.after);
    var p1 := m.before + PrintStr(m.key);
    CompleteConcat(m.before, PrintStr(m.key));
    var p2 := p1 + m.gap;
    CompleteConcat(p1, m.gap);
    var p3 := p2 + ":";
    CompleteConcat(p2, ":");
    var p4 := p3 + m.sep;
    CompleteConcat(p3, m.sep);
    var p5 := p4 + Print(m.value);
    CompleteConcat(p4, Print(m.value));
    var p6 := p5 + m.after;
    CompleteConcat(p5, m.after);
    if |members| == 1 {
      assert p6 + "" == p6;
    } else {
      MembersComplete(members[1..]);
      PlainComplete(",");
      CompleteConcat(",", PrintMembers(members[1..]));
      CompleteConcat(p6, "," + PrintMembers(members[1..]));
    }
  }

  /***** Main result *****/

  /**
   * Every JSON array or object is found exactly, whatever opener-free prose precedes it and whatever
   * follows it: any answer the scanner may give on such a text is the printed value.
   */
  lemma FindsEveryJson(prefix: string, v: Value, suffix: string, r: string)
    requires forall i :: 0 <= i < |prefix| ==> !IsOpener(prefix[i])
    requires v.Array? || v.Object?
    requires Found(prefix + Print(v) + suffix, r)
    ensures r == Print(v)
  {
    var p := Print(v);
    var text := prefix + p + suffix;
    var start := |prefix|;
    assert text[start] == p[0];
    assert FirstOpener(text, start);
    var o := p[0];
    var body := p[1..|p| - 1];
    assert p == [o] + body + [CloserOf(o)];
    match v {
      case Array(pad, items) =>
        if items == [] { PlainComplete(pad); assert body == pad; }
        else { ItemsComplete(items); assert body == PrintItems(items); }
      case Object(pad, members) =>
        if members == [] { PlainComplete(pad); assert body == pad; }
        else { MembersComplete(members); assert body == PrintMembers(members); }
    }
    WrapComplete(o, body);
    forall e | start < e < start + |p| ensures !Balanced(text[start..e]) {
      assert text[start..e] == p[..e - start];
    }
    assert text[start..start + |p|] == p;
    assert Found(text, p);
    FoundIsUnique(text, r, p, start);
  }

  lemma PrintStarts(v: Value)
    requires v.Array? || v.Object?
    ensures Print(v) != "" && IsOpener(Print(v)[0])
  {
  }

  /**
   * The scanner starts at the JSON if and only if no opener stands in the prose before it; otherwise
   * whatever it returns starts at that earlier opener.
   */
  lemma ScanStartsAtJson(prefix: string, v: Value, suffix: string, r: string, start: nat)
    requires v.Array? || v.Object?
    requires var text := prefix + Print(v) + suffix; Found(text, r) && FirstOpener(text, start)
    ensures start <= |prefix|
    ensures start == |prefix| <==> forall i :: 0 <= i < |prefix| ==> !IsOpener(prefix[i])
    ensures r == "" || At(prefix + Print(v) + suffix, r, start)
  {
    var p := Print(v);
    var text := prefix + p + suffix;
    PrintStarts(v);
    assert text[|prefix|] == p[0];
    assert forall i :: 0 <= i < |prefix| ==> text[i] == prefix[i];
  }

  /**
   * The opener is looked for without regard to string literals, so a bracket quoted in the prose
   * hides the JSON after it.
   */
  lemma QuotedOpenerWins()
    ensures Found("\"{}\" {\"a\":1}", "{}")
  {
    var t := "\"{}\" {\"a\":1}";
    assert t[1..3] == "{}" && t[1..2] == "{";
    assert "{}"[..1] == "{" && "{"[..0] == "";
    assert FirstOpener(t, 1);
    forall start | FirstOpener(t, start) ensures start == 1 {
      assert !IsOpener(t[0]) && IsOpener(t[1]);
    }
    assert Count("{", '{') == 1 && Count("{", '}') == 0;
    assert Count("{}", '{') == 1 && Count("{}", '}') == 1;
  }
}
