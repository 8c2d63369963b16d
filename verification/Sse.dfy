/**
 * Server-sent events (`ParseSSE`). Unlike section 9.2.6 of the WHATWG HTML standard, the code trims
 * field values and dispatches a block that the end of the stream cuts off.
 */
module Sse {
  import opened Common
  import opened Text

  const DONE := "[DONE]"

  /** What reaches the two channels, in order. */
  datatype Emit<J> = Message(value: J) | DecodeError(payload: string) | ScanError

  /***** What a line sequence means *****/

  function HasPrefix(s: string, p: string): bool { p <= s }

  /** The value of a data line; comments and other fields have none. */
  function DataOf(line: string): Option<string> {
    if HasPrefix(line, "data:") then Some(TrimSpace(line[5..])) else None
  }

  /** The blocks between blank lines, the last of them possibly empty. */
  function Blocks(lines: seq<string>): (bs: seq<seq<string>>)
    ensures bs != []
  {
    if lines == [] then [[]]
    else
      var rest := Blocks(lines[1..]);
      if lines[0] == "" then [[]] + rest else [[lines[0]] + rest[0]] + rest[1..]
  }

  function Data(block: seq<string>): seq<string> {
    if block == [] then []
    else (match DataOf(block[0]) case Some(v) => [v] case None => []) + Data(block[1..])
  }

  function Join(vs: seq<string>): string {
    if vs == [] then "" else if |vs| == 1 then vs[0] else vs[0] + "\n" + Join(vs[1..])
  }

  /** One payload per block that has data. */
  function Payloads(blocks: seq<seq<string>>): seq<string> {
    if blocks == [] then []
    else (if Data(blocks[0]) == [] then [] else [Join(Data(blocks[0]))]) + Payloads(blocks[1..])
  }

  function UntilDone(ps: seq<string>): seq<string> {
    if ps == [] || ps[0] == DONE then [] else [ps[0]] + UntilDone(ps[1..])
  }

  function Decoded<J>(ps: seq<string>, decode: string -> Option<J>): seq<Emit<J>> {
    if ps == [] then []
    else [Emission(ps[0], decode)] + Decoded(ps[1..], decode)
  }

  /**
   * The emissions of an uncancelled parse. `[DONE]` stops the scan, and so hides a scanner error,
   * only in a block that a blank line ends.
   */
  function Expected<J>(lines: seq<string>, scanFails: bool, decode: string -> Option<J>): seq<Emit<J>> {
    var bs := Blocks(lines);
    Decoded(UntilDone(Payloads(bs)), decode) +
    if scanFails && DONE !in Payloads(bs[..|bs| - 1]) then [ScanError] else []
  }

  /***** The loop *****/

  function DataList(line: string): seq<string> {
    match DataOf(line) case Some(v) => [v] case None => []
  }

  /** The payloads still to come after `pending` data lines of the current block; `tail`: the cut-off block too. */
  function Remaining(pending: seq<string>, lines: seq<string>, tail: bool): seq<string>
    decreases |lines|
  {
    if lines == [] then (if tail && pending != [] then [Join(pending)] else [])
    else if lines[0] == "" then (if pending == [] then [] else [Join(pending)]) + Remaining([], lines[1..], tail)
    else Remaining(pending + DataList(lines[0]), lines[1..], tail)
  }

  function Ahead(pending: seq<string>, bs: seq<seq<string>>): seq<string> {
    if bs == [] then []
    else (if pending + Data(bs[0]) == [] then [] else [Join(pending + Data(bs[0]))]) + Payloads(bs[1..])
  }

  lemma {:induction false} RemainingIsAhead(pending: seq<string>, lines: seq<string>, tail: bool)
    ensures var bs := Blocks(lines); Remaining(pending, lines, tail) == Ahead(pending, if tail then bs else bs[..|bs| - 1])
    decreases |lines|
  {
    if lines == [] {
      assert pending + Data([]) == pending;
      assert (if pending == [] then [] else [Join(pending)]) + [] == if pending == [] then [] else [Join(pending)];
    } else {
      var rest := Blocks(lines[1..]);
      if lines[0] == "" {
        RemainingIsAhead([], lines[1..], tail);
        AheadOfBlank(pending, rest, tail);
      } else {
        RemainingIsAhead(pending + DataList(lines[0]), lines[1..], tail);
        AheadOfLine(pending, lines[0], rest, tail);
      }
    }
  }

  lemma AheadOfBlank(pending: seq<string>, rest: seq<seq<string>>, tail: bool)
    requires rest != []
    ensures var bs := [[]] + rest;
      Ahead(pending, if tail then bs else bs[..|bs| - 1]) ==
      (if pending == [] then [] else [Join(pending)]) + Ahead([], if tail then rest else rest[..|rest| - 1])
  {
    var bs := [[]] + rest;
    var a, b := if tail then bs else bs[..|bs| - 1], if tail then rest else rest[..|rest| - 1];
    assert a[1..] == b && pending + Data([]) == pending;
    if b != [] { assert [] + Data(b[0]) == Data(b[0]); }
  }

  lemma AheadOfLine(pending: seq<string>, line: string, rest: seq<seq<string>>, tail: bool)
    requires rest != []
    ensures var bs := [[line] + rest[0]] + rest[1..];
      Ahead(pending, if tail then bs else bs[..|bs| - 1]) ==
      Ahead(pending + DataList(line), if tail then rest else rest[..|rest| - 1])
  {
    var first := [line] + rest[0];
    var bs := [first] + rest[1..];
    var a, b := if tail then bs else bs[..|bs| - 1], if tail then rest else rest[..|rest| - 1];
    if b != [] {
      assert a[1..] == b[1..] && first[1..] == rest[0];
      assert pending + (DataList(line) + Data(rest[0])) == pending + DataList(line) + Data(rest[0]);
    }
  }

  lemma RemainingAll(lines: seq<string>)
    ensures Remaining([], lines, true) == Payloads(Blocks(lines))
    ensures Remaining([], lines, false) == Payloads(Blocks(lines)[..|Blocks(lines)| - 1])
  {
    RemainingIsAhead([], lines, true);
    RemainingIsAhead([], lines, false);
    assert [] + Data(Blocks(lines)[0]) == Data(Blocks(lines)[0]);
  }

  lemma DecodedCons<J>(p: string, ps: seq<string>, decode: string -> Option<J>)
    requires p != DONE
    ensures Decoded(UntilDone([p] + ps), decode) ==
            [Emission(p, decode)] + Decoded(UntilDone(ps), decode)
  {
    assert ([p] + ps)[1..] == ps;
    assert ([p] + UntilDone(ps))[1..] == UntilDone(ps);
  }

  function Emission<J>(p: string, decode: string -> Option<J>): Emit<J> {
    match decode(p) case Some(v) => Message(v) case None => DecodeError(p)
  }

  /**
   * The closure `flush`: one payload, unless there is none. `sent` is false when the send gave way to
   * the context; `go` false ends the loop.
   */
  method Flush<J>(pending: seq<string>, decode: string -> Option<J>, out: seq<Emit<J>>)
    returns (go: bool, sent: bool, emitted: seq<Emit<J>>)
    ensures pending == [] ==> go && sent && emitted == out
    ensures pending != [] && Join(pending) == DONE ==> !go && sent && emitted == out
    ensures pending != [] && Join(pending) != DONE && sent ==> go && emitted == out + [Emission(Join(pending), decode)]
    ensures !sent ==> pending != [] && Join(pending) != DONE && emitted == out && (go <==> decode(Join(pending)).None?)
  {
    if pending == [] { return true, true, out; }
    var payload := Join(pending);
    if payload == DONE { return false, true, out; }
    sent := *;
    match decode(payload)
    case None => return true, sent, if sent then out + [DecodeError(payload)] else out;
    case Some(v) => return sent, sent, if sent then out + [Message(v)] else out;
  }

  /** What is still expected after `sent`. */
  ghost predicate Owes<J>(sent: seq<Emit<J>>, left: seq<string>, total: seq<string>, decode: string -> Option<J>) {
    Decoded(UntilDone(total), decode) == sent + Decoded(UntilDone(left), decode)
  }

  lemma OwesStep<J>(sent: seq<Emit<J>>, p: string, left: seq<string>, total: seq<string>, decode: string -> Option<J>)
    requires Owes(sent, [p] + left, total, decode) && p != DONE
    ensures Owes(sent + [Emission(p, decode)], left, total, decode)
  {
    DecodedCons(p, left, decode);
    var e := Emission(p, decode);
    assert sent + ([e] + Decoded(UntilDone(left), decode)) == sent + [e] + Decoded(UntilDone(left), decode);
  }

  lemma OwesDone<J>(sent: seq<Emit<J>>, left: seq<string>, total: seq<string>, decode: string -> Option<J>)
    requires Owes(sent, [DONE] + left, total, decode)
    ensures sent == Decoded(UntilDone(total), decode)
  {
    assert ([DONE] + left)[0] == DONE;
    assert sent + [] == sent;
  }

  /** What a cancelled parse may have sent: a first part, and possibly the scanner error after it. */
  ghost predicate CutShort<J>(out: seq<Emit<J>>, all: seq<Emit<J>>, scanFails: bool) {
    out <= all || (scanFails && out != [] && out[|out| - 1] == ScanError && out[..|out| - 1] <= all)
  }

  lemma FirstPart<J>(out: seq<Emit<J>>, all: seq<Emit<J>>, scanFails: bool)
    requires out <= all
    ensures CutShort(out, all, scanFails)
  {
  }

  lemma OwesPrefix<J>(sent: seq<Emit<J>>, left: seq<string>, total: seq<string>, decode: string -> Option<J>)
    requires Owes(sent, left, total, decode)
    ensures sent <= Decoded(UntilDone(total), decode)
  {
  }

  /** A blank line: the block before it goes out, and what is owed shrinks by it. */
  method EndBlock<J>(pending: seq<string>, decode: string -> Option<J>, out: seq<Emit<J>>,
                     ghost left: seq<string>, ghost total: seq<string>)
    returns (go: bool, sent: bool, emitted: seq<Emit<J>>)
    requires Owes(out, (if pending == [] then [] else [Join(pending)]) + left, total, decode)
    ensures go && sent ==> Owes(emitted, left, total, decode) && (pending == [] || Join(pending) != DONE)
    ensures !go && sent ==> emitted == Decoded(UntilDone(total), decode) && pending != [] && Join(pending) == DONE
    ensures !sent ==> emitted <= Decoded(UntilDone(total), decode)
  {
    go, sent, emitted := Flush(pending, decode, out);
    OwesPrefix(out, (if pending == [] then [] else [Join(pending)]) + left, total, decode);
    if pending == [] {
      assert [] + left == left;
    } else if Join(pending) == DONE {
      OwesDone(out, left, total, decode);
    } else {
      OwesStep(out, Join(pending), left, total, decode);
    }
  }

  /** The end of the stream: the cut-off block, and the scanner's error. */
  method Finish<J>(pending: seq<string>, decode: string -> Option<J>, before: seq<Emit<J>>, dropped: bool, scanFails: bool,
                   ghost total: seq<string>)
    returns (out: seq<Emit<J>>, cancelled: bool)
    requires !dropped ==> Owes(before, if pending == [] then [] else [Join(pending)], total, decode)
    requires dropped ==> before <= Decoded(UntilDone(total), decode) && pending == []
    ensures !cancelled ==> out == Decoded(UntilDone(total), decode) + if scanFails then [ScanError] else []
    ensures cancelled ==> CutShort(out, Decoded(UntilDone(total), decode), scanFails)
    ensures dropped ==> cancelled
  {
    out, cancelled := before, dropped;
    if pending != [] {
      assert [Join(pending)] + [] == [Join(pending)];
      var go, sent;
      go, sent, out := EndBlock(pending, decode, before, [], total);
      cancelled := !sent;
    }
    assert out + Decoded(UntilDone([]), decode) == out;
    if scanFails {
      var sent: bool := *;
      if sent {
        assert (out + [ScanError])[..|out|] == out;
        out := out + [ScanError];
      } else {
        cancelled := true;
      }
    }
  }

  /** `ParseSSE` over the scanned lines. The context may be done at any line and at any send. */
  method ParseSse<J>(lines: seq<string>, scanFails: bool, decode: string -> Option<J>)
    returns (out: seq<Emit<J>>, cancelled: bool)
    ensures !cancelled ==> out == Expected(lines, scanFails, decode)
    ensures cancelled ==> CutShort(out, Decoded(UntilDone(Payloads(Blocks(lines))), decode), scanFails)
  {
    hide CutShort, Blocks, Payloads, Data;
    out, cancelled := [], false;
    var pending: seq<string> := [];
    var dropped := false;
    ghost var total, closed := Remaining([], lines, true), Remaining([], lines, false);
    RemainingAll(lines);
    assert lines[0..] == lines;
    for i := 0 to |lines|
      invariant dropped ==> out <= Decoded(UntilDone(total), decode) && pending == []
      invariant !dropped ==> Owes(out, Remaining(pending, lines[i..], true), total, decode)
      invariant !dropped ==> (DONE in closed <==> DONE in Remaining(pending, lines[i..], false))
    {
      var done: bool := *;
      if dropped || done {
        if !dropped { OwesPrefix(out, Remaining(pending, lines[i..], true), total, decode); }
        FirstPart(out, Decoded(UntilDone(total), decode), scanFails);
        return out, true;
      }
      var line := lines[i];
      assert lines[i..][0] == line && lines[i..][1..] == lines[i + 1..];
      if line == "" {
        ghost var left := Remaining([], lines[i + 1..], true);
        RemainingAtBlank(pending, lines[i..]);
        var go, sent;
        go, sent, out := EndBlock(pending, decode, out, left, total);
        if !go {
          assert sent ==> Remaining(pending, lines[i..], false)[0] == DONE;
          assert out + [] == out;
          FirstPart(out, Decoded(UntilDone(total), decode), scanFails);
          return out, !sent;
        }
        dropped, pending := !sent, [];
      } else if HasPrefix(line, ":") {
        assert line[0] == ':' && pending + [] == pending;
      } else if HasPrefix(line, "data:") {
        pending := pending + [TrimSpace(line[5..])];
      } else {
        assert pending + [] == pending;
      }
    }
    assert lines[|lines|..] == [];
    out, cancelled := Finish(pending, decode, out, dropped, scanFails, total);
  }

  lemma RemainingAtBlank(pending: seq<string>, lines: seq<string>)
    requires lines != [] && lines[0] == ""
    ensures Remaining(pending, lines, true) == (if pending == [] then [] else [Join(pending)]) + Remaining([], lines[1..], true)
    ensures Remaining(pending, lines, false) == (if pending == [] then [] else [Join(pending)]) + Remaining([], lines[1..], false)
  {
  }

  /***** Consequences *****/

  /** Comments and lines of other fields have no effect. */
  function OnlyData(lines: seq<string>): seq<string> {
    if lines == [] then []
    else (if lines[0] == "" || DataOf(lines[0]).Some? then [lines[0]] else []) + OnlyData(lines[1..])
  }

  lemma {:induction false} NoiseRemaining(pending: seq<string>, lines: seq<string>, tail: bool)
    ensures Remaining(pending, OnlyData(lines), tail) == Remaining(pending, lines, tail)
    decreases |lines|
  {
    if lines != [] {
      var rest := OnlyData(lines[1..]);
      if lines[0] == "" {
        assert ([lines[0]] + rest)[1..] == rest;
        NoiseRemaining([], lines[1..], tail);
      } else {
        NoiseRemaining(pending + DataList(lines[0]), lines[1..], tail);
        if DataOf(lines[0]).Some? {
          assert ([lines[0]] + rest)[1..] == rest;
        } else {
          assert pending + [] == pending && [] + rest == rest;
        }
      }
    }
  }

  lemma NoiseHasNoEffect<J>(lines: seq<string>, scanFails: bool, decode: string -> Option<J>)
    ensures Expected(OnlyData(lines), scanFails, decode) == Expected(lines, scanFails, decode)
  {
    RemainingAll(lines);
    RemainingAll(OnlyData(lines));
    NoiseRemaining([], lines, true);
    NoiseRemaining([], lines, false);
  }

  /** What a line says: the rest after "data:", trimmed, or nothing. */
  lemma LineMeans(line: string, v: string)
    ensures DataOf("data:" + v) == Some(TrimSpace(v))
    ensures |line| < 5 || line[..5] != "data:" ==> DataOf(line) == None
  {
    assert ("data:" + v)[..5] == "data:" && ("data:" + v)[5..] == v;
  }

  /** Payload by payload: what it decodes to, or an error that has its text. */
  lemma {:induction false} DecodedEach<J>(ps: seq<string>, decode: string -> Option<J>, i: nat)
    requires i < |ps|
    ensures |Decoded(ps, decode)| == |ps|
    ensures decode(ps[i]).Some? ==> Decoded(ps, decode)[i] == Message(decode(ps[i]).value)
    ensures decode(ps[i]).None? ==> Decoded(ps, decode)[i] == DecodeError(ps[i])
  {
    if |ps| > 1 { DecodedEach(ps[1..], decode, if i > 0 then i - 1 else 0); }
  }

  /** A line that is not blank and no data line has no effect, wherever it stands. */
  lemma NoiseLine<J>(before: seq<string>, line: string, after: seq<string>, scanFails: bool, decode: string -> Option<J>)
    requires line != "" && (|line| < 5 || line[..5] != "data:")
    ensures Expected(before + [line] + after, scanFails, decode) == Expected(before + after, scanFails, decode)
  {
    LineMeans(line, "");
    NoiseHasNoEffect(before + [line] + after, scanFails, decode);
    NoiseHasNoEffect(before + after, scanFails, decode);
    OnlyDataAppend(before + [line], after);
    OnlyDataAppend(before, [line]);
    OnlyDataAppend(before, after);
    assert OnlyData([line]) == [];
    assert OnlyData(before) + [] == OnlyData(before);
  }

  lemma {:induction false} OnlyDataAppend(xs: seq<string>, ys: seq<string>)
    ensures OnlyData(xs + ys) == OnlyData(xs) + OnlyData(ys)
  {
    if xs == [] {
      assert xs + ys == ys;
    } else {
      assert (xs + ys)[0] == xs[0] && (xs + ys)[1..] == xs[1..] + ys;
      OnlyDataAppend(xs[1..], ys);
    }
  }

  /** Nothing is read behind a "[DONE]" that a blank line ends. */
  lemma NothingAfterDone<J>(before: seq<seq<string>>, after: seq<string>, scanFails: bool, decode: string -> Option<J>)
    requires forall i :: 0 <= i < |before| ==> before[i] != [] && Trimmed(before[i])
    ensures Expected(RenderEvents(before) + (["data: [DONE]", ""] + after), scanFails, decode) ==
            Decoded(UntilDone(Joined(before)), decode)
  {
    hide Remaining, Blocks, Payloads, Joined, RenderEvents, UntilDone, Decoded, Trimmed;
    RemainingAll(RenderEvents(before) + (["data: [DONE]", ""] + after));
    DoneRemains(before, after, true);
    DoneRemains(before, after, false);
    DoneCuts(Joined(before), Remaining([], after, true));
    DoneIsThere(Joined(before), Remaining([], after, false));
    assert Decoded(UntilDone(Joined(before)), decode) + [] == Decoded(UntilDone(Joined(before)), decode);
  }

  lemma DoneIsThere(ps: seq<string>, more: seq<string>)
    ensures DONE in ps + (["[DONE]"] + more)
  {
    assert (ps + (["[DONE]"] + more))[|ps|] == "[DONE]";
  }

  lemma DoneRemains(before: seq<seq<string>>, after: seq<string>, tail: bool)
    requires forall i :: 0 <= i < |before| ==> before[i] != [] && Trimmed(before[i])
    ensures Remaining([], RenderEvents(before) + (["data: [DONE]", ""] + after), tail) ==
            Joined(before) + (["[DONE]"] + Remaining([], after, tail))
  {
    hide Remaining, Join, Joined, Trimmed, RenderEvents, RenderLines;
    ReadsAllThen(before, ["data: [DONE]", ""] + after, tail);
    RendersDone();
    ReadsOneEvent([], ["[DONE]"], after, tail);
    assert [] + ["[DONE]"] == ["[DONE]"];
  }

  lemma RendersDone()
    ensures Trimmed(["[DONE]"]) && Join(["[DONE]"]) == "[DONE]"
    ensures RenderLines(["[DONE]"]) == ["data: [DONE]", ""]
  {
    TrimIsFixed("[DONE]");
    assert ["[DONE]"][1..] == [];
    assert "data: " + "[DONE]" == "data: [DONE]";
  }

  lemma {:induction false} DoneCuts(ps: seq<string>, more: seq<string>)
    ensures UntilDone(ps + (["[DONE]"] + more)) == UntilDone(ps)
  {
    if ps == [] {
      assert ps + (["[DONE]"] + more) == ["[DONE]"] + more;
    } else {
      assert (ps + (["[DONE]"] + more))[1..] == ps[1..] + (["[DONE]"] + more);
      DoneCuts(ps[1..], more);
    }
  }

  function DataLines(vs: seq<string>): seq<string> {
    if vs == [] then [] else [DataLine(vs[0])] + DataLines(vs[1..])
  }

  lemma {:induction false} ReadsCutOff(pending: seq<string>, vs: seq<string>, tail: bool)
    requires Trimmed(vs)
    ensures Remaining(pending, DataLines(vs), tail) == if tail && pending + vs != [] then [Join(pending + vs)] else []
    decreases |vs|
  {
    hide Join;
    if vs == [] {
      assert pending + vs == pending;
    } else {
      DataLineTrims(vs[0]);
      assert DataLines(vs)[1..] == DataLines(vs[1..]);
      assert pending + vs == pending + [vs[0]] + vs[1..];
      ReadsCutOff(pending + [vs[0]], vs[1..], tail);
    }
  }

  /** A last event that the stream cuts off before its blank line is read too, but as "[DONE]" it hides no scanner error. */
  lemma CutOffIsRead<J>(events: seq<seq<string>>, vs: seq<string>, scanFails: bool, decode: string -> Option<J>)
    requires vs != [] && Trimmed(vs) && forall i :: 0 <= i < |events| ==> events[i] != [] && Trimmed(events[i])
    ensures Expected(RenderEvents(events) + DataLines(vs), scanFails, decode) ==
            Decoded(UntilDone(Joined(events) + [Join(vs)]), decode) + if scanFails && DONE !in Joined(events) then [ScanError] else []
  {
    hide Remaining, Blocks, Payloads, Joined, RenderEvents, UntilDone, Decoded, Trimmed, Join, DataLines;
    RemainingAll(RenderEvents(events) + DataLines(vs));
    ReadsAllThen(events, DataLines(vs), true);
    ReadsAllThen(events, DataLines(vs), false);
    ReadsCutOff([], vs, true);
    ReadsCutOff([], vs, false);
    assert [] + vs == vs && Joined(events) + [] == Joined(events);
  }

  /***** Lines of a payload *****/

  /** A text cut at its line breaks. */
  function Lines(s: string): (ls: seq<string>)
    ensures ls != []
  {
    if s == "" then [""]
    else
      var rest := Lines(s[1..]);
      if s[0] == '\n' then [""] + rest else [[s[0]] + rest[0]] + rest[1..]
  }

  lemma {:induction false} LinesOfLine(v: string, more: string)
    requires '\n' !in v
    ensures Lines(v + "\n" + more) == [v] + Lines(more) && Lines(v) == [v]
  {
    var s := v + "\n" + more;
    if v == "" {
      assert s[0] == '\n' && s[1..] == more;
    } else {
      assert s[0] == v[0] && s[1..] == v[1..] + "\n" + more;
      LinesOfLine(v[1..], more);
      assert [v[0]] + v[1..] == v;
      assert ([v[1..]] + Lines(more))[1..] == Lines(more);
    }
  }

  /** The payload of a block is its data lines in order, separated by line breaks: cutting it gives them back. */
  lemma {:induction false} LinesOfPayload(vs: seq<string>)
    requires vs != [] && forall i :: 0 <= i < |vs| ==> '\n' !in vs[i]
    ensures Lines(Join(vs)) == vs
  {
    if |vs| == 1 {
      LinesOfLine(vs[0], "");
    } else {
      LinesOfPayload(vs[1..]);
      LinesOfLine(vs[0], Join(vs[1..]));
    }
  }

  /** A server's rendering of events; each is a non-empty list of trimmed lines. */
  function RenderLines(vs: seq<string>): seq<string> {
    if vs == [] then [""] else [DataLine(vs[0])] + RenderLines(vs[1..])
  }

  function DataLine(v: string): string { "data: " + v }

  function RenderEvents(events: seq<seq<string>>): seq<string> {
    if events == [] then [] else RenderLines(events[0]) + RenderEvents(events[1..])
  }

  function Joined(events: seq<seq<string>>): seq<string> {
    if events == [] then [] else [Join(events[0])] + Joined(events[1..])
  }

  predicate Trimmed(vs: seq<string>) { forall i :: 0 <= i < |vs| ==> TrimSpace(vs[i]) == vs[i] }

  lemma DataLineIsData(v: string)
    ensures DataLine(v) != "" && DataOf(DataLine(v)) == Some(TrimSpace([' '] + v))
  {
    var line := DataLine(v);
    assert line[..5] == "data:";
    assert line[5..] == [' '] + v;
  }

  lemma DataLineTrims(v: string)
    requires TrimSpace(v) == v
    ensures DataLine(v) != "" && DataList(DataLine(v)) == [v]
  {
    DataLineIsData(v);
    TrimDropsBlankPrefix([' '], v);
  }

  lemma {:induction false} ReadsOneEvent(pending: seq<string>, vs: seq<string>, more: seq<string>, tail: bool)
    requires Trimmed(vs) && pending + vs != []
    ensures Remaining(pending, RenderLines(vs) + more, tail) == [Join(pending + vs)] + Remaining([], more, tail)
    decreases |vs|
  {
    var lines := RenderLines(vs) + more;
    if vs == [] {
      assert lines[1..] == more && pending + vs == pending;
    } else {
      DataLineTrims(vs[0]);
      assert lines[0] == DataLine(vs[0]) && lines[1..] == RenderLines(vs[1..]) + more;
      assert pending + vs == pending + [vs[0]] + vs[1..];
      ReadsOneEvent(pending + [vs[0]], vs[1..], more, tail);
    }
  }

  lemma {:induction false} ReadsAllThen(events: seq<seq<string>>, more: seq<string>, tail: bool)
    requires forall i :: 0 <= i < |events| ==> events[i] != [] && Trimmed(events[i])
    ensures Remaining([], RenderEvents(events) + more, tail) == Joined(events) + Remaining([], more, tail)
  {
    hide Remaining, RenderLines, Join, Trimmed;
    if events == [] {
      assert RenderEvents(events) + more == more;
    } else {
      ReadsAllThen(events[1..], more, tail);
      assert [] + events[0] == events[0];
      assert RenderEvents(events) + more == RenderLines(events[0]) + (RenderEvents(events[1..]) + more);
      ReadsOneEvent([], events[0], RenderEvents(events[1..]) + more, tail);
    }
  }

  lemma ReadsAllEvents(events: seq<seq<string>>, tail: bool)
    requires forall i :: 0 <= i < |events| ==> events[i] != [] && Trimmed(events[i])
    ensures Remaining([], RenderEvents(events), tail) == Joined(events)
  {
    ReadsAllThen(events, [], tail);
    assert RenderEvents(events) + [] == RenderEvents(events);
    assert Joined(events) + [] == Joined(events);
  }

  /** Parsing undoes rendering, up to the first `[DONE]`. */
  lemma ParseUndoesRender<J>(events: seq<seq<string>>, scanFails: bool, decode: string -> Option<J>)
    requires forall i :: 0 <= i < |events| ==> events[i] != [] && Trimmed(events[i])
    ensures Expected(RenderEvents(events), scanFails, decode) ==
            Decoded(UntilDone(Joined(events)), decode) + if scanFails && DONE !in Joined(events) then [ScanError] else []
  {
    RemainingAll(RenderEvents(events));
    ReadsAllEvents(events, true);
    ReadsAllEvents(events, false);
  }
}
