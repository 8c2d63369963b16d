/** The client: merging a run's two channels for the consumer, and the life of its streams. */
module Client {
  import opened Common

  /***** Merging *****/

  /** A message of a run; `isResult` tells the result messages. */
  datatype Message = Message(body: string, isResult: bool)

  datatype Yield = Msg(m: Message) | Err(e: string) | ContextError

  /** Which ready alternative a `select` takes; taking from a drained channel finds it closed. */
  datatype Choice = TakeMsg | TakeErr | TakeDone

  /** How a receive loop stands: its schedule ran out, both channels closed, or it returned early. */
  datatype Status = Waiting | Finished | Stopped | Cancelled

  /** What the two channels still hold, and which of them were found closed. */
  datatype Feed = Feed(msgs: seq<Message>, errs: seq<Option<string>>, msgsClosed: bool, errsClosed: bool) {
    predicate Over() { msgsClosed && errsClosed }
  }

  /** What one alternative of the `select` yields. */
  function Taken(f: Feed, c: Choice): seq<Yield> {
    match c
    case TakeMsg => if f.msgs == [] then [] else [Msg(f.msgs[0])]
    case TakeErr => if f.errs == [] || f.errs[0].None? then [] else [Err(f.errs[0].value)]
    case TakeDone => [ContextError]
  }

  function Advance(f: Feed, c: Choice): Feed {
    match c
    case TakeMsg => if f.msgs == [] then f.(msgsClosed := true) else f.(msgs := f.msgs[1..])
    case TakeErr => if f.errs == [] then f.(errsClosed := true) else f.(errs := f.errs[1..])
    case TakeDone => f
  }

  /** Every message and non-nil error, in the order in which the schedule takes them from step `k` on. */
  function Interleave(f: Feed, schedule: seq<Choice>, k: nat): seq<Yield>
    decreases |schedule| - k
  {
    if k >= |schedule| || f.Over() then []
    else if schedule[k].TakeDone? then Taken(f, TakeDone)
    else Taken(f, schedule[k]) + Interleave(Advance(f, schedule[k]), schedule, k + 1)
  }

  /** The feed once the schedule has been followed. */
  function Left(f: Feed, schedule: seq<Choice>, k: nat): Feed
    decreases |schedule| - k
  {
    if k >= |schedule| || f.Over() || schedule[k].TakeDone? then f
    else Left(Advance(f, schedule[k]), schedule, k + 1)
  }

  /** Everything through the first result message; of the rest, only a cancellation error. */
  function Response(ys: seq<Yield>, muted: bool): seq<Yield> {
    if ys == [] then []
    else if muted && !ys[0].ContextError? then Response(ys[1..], true)
    else [ys[0]] + Response(ys[1..], muted || (ys[0].Msg? && ys[0].m.isResult))
  }

  /** What a consumer that answers `keep(n)` to the n-th yield sees of `all`. */
  ghost predicate Seen(out: seq<Yield>, all: seq<Yield>, keep: nat -> bool, status: Status) {
    && out <= all
    && (forall n :: 0 <= n < |out| - 1 ==> keep(n))
    && (if status == Stopped then out != [] && !keep(|out| - 1)
        else out == all && (out != [] && status != Cancelled ==> keep(|out| - 1)))
    && (status == Cancelled ==> out != [] && out[|out| - 1] == ContextError)
  }

  /** The loop invariant: seen so far, and due. */
  ghost predicate Pending(out: seq<Yield>, due: seq<Yield>, all: seq<Yield>, keep: nat -> bool) {
    && all == out + due
    && forall n :: 0 <= n < |out| ==> keep(n)
  }

  lemma PendingStep(out: seq<Yield>, y: Yield, due: seq<Yield>, all: seq<Yield>, keep: nat -> bool)
    requires Pending(out, [y] + due, all, keep)
    ensures keep(|out|) ==> Pending(out + [y], due, all, keep)
    ensures !keep(|out|) ==> Seen(out + [y], all, keep, Stopped)
    ensures due == [] && y == ContextError ==> Seen(out + [y], all, keep, Cancelled)
  {
    assert out + ([y] + due) == out + [y] + due;
    assert (out + [y]) + [] == out + [y];
  }

  /** The `select`: a message, an error, a closed channel or a nil error (both yield nothing), or the end. */
  method Select(f: Feed, c: Choice) returns (g: Feed, y: seq<Yield>)
    ensures g == Advance(f, c) && y == Taken(f, c)
    ensures (f.msgsClosed ==> f.msgs == []) && (f.errsClosed ==> f.errs == []) ==>
            (g.msgsClosed ==> g.msgs == []) && (g.errsClosed ==> g.errs == [])
  {
    g, y := f, [];
    match c
    case TakeMsg =>
      if f.msgs == [] {
        g := f.(msgsClosed := true);
      } else {
        g, y := f.(msgs := f.msgs[1..]), [Msg(f.msgs[0])];
      }
    case TakeErr =>
      if f.errs == [] {
        g := f.(errsClosed := true);
      } else {
        g := f.(errs := f.errs[1..]);
        if f.errs[0].Some? { y := [Err(f.errs[0].value)]; }
      }
    case TakeDone => y := [ContextError];
  }

  ghost predicate Drained(f: Feed) {
    (f.msgsClosed ==> f.msgs == []) && (f.errsClosed ==> f.errs == [])
  }

  /** One step of the schedule. */
  lemma ScheduleStep(f: Feed, schedule: seq<Choice>, k: nat)
    requires k < |schedule| && !f.Over()
    ensures Interleave(f, schedule, k) == Taken(f, schedule[k]) + Upcoming(f, schedule, k)
    ensures !schedule[k].TakeDone? ==> Left(f, schedule, k) == Left(Advance(f, schedule[k]), schedule, k + 1)
    ensures schedule[k].TakeDone? ==> Left(f, schedule, k) == f
  {
    assert Taken(f, schedule[k]) + [] == Taken(f, schedule[k]);
  }

  function Upcoming(f: Feed, schedule: seq<Choice>, k: nat): seq<Yield>
    requires k < |schedule|
  {
    if schedule[k].TakeDone? then [] else Interleave(Advance(f, schedule[k]), schedule, k + 1)
  }

  lemma ScheduleEnd(f: Feed, schedule: seq<Choice>, k: nat)
    requires k >= |schedule| || f.Over()
    ensures Interleave(f, schedule, k) == [] && Left(f, schedule, k) == f
  {
  }

  lemma PendingStart(all: seq<Yield>, keep: nat -> bool)
    ensures Pending([], all, all, keep)
  {
  }

  lemma PendingEnd(out: seq<Yield>, all: seq<Yield>, keep: nat -> bool, status: Status)
    requires Pending(out, [], all, keep) && !status.Stopped? && !status.Cancelled?
    ensures Seen(out, all, keep, status)
  {
    assert out + [] == out;
  }

  /** `ReceiveMessages`, for any schedule and consumer. */
  method ReceiveMessages(start: Feed, schedule: seq<Choice>, keep: nat -> bool)
    returns (out: seq<Yield>, status: Status, f: Feed)
    requires !start.msgsClosed && !start.errsClosed
    ensures Seen(out, Interleave(start, schedule, 0), keep, status)
    ensures status != Stopped ==> f == Left(start, schedule, 0)
    ensures status == Finished ==> f == Feed([], [], true, true)
  {
    hide Interleave, Left, Pending, Seen;
    f, out := start, [];
    ghost var all, due := Interleave(f, schedule, 0), Interleave(f, schedule, 0);
    PendingStart(all, keep);
    for k := 0 to |schedule|
      invariant due == Interleave(f, schedule, k) && Pending(out, due, all, keep)
      invariant Left(f, schedule, k) == Left(start, schedule, 0) && Drained(f)
    {
      if f.msgsClosed && f.errsClosed {
        ScheduleEnd(f, schedule, k);
        PendingEnd(out, all, keep, Finished);
        return out, Finished, f;
      }
      ScheduleStep(f, schedule, k);
      due := Upcoming(f, schedule, k);
      var y;
      f, y := Select(f, schedule[k]);
      if y == [] {
        assert y + due == due;
      } else {
        assert y == [y[0]];
        PendingStep(out, y[0], due, all, keep);
        out := out + y;
        if schedule[k].TakeDone? { return out, Cancelled, f; }
        if !keep(|out| - 1) { return out, Stopped, f; }
      }
    }
    ScheduleEnd(f, schedule, |schedule|);
    status := if f.Over() then Finished else Waiting;
    PendingEnd(out, all, keep, status);
  }

  /** `ReceiveResponse`, for any schedule and consumer. */
  method ReceiveResponse(start: Feed, schedule: seq<Choice>, keep: nat -> bool)
    returns (out: seq<Yield>, status: Status, f: Feed)
    requires !start.msgsClosed && !start.errsClosed
    ensures Seen(out, Response(Interleave(start, schedule, 0), false), keep, status)
    ensures status != Stopped ==> f == Left(start, schedule, 0)
    ensures status == Finished ==> f == Feed([], [], true, true)
  {
    hide Interleave, Left, Response, Pending, Seen;
    f, out := start, [];
    var resultSeen := false;
    ghost var left := Interleave(f, schedule, 0);
    ghost var all, due := Response(left, false), Response(left, false);
    PendingStart(all, keep);
    for k := 0 to |schedule|
      invariant left == Interleave(f, schedule, k) && due == Response(left, resultSeen)
      invariant Pending(out, due, all, keep)
      invariant Left(f, schedule, k) == Left(start, schedule, 0) && Drained(f)
    {
      if f.msgsClosed && f.errsClosed {
        ScheduleEnd(f, schedule, k);
        NoResponse(resultSeen);
        PendingEnd(out, all, keep, Finished);
        return out, Finished, f;
      }
      ScheduleStep(f, schedule, k);
      left := Upcoming(f, schedule, k);
      var y;
      f, y := Select(f, schedule[k]);
      if y == [] {
        assert y + left == left;
        continue;
      }
      assert y == [y[0]];
      ResponseStep(y[0], left, resultSeen);
      NoResponse(resultSeen);
      if resultSeen && !y[0].ContextError? {
        due := Response(left, true);
        continue;
      }
      due := Response(left, resultSeen || (y[0].Msg? && y[0].m.isResult));
      PendingStep(out, y[0], due, all, keep);
      out := out + y;
      if y[0].ContextError? { return out, Cancelled, f; }
      if !keep(|out| - 1) { return out, Stopped, f; }
      if y[0].Msg? && y[0].m.isResult { resultSeen := true; }
    }
    ScheduleEnd(f, schedule, |schedule|);
    NoResponse(resultSeen);
    status := if f.Over() then Finished else Waiting;
    PendingEnd(out, all, keep, status);
  }

  lemma NoResponse(muted: bool)
    ensures Response([], muted) == []
  {
  }

  lemma ResponseStep(y: Yield, ys: seq<Yield>, muted: bool)
    ensures Response([y] + ys, muted) ==
            if muted && !y.ContextError? then Response(ys, true)
            else [y] + Response(ys, muted || (y.Msg? && y.m.isResult))
  {
    assert ([y] + ys)[1..] == ys;
  }

  /***** What the consumer sees *****/

  function MsgsOf(ys: seq<Yield>): seq<Message> {
    if ys == [] then [] else (if ys[0].Msg? then [ys[0].m] else []) + MsgsOf(ys[1..])
  }

  function ErrsOf(ys: seq<Yield>): seq<string> {
    if ys == [] then [] else (if ys[0].Err? then [ys[0].e] else []) + ErrsOf(ys[1..])
  }

  function Errors(errs: seq<Option<string>>): seq<string> {
    if errs == [] then [] else (if errs[0].Some? then [errs[0].value] else []) + Errors(errs[1..])
  }

  /** The messages through the first result. */
  function Through(msgs: seq<Message>): seq<Message> {
    if msgs == [] then [] else if msgs[0].isResult then [msgs[0]] else [msgs[0]] + Through(msgs[1..])
  }

  lemma {:induction false} YieldsAppend(a: seq<Yield>, b: seq<Yield>)
    ensures MsgsOf(a + b) == MsgsOf(a) + MsgsOf(b) && ErrsOf(a + b) == ErrsOf(a) + ErrsOf(b)
  {
    if a == [] {
      assert a + b == b;
    } else {
      assert a + b == [a[0]] + (a[1..] + b) && a == [a[0]] + a[1..];
      YieldsAppend(a[1..], b);
      TakenStep(a[0], a[1..] + b);
      TakenStep(a[0], a[1..]);
    }
  }

  lemma TakenConserves(f: Feed, c: Choice)
    ensures f.msgs == MsgsOf(Taken(f, c)) + Advance(f, c).msgs
    ensures Errors(f.errs) == ErrsOf(Taken(f, c)) + Errors(Advance(f, c).errs)
  {
  }

  lemma Associative<T>(a: seq<T>, b: seq<T>, c: seq<T>)
    ensures a + b + c == a + (b + c)
  {
  }

  /** An interleaving loses, repeats and reorders nothing within a channel. */
  lemma {:induction false} InterleaveConserves(f: Feed, schedule: seq<Choice>, k: nat)
    ensures f.msgs == MsgsOf(Interleave(f, schedule, k)) + Left(f, schedule, k).msgs
    ensures Errors(f.errs) == ErrsOf(Interleave(f, schedule, k)) + Errors(Left(f, schedule, k).errs)
    decreases |schedule| - k
  {
    if k < |schedule| && !f.Over() && !schedule[k].TakeDone? {
      var c, g := schedule[k], Advance(f, schedule[k]);
      var now, later, end := Taken(f, c), Interleave(g, schedule, k + 1), Left(g, schedule, k + 1);
      InterleaveConserves(g, schedule, k + 1);
      TakenConserves(f, c);
      YieldsAppend(now, later);
      Associative(MsgsOf(now), MsgsOf(later), end.msgs);
      Associative(ErrsOf(now), ErrsOf(later), Errors(end.errs));
    } else if k < |schedule| && !f.Over() {
      TakenConserves(f, TakeDone);
    }
  }

  lemma TakenStep(y: Yield, ys: seq<Yield>)
    ensures MsgsOf([y] + ys) == (if y.Msg? then [y.m] else []) + MsgsOf(ys)
    ensures ErrsOf([y] + ys) == (if y.Err? then [y.e] else []) + ErrsOf(ys)
  {
    assert ([y] + ys)[1..] == ys;
  }

  lemma {:induction false} ResponseMessages(ys: seq<Yield>, muted: bool)
    ensures MsgsOf(Response(ys, muted)) == if muted then [] else Through(MsgsOf(ys))
    ensures ErrsOf(Response(ys, muted)) <= ErrsOf(ys)
    ensures muted ==> ErrsOf(Response(ys, muted)) == []
    ensures !muted && (forall m :: m in MsgsOf(ys) ==> !m.isResult) ==> ErrsOf(Response(ys, muted)) == ErrsOf(ys)
  {
    if ys != [] {
      var y, rest := ys[0], ys[1..];
      assert ys == [y] + rest;
      var muted' := muted || (y.Msg? && y.m.isResult);
      ResponseMessages(rest, muted');
      TakenStep(y, rest);
      TakenStep(y, Response(rest, muted'));
      if y.Msg? {
        assert MsgsOf(ys)[0] == y.m && MsgsOf(ys)[1..] == MsgsOf(rest);
        assert forall m :: m in MsgsOf(rest) ==> m in MsgsOf(ys);
      } else {
        assert MsgsOf(ys) == MsgsOf(rest);
      }
    }
  }

  ghost predicate OnlyContextErrors(ys: seq<Yield>) {
    forall j :: 0 <= j < |ys| ==> ys[j].ContextError?
  }

  ghost predicate ResultAt(ys: seq<Yield>, i: nat)
    requires i < |ys|
  {
    ys[i].Msg? && ys[i].m.isResult
  }

  /** After the first result nothing but a cancellation error is yielded. */
  lemma {:induction false} NothingAfterResult(ys: seq<Yield>, muted: bool)
    ensures muted ==> OnlyContextErrors(Response(ys, muted))
    ensures forall i :: 0 <= i < |Response(ys, muted)| && ResultAt(Response(ys, muted), i) ==>
              OnlyContextErrors(Response(ys, muted)[i + 1..])
  {
    if ys != [] {
      var muted' := muted || (ys[0].Msg? && ys[0].m.isResult);
      var r, r' := Response(ys, muted), Response(ys[1..], muted');
      NothingAfterResult(ys[1..], muted');
      if muted && !ys[0].ContextError? {
        assert r == r';
      } else {
        assert r == [ys[0]] + r' && r[1..] == r';
        forall i | 0 <= i < |r| && ResultAt(r, i) ensures OnlyContextErrors(r[i + 1..]) {
          if i > 0 {
            assert ResultAt(r', i - 1);
            assert r[i + 1..] == r'[i..];
          }
        }
      }
    }
  }

  /**
   * A response that ran to its end without cancellation, whatever the interleaving: exactly the
   * messages through the first result; errors in order and only before it; all of them if there
   * is no result.
   */
  lemma ResponseIsComplete(f: Feed, schedule: seq<Choice>)
    requires Left(f, schedule, 0) == Feed([], [], true, true)
    ensures var r := Response(Interleave(f, schedule, 0), false);
      && MsgsOf(r) == Through(f.msgs)
      && ErrsOf(r) <= Errors(f.errs)
      && ((forall m :: m in f.msgs ==> !m.isResult) ==> ErrsOf(r) == Errors(f.errs))
  {
    var ys := Interleave(f, schedule, 0);
    InterleaveConserves(f, schedule, 0);
    assert MsgsOf(ys) + [] == MsgsOf(ys) && ErrsOf(ys) + [] == ErrsOf(ys);
    ResponseMessages(ys, false);
  }

  lemma {:induction false} FollowsFrom(f: Feed, schedule: seq<Choice>, c: Choice, k: nat)
    requires k <= |schedule| && forall j :: k <= j < |schedule| ==> !schedule[j].TakeDone?
    ensures var g := Left(f, schedule, k);
      Interleave(f, schedule + [c], k) == Interleave(f, schedule, k) + if g.Over() then [] else Taken(g, c)
    decreases |schedule| - k
  {
    var more := schedule + [c];
    if f.Over() {
      assert Interleave(f, schedule, k) + [] == [];
    } else if k == |schedule| {
      assert more[k] == c;
      ScheduleStep(f, more, k);
      assert [] + Taken(f, c) == Taken(f, c) && Taken(f, c) + [] == Taken(f, c);
    } else {
      assert more[k] == schedule[k];
      var g := Advance(f, schedule[k]);
      FollowsFrom(g, schedule, c, k + 1);
      ScheduleStep(f, more, k);
      ScheduleStep(f, schedule, k);
      var h := Left(g, schedule, k + 1);
      Associative(Taken(f, schedule[k]), Interleave(g, schedule, k + 1), if h.Over() then [] else Taken(h, c));
    }
  }

  /**
   * The interleaving follows the schedule: a step yields the next message, the next error unless it is
   * nil, or that the context is done, and nothing once both channels are closed or a channel is drained.
   */
  lemma InterleaveFollows(f: Feed, schedule: seq<Choice>, c: Choice)
    requires forall j :: 0 <= j < |schedule| ==> !schedule[j].TakeDone?
    ensures var g, before := Left(f, schedule, 0), Interleave(f, schedule, 0);
      Interleave(f, schedule + [c], 0) ==
        if g.msgsClosed && g.errsClosed then before
        else if c == TakeDone then before + [ContextError]
        else if c == TakeMsg && g.msgs != [] then before + [Msg(g.msgs[0])]
        else if c == TakeErr && g.errs != [] && g.errs[0].Some? then before + [Err(g.errs[0].value)]
        else before
  {
    FollowsFrom(f, schedule, c, 0);
    assert Interleave(f, schedule, 0) + [] == Interleave(f, schedule, 0);
  }

  /** A response lets a cancellation through, also after a result. */
  lemma {:induction false} ResponseEndsCancelled(ys: seq<Yield>, muted: bool)
    ensures Response(ys + [ContextError], muted) == Response(ys, muted) + [ContextError]
  {
    if ys == [] {
      assert [] + [ContextError] == [ContextError];
      assert [ContextError][1..] == [];
    } else {
      var y, rest := ys[0], ys[1..];
      var muted' := muted || (y.Msg? && y.m.isResult);
      assert (ys + [ContextError])[0] == y && (ys + [ContextError])[1..] == rest + [ContextError];
      ResponseEndsCancelled(rest, muted');
      if muted && !y.ContextError? {
      } else {
        Associative([y], Response(rest, muted'), [ContextError]);
      }
    }
  }

  /***** Stream life *****/

  datatype ClientError = NotConnected | AlreadyConnected | ClientClosed

  /** Streams are numbered as they are issued. */
  class ClientState {
    var connected: bool
    var closed: bool
    var current: Option<nat>
    var issued: nat
    var cancelled: set<nat>
    var activeSession: string

    /** At most the current stream runs, and none once the client is closed. */
    ghost predicate Valid()
      reads this
    {
      && !(connected && closed)
      && (current.Some? ==> current.value + 1 == issued)
      && (current.None? ==> issued == 0)
      && (forall s :: 0 <= s < issued && Some(s) != current ==> s in cancelled)
      && (closed && current.Some? ==> current.value in cancelled)
    }

    constructor ()
      ensures Valid() && !connected && !closed && issued == 0
    {
      connected, closed, current, issued, cancelled, activeSession := false, false, None, 0, {}, "default";
    }

    /** `Start`; `configured` is whether options and persistence were accepted. */
    method Start(configured: bool, session: string) returns (err: Option<ClientError>)
      requires Valid()
      modifies this
      ensures Valid() && issued == old(issued) && cancelled == old(cancelled) && closed == old(closed)
      ensures old(closed) ==> err == Some(ClientClosed)
      ensures !old(closed) && old(connected) ==> err == Some(AlreadyConnected)
      ensures connected == (old(connected) || (!old(closed) && configured))
      ensures err.None? <==> !old(closed) && !old(connected) && configured
      ensures activeSession == (if err.None? then session else old(activeSession)) && current == old(current)
    {
      if closed { return Some(ClientClosed); }
      if connected { return Some(AlreadyConnected); }
      if !configured { return Some(NotConnected); }
      activeSession := session;
      connected := true;
      return None;
    }

    /** `Query`: opening a stream cancels the one before it. */
    method Query(session: string) returns (err: Option<ClientError>)
      requires Valid()
      modifies this
      ensures Valid() && closed == old(closed) && connected == old(connected)
      ensures err.None? <==> old(connected && !closed)
      ensures if err.Some? then issued == old(issued) && current == old(current) && cancelled == old(cancelled)
              else && issued == old(issued) + 1 && current == Some(old(issued))
                   && activeSession == (if session != "" then session else old(activeSession))
                   && cancelled == old(cancelled) + if old(current).Some? then {old(current).value} else {}
    {
      if !(connected && !closed) { return Some(NotConnected); }
      var sid := if session != "" then session else activeSession;
      var stream := issued;
      issued := issued + 1;
      if current.Some? { cancelled := cancelled + {current.value}; }
      current, activeSession := Some(stream), sid;
      return None;
    }

    /** `Close`: once is as good as twice. */
    method Close()
      requires Valid()
      modifies this
      ensures Valid() && closed && !connected && issued == old(issued)
      ensures forall s :: 0 <= s < issued ==> s in cancelled
      ensures cancelled == old(cancelled) + if !old(closed) && current.Some? then {current.value} else {}
      ensures current == old(current) && activeSession == old(activeSession)
    {
      if closed { return; }
      if current.Some? { cancelled := cancelled + {current.value}; }
      closed, connected := true, false;
    }

    /** `getCurrentStreams`. */
    method CurrentStream() returns (stream: Option<nat>)
      requires Valid()
      ensures stream == if connected then current else None
      ensures closed ==> stream.None?
    {
      if !connected { return None; }
      return current;
    }
  }
}
