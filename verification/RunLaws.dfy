/** What a lawful log guarantees. Each law is an invariant of single events, then an induction over the log. */
module RunLaws {
  import opened Common
  import opened Text
  import opened ToolCalls
  import opened Trace
  import opened Protocol
  import opened Moves
  import StreamAssembly

  /***** One outcome *****/

  predicate IsResult(e: Event) { e.Sent? && e.msg.Result? }

  predicate Ending(e: Event) { e.Failed? && !e.failure.BadEvent? }

  predicate Closed(p: Phase) { p.Concluded? || p.Stored? || p.Broken? || p.Over? }

  lemma ClosingSteps(c: Context, s: State, e: Event)
    requires Allowed(c, s, e)
    ensures Closed(s.phase) ==> !e.Sent? && Closed(Next(c, s, e).phase)
    ensures !s.phase.Over?
    ensures IsResult(e) ==> Closed(Next(c, s, e).phase)
    ensures Ending(e) ==> Next(c, s, e).phase.Over?
  {
    hide Allowed, Next;
    AllowedMoves(c, s, e);
  }

  lemma {:induction false} StaysClosed(c: Context, log: seq<Event>, i: nat, j: nat)
    requires Lawful(c, log) && i <= j <= |log| && Closed(StateAt(c, log[..i]).phase)
    ensures Closed(StateAt(c, log[..j]).phase)
  {
    hide Allowed, Next;
    if i < j {
      StaysClosed(c, log, i, j - 1);
      EventAt(c, log, j - 1);
      ClosingSteps(c, StateAt(c, log[..j - 1]), log[j - 1]);
    }
  }

  /** Nothing is sent after a result, so there is at most one; an ending error is the last event of all. */
  lemma SingleOutcome(c: Context, log: seq<Event>, i: nat, j: nat)
    requires Lawful(c, log) && i < j < |log|
    ensures IsResult(log[i]) ==> !log[j].Sent?
    ensures !Ending(log[i])
  {
    hide Allowed, Next;
    EventAt(c, log, i);
    ClosingSteps(c, StateAt(c, log[..i]), log[i]);
    EventAt(c, log, i + 1);
    ClosingSteps(c, StateAt(c, log[..i + 1]), log[i + 1]);
    if IsResult(log[i]) {
      StaysClosed(c, log, i + 1, j);
      EventAt(c, log, j);
      ClosingSteps(c, StateAt(c, log[..j]), log[j]);
    }
  }

  predicate HasOutcome(log: seq<Event>) { exists i :: 0 <= i < |log| && (IsResult(log[i]) || Ending(log[i])) }

  predicate Decided(p: Phase) { p.Concluded? || p.Stored? || p.Over? }

  lemma OutcomeStep(c: Context, s: State, e: Event)
    requires Allowed(c, s, e) && Decided(Next(c, s, e).phase)
    ensures IsResult(e) || Ending(e) || Decided(s.phase)
  {
    hide Allowed, Next;
    AllowedMoves(c, s, e);
  }

  /** A run that is over has sent its result or ended with an error. */
  lemma {:induction false} RunsHaveOutcomes(c: Context, log: seq<Event>)
    requires Lawful(c, log) && Decided(StateAt(c, log).phase)
    ensures HasOutcome(log)
  {
    hide Allowed, Next;
    if log != [] {
      var front, last := log[..|log| - 1], log[|log| - 1];
      OutcomeStep(c, StateAt(c, front), last);
      if IsResult(last) || Ending(last) {
        assert HasOutcome(log);
      } else {
        RunsHaveOutcomes(c, front);
        var i :| 0 <= i < |front| && (IsResult(front[i]) || Ending(front[i]));
        assert log[i] == front[i];
      }
    }
  }

  /***** Bounds *****/

  function Streams(log: seq<Event>): nat {
    if log == [] then 0 else Streams(log[..|log| - 1]) + if log[|log| - 1].Streamed? then 1 else 0
  }

  predicate MayRetry(p: Phase) { p.Quiet? || p == Phase.Streaming(0, []) }

  function Spare(p: Phase): nat { if MayRetry(p) then 1 else 0 }

  lemma RequestTurns(c: Context, s: State, e: Event)
    requires Allowed(c, s, e) && e.Streamed? && e.attempt == 0
    ensures s.turns < MaxTurns(c.options)
  {
  }

  lemma BoundStep(c: Context, s: State, e: Event)
    requires Allowed(c, s, e)
    ensures var t := Next(c, s, e);
      Spare(t.phase) + 2 * s.turns + (if e.Streamed? then 1 else 0) <= Spare(s.phase) + 2 * t.turns
    ensures s.turns <= MaxTurns(c.options) ==> Next(c, s, e).turns <= MaxTurns(c.options)
  {
    hide Allowed, Next;
    AllowedMoves(c, s, e);
    Books(c, s, e);
    if e.Streamed? && e.attempt == 0 { RequestTurns(c, s, e); }
  }

  /** Each turn asks at most two models, and there are at most `MaxTurns` turns. */
  lemma {:induction false} StreamsAreBounded(c: Context, log: seq<Event>)
    requires Lawful(c, log)
    ensures Streams(log) + Spare(StateAt(c, log).phase) <= 2 * StateAt(c, log).turns
    ensures StateAt(c, log).turns <= MaxTurns(c.options)
  {
    hide Allowed, Next;
    if log != [] {
      StreamsAreBounded(c, log[..|log| - 1]);
      BoundStep(c, StateAt(c, log[..|log| - 1]), log[|log| - 1]);
    }
  }

  lemma AllowedTurns(c: Context, s: State, e: Event)
    requires Allowed(c, s, e) && IsResult(e)
    ensures e.msg.turns == s.turns
  {
  }

  /** Turns begun: first attempts. */
  function Turns(log: seq<Event>): nat {
    if log == [] then 0
    else Turns(log[..|log| - 1]) + if log[|log| - 1].Streamed? && log[|log| - 1].attempt == 0 then 1 else 0
  }

  lemma {:induction false} TurnsAreCounted(c: Context, log: seq<Event>)
    ensures StateAt(c, log).turns == Turns(log)
  {
    hide Next;
    if log != [] {
      TurnsAreCounted(c, log[..|log| - 1]);
      Books(c, StateAt(c, log[..|log| - 1]), log[|log| - 1]);
    }
  }

  /** `n` is the limit that the options set: the turns, or else the tool iterations, or else eight. */
  predicate Limits(o: Options, n: int) {
    && (o.maxTurns > 0 ==> n == o.maxTurns)
    && (o.maxTurns <= 0 && o.maxToolIterations > 0 ==> n == o.maxToolIterations)
    && (o.maxTurns <= 0 && o.maxToolIterations <= 0 ==> n == 8)
  }

  lemma AtTheLimit(c: Context, s: State, e: Event, n: int)
    requires Allowed(c, s, e) && Limits(c.options, n)
    ensures e.Failed? && e.failure.TurnsExhausted? ==> s.turns == n
    ensures e.Streamed? && e.attempt == 0 ==> e.turn == s.turns < n
  {
  }

  /**
   * The bounds a consumer relies on: at most two streams for each turn begun, and no more turns than
   * the limit. A run gives up for its turns only when the limit is used up.
   */
  lemma RunIsBounded(c: Context, log: seq<Event>, n: int, i: nat)
    requires Lawful(c, log) && Limits(c.options, n) && i < |log|
    ensures Turns(log) <= n && Streams(log) <= 2 * Turns(log)
    ensures IsResult(log[i]) ==> log[i].msg.turns == Turns(log[..i])
    ensures log[i] == Failed(TurnsExhausted) ==> Turns(log[..i]) == n
  {
    hide Allowed, Next;
    StreamsAreBounded(c, log);
    TurnsAreCounted(c, log);
    EventAt(c, log, i);
    TurnsAreCounted(c, log[..i]);
    AtTheLimit(c, StateAt(c, log[..i]), log[i], n);
    if IsResult(log[i]) { AllowedTurns(c, StateAt(c, log[..i]), log[i]); }
  }

  /***** One attempt per turn *****/

  lemma StartIs(c: Context)
    ensures Start(c).phase.Fresh? && Start(c).gate.Shut? && StateAt(c, []) == Start(c)
  {
  }

  /** The model in the options: the one at the start, until another is set. */
  function ModelAfter(model: string, log: seq<Event>): string {
    if log == [] then model
    else if log[|log| - 1].ModelSet? then log[|log| - 1].model
    else ModelAfter(model, log[..|log| - 1])
  }

  lemma ModelStep(c: Context, s: State, e: Event)
    ensures Next(c, s, e).model == if e.ModelSet? then e.model else s.model
  {
  }

  lemma {:induction false} ModelIsSet(c: Context, log: seq<Event>)
    ensures StateAt(c, log).model == ModelAfter(c.model, log)
  {
    hide Next;
    if log != [] {
      ModelIsSet(c, log[..|log| - 1]);
      ModelStep(c, StateAt(c, log[..|log| - 1]), log[|log| - 1]);
    }
  }

  lemma FirstRequest(c: Context, s: State, e: Event)
    requires Allowed(c, s, e) && e.Streamed? && e.attempt == 0
    ensures e.model == s.model && e.turn == s.turns && Next(c, s, e).history == e.history
  {
  }

  lemma RetryFrom(c: Context, s: State, e: Event)
    requires Allowed(c, s, e) && e.Streamed? && e.attempt != 0
    ensures s.phase.Quiet? && s.turns == e.turn + 1 && s.history == e.history && e.model == c.options.fallback != s.picked
  {
  }

  lemma BackFromQuiet(c: Context, s: State, e: Event)
    requires Allowed(c, s, e) && Next(c, s, e).phase.Quiet? && !Control(e)
    ensures e.Ended? && s.phase == Phase.Streaming(0, []) && e.result.cost == None && e.result.error.Some?
    ensures var t := Next(c, s, e); t.turns == s.turns && t.history == s.history && t.picked == s.picked
  {
    hide Allowed, Next;
    AllowedMoves(c, s, e);
    Books(c, s, e);
    HistoryMoves(c, s, e);
    assert s.history + [] == s.history;
  }

  lemma BackFromSilent(c: Context, s: State, e: Event)
    requires Allowed(c, s, e) && Next(c, s, e).phase == Phase.Streaming(0, []) && !Control(e)
    ensures e.Streamed? && e.attempt == 0 && e.model == s.model
    ensures var t := Next(c, s, e); t.turns == e.turn + 1 && t.history == e.history && t.picked == e.model
  {
    hide Allowed, Next;
    AllowedMoves(c, s, e);
    Books(c, s, e);
    FirstRequest(c, s, e);
  }

  /**
   * Control events aside, the fallback model is asked only right after a first attempt at the same
   * request, with the model set at that moment, that ended in an error, sent nothing and reported no
   * cost. So what a turn sends and costs comes from one attempt.
   */
  lemma OneAttemptPerTurn(c: Context, log: seq<Event>, i: nat)
    requires Lawful(c, log) && i < |log| && log[i].Streamed? && log[i].attempt != 0
    ensures var j, k := Back(log, i, 1), Back(log, i, 2);
      && 0 <= k < j < i
      && log[j].Ended? && log[j].result.error.Some? && log[j].result.cost == None
      && log[k] == Streamed(log[i].turn, 0, ModelAfter(c.model, log[..k]), log[i].history)
      && log[i].model == c.options.fallback != log[k].model
  {
    hide Allowed, Next, Start;
    StartIs(c);
    EventAt(c, log, i);
    RetryFrom(c, StateAt(c, log[..i]), log[i]);
    PriorEvent(c, log, i);
    var j := Before(log, i);
    BackFromQuiet(c, StateAt(c, log[..j]), log[j]);
    PriorEvent(c, log, j);
    var k := Before(log, j);
    BackFromSilent(c, StateAt(c, log[..k]), log[k]);
    ModelIsSet(c, log[..k]);
    BackTwice(log, i);
  }

  lemma QuietFrom(c: Context, s: State, e: Event)
    requires Allowed(c, s, e) && e.Ended? && e.result.error.Some? && !e.result.emitted
    requires s.phase == Phase.Streaming(0, []) && c.options.fallback != "" && c.options.fallback != s.picked
    ensures Next(c, s, e) == s.(phase := Quiet, reply := e.result, spent := s.spent + CostText(e.result))
  {
  }

  lemma FromQuiet(c: Context, s: State, e: Event)
    requires Allowed(c, s, e) && s.phase.Quiet? && !Control(e)
    ensures e.Streamed? && e.attempt == 1
  {
  }

  lemma SilentAt(c: Context, s: State, e: Event)
    requires Allowed(c, s, e) && e.Streamed? && e.attempt == 0
    ensures var t := Next(c, s, e); t.phase == Phase.Streaming(0, []) && t.picked == e.model && t.turns == e.turn + 1 && t.history == e.history
  {
  }

  /**
   * The converse of `OneAttemptPerTurn`: after a first attempt that failed and sent nothing, a fallback
   * that is another model is asked for the same request before anything else happens.
   */
  lemma FallbackIsAsked(c: Context, log: seq<Event>, i: nat)
    requires Lawful(c, log) && i < |log| && !Control(log[i])
    requires var j, k := Back(log, i, 1), Back(log, i, 2);
      && 0 <= k && log[j].Ended? && log[j].result.error.Some? && !log[j].result.emitted
      && log[k].Streamed? && log[k].attempt == 0 && c.options.fallback != "" && c.options.fallback != log[k].model
    ensures var k := Back(log, i, 2); log[i] == Streamed(log[k].turn, 1, c.options.fallback, log[k].history)
  {
    hide Allowed, Next, Start;
    BackTwice(log, i);
    var j, k := Back(log, i, 1), Back(log, i, 2);
    EventAt(c, log, i);
    PriorEvent(c, log, i);
    PriorEvent(c, log, j);
    SilentAt(c, StateAt(c, log[..k]), log[k]);
    QuietFrom(c, StateAt(c, log[..j]), log[j]);
    FromQuiet(c, StateAt(c, log[..i]), log[i]);
    RetryFrom(c, StateAt(c, log[..i]), log[i]);
  }

  lemma BackTwice(log: seq<Event>, i: nat)
    requires i <= |log|
    ensures Back(log, i, 1) == Before(log, i) && Back(log, i, 2) == Before(log, Before(log, i))
  {
    assert Back(log, i, 0) == i;
  }

  /***** Budget *****/

  function TotalCost(log: seq<Event>): real {
    if log == [] then 0.0
    else
      var last := log[|log| - 1];
      TotalCost(log[..|log| - 1]) + if last.Ended? && last.result.cost.Some? then last.result.cost.value else 0.0
  }

  lemma {:induction false} SpentIsTotal(c: Context, log: seq<Event>)
    ensures StateAt(c, log).spent == TotalCost(log)
  {
    hide Next;
    if log != [] {
      SpentIsTotal(c, log[..|log| - 1]);
      Books(c, StateAt(c, log[..|log| - 1]), log[|log| - 1]);
    }
  }

  /** Within the budget, or nothing was ever spent. */
  predicate Fits(b: real, spent: real) { spent <= b || spent == 0.0 }

  predicate BudgetInv(b: real, s: State) {
    match s.phase
    case Replied => Fits(b, s.spent - CostText(s.reply)) && (s.reply.cost.Some? || Fits(b, s.spent))
    case Lost(_) => true
    case Concluded => true
    case Stored => true
    case Broken => true
    case Over => true
    case _ => Fits(b, s.spent)
  }

  lemma PaidReplies(c: Context, s: State, e: Event)
    requires Allowed(c, s, e) && (e.Planned? || (e.Sent? && e.msg.Final?))
    ensures Affordable(c, s)
  {
  }

  lemma BudgetStep(c: Context, b: real, s: State, e: Event)
    requires c.options.budget == Some(b) && Allowed(c, s, e) && BudgetInv(b, s)
    ensures BudgetInv(b, Next(c, s, e))
  {
    hide Allowed, Next;
    AllowedMoves(c, s, e);
    Books(c, s, e);
    if e.Planned? || (e.Sent? && e.msg.Final?) { PaidReplies(c, s, e); }
  }

  lemma {:induction false} BudgetHolds(c: Context, b: real, log: seq<Event>)
    requires c.options.budget == Some(b) && Lawful(c, log)
    ensures BudgetInv(b, StateAt(c, log))
  {
    hide Allowed, Next;
    if log != [] {
      BudgetHolds(c, b, log[..|log| - 1]);
      BudgetStep(c, b, StateAt(c, log[..|log| - 1]), log[|log| - 1]);
    }
  }

  lemma RequestFits(c: Context, b: real, s: State, e: Event)
    requires c.options.budget == Some(b) && Allowed(c, s, e) && e.Streamed? && BudgetInv(b, s)
    ensures Fits(b, s.spent)
  {
    hide Allowed, Next;
    AllowedMoves(c, s, e);
  }

  predicate OverBudget(e: Event) { IsResult(e) && e.msg.kind.BudgetExceeded? }

  lemma OverBudgetFrom(c: Context, b: real, s: State, e: Event)
    requires c.options.budget == Some(b) && Allowed(c, s, e) && OverBudget(e)
    ensures s.phase.Replied? && e.msg.cost == Some(s.spent) && s.spent > b
  {
  }

  lemma BackFromReplied(c: Context, s: State, e: Event)
    requires Allowed(c, s, e) && Next(c, s, e).phase.Replied? && !Control(e)
    ensures e.Ended? && Next(c, s, e).reply == e.result
  {
    hide Allowed, Next;
    AllowedMoves(c, s, e);
    Books(c, s, e);
  }

  /**
   * With a budget of at least zero: whenever a model is asked, no more than the budget is spent. A
   * budget error reports what was spent, which is over the budget by no more than the last turn cost.
   */
  lemma BudgetBound(c: Context, b: real, log: seq<Event>, i: nat)
    requires c.options.budget == Some(b) && b >= 0.0 && Lawful(c, log) && i < |log|
    ensures log[i].Streamed? ==> TotalCost(log[..i]) <= b
    ensures OverBudget(log[i]) ==>
      var j := Before(log, i);
      log[i].msg.cost == Some(TotalCost(log[..i])) && j >= 0 && log[j].Ended? &&
      b < TotalCost(log[..i]) <= b + if log[j].result.cost.Some? then log[j].result.cost.value else 0.0
  {
    hide Allowed, Next, Start;
    var s := StateAt(c, log[..i]);
    EventAt(c, log, i);
    SpentIsTotal(c, log[..i]);
    BudgetHolds(c, b, log[..i]);
    if log[i].Streamed? { RequestFits(c, b, s, log[i]); }
    if OverBudget(log[i]) {
      OverBudgetFrom(c, b, s, log[i]);
      StartIs(c);
      PriorEvent(c, log, i);
      var j := Before(log, i);
      BackFromReplied(c, StateAt(c, log[..j]), log[j]);
    }
  }

  /** What the last stream came back with. */
  function LastReply(log: seq<Event>): Reply {
    if log == [] then NO_REPLY
    else if log[|log| - 1].Ended? then log[|log| - 1].result
    else LastReply(log[..|log| - 1])
  }

  lemma {:induction false} ReplyIsLast(c: Context, log: seq<Event>)
    ensures StateAt(c, log).reply == LastReply(log)
  {
    hide Next;
    if log != [] {
      ReplyIsLast(c, log[..|log| - 1]);
      Books(c, StateAt(c, log[..|log| - 1]), log[|log| - 1]);
    }
  }

  /***** What a reply is, and how it is presented *****/

  lemma EndedFrom(c: Context, s: State, e: Event)
    requires Allowed(c, s, e) && e.Ended? && e.result.error.None?
    ensures c.tag.open != "" && c.tag.close != "" && StreamAssembly.Undisturbed(e.items)
    ensures e.result == StreamAssembly.Outcome(e.items, c.options.partial, c.tag, c.readers, c.resolve, e.result.emitted)
  {
    hide StreamAssembly.Outcome, StreamAssembly.EventsOf;
  }

  /** A reply without error is what all chunks of its stream say, and costs what the stream reported last. */
  lemma RepliesMean(c: Context, log: seq<Event>, i: nat)
    requires Lawful(c, log) && i < |log| && log[i].Ended? && log[i].result.error.None?
    ensures var r, chunks := log[i].result, StreamAssembly.ChunksOf(log[i].items);
      && r.text == TrimSpace(StreamAssembly.AssembledText(StreamAssembly.Contents(chunks)))
      && r.reasoning == TrimSpace(Flatten(StreamAssembly.Thoughts(chunks)))
      && r.images == StreamAssembly.NewImages({}, StreamAssembly.AllImages(chunks))
      && (StreamAssembly.Deltas(chunks) != [] ==> r.calls == AbsorbAll(map[], StreamAssembly.Deltas(chunks)))
      && r.cost == StreamAssembly.CostOf(log[i].items)
  {
    hide Allowed, Next;
    EventAt(c, log, i);
    EndedFrom(c, StateAt(c, log[..i]), log[i]);
    StreamAssembly.OutcomeMeans(log[i].items, c.options.partial, c.tag, c.readers, c.resolve);
  }

  /** What happened since the last request, control events aside. */
  function ShownSince(log: seq<Event>): seq<Event> {
    if log == [] then []
    else
      var e := log[|log| - 1];
      if e.Streamed? then [] else ShownSince(log[..|log| - 1]) + if Control(e) then [] else [e]
  }

  lemma ShownStep(c: Context, s: State, e: Event)
    requires Allowed(c, s, e) && Next(c, s, e).phase.Streaming?
    ensures if e.Streamed? then Next(c, s, e).phase.shown == []
            else s.phase.Streaming? && Next(c, s, e).phase.shown == s.phase.shown + if Control(e) then [] else [e]
  {
    hide Allowed, Next;
    AllowedMoves(c, s, e);
    if Control(e) { ControlStep(c, s, e); }
  }

  lemma {:induction false} ShownIsSince(c: Context, log: seq<Event>)
    requires Lawful(c, log) && StateAt(c, log).phase.Streaming?
    ensures StateAt(c, log).phase.shown == ShownSince(log)
  {
    hide Allowed, Next;
    if log == [] {
      StartIs(c);
    } else {
      ShownStep(c, StateAt(c, log[..|log| - 1]), log[|log| - 1]);
      if !log[|log| - 1].Streamed? { ShownIsSince(c, log[..|log| - 1]); }
    }
  }

  lemma EndedShows(c: Context, s: State, e: Event)
    requires Allowed(c, s, e) && e.Ended?
    ensures s.phase.Streaming?
    ensures e.result.error.None? ==> s.phase.shown == StreamAssembly.EventsOf(e.items, c.options.partial)
    ensures e.result.error.Some? ==> s.phase.shown <= StreamAssembly.EventsOf(e.items, c.options.partial)
    ensures e.result.emitted <==> s.phase.shown != []
  {
    hide StreamAssembly.Outcome, StreamAssembly.EventsOf;
  }

  /**
   * Between a request and the end of its stream the consumer gets what the stream's items mean, all of
   * it if the stream ends well, a first part otherwise.
   */
  lemma StreamsAreShown(c: Context, log: seq<Event>, i: nat)
    requires Lawful(c, log) && i < |log| && log[i].Ended?
    ensures var shown, due := ShownSince(log[..i]), StreamAssembly.EventsOf(log[i].items, c.options.partial);
      && shown <= due && (log[i].result.error.None? ==> shown == due)
      && (log[i].result.emitted <==> shown != [])
  {
    hide Allowed, Next;
    EventAt(c, log, i);
    EndedShows(c, StateAt(c, log[..i]), log[i]);
    ShownIsSince(c, log[..i]);
  }

  lemma PlannedFrom(c: Context, s: State, e: Event)
    requires Allowed(c, s, e) && e.Planned?
    ensures Listed(s.reply.calls, e.calls)
    ensures s.phase.Presented? || (s.phase.Replied? && (c.options.partial || !HasBlocks(s.reply)))
  {
  }

  lemma BackFromPresented(c: Context, s: State, e: Event)
    requires Allowed(c, s, e) && Next(c, s, e).phase.Presented? && !Control(e)
    ensures e == Sent(Final(s.reply.text, s.reply.reasoning, s.reply.images)) && Next(c, s, e).reply == s.reply
    ensures !c.options.partial && HasBlocks(s.reply)
  {
    hide Allowed, Next;
    AllowedMoves(c, s, e);
    Books(c, s, e);
    if e.Sent? { FinalFrom(c, s, e); }
  }

  lemma FinalFrom(c: Context, s: State, e: Event)
    requires Allowed(c, s, e) && e.Sent? && e.msg.Final?
    ensures e == Sent(Final(s.reply.text, s.reply.reasoning, s.reply.images)) && !c.options.partial && HasBlocks(s.reply)
  {
  }

  lemma BlocksAre(r: Reply)
    ensures HasBlocks(r) <==> TrimSpace(r.text) != "" || TrimSpace(r.reasoning) != "" || |r.images| > 0
  {
  }

  /**
   * Before the calls of a reply are taken up, the reply is presented in a final message, if and only if
   * partial messages are off and it has text, reasoning or an image. The calls are those of the reply,
   * each non-negative index once and ascending.
   */
  lemma RepliesArePresented(c: Context, log: seq<Event>, i: nat)
    requires Lawful(c, log) && i < |log| && log[i].Planned?
    ensures Before(log, i) >= 0
    ensures var j, r := Before(log, i), LastReply(log[..i]);
      if !c.options.partial && (TrimSpace(r.text) != "" || TrimSpace(r.reasoning) != "" || |r.images| > 0)
      then log[j] == Sent(Final(r.text, r.reasoning, r.images))
      else log[j].Ended? && log[j].result == r
    ensures exists keys :: Listing(LastReply(log[..i]).calls, keys, log[i].calls)
  {
    hide Allowed, Next, Start, HasBlocks, Listing;
    StartIs(c);
    EventAt(c, log, i);
    ReplyIsLast(c, log[..i]);
    PlannedFrom(c, StateAt(c, log[..i]), log[i]);
    BlocksAre(LastReply(log[..i]));
    PriorEvent(c, log, i);
    var j := Before(log, i);
    if StateAt(c, log[..i]).phase.Presented? {
      BackFromPresented(c, StateAt(c, log[..j]), log[j]);
    } else {
      BackFromReplied(c, StateAt(c, log[..j]), log[j]);
    }
  }

  lemma SuccessFrom(c: Context, s: State, e: Event)
    requires Allowed(c, s, e) && IsResult(e) && e.msg.kind.Success?
    ensures e.msg.cost == if s.reply.cost.Some? then Some(s.spent) else None
    ensures e.msg.text == TrimSpace(s.reply.text)
  {
  }

  /**
   * A success result carries the text of the last reply. It reports the total of all turns, but only
   * if the last reply carried a cost: costs of earlier turns are otherwise lost.
   */
  lemma SuccessReports(c: Context, log: seq<Event>, i: nat)
    requires Lawful(c, log) && i < |log| && IsResult(log[i]) && log[i].msg.kind.Success?
    ensures log[i].msg.text == TrimSpace(LastReply(log[..i]).text)
    ensures log[i].msg.cost == if LastReply(log[..i]).cost.Some? then Some(TotalCost(log[..i])) else None
  {
    hide Allowed, Next;
    EventAt(c, log, i);
    SpentIsTotal(c, log[..i]);
    ReplyIsLast(c, log[..i]);
    SuccessFrom(c, StateAt(c, log[..i]), log[i]);
  }
}
