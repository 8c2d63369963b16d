/** What a lawful log guarantees about the order of a run: which event must follow which. */
module StepLaws {
  import opened Common
  import opened ToolCalls
  import opened Trace
  import opened Hooks
  import opened Protocol
  import opened Moves
  import opened RunLaws
  import opened HistoryLaws
  import StreamAssembly
  import Permission
  import T = ToolLaws

  /** What comes next where a run stands like this, tool calls in work apart. */
  predicate Proceeds(c: Context, s: State, e: Event) {
    match s.phase
    case Fresh => e == Opened(c.session) || e == Failed(NoTransport) || e == Failed(StartFailed)
    case Asking(uid) => e == Failed(Cancelled) || (e.Sent? && e.msg.User? && e.msg.id == uid)
    case Submitted(_) => e.Hooked? && e.event.UserPromptSubmit?
    case Checkpointing(uid) => e.Checkpointed? && e.uid == uid
    case Streaming(_, _) => e.Ended? || StreamingEvent(e)
    case Quiet => e.Streamed? && e.attempt == 1
    case Lost(failure) => e == Failed(failure)
    case Replied =>
      if Affordable(c, s) then e == Failed(Cancelled) || e.Planned? || (e.Sent? && e.msg.Final?)
      else e == Failed(Cancelled) || (e.Sent? && e.msg.Result? && e.msg.kind.BudgetExceeded?)
    case Presented => e.Planned?
    case Working =>
      if s.calls == [] then e == Failed(Cancelled) || (e.Sent? && e.msg.Result? && e.msg.kind.Success?)
      else if |s.answers| < |s.calls| then
        (s.gate.Shut? ==> e == Failed(Cancelled) || (e.Sent? && e.msg.ToolUse? && e.msg.call == s.calls[|s.answers|]))
      else e.Streamed? || e == Failed(TurnsExhausted) || e == Failed(Cancelled)
    case Concluded => e.Saved?
    case Stored => e.Hooked? && e.event.Stop?
    case Broken => e == Failed(HookFailed) || e == Failed(BadHookOutput)
    case _ => true
  }

  lemma RunProceeds(c: Context, s: State, e: Event)
    requires Allowed(c, s, e) && !Control(e) && (s.phase.Working? ==> |s.answers| <= |s.calls|)
    ensures Proceeds(c, s, e)
  {
    hide Allowed, Next, Affordable;
    AllowedMoves(c, s, e);
    match e {
      case Sent(m) => SentIn(c, s, m);
      case Failed(f) => FailedIn(c, s, f);
      case Streamed(_, _, _, _) => StreamedIn(c, s, e);
      case Ended(_, _) =>
      case _ => OtherIn(c, s, e);
    }
  }

  lemma SentIn(c: Context, s: State, m: Msg)
    requires Allowed(c, s, Sent(m)) && (s.phase.Working? ==> |s.answers| <= |s.calls|)
    ensures Proceeds(c, s, Sent(m))
  {
    hide HasBlocks;
  }

  lemma FailedIn(c: Context, s: State, f: Failure)
    requires Allowed(c, s, Failed(f)) && (s.phase.Working? ==> |s.answers| <= |s.calls|)
    ensures Proceeds(c, s, Failed(f))
  {
    hide Affordable;
    assert AllowedFailure(c, s, f);
  }

  lemma StreamedIn(c: Context, s: State, e: Event)
    requires Allowed(c, s, e) && e.Streamed?
    ensures Proceeds(c, s, e)
  {
    hide Affordable;
  }

  lemma OtherIn(c: Context, s: State, e: Event)
    requires Allowed(c, s, e) && !e.Sent? && !e.Failed? && !e.Streamed? && !Control(e)
    ensures Proceeds(c, s, e)
  {
    hide Affordable, HasBlocks, ReplyFits, Listed;
  }

  /***** The order of a run *****/

  /** The turn goes on to its next call, and behind the last of them to the next turn or to the end. */
  ghost predicate GoesOn(plan: seq<Call>, done: nat, next: Event) {
    || next == Failed(Cancelled)
    || (plan == [] && next.Sent? && next.msg.Result? && next.msg.kind.Success?)
    || (done < |plan| && next.Sent? && next.msg.ToolUse? && next.msg.call == plan[done])
    || (plan != [] && done == |plan| && (next == Failed(TurnsExhausted) || (next.Streamed? && next.attempt == 0)))
  }

  /** What a turn comes to with this reply: another attempt or the end, or else the reply goes further if it was paid for. */
  predicate GoesFurther(r: Reply, overBudget: bool, next: Event) {
    if r.error.Some? then next == Failed(r.error.value) || (next.Streamed? && next.attempt == 1)
    else if overBudget then next == Failed(Cancelled) || (next.Sent? && next.msg.Result? && next.msg.kind.BudgetExceeded?)
    else next == Failed(Cancelled) || next.Planned? || (next.Sent? && next.msg.Final?)
  }

  predicate Overspent(c: Context, r: Reply, spent: real) {
    c.options.budget.Some? && r.cost.Some? && spent > c.options.budget.value
  }

  /** What must follow an event, outside tool calls: `log` is everything so far. */
  ghost predicate Follows(c: Context, log: seq<Event>, e: Event, next: Event) {
    match e
    case Issued(uid) => next == Failed(Cancelled) || (next.Sent? && next.msg.User? && next.msg.id == uid)
    case Sent(User(_, content)) => next.Hooked? && next.event.UserPromptSubmit? && next.tool == "" && next.input == content
    case Hooked(UserPromptSubmit, _, _, _) => c.options.checkpointing && !T.Rejected(e) ==> next.Checkpointed?
    case Ended(_, r) => GoesFurther(r, Overspent(c, r, TotalCost(log)), next)
    case Sent(Final(_, _, _)) => next.Planned?
    case Planned(calls) => GoesOn(calls, 0, next)
    case Sent(ToolResult(_, _)) => GoesOn(LastPlan(log), |ShownResults(log)|, next)
    case Sent(Result(kind, _, _, _)) => kind.Success? && next.Saved?
    case Saved(_) => next.Hooked? && next.event.Stop?
    case _ => true
  }

  /** How a run stands after an event. */
  ghost predicate Leaves(c: Context, s: State, e: Event, t: State) {
    match e
    case Issued(uid) => t.phase == Asking(uid)
    case Sent(User(id, content)) => t.phase == Submitted(id) && t.inputs < |c.inputs| && content == c.inputs[t.inputs].content
    case Hooked(UserPromptSubmit, _, _, _) => c.options.checkpointing && !T.Rejected(e) ==> t.phase.Checkpointing?
    case Ended(_, r) => t.reply == r && if r.error.None? then t.phase.Replied? else t.phase.Quiet? || t.phase == Lost(r.error.value)
    case Sent(Final(_, _, _)) => t.phase.Presented?
    case Planned(calls) => t.phase.Working? && t.gate.Shut? && t.calls == calls && t.answers == []
    case Sent(ToolResult(_, _)) => t.phase.Working? && t.gate.Shut? && t.calls != []
    case Sent(Result(kind, _, _, _)) => if kind.Success? then t.phase.Concluded? else t.phase.Over?
    case Saved(_) => t.phase.Stored?
    case _ => true
  }

  lemma PromptLeaves(c: Context, s: State, e: Event)
    requires Allowed(c, s, e) && e.Hooked?
    ensures Leaves(c, s, e, Next(c, s, e))
  {
    hide Allowed, Next, T.Rejected;
    AllowedMoves(c, s, e);
    if e.event.UserPromptSubmit? {
      T.RejectedBreaks(c, s, e);
      if !T.Rejected(e) { PromptChecks(c, s, e); }
    }
  }

  lemma PromptChecks(c: Context, s: State, e: Event)
    requires Allowed(c, s, e) && e.Hooked? && e.event.UserPromptSubmit? && !Next(c, s, e).phase.Broken?
    ensures c.options.checkpointing ==> Next(c, s, e).phase.Checkpointing?
  {
    hide AllSupported;
  }

  lemma EventLeaves(c: Context, s: State, e: Event)
    requires Allowed(c, s, e)
    ensures Leaves(c, s, e, Next(c, s, e))
  {
    hide ReplyFits, VerdictOf, AllSupported, Permission.ApplyList, Permission.Denies, T.Rejected, Affordable, HasBlocks;
    if e.Hooked? {
      PromptLeaves(c, s, e);
    } else if e.Ended? {
      AllowedMoves(c, s, e);
      Books(c, s, e);
    }
  }

  lemma StillLeaves(c: Context, s: State, e: Event, t: State, u: State)
    requires Leaves(c, s, e, t) && Drifted(t, u)
    ensures Leaves(c, s, e, u)
  {
    hide T.Rejected;
  }

  /** The hook of a submitted message gets its text. */
  lemma PromptInput(c: Context, s: State, e: Event)
    requires Allowed(c, s, e) && s.phase.Submitted? && e.Hooked? && e.event.UserPromptSubmit?
    ensures e.tool == "" && s.inputs < |c.inputs| && e.input == c.inputs[s.inputs].content
  {
  }

  lemma FollowsOn(c: Context, log: seq<Event>, s: State, t: State, e: Event, next: Event)
    requires Leaves(c, s, e, t) && Proceeds(c, t, next) && !t.phase.Over?
    requires t.phase.Submitted? && next.Hooked? && next.event.UserPromptSubmit? ==>
      next.tool == "" && t.inputs < |c.inputs| && next.input == c.inputs[t.inputs].content
    requires t.spent == TotalCost(log) && t.calls == LastPlan(log) && |t.answers| == |ShownResults(log)| <= |t.calls|
    requires !Control(next) && (next.Streamed? && next.attempt == 1 ==> t.phase.Quiet?) && (next.Streamed? ==> next.attempt <= 1)
    ensures Follows(c, log, e, next)
  {
    hide T.Rejected, TotalCost, LastPlan, ShownResults, HasBlocks;
  }

  lemma AttemptsAre(c: Context, s: State, e: Event)
    requires Allowed(c, s, e) && e.Streamed?
    ensures e.attempt <= 1 && (e.attempt == 1 ==> s.phase.Quiet?)
  {
    hide Allowed, Next;
    AllowedMoves(c, s, e);
  }

  /** The first event, control events aside: the session is opened, or the run cannot start. */
  lemma RunsBegin(c: Context, log: seq<Event>, i: nat)
    requires Lawful(c, log) && i < |log| && !Control(log[i]) && Before(log, i) == -1
    ensures log[i] == Opened(c.session) || log[i] == Failed(NoTransport) || log[i] == Failed(StartFailed)
  {
    hide Allowed, Next, Start;
    StartIs(c);
    EventAt(c, log, i);
    PriorEvent(c, log, i);
    RunProceeds(c, StateAt(c, log[..i]), log[i]);
  }

  /**
   * A run goes step by step, control events aside: each message is numbered, sent, given to the prompt
   * hook and checkpointed; a reply is presented and its calls are planned unless the budget is spent;
   * the planned calls are taken up one by one in their order, and only behind the last of them comes
   * the next turn; a reply without calls is the success, which is saved before the stop hook.
   */
  lemma RunsGoStepByStep(c: Context, log: seq<Event>, i: nat)
    requires Lawful(c, log) && i < |log| && !Control(log[i]) && Before(log, i) >= 0
    ensures Follows(c, log[..i], log[Before(log, i)], log[i])
  {
    hide Allowed, Next, Start, Follows, Leaves, Proceeds;
    EventAt(c, log, i);
    PriorEvent(c, log, i);
    var j := Before(log, i);
    var s, t := StateAt(c, log[..j]), StateAt(c, log[..i]);
    EventLeaves(c, s, log[j]);
    StillLeaves(c, s, log[j], Next(c, s, log[j]), t);
    RepliesHold(c, log[..i]);
    RunProceeds(c, t, log[i]);
    ClosingSteps(c, t, log[i]);
    SpentIsTotal(c, log[..i]);
    WorkIsShown(c, log[..i]);
    AnswersAreResults(log[..i]);
    if t.phase.Submitted? && log[i].Hooked? && log[i].event.UserPromptSubmit? { PromptInput(c, t, log[i]); }
    if log[i].Streamed? { AttemptsAre(c, t, log[i]); }
    FollowsOn(c, log[..i], s, t, log[j], log[i]);
  }
}
