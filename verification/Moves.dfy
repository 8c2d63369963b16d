/** The protocol in tables: what each event does to the phase of a run and to the gate of a tool call. */
module Moves {
  import opened Common
  import opened Trace
  import opened Hooks
  import opened ToolCalls
  import opened Protocol
  import Permission
  import S = Sessions

  /***** Phases *****/

  predicate MsgMoves(p: Phase, m: Msg, q: Phase) {
    match m
    case System(_) => p.Opening? && q == p
    case User(id, _) => p == Asking(id) && q == Submitted(id)
    case Final(_, _, _) => p.Replied? && q.Presented?
    case ToolUse(_, _) => p.Working? && q == p
    case ToolResult(_, _) => p.Working? && q == p
    case Result(kind, _, _, _) =>
      if kind.Success? then p.Working? && q.Concluded?
      else q.Over? && if kind.BudgetExceeded? then p.Replied? else p.Working?
    case _ => p.Streaming? && q == Phase.Streaming(p.attempt, p.shown + [Sent(m)])
  }

  predicate HookMoves(p: Phase, event: HookEvent, q: Phase) {
    match event
    case UserPromptSubmit => p.Submitted? && (q.Broken? || q.Opening? || q == Checkpointing(p.uid))
    case Stop => p.Stored? && (q.Broken? || q.Over?)
    case _ => p.Working? && (q.Broken? || q == p)
  }

  predicate StreamMoves(p: Phase, r: Reply, q: Phase) {
    p.Streaming? &&
    if r.error.None? then q.Replied?
    else if q.Quiet? then p == Phase.Streaming(0, []) && r.cost == None
    else q == Lost(r.error.value)
  }

  predicate PhaseMoves(p: Phase, e: Event, q: Phase) {
    match e
    case Sent(m) => MsgMoves(p, m, q)
    case Failed(f) =>
      if f.BadEvent? then p.Streaming? && q == Phase.Streaming(p.attempt, p.shown + [e]) else !p.Over? && q.Over?
    case Opened(_) => p.Fresh? && q.Opening?
    case Issued(uid) => p.Opening? && q == Asking(uid)
    case Hooked(event, _, _, _) => HookMoves(p, event, q)
    case Checkpointed(uid, _) => p == Checkpointing(uid) && q.Opening?
    case Streamed(_, attempt, _, _) =>
      q == Phase.Streaming(attempt, []) && if attempt == 0 then p.Opening? || p.Working? else attempt == 1 && p.Quiet?
    case Ended(_, r) => StreamMoves(p, r, q)
    case Planned(_) => (p.Presented? || p.Replied?) && q.Working?
    case Checked(_, _) => p.Working? && q == p
    case Asked(_, _, _, _) => p.Working? && q == p
    case Called(_, _, _, _) => p.Working? && q == p
    case Saved(_) => p.Concluded? && q.Stored?
    case ModeSet(_) => !p.Over? && q == p
    case ModelSet(_) => !p.Over? && q == p
  }

  lemma MsgPhase(c: Context, s: State, m: Msg)
    requires AllowedMsg(c, s, m)
    ensures MsgMoves(s.phase, m, AfterMsg(s, m).phase)
  {
  }

  lemma HookPhase(c: Context, s: State, event: HookEvent, tool: string, input: string, reply: HookReply)
    requires AllowedHook(c, s, event, tool, input)
    ensures HookMoves(s.phase, event, AfterHook(c, s, event, input, reply).phase)
  {
    hide VerdictOf, AllSupported, Permission.ApplyList;
  }

  lemma StreamPhase(c: Context, s: State, items: seq<Item>, r: Reply)
    requires s.phase.Streaming? && ReplyFits(c, s.phase.shown, items, r)
    ensures StreamMoves(s.phase, r, AfterStream(c, s, r).phase)
  {
  }

  /** Every allowed event moves the phase as the table says. */
  lemma AllowedMoves(c: Context, s: State, e: Event)
    requires Allowed(c, s, e)
    ensures PhaseMoves(s.phase, e, Next(c, s, e).phase)
  {
    hide MsgMoves, HookMoves, StreamMoves, AllowedMsg, AfterMsg, AllowedHook, AfterHook, ReplyFits, AfterStream;
    match e
    case Sent(m) => MsgPhase(c, s, m);
    case Hooked(event, tool, input, reply) => HookPhase(c, s, event, tool, input, reply);
    case Ended(items, r) => StreamPhase(c, s, items, r);
    case _ =>
  }

  /***** Gates *****/

  predicate HookOpens(g: Gate, event: HookEvent, input: string, reply: HookReply, h: Gate) {
    match event
    case PermissionRequest =>
      g == Gate.Shown(input) && reply.Outputs? && AllSupported(reply.outputs) &&
      var v := VerdictOf(reply.outputs, input);
      h == if v.deny then Refused(v.interrupt) else Permitted(v.input, v.suggestions)
    case PreToolUse =>
      g.Permitted? && g.input == input && reply.Outputs? && AllSupported(reply.outputs) && h == Prepared(input, g.suggestions)
    case PostToolUseFailure => !g.Shut? && h == if g.Refused? then Condemned(g.interrupt) else Failing
    case PostToolUse => (g.Yielded? || g.Failing?) && h == Posted(if g.Yielded? then Some(g.output) else None)
    case _ => false
  }

  function AnswerGate(given: string, answer: Answer): Gate {
    match answer
    case NoCallback => Cleared(given)
    case Allow(input, _) => Cleared(if input.Some? then input.value else given)
    case Deny(_, interrupt) => Refused(interrupt)
    case _ => Erred
  }

  predicate GateMoves(name: string, g: Gate, e: Event, h: Gate) {
    match e
    case Sent(ToolUse(call, input)) => g.Shut? && call.name == name && h == Gate.Shown(input)
    case Hooked(event, tool, input, reply) => tool == name && HookOpens(g, event, input, reply, h)
    case Checked(n, policy) =>
      n == name && g.Prepared? && h == if Permission.Denies(policy, n) then Refused(false) else Passed(g.input, g.suggestions)
    case Asked(n, given, suggestions, answer) => n == name && g == Passed(given, suggestions) && h == AnswerGate(given, answer)
    case Called(_, _, args, output) => g == Cleared(args) && h == if output.Some? then Yielded(output.value) else Erred
    case ModeSet(_) => h == g
    case ModelSet(_) => h == g
    case _ => h.Shut?
  }

  /** The same call is being worked on. */
  predicate SameCall(s: State, t: State) { Busy(s) && Busy(t) && s.calls == t.calls && s.answers == t.answers }

  lemma HookGates(c: Context, s: State, event: HookEvent, tool: string, input: string, reply: HookReply)
    requires Busy(s) && AllowedHook(c, s, event, tool, input) && AfterHook(c, s, event, input, reply).phase.Working?
    ensures var t := AfterHook(c, s, event, input, reply);
      tool == Current(s).name && HookOpens(s.gate, event, input, reply, t.gate) && SameCall(s, t)
  {
    hide AllSupported, VerdictOf, Permission.ApplyList;
  }

  /** Every allowed event that keeps a call in work moves the gate as the table says. */
  lemma AllowedGates(c: Context, s: State, e: Event)
    requires Allowed(c, s, e) && Busy(s) && Next(c, s, e).phase.Working?
    ensures GateMoves(Current(s).name, s.gate, e, Next(c, s, e).gate)
    ensures !Next(c, s, e).gate.Shut? ==> SameCall(s, Next(c, s, e))
  {
    hide HookOpens, AllowedHook, AfterHook, ReplyFits, Permission.Denies, Permission.ApplyList, MsgMoves, HookMoves, StreamMoves;
    AllowedMoves(c, s, e);
    match e
    case Hooked(event, tool, input, reply) => HookGates(c, s, event, tool, input, reply);
    case _ =>
  }

  /** An open gate belongs to a call that was already in work. */
  lemma OpenGates(c: Context, s: State, e: Event)
    requires Allowed(c, s, e) && Busy(Next(c, s, e)) && !Next(c, s, e).gate.Shut?
    ensures SameCall(s, Next(c, s, e)) && GateMoves(Current(s).name, s.gate, e, Next(c, s, e).gate)
  {
    hide AfterHook, ReplyFits, StreamMoves, GateMoves, AllowedToolHook;
    AllowedMoves(c, s, e);
    if Busy(s) { AllowedGates(c, s, e); }
  }

  /***** The books *****/

  /** The calls of the current turn. */
  function PlanBy(e: Event, before: seq<Call>): seq<Call> {
    if e.Planned? then e.calls else if e.Streamed? && e.attempt == 0 then [] else before
  }

  /** The answers given in the current turn. */
  function AnswersBy(e: Event, before: seq<Entry>): seq<Entry> {
    if e.Planned? || (e.Streamed? && e.attempt == 0) then []
    else if e.Sent? && e.msg.ToolResult? then before + [AnswerEntry(e.msg.callId, e.msg.output)]
    else before
  }

  predicate SameBooks(s: State, t: State) {
    && t.turns == s.turns && t.picked == s.picked && t.spent == s.spent && t.reply == s.reply
    && t.calls == s.calls && t.answers == s.answers
  }

  lemma MsgBooks(s: State, m: Msg)
    ensures SameBooks(s.(answers := AnswersBy(Sent(m), s.answers)), AfterMsg(s, m))
  {
  }

  lemma HookBooks(c: Context, s: State, event: HookEvent, input: string, reply: HookReply)
    ensures SameBooks(s, AfterHook(c, s, event, input, reply))
  {
    hide VerdictOf, AllSupported, Permission.ApplyList;
  }

  /** What an event does to the counts and to the work of a turn. */
  lemma Books(c: Context, s: State, e: Event)
    ensures var t := Next(c, s, e);
      && t.turns == s.turns + (if e.Streamed? && e.attempt == 0 then 1 else 0)
      && t.picked == (if e.Streamed? && e.attempt == 0 then e.model else s.picked)
      && t.spent == s.spent + (if e.Ended? then CostText(e.result) else 0.0)
      && t.reply == (if e.Ended? then e.result else s.reply)
      && t.calls == PlanBy(e, s.calls)
      && t.answers == AnswersBy(e, s.answers)
  {
    hide AfterMsg, AfterHook, Permission.ApplyList, Permission.Denies, S.Created, S.Stated, S.Snapshotted;
    match e
    case Sent(m) => MsgBooks(s, m);
    case Hooked(event, _, input, reply) => HookBooks(c, s, event, input, reply);
    case _ =>
  }

  /** What is added to the history before the first request. */
  function OpeningEntry(c: Context, s: State, e: Event): seq<Entry> {
    match e
    case Sent(System(prompt)) => [SystemEntry(prompt)]
    case Hooked(UserPromptSubmit, _, _, reply) =>
      if Accepted(UserPromptSubmit, reply) && s.inputs < |c.inputs| then [InputEntry(c.inputs[s.inputs])] else []
    case _ => []
  }

  function HistoryBy(c: Context, s: State, e: Event): seq<Entry> {
    match e
    case Opened(session) => var t := S.Created(s.table, session); if session in t then t[session].messages else []
    case Streamed(_, _, _, history) => history
    case _ => s.history + OpeningEntry(c, s, e)
  }

  lemma HistoryMoves(c: Context, s: State, e: Event)
    requires Allowed(c, s, e)
    ensures Next(c, s, e).history == HistoryBy(c, s, e)
  {
    hide VerdictOf, AllSupported, ReplyFits, S.Created, Permission.ApplyList, Permission.Denies;
    assert s.history + [] == s.history;
  }
}
