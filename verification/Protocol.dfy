/**
 * The protocol of one run of the agent loop. A log is lawful when every event was allowed by the
 * state that the events before it lead to. What a lawful log guarantees is proved in `RunLaws`; that
 * every run leaves a lawful log is proved in `AgentLoop`.
 */
module Protocol {
  import opened Common
  import opened Text
  import opened Tags
  import opened ToolCalls
  import opened Trace
  import opened Hooks
  import StreamAssembly
  import Permission
  import Registry
  import Identifiers
  import S = Sessions

  type Table = S.Table<Entry>

  /***** What a run is given *****/

  datatype Options = Options(fallback: string, systemPrompt: string, maxTurns: int, maxToolIterations: int,
                             budget: Option<real>, partial: bool, checkpointing: bool, trackFiles: bool, callback: bool)

  /** The table, the policy and the model are those at the start of the run. */
  datatype Context = Context(options: Options, servers: map<string, Registry.ServerConfig>,
                             registry: map<string, Registry.ToolRef>, decode: string -> string, tag: Tag, readers: Readers,
                             resolve: string -> string, session: string, inputs: seq<Input>, table: Table,
                             policy: Permission.Policy, model: string)

  function MaxTurns(o: Options): (n: nat)
    ensures n > 0
  {
    if o.maxTurns > 0 then o.maxTurns else if o.maxToolIterations > 0 then o.maxToolIterations else 8
  }

  /** There is a fallback to the model picked for a turn. */
  predicate HasFallback(o: Options, picked: string) { o.fallback != "" && o.fallback != picked }

  /** A server that the executor can call. */
  predicate Callable(c: Context, server: string) {
    server in c.servers && (c.servers[server].Sdk? || c.servers[server].External?)
  }

  /** The arguments of a call, decoded; blank arguments are the empty object, written as "". */
  function Decoded(c: Context, args: string): string { if TrimSpace(args) == "" then "" else c.decode(args) }

  /***** History entries *****/

  function SystemEntry(prompt: string): Entry { Entry(SystemRole, prompt, "", [], [], None) }

  function InputEntry(i: Input): Entry {
    Entry(if i.role.Some? then i.role.value else UserRole, i.content, "", [], [], None)
  }

  function AssistantEntry(r: Reply, calls: seq<Call>): Entry {
    Entry(AssistantRole, r.text, r.reasoning, r.images, calls, None)
  }

  function AnswerEntry(id: string, output: string): Entry { Entry(ToolRole, output, "", [], [], Some(id)) }

  const ERROR_PREFIX := "Error: "

  /***** States *****/

  datatype Phase =
    | Fresh | Opening | Asking(uid: string) | Submitted(uid: string) | Checkpointing(uid: string)
    | Streaming(attempt: nat, shown: seq<Event>) | Quiet | Lost(failure: Failure)
    | Replied | Presented | Working | Concluded | Stored | Broken | Over

  /** How far the current tool call has come. */
  datatype Gate =
    | Shut | Shown(input: string)
    | Permitted(input: string, suggestions: Updates)
    | Prepared(input: string, suggestions: Updates)
    | Passed(input: string, suggestions: Updates)
    | Cleared(args: string)
    | Erred | Failing | Yielded(output: string) | Posted(result: Option<string>)
    | Refused(interrupt: bool) | Condemned(interrupt: bool)

  /** `model` is the model in the options, `picked` the one the current turn asks first. */
  datatype State = State(phase: Phase, table: Table, policy: Permission.Policy, model: string, history: seq<Entry>,
                         inputs: nat, turns: nat, picked: string, spent: real, reply: Reply, calls: seq<Call>,
                         answers: seq<Entry>, gate: Gate)

  const NO_REPLY := Reply("", "", [], map[], None, None, false)

  function Start(c: Context): State {
    State(Fresh, c.table, c.policy, c.model, [], 0, 0, "", 0.0, NO_REPLY, [], [], Shut)
  }

  /** Nothing but the policy and the model differs. */
  predicate Drifted(s: State, t: State) { t == s.(policy := t.policy, model := t.model) }

  predicate Busy(s: State) { s.phase.Working? && |s.answers| < |s.calls| }

  function Current(s: State): Call
    requires Busy(s)
  {
    s.calls[|s.answers|]
  }

  predicate AllAnswered(s: State) { s.phase.Working? && s.calls != [] && |s.answers| == |s.calls| && s.gate.Shut? }

  /** The request after a turn with tool calls repeats the history, then the reply, then one answer per call. */
  function Continued(s: State): seq<Entry> { s.history + ([AssistantEntry(s.reply, s.calls)] + s.answers) }

  predicate Affordable(c: Context, s: State) {
    !(c.options.budget.Some? && s.reply.cost.Some? && s.spent > c.options.budget.value)
  }

  predicate HasBlocks(r: Reply) { TrimSpace(r.reasoning) != "" || TrimSpace(r.text) != "" || r.images != [] }

  function CostText(r: Reply): real { if r.cost.Some? then r.cost.value else 0.0 }

  function UserTurns(t: Table, session: string): int { if session in t then t[session].userTurns else 0 }

  /** The system entry is in place, or there is none to put. */
  predicate Introduced(c: Context, s: State) { s.history != [] || c.options.systemPrompt == "" }

  ghost predicate Listed(pending: Pending, calls: seq<Call>) { exists keys :: Listing(pending, keys, calls) }

  /** What a stream may come back with, given what it showed. */
  ghost predicate ReplyFits(c: Context, shown: seq<Event>, items: seq<Item>, r: Reply) {
    && c.tag.open != "" && c.tag.close != ""
    && (r.error.None? ==> StreamAssembly.Undisturbed(items) && shown == StreamAssembly.EventsOf(items, c.options.partial))
    && (r.error.None? ==> r == StreamAssembly.Outcome(items, c.options.partial, c.tag, c.readers, c.resolve, r.emitted))
    && (r.error.Some? ==> shown <= StreamAssembly.EventsOf(items, c.options.partial))
    && (r.error.Some? ==> r == StreamAssembly.Broken(r.cost, r.error.value, r.emitted) && (r.error.value.StreamFailed? || r.error.value.Cancelled?))
    && (r.emitted <==> shown != [])
    && (r.cost.Some? ==> r.emitted)
  }

  /***** Messages *****/

  predicate Streaming(m: Msg) { m.StreamEvent? || m.Thinking? || m.Partial? || m.Pictures? }

  predicate AllowedMsg(c: Context, s: State, m: Msg) {
    match m
    case System(prompt) => s.phase.Opening? && s.history == [] && prompt == c.options.systemPrompt && prompt != ""
    case User(id, content) => s.phase == Asking(id) && s.inputs < |c.inputs| && content == c.inputs[s.inputs].content
    case Final(text, reasoning, images) =>
      s.phase.Replied? && Affordable(c, s) && !c.options.partial && HasBlocks(s.reply) &&
      m == Final(s.reply.text, s.reply.reasoning, s.reply.images)
    case ToolUse(call, input) => Busy(s) && s.gate.Shut? && call == Current(s) && input == Decoded(c, call.args)
    case ToolResult(id, output) =>
      Busy(s) && s.gate.Posted? && id == Current(s).id &&
      (if s.gate.result.Some? then output == s.gate.result.value else ERROR_PREFIX <= output)
    case Result(kind, turns, cost, text) => turns == s.turns && AllowedResult(c, s, kind, cost, text)
    case _ => s.phase.Streaming?
  }

  predicate AllowedResult(c: Context, s: State, kind: ResultKind, cost: Option<real>, text: string) {
    match kind
    case Success =>
      s.phase.Working? && s.calls == [] && s.gate.Shut? && text == TrimSpace(s.reply.text) &&
      cost == if s.reply.cost.Some? then Some(s.spent) else None
    case BudgetExceeded => s.phase.Replied? && !Affordable(c, s) && cost == Some(s.spent)
    case Interrupted => Busy(s) && s.gate == Condemned(true) && cost == None
  }

  function AfterMsg(s: State, m: Msg): State {
    match m
    case System(prompt) => s.(history := s.history + [SystemEntry(prompt)])
    case User(id, _) => s.(phase := Submitted(id))
    case Final(_, _, _) => s.(phase := Presented)
    case ToolUse(_, input) => s.(gate := Gate.Shown(input))
    case ToolResult(id, output) => s.(answers := s.answers + [AnswerEntry(id, output)], gate := Shut)
    case Result(kind, _, _, _) => s.(phase := if kind.Success? then Concluded else Over)
    case _ => AfterShown(s, Sent(m))
  }

  function AfterShown(s: State, e: Event): State {
    if s.phase.Streaming? then s.(phase := Phase.Streaming(s.phase.attempt, s.phase.shown + [e])) else s
  }

  /***** Errors *****/

  /** Where a run sends and a send can give way to the context, streams apart. */
  predicate MaySend(s: State) {
    s.phase.Opening? || s.phase.Asking? || s.phase.Replied? ||
    (s.phase.Working? && (s.gate.Shut? || s.gate.Posted? || s.gate == Condemned(true)))
  }

  predicate AllowedFailure(c: Context, s: State, f: Failure) {
    match f
    case NoTransport => s.phase.Fresh?
    case StartFailed => s.phase.Fresh?
    case StreamFailed => s.phase == Lost(StreamFailed)
    case BadEvent => s.phase.Streaming?
    case Cancelled => MaySend(s) || s.phase == Lost(Cancelled)
    case HookFailed => s.phase.Broken?
    case BadHookOutput => s.phase.Broken?
    case CheckpointFailed => s.phase.Opening? && s.inputs > 0 && c.options.checkpointing && c.options.trackFiles
    case PermissionDenied => Busy(s) && s.gate == Condemned(false)
    case TurnsExhausted => AllAnswered(s) && s.turns == MaxTurns(c.options)
  }

  function AfterFailure(s: State, f: Failure): State {
    if f.BadEvent? then AfterShown(s, Failed(f)) else s.(phase := Over)
  }

  /***** Hooks *****/

  /** Errors of the failure hook and of the stop hook are ignored; their outputs are not. */
  predicate Accepted(event: HookEvent, reply: HookReply) {
    if reply.HookError? then event.PostToolUseFailure? || event.Stop? else AllSupported(reply.outputs)
  }

  predicate AllowedHook(c: Context, s: State, event: HookEvent, tool: string, input: string) {
    match event
    case UserPromptSubmit => s.phase.Submitted? && s.inputs < |c.inputs| && tool == "" && input == c.inputs[s.inputs].content
    case Stop => s.phase.Stored?
    case _ => Busy(s) && tool == Current(s).name && AllowedToolHook(c, s, event, tool, input)
  }

  predicate AllowedToolHook(c: Context, s: State, event: HookEvent, tool: string, input: string) {
    match event
    case PermissionRequest => s.gate == Gate.Shown(input)
    case PreToolUse => s.gate.Permitted? && s.gate.input == input
    case PostToolUseFailure =>
      s.gate.Refused? || s.gate.Erred? || (s.gate.Prepared? && tool !in c.registry) ||
      (s.gate.Cleared? && tool in c.registry && !Callable(c, c.registry[tool].server))
    case PostToolUse => s.gate.Yielded? || s.gate.Failing?
    case _ => false
  }

  function AfterHook(c: Context, s: State, event: HookEvent, input: string, reply: HookReply): State {
    if !Accepted(event, reply) then s.(phase := Broken)
    else
      match event
      case UserPromptSubmit =>
        if s.phase.Submitted? && s.inputs < |c.inputs| then
          s.(phase := if c.options.checkpointing then Checkpointing(s.phase.uid) else Opening,
             history := s.history + [InputEntry(c.inputs[s.inputs])], inputs := s.inputs + 1)
        else s
      case PermissionRequest =>
        var v := VerdictOf(reply.outputs, input);
        s.(policy := Permission.ApplyList(s.policy, v.updates),
           gate := if v.deny then Refused(v.interrupt) else Permitted(v.input, v.suggestions))
      case PreToolUse => if s.gate.Permitted? then s.(gate := Prepared(input, s.gate.suggestions)) else s
      case PostToolUseFailure => s.(gate := if s.gate.Refused? then Condemned(s.gate.interrupt) else Failing)
      case PostToolUse => s.(gate := Posted(if s.gate.Yielded? then Some(s.gate.output) else None))
      case Stop => s.(phase := Over)
  }

  /***** Tool execution *****/

  function AfterAnswer(s: State, given: string, answer: Answer): State {
    match answer
    case NoCallback => s.(gate := Cleared(given))
    case Allow(input, updates) =>
      s.(policy := Permission.ApplyList(s.policy, updates), gate := Cleared(if input.Some? then input.value else given))
    case Deny(_, interrupt) => s.(gate := Refused(interrupt))
    case _ => s.(gate := Erred)
  }

  /***** Requests *****/

  predicate AllowedRequest(c: Context, s: State, turn: nat, attempt: nat, model: string, history: seq<Entry>) {
    if attempt == 0 then
      && turn == s.turns && turn < MaxTurns(c.options) && model == s.model
      && if s.phase.Opening? then s.turns == 0 && s.inputs == |c.inputs| && Introduced(c, s) && history == s.history
         else AllAnswered(s) && history == Continued(s)
    else
      && attempt == 1 && s.phase.Quiet? && HasFallback(c.options, s.picked)
      && turn + 1 == s.turns && model == c.options.fallback && history == s.history
  }

  function AfterRequest(s: State, attempt: nat, model: string, history: seq<Entry>): State {
    if attempt == 0 then
      s.(phase := Phase.Streaming(0, []), history := history, turns := s.turns + 1, picked := model, calls := [], answers := [])
    else s.(phase := Phase.Streaming(attempt, []))
  }

  function AfterStream(c: Context, s: State, r: Reply): State {
    s.(reply := r, spent := s.spent + CostText(r),
       phase := if r.error.None? then Replied
                else if !r.emitted && s.phase == Phase.Streaming(0, []) && HasFallback(c.options, s.picked) then Quiet
                else Lost(r.error.value))
  }

  /***** All events *****/

  ghost predicate Allowed(c: Context, s: State, e: Event) {
    match e
    case Sent(m) => AllowedMsg(c, s, m)
    case Failed(f) => AllowedFailure(c, s, f)
    case Opened(session) => s.phase.Fresh? && session == c.session
    case Issued(uid) =>
      s.phase.Opening? && Introduced(c, s) && s.turns == 0 && s.inputs < |c.inputs| && c.session in s.table &&
      UserTurns(s.table, c.session) >= 0 && uid == Identifiers.UserId(c.session, UserTurns(s.table, c.session) + 1)
    case Hooked(event, tool, input, _) => AllowedHook(c, s, event, tool, input)
    case Checkpointed(uid, messages) => s.phase == Checkpointing(uid) && messages == s.history
    case Streamed(turn, attempt, model, history) => AllowedRequest(c, s, turn, attempt, model, history)
    case Ended(items, r) => s.phase.Streaming? && ReplyFits(c, s.phase.shown, items, r)
    case Planned(calls) =>
      Affordable(c, s) && Listed(s.reply.calls, calls) &&
      (s.phase.Presented? || (s.phase.Replied? && (c.options.partial || !HasBlocks(s.reply))))
    case Checked(name, policy) =>
      Busy(s) && s.gate.Prepared? && name == Current(s).name && name in c.registry && policy == s.policy
    case Asked(name, given, suggestions, answer) =>
      Busy(s) && s.gate == Passed(given, suggestions) && name == Current(s).name && (answer.NoCallback? <==> !c.options.callback)
    case Called(server, toolName, args, _) =>
      Busy(s) && s.gate == Cleared(args) && Current(s).name in c.registry && Callable(c, server) &&
      server == c.registry[Current(s).name].server && toolName == c.registry[Current(s).name].tool
    case Saved(messages) => s.phase.Concluded? && messages == s.history + [AssistantEntry(s.reply, [])]
    case ModeSet(mode) => !s.phase.Over? && mode != ""
    case ModelSet(_) => !s.phase.Over?
  }

  function Next(c: Context, s: State, e: Event): State {
    match e
    case Sent(m) => AfterMsg(s, m)
    case Failed(f) => AfterFailure(s, f)
    case Opened(session) =>
      var table := S.Created(s.table, session);
      s.(phase := Opening, table := table, history := if session in table then table[session].messages else [])
    case Issued(uid) =>
      s.(phase := Asking(uid),
         table := if c.session in s.table then s.table[c.session := s.table[c.session].(userTurns := s.table[c.session].userTurns + 1)] else s.table)
    case Hooked(event, _, input, reply) => AfterHook(c, s, event, input, reply)
    case Checkpointed(uid, messages) =>
      s.(phase := Opening,
         table := S.Snapshotted(S.Stated(s.table, c.session, messages, UserTurns(s.table, c.session)), c.session, uid))
    case Streamed(_, attempt, model, history) => AfterRequest(s, attempt, model, history)
    case Ended(_, r) => AfterStream(c, s, r)
    case Planned(calls) => s.(phase := Working, calls := calls, answers := [], gate := Shut)
    case Checked(name, policy) =>
      s.(gate := if Permission.Denies(policy, name) then Refused(false)
                 else if s.gate.Prepared? then Passed(s.gate.input, s.gate.suggestions) else s.gate)
    case Asked(_, given, _, answer) => AfterAnswer(s, given, answer)
    case Called(_, _, _, output) => s.(gate := if output.Some? then Yielded(output.value) else Erred)
    case Saved(messages) =>
      s.(phase := Stored, table := S.Stated(s.table, c.session, messages, UserTurns(s.table, c.session)))
    case ModeSet(mode) => s.(policy := s.policy.(mode := Some(mode)))
    case ModelSet(model) => s.(model := model)
  }

  function StateAt(c: Context, log: seq<Event>): State {
    if log == [] then Start(c) else Next(c, StateAt(c, log[..|log| - 1]), log[|log| - 1])
  }

  ghost predicate Lawful(c: Context, log: seq<Event>) {
    log == [] || (Lawful(c, log[..|log| - 1]) && Allowed(c, StateAt(c, log[..|log| - 1]), log[|log| - 1]))
  }

  lemma Step(c: Context, log: seq<Event>, e: Event)
    requires Lawful(c, log) && Allowed(c, StateAt(c, log), e)
    ensures Lawful(c, log + [e]) && StateAt(c, log + [e]) == Next(c, StateAt(c, log), e)
  {
    assert (log + [e])[..|log|] == log;
  }

  lemma {:induction false} PrefixLawful(c: Context, log: seq<Event>, k: nat)
    requires Lawful(c, log) && k <= |log|
    ensures Lawful(c, log[..k])
    decreases |log| - k
  {
    if k == |log| {
      assert log[..k] == log;
    } else {
      PrefixLawful(c, log, k + 1);
      assert log[..k + 1][..k] == log[..k];
    }
  }

  /** The event at a place was allowed by what came before, and led to what comes after. */
  lemma EventAt(c: Context, log: seq<Event>, k: nat)
    requires Lawful(c, log) && k < |log|
    ensures Lawful(c, log[..k]) && Allowed(c, StateAt(c, log[..k]), log[k])
    ensures StateAt(c, log[..k + 1]) == Next(c, StateAt(c, log[..k]), log[k])
  {
    PrefixLawful(c, log, k + 1);
    assert log[..k + 1][..k] == log[..k];
  }

  /***** Looking back, control events aside *****/

  /** The last event before place `k` that is no control event, or -1. */
  function Before(log: seq<Event>, k: int): (j: int)
    requires -1 <= k <= |log|
    ensures -1 <= j <= k
  {
    if k <= 0 then -1 else if !Control(log[k - 1]) then k - 1 else Before(log, k - 1)
  }

  /** `n` such events back from place `k`, or -1. */
  function Back(log: seq<Event>, k: int, n: nat): (j: int)
    requires -1 <= k <= |log|
    ensures -1 <= j <= k
    decreases n
  {
    if n == 0 then k else Before(log, Back(log, k, n - 1))
  }

  lemma ControlStep(c: Context, s: State, e: Event)
    requires Control(e)
    ensures Drifted(s, Next(c, s, e))
  {
  }

  /** Control events do not change how a run stands, policy and model apart. */
  lemma {:induction false} PriorEvent(c: Context, log: seq<Event>, k: nat)
    requires Lawful(c, log) && k <= |log|
    ensures var j := Before(log, k);
      -1 <= j <= k && (k > 0 ==> j < k) && (forall i :: j < i < k ==> Control(log[i])) &&
      if j == -1 then Drifted(Start(c), StateAt(c, log[..k]))
      else !Control(log[j]) && Allowed(c, StateAt(c, log[..j]), log[j]) &&
           Drifted(Next(c, StateAt(c, log[..j]), log[j]), StateAt(c, log[..k]))
  {
    hide Allowed, Next, Start;
    if k > 0 {
      EventAt(c, log, k - 1);
      if Control(log[k - 1]) {
        PriorEvent(c, log, k - 1);
        ControlStep(c, StateAt(c, log[..k - 1]), log[k - 1]);
      }
    }
  }

  /** No session has a negative count of user turns. */
  ghost predicate Counted(t: Table) { forall id :: id in t ==> t[id].userTurns >= 0 }

  lemma CountStep(c: Context, s: State, e: Event)
    requires Counted(s.table)
    ensures Counted(Next(c, s, e).table)
  {
  }

  lemma {:induction false} CountsStay(c: Context, log: seq<Event>)
    requires Counted(c.table)
    ensures Counted(StateAt(c, log).table)
  {
    hide Next;
    if log != [] {
      CountsStay(c, log[..|log| - 1]);
      CountStep(c, StateAt(c, log[..|log| - 1]), log[|log| - 1]);
    }
  }

  /***** Streams *****/

  predicate StreamingEvent(e: Event) { e == Failed(BadEvent) || (e.Sent? && Streaming(e.msg)) }

  ghost predicate AllStreaming(events: seq<Event>) { forall i :: 0 <= i < |events| ==> StreamingEvent(events[i]) }

  lemma {:induction false} ShownIsStreaming(a: StreamAssembly.Assembly, chunks: seq<Chunk>, partial: bool)
    ensures AllStreaming(StreamAssembly.ShownAll(a, chunks, partial))
  {
    if chunks != [] { ShownIsStreaming(a, chunks[..|chunks| - 1], partial); }
  }

  lemma {:induction false} StreamsAreStreaming(items: seq<Item>, partial: bool)
    ensures AllStreaming(StreamAssembly.EventsOf(items, partial))
  {
    if items != [] {
      var front, last := items[..|items| - 1], items[|items| - 1];
      StreamsAreStreaming(front, partial);
      if last.Ev? && last.event.chunks.Some? {
        ShownIsStreaming(StreamAssembly.AssemblyOf(front, partial), last.event.chunks.value, partial);
      }
    }
  }

  function Showing(s: State, events: seq<Event>): State
    requires s.phase.Streaming?
  {
    s.(phase := Phase.Streaming(s.phase.attempt, s.phase.shown + events))
  }

  lemma OneShown(c: Context, s: State, e: Event)
    requires s.phase.Streaming? && StreamingEvent(e)
    ensures Allowed(c, s, e) && Next(c, s, e) == Showing(s, [e])
  {
  }

  lemma ShowingTwice(s: State, a: seq<Event>, b: seq<Event>)
    requires s.phase.Streaming?
    ensures Showing(Showing(s, a), b) == Showing(s, a + b) && Showing(s, []) == s
  {
    assert s.phase.shown + a + b == s.phase.shown + (a + b);
    assert s.phase.shown + [] == s.phase.shown;
  }

  /** While a stream is open, what it shows is lawful and only accumulates. */
  lemma {:induction false} StreamIsLawful(c: Context, log: seq<Event>, events: seq<Event>)
    requires Lawful(c, log) && StateAt(c, log).phase.Streaming? && AllStreaming(events)
    ensures Lawful(c, log + events) && StateAt(c, log + events) == Showing(StateAt(c, log), events)
    decreases |events|
  {
    hide Next, Allowed;
    var s := StateAt(c, log);
    if events == [] {
      assert log + events == log;
      ShowingTwice(s, [], []);
    } else {
      var e, rest := events[0], events[1..];
      assert StreamingEvent(e);
      OneShown(c, s, e);
      Step(c, log, e);
      StreamIsLawful(c, log + [e], rest);
      assert log + [e] + rest == log + events;
      ShowingTwice(s, [e], rest);
      assert [e] + rest == events;
    }
  }
}
