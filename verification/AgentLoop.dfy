/**
 * The agent loop. What servers, hooks, callbacks and tools answer is arbitrary. Every run leaves a
 * lawful log, and the sessions and the permission policy are what the log says.
 */
module AgentLoop {
  import opened Common
  import opened Text
  import opened Tags
  import opened ToolCalls
  import opened Trace
  import opened Hooks
  import opened Protocol
  import StreamAssembly
  import Permission
  import Registry
  import Identifiers
  import C = Conversations
  import S = Sessions

  ghost predicate Reaches(c: Context, log: seq<Event>, s: State) { Lawful(c, log) && StateAt(c, log) == s }

  lemma StepTo(c: Context, log: seq<Event>, s: State, e: Event)
    requires Reaches(c, log, s) && Allowed(c, s, e)
    ensures Reaches(c, log + [e], Next(c, s, e))
  {
    hide Allowed, Next;
    Step(c, log, e);
  }

  lemma StartsLawful(c: Context)
    ensures Reaches(c, [], Start(c))
  {
  }

  lemma Ends(c: Context, log: seq<Event>, s: State)
    requires Reaches(c, log, s)
    ensures Lawful(c, log) && StateAt(c, log) == s
    ensures Counted(c.table) ==> Counted(s.table)
  {
    hide Allowed, Next;
    if Counted(c.table) { CountsStay(c, log); }
  }

  /***** Recording events *****/

  method Record(wire: Wire, ghost c: Context, ghost s: State, e: Event) returns (ghost t: State)
    requires Reaches(c, wire.log, s) && Allowed(c, s, e)
    modifies wire
    ensures Reaches(c, wire.log, t) && t == Next(c, s, e)
  {
    hide Reaches, Allowed, Next;
    StepTo(c, wire.log, s, e);
    wire.Note(e);
    t := Next(c, s, e);
  }

  method Fail(wire: Wire, ghost c: Context, ghost s: State, f: Failure) returns (ghost t: State)
    requires Reaches(c, wire.log, s) && AllowedFailure(c, s, f) && !f.BadEvent?
    modifies wire
    ensures Reaches(c, wire.log, t) && t == s.(phase := Over)
  {
    hide Reaches;
    t := Record(wire, c, s, Failed(f));
  }

  lemma HookDrifts(c: Context, s: State, t: State, event: HookEvent, tool: string, input: string)
    requires AllowedHook(c, s, event, tool, input) && Drifted(s, t)
    ensures AllowedHook(c, t, event, tool, input)
  {
  }

  datatype ToolOutcome = Output(text: string) | Error | Denial(interrupt: bool)

  /** The gate that an execution leaves behind. */
  predicate LeftBy(c: Context, name: string, r: ToolOutcome, g: Gate) {
    match r
    case Output(text) => g == Yielded(text)
    case Denial(interrupt) => g == Refused(interrupt)
    case Error =>
      g.Erred? || (g.Prepared? && name !in c.registry) ||
      (g.Cleared? && name in c.registry && !Callable(c, c.registry[name].server))
  }

  /** After one request that came back with a reply or an error. */
  function Attempted(c: Context, s: State, attempt: nat, model: string, history: seq<Entry>, r: Reply): State {
    AfterRequest(s, attempt, model, history).(
      reply := r, spent := s.spent + CostText(r),
      phase := if r.error.None? then Replied
               else if !r.emitted && attempt == 0 && HasFallback(c.options, model) then Quiet
               else Lost(r.error.value))
  }

  /** What a stream showed is lawful, and its reply fits what it showed. */
  lemma StreamStep(c: Context, log: seq<Event>, s: State, now: seq<Event>, shown: seq<Event>, items: seq<Item>, r: Reply)
    requires Reaches(c, log, s) && s.phase.Streaming? && s.phase.shown == []
    requires now == log + shown && c.tag.open != "" && c.tag.close != ""
    requires r.error.None? ==> StreamAssembly.Undisturbed(items) && now == log + StreamAssembly.EventsOf(items, c.options.partial)
    requires r.error.None? ==> r == StreamAssembly.Outcome(items, c.options.partial, c.tag, c.readers, c.resolve, r.emitted)
    requires r.error.Some? ==> PartOf(log, now, StreamAssembly.EventsOf(items, c.options.partial))
    requires r.error.Some? ==> r == StreamAssembly.Broken(r.cost, r.error.value, r.emitted) && (r.error.value.StreamFailed? || r.error.value.Cancelled?)
    requires (r.emitted <==> now != log) && (r.cost.Some? ==> r.emitted)
    ensures Reaches(c, now, Showing(s, shown)) && ReplyFits(c, shown, items, r)
    ensures Showing(s, shown).phase.shown == shown
  {
    hide Allowed, Next;
    var due := StreamAssembly.EventsOf(items, c.options.partial);
    StreamsAreStreaming(items, c.options.partial);
    SamePrefix(log, shown, due);
    assert AllStreaming(shown);
    StreamIsLawful(c, log, shown);
    assert [] + shown == shown;
  }

  lemma SamePrefix(log: seq<Event>, shown: seq<Event>, due: seq<Event>)
    ensures PartOf(log, log + shown, due) ==> shown <= due
    ensures log + shown == log + due ==> shown == due
  {
    if PartOf(log, log + shown, due) {
      forall i | 0 <= i < |shown| ensures shown[i] == due[i] {
        assert (log + shown)[|log| + i] == (log + due)[|log| + i];
      }
    }
    if log + shown == log + due {
      assert (log + shown)[|log|..] == shown && (log + due)[|log|..] == due;
    }
  }

  class QueryRunner {
    const options: Options
    const servers: map<string, Registry.ServerConfig>
    const registry: map<string, Registry.ToolRef>
    const decode: string -> string
    const tag: Tag
    const readers: Readers
    const resolve: string -> string
    const executor: Permission.PolicyState
    const hasTransport: bool
    var sessions: Table

    /** The model in the options. */
    var model: string

    constructor (options: Options, servers: map<string, Registry.ServerConfig>, registry: map<string, Registry.ToolRef>,
                 decode: string -> string, tag: Tag, readers: Readers, resolve: string -> string,
                 executor: Permission.PolicyState, hasTransport: bool, sessions: Table, model: string)
      ensures this.options == options && this.servers == servers && this.registry == registry && this.decode == decode
      ensures this.tag == tag && this.readers == readers && this.resolve == resolve
      ensures this.executor == executor && this.hasTransport == hasTransport && this.sessions == sessions
      ensures this.model == model
    {
      this.options, this.servers, this.registry, this.decode := options, servers, registry, decode;
      this.tag, this.readers, this.resolve := tag, readers, resolve;
      this.executor, this.hasTransport, this.sessions, this.model := executor, hasTransport, sessions, model;
    }

    /** A context that belongs to this runner. */
    ghost predicate Mine(c: Context) {
      && c.options == options && c.servers == servers && c.registry == registry && c.decode == decode
      && c.tag == tag && c.readers == readers && c.resolve == resolve
      && tag.open != "" && tag.close != ""
    }

    /** Policy and model are those of the state. */
    ghost predicate Agreed(s: State)
      reads this, executor
    {
      executor.Current() == s.policy && model == s.model
    }

    /***** Control from outside *****/

    /** `SetPermissionMode`: an empty mode does not reach the executor. */
    method SetPermissionMode(mode: string)
      modifies executor
      ensures executor.Current() == if mode != "" then old(executor.Current()).(mode := Some(mode)) else old(executor.Current())
    {
      if mode != "" { executor.SetMode(mode); }
    }

    /** `SetModel` on the options. */
    method SetModel(model: string)
      modifies this`model
      ensures this.model == model
    {
      this.model := model;
    }

    /** Whatever the consumer sets between two events of the run, from any goroutine, hook or callback. */
    method Interfere(wire: Wire, ghost c: Context, ghost s: State) returns (ghost t: State)
      requires Reaches(c, wire.log, s) && Agreed(s) && !s.phase.Over?
      modifies wire, executor, this`model
      ensures Reaches(c, wire.log, t) && Agreed(t) && Drifted(s, t)
    {
      hide Reaches;
      t := s;
      var controls: seq<Event> := *;
      for k := 0 to |controls|
        invariant Reaches(c, wire.log, t) && Agreed(t) && Drifted(s, t)
      {
        if controls[k].ModeSet? && controls[k].mode != "" {
          t := Record(wire, c, t, controls[k]);
          SetPermissionMode(controls[k].mode);
        } else if controls[k].ModelSet? {
          t := Record(wire, c, t, controls[k]);
          SetModel(controls[k].model);
        }
      }
    }

    /** A send that every run ends on when it gives way to the context. */
    method Tell(wire: Wire, ghost c: Context, ghost s: State, m: Msg) returns (sent: bool, ghost t: State)
      requires Reaches(c, wire.log, s) && Agreed(s) && AllowedMsg(c, s, m) && MaySend(s)
      modifies wire, executor, this`model
      ensures Reaches(c, wire.log, t) && Agreed(t) && Drifted(if sent then AfterMsg(s, m) else s.(phase := Over), t)
    {
      hide Reaches;
      t := Interfere(wire, c, s);
      StepTo(c, wire.log, t, Sent(m));
      sent := wire.Send(m);
      if sent {
        t := AfterMsg(t, m);
      } else {
        t := Fail(wire, c, t, Cancelled);
      }
    }

    /** The updates that a permission hook decides; the executor has yet to apply them. */
    ghost function Pending(event: HookEvent, outputs: seq<HookOutput>, input: string): Updates {
      if event.PermissionRequest? then VerdictOf(outputs, input).updates else []
    }

    /** `runHookWithObs` and the check of its outputs. */
    method RunHook(wire: Wire, ghost c: Context, ghost s: State, event: HookEvent, tool: string, input: string)
      returns (ok: bool, outputs: seq<HookOutput>, ghost t: State)
      requires Reaches(c, wire.log, s) && Agreed(s) && AllowedHook(c, s, event, tool, input)
      modifies wire, executor, this`model
      ensures Reaches(c, wire.log, t) && model == t.model
      ensures ok ==> AllSupported(outputs) && Drifted(AfterHook(c, s, event, input, Outputs(outputs)), t)
      ensures ok ==> t.policy == Permission.ApplyList(executor.Current(), Pending(event, outputs, input))
      ensures !ok ==> Drifted(s.(phase := Over), t) && Agreed(t)
    {
      hide Reaches;
      t := Interfere(wire, c, s);
      HookDrifts(c, s, t, event, tool, input);
      var reply: HookReply := *;
      t := Record(wire, c, t, Hooked(event, tool, input, reply));
      match reply
      case HookError =>
        ok, outputs := event.PostToolUseFailure? || event.Stop?, [];
        if !ok { t := Fail(wire, c, t, HookFailed); }
      case Outputs(os) =>
        outputs := os;
        ok := ValidateHookOutputs(outputs);
        if !ok { t := Fail(wire, c, t, BadHookOutput); }
    }

    /***** Tool execution *****/

    /** The permission callback, if there is one. A nil answer of the source is a plain `Allow`. */
    method Consult(wire: Wire, ghost c: Context, ghost s: State, name: string, input: string, suggestions: Updates)
      returns (r: Option<ToolOutcome>, args: string, ghost t: State)
      requires Mine(c) && Reaches(c, wire.log, s) && Busy(s) && name == Current(s).name
      requires s.gate == Passed(input, suggestions) && Agreed(s)
      modifies wire, executor, executor.store, this`model
      ensures Reaches(c, wire.log, t) && Agreed(t) && Drifted(s.(gate := t.gate), t)
      ensures r.Some? ==> !r.value.Output? && LeftBy(c, name, r.value, t.gate)
      ensures r.None? ==> t.gate == Cleared(args)
    {
      hide Reaches;
      r, args := None, input;
      var answer: Answer := *;
      if !options.callback { answer := NoCallback; }
      if options.callback && answer.NoCallback? { answer := Allow(None, []); }
      t := Interfere(wire, c, s);
      t := Record(wire, c, t, Asked(name, input, suggestions, answer));
      match answer
      case NoCallback =>
      case CallbackError => r := Some(Error);
      case WrongType => r := Some(Error);
      case Deny(_, interrupt) => r := Some(Denial(interrupt));
      case Allow(updated, updates) =>
        if updated.Some? { args := updated.value; }
        var written := executor.ApplyPermissionUpdates(updates);
    }

    /** The end of `ExecuteWithSuggestions`: the call goes to its server, if that can be called. */
    method CallServer(wire: Wire, ghost c: Context, ghost s: State, name: string, args: string)
      returns (r: ToolOutcome, ghost t: State)
      requires Mine(c) && Reaches(c, wire.log, s) && Busy(s) && name == Current(s).name
      requires s.gate == Cleared(args) && name in registry
      modifies wire
      ensures Reaches(c, wire.log, t) && t == s.(gate := t.gate) && LeftBy(c, name, r, t.gate)
    {
      hide Reaches;
      t := s;
      var tool := registry[name];
      if tool.server !in servers || !(servers[tool.server].Sdk? || servers[tool.server].External?) { return Error, t; }
      var output: Option<string> := *;
      t := Record(wire, c, t, Called(tool.server, tool.tool, args, output));
      return if output.Some? then Output(output.value) else Error, t;
    }

    /** `ExecuteWithSuggestions`. */
    method Execute(wire: Wire, ghost c: Context, ghost s: State, name: string, input: string, suggestions: Updates)
      returns (r: ToolOutcome, ghost t: State)
      requires Mine(c) && Reaches(c, wire.log, s) && Busy(s) && name == Current(s).name
      requires s.gate == Prepared(input, suggestions) && Agreed(s)
      modifies wire, executor, executor.store, this`model
      ensures Reaches(c, wire.log, t) && Agreed(t) && Drifted(s.(gate := t.gate), t)
      ensures LeftBy(c, name, r, t.gate)
    {
      hide Reaches;
      t := s;
      if name !in registry { return Error, t; }
      t := Interfere(wire, c, t);
      t := Record(wire, c, t, Checked(name, Permission.Policy(executor.mode, executor.rules)));
      var deny := executor.EvaluatePolicy(name);
      if deny { return Denial(false), t; }
      var refusal, args;
      refusal, args, t := Consult(wire, c, t, name, input, suggestions);
      if refusal.Some? { return refusal.value, t; }
      r, t := CallServer(wire, c, t, name, args);
    }

    /***** One tool call *****/

    /** The end of a run whose tool call was denied. */
    method Refuse(wire: Wire, ghost c: Context, ghost s: State, turns: nat, interrupt: bool) returns (ghost t: State)
      requires Reaches(c, wire.log, s) && Agreed(s) && Busy(s) && s.gate == Condemned(interrupt) && turns == s.turns
      modifies wire, executor, this`model
      ensures Reaches(c, wire.log, t) && Agreed(t) && Drifted(s.(phase := Over), t)
    {
      hide Reaches;
      if interrupt {
        var sent;
        sent, t := Tell(wire, c, s, Result(Interrupted, turns, None, ""));
      } else {
        t := Fail(wire, c, s, PermissionDenied);
      }
    }

    /** A denied call: the failure hook, and then the end. */
    method Reject(wire: Wire, ghost c: Context, ghost s: State, turns: nat, name: string, input: string, interrupt: bool)
      returns (ghost t: State)
      requires Reaches(c, wire.log, s) && Agreed(s) && Busy(s) && s.gate == Refused(interrupt)
      requires turns == s.turns && name == Current(s).name
      modifies wire, executor, this`model
      ensures Reaches(c, wire.log, t) && Agreed(t) && Drifted(s.(phase := Over, gate := t.gate), t)
    {
      hide Reaches;
      var ok, outputs;
      ok, outputs, t := RunHook(wire, c, s, PostToolUseFailure, name, input);
      if ok { t := Refuse(wire, c, t, turns, interrupt); }
    }

    /** From the announcement of a call to the point where the executor takes it. */
    method Permit(wire: Wire, ghost c: Context, ghost s: State, turns: nat, call: Call)
      returns (ok: bool, input: string, suggestions: Updates, ghost t: State)
      requires Mine(c) && Reaches(c, wire.log, s) && Busy(s) && s.gate.Shut? && call == Current(s) && turns == s.turns
      requires Agreed(s)
      modifies wire, executor, executor.store, this`model
      ensures Reaches(c, wire.log, t) && Agreed(t)
      ensures Drifted(s.(phase := t.phase, gate := t.gate), t)
      ensures if ok then t.phase == s.phase && t.gate == Prepared(input, suggestions) else t.phase.Over?
    {
      hide Reaches;
      input, suggestions := "", [];
      if TrimSpace(call.args) != "" { input := decode(call.args); }
      ok, t := Tell(wire, c, s, ToolUse(call, input));
      if !ok { return; }
      var outputs;
      ok, outputs, t := RunHook(wire, c, t, PermissionRequest, call.name, input);
      if !ok { return; }
      var decision := Decide(outputs, input);
      input, suggestions := decision.input, decision.suggestions;
      var written := executor.ApplyPermissionUpdates(decision.updates);
      if decision.deny {
        t := Reject(wire, c, t, turns, call.name, input, decision.interrupt);
        ok := false;
        return;
      }
      ok, outputs, t := RunHook(wire, c, t, PreToolUse, call.name, input);
    }

    /** From the executor to the answer. Errors other than denials become the answer. */
    method RunTool(wire: Wire, ghost c: Context, ghost s: State, turns: nat, call: Call, input: string, suggestions: Updates)
      returns (ok: bool, output: string, ghost t: State)
      requires Mine(c) && Reaches(c, wire.log, s) && Busy(s) && call == Current(s) && turns == s.turns
      requires s.gate == Prepared(input, suggestions) && Agreed(s)
      modifies wire, executor, executor.store, this`model
      ensures Reaches(c, wire.log, t) && Agreed(t)
      ensures Drifted(s.(phase := t.phase, gate := t.gate), t)
      ensures if ok then t.phase == s.phase && t.gate.Posted? else t.phase.Over?
      ensures ok ==> if t.gate.result.Some? then output == t.gate.result.value else ERROR_PREFIX <= output
    {
      hide Reaches;
      var r, outputs;
      output := "";
      r, t := Execute(wire, c, s, call.name, input, suggestions);
      match r {
        case Output(text) =>
          output := text;
        case Denial(interrupt) =>
          t := Reject(wire, c, t, turns, call.name, input, interrupt);
          return false, output, t;
        case Error =>
          ok, outputs, t := RunHook(wire, c, t, PostToolUseFailure, call.name, input);
          if !ok { return; }
          var message: string := *;
          output := ERROR_PREFIX + message;
      }
      ok, outputs, t := RunHook(wire, c, t, PostToolUse, call.name, input);
    }

    /** One round of the call loop. */
    method RunOneCall(wire: Wire, ghost c: Context, ghost s: State, turns: nat, call: Call)
      returns (ok: bool, answer: Entry, ghost t: State)
      requires Mine(c) && Reaches(c, wire.log, s) && Busy(s) && s.gate.Shut? && call == Current(s) && turns == s.turns
      requires Agreed(s)
      modifies wire, executor, executor.store, this`model
      ensures Reaches(c, wire.log, t) && Agreed(t)
      ensures ok ==> Drifted(s.(answers := s.answers + [answer]), t)
      ensures !ok ==> Drifted(s.(phase := Over, gate := t.gate), t)
    {
      hide Reaches;
      answer := AnswerEntry("", "");
      var input, suggestions, output;
      ok, input, suggestions, t := Permit(wire, c, s, turns, call);
      if !ok { return; }
      ok, output, t := RunTool(wire, c, t, turns, call, input, suggestions);
      if !ok { return; }
      ok, t := Tell(wire, c, t, ToolResult(call.id, output));
      answer := AnswerEntry(call.id, output);
    }

    /** The call loop. */
    method RunCalls(wire: Wire, ghost c: Context, ghost s: State, turns: nat, calls: seq<Call>)
      returns (ok: bool, answers: seq<Entry>, ghost t: State)
      requires Mine(c) && Reaches(c, wire.log, s) && turns == s.turns && Agreed(s)
      requires s.phase.Working? && s.calls == calls && s.answers == [] && s.gate.Shut?
      modifies wire, executor, executor.store, this`model
      ensures Reaches(c, wire.log, t) && Agreed(t)
      ensures ok ==> Drifted(s.(answers := answers), t) && |answers| == |calls|
      ensures !ok ==> Drifted(s.(phase := Over, gate := t.gate, answers := t.answers), t)
    {
      hide Reaches;
      ok, answers, t := true, [], s;
      for k := 0 to |calls|
        invariant Reaches(c, wire.log, t) && Agreed(t)
        invariant Drifted(s.(answers := answers), t) && |answers| == k
      {
        var answer;
        ok, answer, t := RunOneCall(wire, c, t, turns, calls[k]);
        if !ok { return; }
        answers := answers + [answer];
      }
    }

    /***** One turn *****/

    ghost predicate Synced(t: State)
      reads this, executor
    {
      sessions == t.table && Agreed(t)
    }

    /** The stream of a request that went out. */
    method TakeStream(wire: Wire, ghost c: Context, ghost s: State) returns (r: Reply, items: seq<Item>, ghost t: State)
      requires Mine(c) && Reaches(c, wire.log, s) && s.phase.Streaming? && s.phase.shown == []
      modifies wire
      ensures t.phase.Streaming? && t == s.(phase := t.phase) && t.phase.attempt == s.phase.attempt
      ensures Reaches(c, wire.log, t) && ReplyFits(c, t.phase.shown, items, r)
      ensures (r.emitted <==> t.phase.shown != []) && (r.cost.Some? ==> r.emitted)
      ensures r.error.Some? ==> r.error.value.StreamFailed? || r.error.value.Cancelled?
    {
      hide StreamAssembly.Outcome, StreamAssembly.EventsOf, StreamAssembly.Undisturbed, StreamAssembly.Broken;
      hide Reaches, ReplyFits;
      items := *;
      r := StreamAssembly.RunStream(wire, items, options.partial, tag, readers, resolve);
      ghost var shown := wire.log[|old(wire.log)|..];
      t := Showing(s, shown);
      StreamStep(c, old(wire.log), s, wire.log, shown, items, r);
    }

    /** The state in which the next turn may start. */
    ghost predicate Ready(c: Context, s: State, turn: nat, history: seq<Entry>, total: real) {
      turn == s.turns && total == s.spent &&
      if s.phase.Opening? then s.turns == 0 && s.inputs == |c.inputs| && Introduced(c, s) && history == s.history
      else AllAnswered(s) && history == Continued(s)
    }

    /** One request to one model. */
    method Attempt(wire: Wire, ghost c: Context, ghost s: State, turn: nat, attempt: nat, model: string, history: seq<Entry>)
      returns (r: Reply, ghost t: State)
      requires Mine(c) && Reaches(c, wire.log, s) && Agreed(s) && AllowedRequest(c, s, turn, attempt, model, history)
      modifies wire, executor, this`model
      ensures Reaches(c, wire.log, t) && Agreed(t) && Drifted(Attempted(c, s, attempt, model, history, r), t)
      ensures r.cost.Some? ==> r.emitted
      ensures r.error.Some? ==> r.error.value.StreamFailed? || r.error.value.Cancelled?
    {
      hide Reaches, AllowedRequest, ReplyFits;
      t := Record(wire, c, s, Streamed(turn, attempt, model, history));
      var items;
      r, items, t := TakeStream(wire, c, t);
      t := Interfere(wire, c, t);
      t := Record(wire, c, t, Ended(items, r));
    }

    /** The attempts of one turn: the fallback model is asked only when the first said nothing. */
    method RequestTurn(wire: Wire, ghost c: Context, ghost s: State, turn: nat, history: seq<Entry>)
      returns (ok: bool, r: Reply, turnCost: real, seen: bool, ghost t: State)
      requires Mine(c) && Reaches(c, wire.log, s) && Agreed(s)
      requires Ready(c, s, turn, history, s.spent) && turn < MaxTurns(options)
      modifies wire, executor, this`model
      ensures Reaches(c, wire.log, t) && Agreed(t)
      ensures ok ==> Drifted(Attempted(c, s, 0, t.picked, history, r), t) && t.phase.Replied?
      ensures ok ==> turnCost == CostText(r) && (seen <==> r.cost.Some?)
      ensures !ok ==> t.phase.Over? && t.table == s.table
    {
      hide Reaches;
      t := Interfere(wire, c, s);
      var models := [model];
      if options.fallback != "" && options.fallback != models[0] { models := models + [options.fallback]; }
      turnCost, seen := 0.0, false;
      ghost var first := models[0];
      var i := 0;
      while true
        invariant i < |models| && models[0] == first && Reaches(c, wire.log, t) && Agreed(t) && turnCost == 0.0 && !seen
        invariant |models| == (if HasFallback(options, first) then 2 else 1) && (|models| == 2 ==> models[1] == options.fallback)
        invariant if i == 0 then Drifted(s, t) && t.model == first
                  else Drifted(s.(phase := Quiet, history := history, turns := s.turns + 1, picked := first,
                                  calls := [], answers := [], reply := t.reply), t)
        decreases |models| - i
      {
        r, t := Attempt(wire, c, t, turn, i, models[i], history);
        if r.cost.Some? { turnCost, seen := turnCost + r.cost.value, true; }
        if r.error.None? { return true, r, turnCost, seen, t; }
        if r.emitted || i == |models| - 1 {
          t := Fail(wire, c, t, r.error.value);
          return false, r, turnCost, seen, t;
        }
        i := i + 1;
      }
    }

    /** `SetState` at the end of a run. */
    method SaveState(wire: Wire, ghost c: Context, ghost s: State, session: string, messages: seq<Entry>)
      returns (ghost t: State)
      requires Reaches(c, wire.log, s) && Synced(s) && s.phase.Concluded?
      requires messages == s.history + [AssistantEntry(s.reply, [])]
      requires session == c.session && session in sessions
      modifies wire, executor, this`sessions, this`model
      ensures Reaches(c, wire.log, t) && Synced(t) && t.phase.Stored?
    {
      hide Reaches;
      t := Record(wire, c, s, Saved(messages));
      sessions := S.Stated(sessions, session, messages, sessions[session].userTurns);
    }

    /** The success result, the saved state and the stop hook. */
    method Conclude(wire: Wire, ghost c: Context, ghost s: State, session: string, turns: nat, r: Reply, history: seq<Entry>,
                    cost: Option<real>)
      returns (ghost t: State)
      requires Reaches(c, wire.log, s) && Synced(s)
      requires s.phase.Working? && s.calls == [] && s.gate.Shut? && s.reply == r && s.history == history && turns == s.turns
      requires cost == if r.cost.Some? then Some(s.spent) else None
      requires session == c.session && session in sessions
      modifies wire, executor, this`sessions, this`model
      ensures Reaches(c, wire.log, t) && Synced(t) && t.phase.Over?
    {
      hide Reaches;
      var sent, outputs;
      sent, t := Tell(wire, c, s, Result(Success, turns, cost, TrimSpace(r.text)));
      if !sent { return; }
      t := SaveState(wire, c, t, session, history + [AssistantEntry(r, [])]);
      sent, outputs, t := RunHook(wire, c, t, Stop, "", "");
    }

    /** The final message of a reply, unless its parts were shown already or it has none. */
    method Present(wire: Wire, ghost c: Context, ghost s: State, r: Reply) returns (ok: bool, ghost t: State)
      requires Mine(c) && Reaches(c, wire.log, s) && Agreed(s) && s.phase.Replied? && s.reply == r && Affordable(c, s)
      modifies wire, executor, this`model
      ensures Reaches(c, wire.log, t) && Agreed(t)
      ensures ok ==> Drifted(s.(phase := t.phase), t) && (t.phase.Presented? || (t.phase.Replied? && (options.partial || !HasBlocks(r))))
      ensures !ok ==> Drifted(s.(phase := Over), t)
    {
      hide Reaches;
      ok, t := true, s;
      if !options.partial {
        if TrimSpace(r.reasoning) != "" || TrimSpace(r.text) != "" || r.images != [] {
          ok, t := Tell(wire, c, s, Final(r.text, r.reasoning, r.images));
        }
      }
    }

    /** The tool calls of a reply, in order, and their answers. */
    method FollowUp(wire: Wire, ghost c: Context, ghost s: State, turns: nat, r: Reply)
      returns (ok: bool, calls: seq<Call>, answers: seq<Entry>, ghost t: State)
      requires Mine(c) && Reaches(c, wire.log, s) && Agreed(s) && turns == s.turns
      requires s.phase.Replied? && s.reply == r && Affordable(c, s)
      modifies wire, executor, executor.store, this`model
      ensures Reaches(c, wire.log, t) && Agreed(t) && t.table == s.table
      ensures ok ==> Drifted(s.(phase := Working, calls := calls, answers := answers, gate := Shut), t)
      ensures ok ==> |answers| == |calls|
      ensures !ok ==> t.phase.Over?
    {
      hide Reaches;
      calls, answers := [], [];
      ok, t := Present(wire, c, s, r);
      if !ok { return; }
      calls := OrderCalls(r.calls);
      t := Record(wire, c, t, Planned(calls));
      ok, answers, t := RunCalls(wire, c, t, turns, calls);
    }

    /** One round of the turn loop. */
    method RunTurn(wire: Wire, ghost c: Context, ghost s: State, session: string, turn: nat, history: seq<Entry>, total: real)
      returns (goOn: bool, history': seq<Entry>, total': real, ghost t: State)
      requires Mine(c) && Reaches(c, wire.log, s) && Synced(s) && session == c.session && session in sessions
      requires Ready(c, s, turn, history, total) && turn < MaxTurns(options)
      modifies wire, executor, executor.store, this`sessions, this`model
      ensures Reaches(c, wire.log, t) && Synced(t)
      ensures goOn ==> Ready(c, t, turn + 1, history', total') && t.phase.Working? && session in sessions
      ensures !goOn ==> t.phase.Over?
    {
      hide Reaches;
      goOn, history', total' := false, history, total;
      var ok, r, turnCost, seen;
      ok, r, turnCost, seen, t := RequestTurn(wire, c, s, turn, history);
      if !ok { return; }
      if seen { total' := total' + turnCost; }
      if options.budget.Some? && seen && total' > options.budget.value {
        ok, t := Tell(wire, c, t, Result(BudgetExceeded, turn + 1, Some(total'), ""));
        return;
      }
      var calls, answers;
      ok, calls, answers, t := FollowUp(wire, c, t, turn + 1, r);
      if !ok { return; }
      if calls != [] {
        history' := history + ([AssistantEntry(r, calls)] + answers);
        goOn := true;
      } else {
        t := Conclude(wire, c, t, session, turn + 1, r, history, if seen then Some(total') else None);
      }
    }

    /** The turn loop. */
    method RunTurns(wire: Wire, ghost c: Context, ghost s: State, session: string, before: seq<Entry>) returns (ghost t: State)
      requires Mine(c) && Reaches(c, wire.log, s) && Synced(s) && session == c.session && session in sessions
      requires Ready(c, s, 0, before, 0.0)
      modifies wire, executor, executor.store, this`sessions, this`model
      ensures Reaches(c, wire.log, t) && Synced(t) && t.phase.Over?
    {
      hide Reaches;
      var maxTurns := options.maxTurns;
      if maxTurns <= 0 { maxTurns := options.maxToolIterations; }
      if maxTurns <= 0 { maxTurns := 8; }
      var history, totalCost, goOn := before, 0.0, true;
      t := s;
      for turn := 0 to maxTurns
        invariant Reaches(c, wire.log, t) && Synced(t) && session in sessions
        invariant Ready(c, t, turn, history, totalCost) && (turn > 0 ==> t.phase.Working?)
      {
        goOn, history, totalCost, t := RunTurn(wire, c, t, session, turn, history, totalCost);
        if !goOn { return; }
      }
      t := Fail(wire, c, t, TurnsExhausted);
    }

    /***** The start of a run *****/

    /** The system entry of a conversation that is still empty. */
    method Introduce(wire: Wire, ghost c: Context, ghost s: State, before: seq<Entry>)
      returns (ok: bool, history: seq<Entry>, ghost t: State)
      requires Mine(c) && Reaches(c, wire.log, s) && Agreed(s) && s.phase.Opening? && s.history == before
      modifies wire, executor, this`model
      ensures Reaches(c, wire.log, t) && Agreed(t)
      ensures ok ==> Drifted(s.(history := history), t) && Introduced(c, t)
      ensures !ok ==> Drifted(s.(phase := Over), t)
    {
      hide Reaches;
      ok, history, t := true, before, s;
      if |history| == 0 && options.systemPrompt != "" {
        ok, t := Tell(wire, c, s, System(options.systemPrompt));
        if !ok { return; }
        history := history + [SystemEntry(options.systemPrompt)];
      }
    }

    /** `SetState`, `Snapshot` and `SnapshotFiles` for one input. */
    method Checkpoint(wire: Wire, ghost c: Context, ghost s: State, session: string, uid: string, history: seq<Entry>)
      returns (ok: bool, ghost t: State)
      requires Mine(c) && Reaches(c, wire.log, s) && Synced(s) && session == c.session && session in sessions
      requires s.phase == Checkpointing(uid) && s.history == history && options.checkpointing && s.inputs > 0
      modifies wire, executor, this`sessions, this`model
      ensures Reaches(c, wire.log, t) && Synced(t) && session in sessions
      ensures t == s.(phase := t.phase, table := t.table) && if ok then t.phase.Opening? else t.phase.Over?
    {
      hide Reaches;
      ok := true;
      t := Record(wire, c, s, Checkpointed(uid, history));
      sessions := S.Stated(sessions, session, history, sessions[session].userTurns);
      sessions := S.Snapshotted(sessions, session, uid);
      if options.trackFiles {
        ok := *;
        if !ok { t := Fail(wire, c, t, CheckpointFailed); }
      }
    }

    /** The identifier of the next user message. */
    method Number(wire: Wire, ghost c: Context, ghost s: State, session: string) returns (uid: string, ghost t: State)
      requires Reaches(c, wire.log, s) && Synced(s) && session == c.session && session in sessions
      requires s.phase.Opening? && Introduced(c, s) && s.turns == 0 && s.inputs < |c.inputs| && Counted(sessions)
      modifies wire, executor, this`sessions, this`model
      ensures Reaches(c, wire.log, t) && Synced(t) && session in sessions && t == s.(phase := Asking(uid), table := t.table)
    {
      hide Reaches;
      uid := Identifiers.UserId(session, sessions[session].userTurns + 1);
      t := Record(wire, c, s, Issued(uid));
      sessions := sessions[session := sessions[session].(userTurns := sessions[session].userTurns + 1)];
    }

    /** One round of the input loop. */
    method Submit(wire: Wire, ghost c: Context, ghost s: State, session: string, input: Input, before: seq<Entry>)
      returns (ok: bool, history: seq<Entry>, ghost t: State)
      requires Mine(c) && Reaches(c, wire.log, s) && Synced(s) && session == c.session && session in sessions && Counted(sessions)
      requires s.phase.Opening? && Introduced(c, s) && s.turns == 0 && s.history == before
      requires s.inputs < |c.inputs| && c.inputs[s.inputs] == input
      modifies wire, executor, this`sessions, this`model
      ensures Reaches(c, wire.log, t) && Synced(t) && session in sessions
      ensures ok ==> Drifted(s.(table := t.table, history := history, inputs := s.inputs + 1), t) && Introduced(c, t)
      ensures !ok ==> t.phase.Over?
    {
      hide Reaches;
      history := before;
      var userId, outputs;
      userId, t := Number(wire, c, s, session);
      ok, t := Tell(wire, c, t, User(userId, input.content));
      if !ok { return; }
      ok, outputs, t := RunHook(wire, c, t, UserPromptSubmit, "", input.content);
      if !ok { return; }
      history := history + [InputEntry(input)];
      if options.checkpointing {
        ok, t := Checkpoint(wire, c, t, session, userId, history);
      }
    }

    method SubmitAll(wire: Wire, ghost c: Context, ghost s: State, session: string, inputs: seq<Input>, before: seq<Entry>)
      returns (ok: bool, history: seq<Entry>, ghost t: State)
      requires Mine(c) && Reaches(c, wire.log, s) && Synced(s) && session == c.session && session in sessions && Counted(c.table)
      requires s.phase.Opening? && Introduced(c, s) && s.turns == 0 && s.history == before && s.spent == 0.0
      requires s.inputs == 0 && c.inputs == inputs
      modifies wire, executor, this`sessions, this`model
      ensures Reaches(c, wire.log, t) && Synced(t) && session in sessions
      ensures ok ==> Ready(c, t, 0, history, 0.0)
      ensures !ok ==> t.phase.Over?
    {
      hide Reaches;
      ok, history, t := true, before, s;
      for k := 0 to |inputs|
        invariant Reaches(c, wire.log, t) && Synced(t) && session in sessions
        invariant Drifted(s.(table := t.table, history := history, inputs := k), t) && Introduced(c, t)
      {
        Ends(c, wire.log, t);
        ok, history, t := Submit(wire, c, t, session, inputs[k], history);
        if !ok { return; }
      }
    }

    /** What a run is given, as the protocol sees it. */
    ghost function ContextFor(sessionID: string, inputs: seq<Input>): Context
      reads this, executor
    {
      Context(options, servers, registry, decode, tag, readers, resolve, S.Name(sessionID), inputs, sessions, executor.Current(), model)
    }

    /**
     * `RunMessages`: every run ends, its log is lawful, and the sessions and the permission policy
     * are those that the log leads to.
     */
    method RunMessages(sessionID: string, inputs: seq<Input>) returns (wire: Wire)
      requires tag.open != "" && tag.close != "" && Counted(sessions)
      modifies this`sessions, this`model, executor, executor.store
      ensures old(ContextFor(sessionID, inputs)).inputs == inputs && old(ContextFor(sessionID, inputs)).options == options
      ensures old(ContextFor(sessionID, inputs)).session == if sessionID == "" then "default" else sessionID
      ensures old(ContextFor(sessionID, inputs)).table == old(sessions) && old(ContextFor(sessionID, inputs)).model == old(model)
      ensures old(ContextFor(sessionID, inputs)).policy == Permission.Policy(old(executor.mode), old(executor.rules))
      ensures fresh(wire) && Lawful(old(ContextFor(sessionID, inputs)), wire.log)
      ensures StateAt(old(ContextFor(sessionID, inputs)), wire.log).phase.Over?
      ensures Synced(StateAt(old(ContextFor(sessionID, inputs)), wire.log)) && Counted(sessions)
    {
      hide Reaches;
      ghost var c, t := ContextFor(sessionID, inputs), Start(ContextFor(sessionID, inputs));
      wire := new Wire();
      StartsLawful(c);
      t := RunOn(wire, c, t, S.Name(sessionID), inputs);
      Ends(c, wire.log, t);
    }

    /** The goroutine of `RunMessages`. */
    method RunOn(wire: Wire, ghost c: Context, ghost s: State, session: string, inputs: seq<Input>) returns (ghost t: State)
      requires Mine(c) && Reaches(c, wire.log, s) && Synced(s) && s == Start(c)
      requires session == c.session && session != "" && inputs == c.inputs && Counted(c.table)
      modifies wire, this`sessions, this`model, executor, executor.store
      ensures Reaches(c, wire.log, t) && Synced(t) && t.phase.Over?
    {
      hide Reaches;
      t := s;
      var ok, history;
      if !hasTransport {
        t := Fail(wire, c, t, NoTransport);
        return;
      }
      ok := *;
      if !ok {
        t := Fail(wire, c, t, StartFailed);
        return;
      }
      t := Record(wire, c, t, Opened(session));
      sessions := S.Created(sessions, session);
      ok, history, t := Introduce(wire, c, t, sessions[session].messages);
      if !ok { return; }
      ok, history, t := SubmitAll(wire, c, t, session, inputs, history);
      if !ok { return; }
      t := RunTurns(wire, c, t, session, history);
    }

    /***** RunMessageIterator *****/

    /** The session of a message: the last one named so far. */
    static function SessionAt(sessionID: string, inputs: seq<(string, Input)>, k: nat): string
      requires k <= |inputs|
    {
      if k == 0 then S.Name(sessionID)
      else if inputs[k - 1].0 != "" then inputs[k - 1].0
      else SessionAt(sessionID, inputs, k - 1)
    }

    /** Some message before place `k` names a session, and the last that does names this one. */
    static ghost predicate LastNamed(inputs: seq<(string, Input)>, j: nat, k: nat)
      requires k <= |inputs|
    {
      j < k && inputs[j].0 != "" && forall i :: j < i < k ==> inputs[i].0 == ""
    }

    static lemma {:induction false} SessionIsLastNamed(sessionID: string, inputs: seq<(string, Input)>, j: nat, k: nat)
      requires k <= |inputs|
      ensures LastNamed(inputs, j, k) ==> SessionAt(sessionID, inputs, k) == inputs[j].0
      ensures (forall i :: 0 <= i < k ==> inputs[i].0 == "") ==>
                SessionAt(sessionID, inputs, k) == if sessionID == "" then "default" else sessionID
    {
      if k > 0 { SessionIsLastNamed(sessionID, inputs, j, k - 1); }
    }

    /** One run per message so far, each on the session of its message. */
    ghost predicate Conversed(sessionID: string, inputs: seq<(string, Input)>, steps: seq<C.Step>, wires: seq<Wire>)
      reads this, wires
    {
      && |steps| == |wires| <= |inputs|
      && forall k :: 0 <= k < |steps| ==>
           steps[k].Ran? && steps[k].log == wires[k].log && steps[k].context.inputs == [inputs[k].1] &&
           steps[k].context.session == SessionAt(sessionID, inputs, k + 1) && StateAt(steps[k].context, steps[k].log).phase.Over?
    }

    /** One message of the iterator, as one more step of the conversation. */
    method RunStep(sid: string, input: Input, ghost start: Table, ghost steps: seq<C.Step>)
      returns (wire: Wire, failed: bool, ghost step: C.Step)
      requires tag.open != "" && tag.close != "" && Counted(sessions) && sid != ""
      requires C.AllPossible(start, steps) && sessions == C.AfterAll(start, steps)
      modifies this`sessions, this`model, executor, executor.store
      ensures fresh(wire) && Counted(sessions)
      ensures C.AllPossible(start, steps + [step]) && sessions == C.AfterAll(start, steps + [step])
      ensures step.Ran? && step.log == wire.log && step.context.inputs == [input] && step.context.session == sid
      ensures StateAt(step.context, step.log).phase.Over?
      ensures failed <==> exists e :: e in wire.log && e.Failed?
    {
      hide Lawful, StateAt;
      ghost var c := ContextFor(sid, [input]);
      wire := RunMessages(sid, [input]);
      step := C.Ran(c, wire.log);
      C.StepsAppend(start, steps, step);
      failed := exists e :: e in wire.log && e.Failed?;
    }

    /**
     * `RunMessageIterator`: run after run over the same sessions, until the messages end, a run
     * reports an error, or the context is done.
     */
    method RunMessageIterator(sessionID: string, inputs: seq<(string, Input)>)
      returns (wires: seq<Wire>, cancelled: bool, ghost steps: seq<C.Step>)
      requires tag.open != "" && tag.close != "" && Counted(sessions)
      modifies this`sessions, this`model, executor, executor.store
      ensures C.AllPossible(old(sessions), steps) && sessions == C.AfterAll(old(sessions), steps)
      ensures Conversed(sessionID, inputs, steps, wires)
      ensures |wires| == |inputs| || cancelled || (wires != [] && exists e :: e in wires[|wires| - 1].log && e.Failed?)
    {
      hide Lawful, StateAt, C.AllPossible, C.AfterAll;
      wires, cancelled, steps := [], false, [];
      var sid := S.Name(sessionID);
      C.NoSteps(sessions);
      for k := 0 to |inputs|
        invariant |wires| == k && sid == SessionAt(sessionID, inputs, k) && sid != ""
        invariant C.AllPossible(old(sessions), steps) && sessions == C.AfterAll(old(sessions), steps) && Counted(sessions)
        invariant Conversed(sessionID, inputs, steps, wires)
      {
        cancelled := *;
        if cancelled { return; }
        if inputs[k].0 != "" { sid := inputs[k].0; }
        var wire, failed;
        ghost var step;
        wire, failed, step := RunStep(sid, inputs[k].1, old(sessions), steps);
        steps, wires := steps + [step], wires + [wire];
        if failed { return; }
      }
    }
  }
}
