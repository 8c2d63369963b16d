/** What a lawful log guarantees about tool calls: how a call is cleared, and where its answer comes from. */
module ToolLaws {
  import opened Common
  import opened Text
  import opened ToolCalls
  import opened Trace
  import opened Hooks
  import opened Protocol
  import opened Moves
  import opened RunLaws
  import Permission
  import Registry

  /***** The gate, one event back *****/

  lemma BackFromCleared(c: Context, s: State, e: Event)
    requires Allowed(c, s, e) && Busy(Next(c, s, e)) && Next(c, s, e).gate.Cleared? && !Control(e)
    ensures e.Asked? && SameCall(s, Next(c, s, e)) && e.name == Current(s).name
    ensures s.gate.Passed? && s.gate.input == e.given
    ensures e.answer.NoCallback? || e.answer.Allow?
    ensures Next(c, s, e).gate.args == if e.answer.Allow? && e.answer.input.Some? then e.answer.input.value else e.given
  {
    hide Allowed, Next;
    OpenGates(c, s, e);
  }

  lemma CheckedFrom(c: Context, s: State, e: Event)
    requires Allowed(c, s, e) && e.Checked?
    ensures e.policy == s.policy
  {
  }

  lemma BackFromPassed(c: Context, s: State, e: Event)
    requires Allowed(c, s, e) && Busy(Next(c, s, e)) && Next(c, s, e).gate.Passed? && !Control(e)
    ensures e.Checked? && SameCall(s, Next(c, s, e)) && e.name == Current(s).name
    ensures s.gate.Prepared? && s.gate.input == Next(c, s, e).gate.input
    ensures e.policy == s.policy && !Permission.Denies(e.policy, e.name)
  {
    hide Allowed, Next, Permission.Denies;
    OpenGates(c, s, e);
    if e.Checked? { CheckedFrom(c, s, e); }
  }

  lemma BackFromPrepared(c: Context, s: State, e: Event)
    requires Allowed(c, s, e) && Busy(Next(c, s, e)) && Next(c, s, e).gate.Prepared? && !Control(e)
    ensures e.Hooked? && SameCall(s, Next(c, s, e)) && e.tool == Current(s).name
    ensures e.event.PreToolUse? && e.reply.Outputs? && AllSupported(e.reply.outputs)
    ensures s.gate.Permitted? && s.gate.input == e.input == Next(c, s, e).gate.input
  {
    hide Allowed, Next, AllSupported, VerdictOf;
    OpenGates(c, s, e);
  }

  lemma BackFromPermitted(c: Context, s: State, e: Event)
    requires Allowed(c, s, e) && Busy(Next(c, s, e)) && Next(c, s, e).gate.Permitted? && !Control(e)
    ensures e.Hooked? && SameCall(s, Next(c, s, e)) && e.tool == Current(s).name
    ensures e.event.PermissionRequest? && e.reply.Outputs? && AllSupported(e.reply.outputs) && !Denied(e.reply.outputs)
    ensures s.gate == Gate.Shown(e.input) && Next(c, s, e).gate.input == VerdictOf(e.reply.outputs, e.input).input
  {
    hide Allowed, Next, AllSupported, Denied, LastOf;
    OpenGates(c, s, e);
  }

  lemma AnnouncedFrom(c: Context, s: State, e: Event)
    requires Allowed(c, s, e) && e.Sent? && e.msg.ToolUse?
    ensures Busy(s) && e.msg.call == Current(s) && e.msg.input == Decoded(c, Current(s).args)
  {
  }

  lemma BackFromShown(c: Context, s: State, e: Event)
    requires Allowed(c, s, e) && Busy(Next(c, s, e)) && Next(c, s, e).gate.Shown? && !Control(e)
    ensures e.Sent? && e.msg.ToolUse? && SameCall(s, Next(c, s, e)) && e.msg.call == Current(s)
    ensures e.msg.input == Next(c, s, e).gate.input == Decoded(c, Current(s).args)
  {
    hide Allowed, Next, VerdictOf;
    OpenGates(c, s, e);
    if e.Sent? && e.msg.ToolUse? { AnnouncedFrom(c, s, e); }
  }

  lemma CalledFrom(c: Context, s: State, e: Event)
    requires Allowed(c, s, e) && e.Called?
    ensures Busy(s) && s.gate == Cleared(e.args) && Current(s).name in c.registry
    ensures e.server == c.registry[Current(s).name].server && e.toolName == c.registry[Current(s).name].tool
    ensures e.server in c.servers && (c.servers[e.server].Sdk? || c.servers[e.server].External?)
  {
  }

  /***** The policy that calls are checked against *****/

  /** The updates that an event of the run decides. */
  function UpdatesBy(e: Event): Updates {
    match e
    case Hooked(PermissionRequest, _, input, Outputs(outputs)) =>
      if AllSupported(outputs) then VerdictOf(outputs, input).updates else []
    case Asked(_, _, _, Allow(_, updates)) => updates
    case _ => []
  }

  function PolicyBy(p: Permission.Policy, e: Event): Permission.Policy {
    if e.ModeSet? then p.(mode := Some(e.mode)) else Permission.ApplyList(p, UpdatesBy(e))
  }

  function PolicyAfter(p: Permission.Policy, log: seq<Event>): Permission.Policy {
    if log == [] then p else PolicyBy(PolicyAfter(p, log[..|log| - 1]), log[|log| - 1])
  }

  lemma PolicyStep(c: Context, s: State, e: Event)
    ensures Next(c, s, e).policy == PolicyBy(s.policy, e)
  {
    hide Permission.Apply, LastOf, Denied;
  }

  /**
   * The policy in force is the one at the start with every update decided by a hook or the callback
   * applied, and every mode set from outside, in the order of the log.
   */
  lemma {:induction false} PolicyIsDecided(c: Context, log: seq<Event>)
    ensures StateAt(c, log).policy == PolicyAfter(c.policy, log)
  {
    hide Next, PolicyBy;
    if log != [] {
      PolicyIsDecided(c, log[..|log| - 1]);
      PolicyStep(c, StateAt(c, log[..|log| - 1]), log[|log| - 1]);
    }
  }

  /** Everything decided, in order: what hooks and callbacks decide, and each mode set from outside. */
  function DecidedBy(log: seq<Event>): Updates {
    if log == [] then []
    else
      var e := log[|log| - 1];
      DecidedBy(log[..|log| - 1]) +
      if e.ModeSet? then [Some(Permission.Update(Permission.SetMode, [], None, Some(e.mode), None))] else UpdatesBy(e)
  }

  lemma ModeAsUpdate(p: Permission.Policy, mode: string)
    ensures Permission.Apply(p, Permission.Update(Permission.SetMode, [], None, Some(mode), None)) == p.(mode := Some(mode))
  {
  }

  lemma {:induction false} PolicyIsListed(p: Permission.Policy, log: seq<Event>)
    ensures PolicyAfter(p, log) == Permission.ApplyList(p, DecidedBy(log))
  {
    hide UpdatesBy, Permission.Apply;
    if log != [] {
      var front, e := log[..|log| - 1], log[|log| - 1];
      PolicyIsListed(p, front);
      if e.ModeSet? {
        var update := Permission.Update(Permission.SetMode, [], None, Some(e.mode), None);
        Permission.ApplyListAppend(p, DecidedBy(front), [Some(update)]);
        Permission.ApplyListOne(PolicyAfter(p, front), Some(update));
        ModeAsUpdate(PolicyAfter(p, front), e.mode);
      } else {
        Permission.ApplyListAppend(p, DecidedBy(front), UpdatesBy(e));
      }
    }
  }

  lemma CheckAt(c: Context, log: seq<Event>, i: nat)
    requires Lawful(c, log) && i < |log| && log[i].Checked?
    ensures log[i].policy == Permission.ApplyList(c.policy, DecidedBy(log[..i]))
  {
    hide Allowed, Next;
    EventAt(c, log, i);
    CheckedFrom(c, StateAt(c, log[..i]), log[i]);
    PolicyIsDecided(c, log[..i]);
    PolicyIsListed(c.policy, log[..i]);
  }

  /**
   * A call is checked against what was decided last about its tool, be it by a hook or by the callback,
   * in the mode that was set last, be it from inside or from outside.
   */
  lemma LastDecisionHolds(c: Context, log: seq<Event>, i: nat, k: nat)
    requires Lawful(c, log) && i < |log| && log[i].Checked?
    ensures Permission.LastRuling(DecidedBy(log[..i]), k, log[i].name) ==>
      Permission.RuleOf(log[i].policy, log[i].name) == Permission.Ruling(DecidedBy(log[..i])[k].value, log[i].name).value
    ensures Permission.LastMode(DecidedBy(log[..i]), k) ==> log[i].policy.mode == DecidedBy(log[..i])[k].value.mode
  {
    hide Lawful, StateAt, DecidedBy, Permission.LastRuling, Permission.LastMode;
    CheckAt(c, log, i);
    if Permission.LastRuling(DecidedBy(log[..i]), k, log[i].name) {
      Permission.LastRulingDecides(c.policy, DecidedBy(log[..i]), k, log[i].name);
    }
    if Permission.LastMode(DecidedBy(log[..i]), k) { Permission.LastModeDecides(c.policy, DecidedBy(log[..i]), k); }
  }

  /***** Hooks that end a run *****/

  /** A hook whose outputs ask for something that the loop does not do, or that fails where it may not. */
  predicate Rejected(e: Event) {
    e.Hooked? &&
    match e.reply
    case HookError => !e.event.PostToolUseFailure? && !e.event.Stop?
    case Outputs(os) =>
      exists k :: 0 <= k < |os| &&
        (os[k].Async? ||
         (os[k].Sync? && (os[k].suppress || os[k].stopReason || os[k].systemMessage || os[k].continues == Some(false))))
  }

  lemma RejectedBreaks(c: Context, s: State, e: Event)
    requires Allowed(c, s, e) && e.Hooked?
    ensures Rejected(e) <==> Next(c, s, e).phase.Broken?
  {
    hide VerdictOf, Permission.ApplyList;
    if e.reply.Outputs? {
      var os := e.reply.outputs;
      if Rejected(e) {
        var k :| 0 <= k < |os| && (os[k].Async? || (os[k].Sync? && (os[k].suppress || os[k].stopReason || os[k].systemMessage || os[k].continues == Some(false))));
        assert !Supported(os[k]);
      } else {
        assert forall k :: 0 <= k < |os| ==> Supported(os[k]);
      }
    }
  }

  lemma FromBroken(c: Context, s: State, e: Event)
    requires Allowed(c, s, e) && !Control(e)
    ensures s.phase.Broken? <==> e == Failed(HookFailed) || e == Failed(BadHookOutput)
  {
    hide ReplyFits;
    assert e.Failed? ==> AllowedFailure(c, s, e.failure);
  }

  lemma BackFromBroken(c: Context, s: State, e: Event)
    requires Allowed(c, s, e) && Next(c, s, e).phase.Broken? && !Control(e)
    ensures e.Hooked?
  {
    hide Allowed, Next;
    AllowedMoves(c, s, e);
  }

  /** A run ends with a hook error right after a hook that is rejected, control events aside, and only then. */
  lemma RejectionEndsRuns(c: Context, log: seq<Event>, i: nat)
    requires Lawful(c, log) && i < |log| && !Control(log[i])
    ensures log[i] == Failed(HookFailed) || log[i] == Failed(BadHookOutput) <==> Before(log, i) >= 0 && Rejected(log[Before(log, i)])
  {
    hide Allowed, Next, Start, Rejected;
    StartIs(c);
    EventAt(c, log, i);
    PriorEvent(c, log, i);
    FromBroken(c, StateAt(c, log[..i]), log[i]);
    var j := Before(log, i);
    if j >= 0 {
      RejectedIsHook(log[j]);
      if log[j].Hooked? {
        RejectedBreaks(c, StateAt(c, log[..j]), log[j]);
      } else if StateAt(c, log[..i]).phase.Broken? {
        BackFromBroken(c, StateAt(c, log[..j]), log[j]);
      }
    }
  }

  lemma RejectedIsHook(e: Event)
    ensures Rejected(e) ==> e.Hooked?
  {
  }

  /***** Step by step *****/

  predicate FailureHook(e: Event, tool: string) { e.Hooked? && e.event.PostToolUseFailure? && e.tool == tool }

  /** The server that a tool belongs to can be called. */
  predicate OnServer(c: Context, tool: string) {
    tool in c.registry && c.registry[tool].server in c.servers &&
    var config := c.servers[c.registry[tool].server];
    config.Sdk? || config.External?
  }

  /** The executor makes the call, or cannot. */
  predicate TakesCall(c: Context, tool: string, args: string, e: Event) {
    if OnServer(c, tool)
    then e.Called? && e.server == c.registry[tool].server && e.toolName == c.registry[tool].tool && e.args == args
    else FailureHook(e, tool)
  }

  /** What comes next where the gate of a call stands like this. */
  predicate Proceeds(c: Context, name: string, g: Gate, e: Event) {
    match g
    case Shut => true
    case Shown(input) => e.Hooked? && e.event.PermissionRequest? && e.tool == name && e.input == input
    case Permitted(input, _) => e.Hooked? && e.event.PreToolUse? && e.tool == name && e.input == input
    case Prepared(_, _) => if name in c.registry then e.Checked? && e.name == name else FailureHook(e, name)
    case Passed(input, suggestions) => e.Asked? && e.name == name && e.given == input && e.suggestions == suggestions
    case Cleared(args) => TakesCall(c, name, args, e)
    case Erred => FailureHook(e, name)
    case Refused(_) => FailureHook(e, name)
    case Failing => e.Hooked? && e.event.PostToolUse? && e.tool == name
    case Yielded(_) => e.Hooked? && e.event.PostToolUse? && e.tool == name
    case Posted(_) => e == Failed(Cancelled) || (e.Sent? && e.msg.ToolResult?)
    case Condemned(interrupt) =>
      if interrupt then e == Failed(Cancelled) || (e.Sent? && e.msg.Result? && e.msg.kind.Interrupted?) else e == Failed(PermissionDenied)
  }

  lemma GateProceeds(c: Context, s: State, e: Event)
    requires Allowed(c, s, e) && Busy(s) && !Control(e)
    ensures Proceeds(c, Current(s).name, s.gate, e)
  {
    hide ReplyFits, AllSupported;
  }

  /** What must follow an event of a tool call, control events aside. */
  predicate Follows(c: Context, e: Event, next: Event) {
    match e
    case Sent(ToolUse(call, input)) =>
      next.Hooked? && next.event.PermissionRequest? && next.tool == call.name && next.input == input
    case Hooked(PermissionRequest, tool, input, Outputs(outputs)) =>
      if Denied(outputs) then FailureHook(next, tool)
      else next.Hooked? && next.event.PreToolUse? && next.tool == tool && next.input == VerdictOf(outputs, input).input
    case Hooked(PreToolUse, tool, _, _) => if tool in c.registry then next.Checked? && next.name == tool else FailureHook(next, tool)
    case Checked(name, policy) =>
      if policy.mode != Some("bypassPermissions") && name in policy.rules && policy.rules[name] == "deny" then FailureHook(next, name)
      else next.Asked? && next.name == name
    case Asked(name, given, _, NoCallback) => TakesCall(c, name, given, next)
    case Asked(name, given, _, Allow(input, _)) => TakesCall(c, name, if input.Some? then input.value else given, next)
    case Asked(name, _, _, _) => FailureHook(next, name)
    case Called(_, _, _, output) =>
      next.Hooked? && if output.Some? then next.event.PostToolUse? else next.event.PostToolUseFailure?
    case Hooked(PostToolUse, _, _, _) => next == Failed(Cancelled) || (next.Sent? && next.msg.ToolResult?)
    case Hooked(PostToolUseFailure, tool, _, _) =>
      || (next.Hooked? && next.event.PostToolUse? && next.tool == tool)
      || next == Failed(PermissionDenied) || next == Failed(Cancelled)
      || (next.Sent? && next.msg.Result? && next.msg.kind.Interrupted?)
    case _ => true
  }

  /** The events of a tool call leave the call in work, unless a hook is rejected. */
  predicate InCall(e: Event) {
    (e.Sent? && e.msg.ToolUse?) || e.Checked? || e.Asked? || e.Called? ||
    (e.Hooked? && !e.event.UserPromptSubmit? && !e.event.Stop?)
  }

  lemma InCallWorks(c: Context, s: State, e: Event)
    requires Allowed(c, s, e) && InCall(e)
    ensures Busy(s) && (Next(c, s, e).phase.Broken? || (Next(c, s, e).phase.Working? && !Next(c, s, e).gate.Shut?))
  {
    hide ReplyFits, AllSupported, VerdictOf, Permission.Denies, Permission.ApplyList;
  }

  lemma GateFollows(c: Context, name: string, g: Gate, e: Event, h: Gate, next: Event)
    requires InCall(e) && GateMoves(name, g, e, h) && Proceeds(c, name, h, next)
    ensures Follows(c, e, next)
  {
    hide AllSupported, LastOf, Denied, OnServer;
  }

  /**
   * A tool call goes step by step: announcement, permission hook, pre-use hook, policy, callback, server
   * and post-use hook, each with the input it is due, and the failure hook wherever a step refuses or
   * fails. Nothing is skipped and nothing comes in between.
   */
  lemma CallsGoStepByStep(c: Context, log: seq<Event>, i: nat)
    requires Lawful(c, log) && i < |log| && !Control(log[i])
    requires var j := Before(log, i); j >= 0 && InCall(log[j]) && !Rejected(log[j])
    ensures Follows(c, log[Before(log, i)], log[i])
  {
    hide Allowed, Next, Start, Follows, Proceeds, GateMoves, InCall, Rejected;
    var t := GateAfter(c, log, i);
    GateProceeds(c, t, log[i]);
    GateFollows(c, Current(t).name, StateAt(c, log[..Before(log, i)]).gate, log[Before(log, i)], t.gate, log[i]);
  }

  /** The refusal that an event of a call is, and whether it interrupts the run. */
  function Refusal(e: Event): Option<bool> {
    match e
    case Hooked(PermissionRequest, _, input, Outputs(outputs)) =>
      if Denied(outputs) then Some(VerdictOf(outputs, input).interrupt) else None
    case Checked(name, policy) => if Permission.Denies(policy, name) then Some(false) else None
    case Asked(_, _, _, Deny(_, interrupt)) => Some(interrupt)
    case _ => None
  }

  lemma FailureGates(c: Context, name: string, g: Gate, e: Event, h: Gate, f: Event, k: Gate)
    requires InCall(e) && GateMoves(name, g, e, h) && f.Hooked? && f.event.PostToolUseFailure? && GateMoves(name, h, f, k)
    ensures k == if Refusal(e).Some? then Condemned(Refusal(e).value) else Failing
  {
    hide AllSupported, Denied, LastOf, Permission.Denies;
  }

  /**
   * Behind the failure hook, a refusal ends the run, with an interruption or with an error as the refusal
   * says; a policy never interrupts. Anything else that failed goes on to the post-use hook.
   */
  lemma RefusalsEndRuns(c: Context, log: seq<Event>, i: nat)
    requires Lawful(c, log) && i < |log| && !Control(log[i])
    requires var j, k := Back(log, i, 1), Back(log, i, 2);
      k >= 0 && log[j].Hooked? && log[j].event.PostToolUseFailure? && !Rejected(log[j]) && InCall(log[k]) && !Rejected(log[k])
    ensures var refusal := Refusal(log[Back(log, i, 2)]);
      if refusal == Some(true) then log[i] == Failed(Cancelled) || (log[i].Sent? && log[i].msg.Result? && log[i].msg.kind.Interrupted?)
      else if refusal == Some(false) then log[i] == Failed(PermissionDenied)
      else log[i].Hooked? && log[i].event.PostToolUse?
  {
    hide Allowed, Next, Start, Proceeds, GateMoves, InCall, Rejected, Refusal, Back, Before;
    BackDown(log, i, 0);
    BackDown(log, i, 1);
    var j, k := Back(log, i, 1), Back(log, i, 2);
    FailureIsInCall(log[j]);
    var s := GateAfter(c, log, j);
    var t := GateAfter(c, log, i);
    FailureGates(c, Current(s).name, StateAt(c, log[..k]).gate, log[k], s.gate, log[j], t.gate);
    GateProceeds(c, t, log[i]);
    ProceedsFrom(c, Current(t).name, t.gate, log[i]);
  }

  lemma FailureIsInCall(e: Event)
    requires e.Hooked? && e.event.PostToolUseFailure?
    ensures InCall(e)
  {
  }

  lemma ProceedsFrom(c: Context, name: string, g: Gate, e: Event)
    requires Proceeds(c, name, g, e)
    ensures g == Failing ==> e.Hooked? && e.event.PostToolUse?
    ensures g == Condemned(true) ==> e == Failed(Cancelled) || (e.Sent? && e.msg.Result? && e.msg.kind.Interrupted?)
    ensures g == Condemned(false) ==> e == Failed(PermissionDenied)
  {
  }

  /** How the gate stands before place `i`, behind an event of a call. */
  lemma GateAfter(c: Context, log: seq<Event>, i: nat) returns (t: State)
    requires Lawful(c, log) && i < |log| && Before(log, i) >= 0 && InCall(log[Before(log, i)]) && !Rejected(log[Before(log, i)])
    ensures t == StateAt(c, log[..i]) && Allowed(c, t, log[i])
    ensures var s := StateAt(c, log[..Before(log, i)]);
      SameCall(s, t) && GateMoves(Current(t).name, s.gate, log[Before(log, i)], t.gate)
  {
    hide Allowed, Next, Start, GateMoves, InCall, Rejected;
    EventAt(c, log, i);
    PriorEvent(c, log, i);
    var j := Before(log, i);
    var s := StateAt(c, log[..j]);
    t := StateAt(c, log[..i]);
    InCallWorks(c, s, log[j]);
    if log[j].Hooked? { RejectedBreaks(c, s, log[j]); } else { OnlyHooksBreak(c, s, log[j]); }
    AllowedGates(c, s, log[j]);
  }

  lemma OnlyHooksBreak(c: Context, s: State, e: Event)
    requires Allowed(c, s, e) && !e.Hooked? && !Control(e)
    ensures !Next(c, s, e).phase.Broken?
  {
    hide Allowed, Next;
    AllowedMoves(c, s, e);
  }

  /***** Gated calls *****/

  /** The events that prepare a call, control events aside: its announcement, the permission hook, the pre-use hook. */
  ghost predicate PreparedBy(c: Context, log: seq<Event>, k: nat)
    requires k <= |log|
  {
    && Back(log, k, 3) >= 0
    && (var use, permission, pre := log[Back(log, k, 3)], log[Back(log, k, 2)], log[Back(log, k, 1)];
        && use.Sent? && use.msg.ToolUse? && use.msg.input == (if TrimSpace(use.msg.call.args) == "" then "" else c.decode(use.msg.call.args))
        && var name := use.msg.call.name;
        && permission.Hooked? && permission.event.PermissionRequest? && permission.tool == name && permission.input == use.msg.input
        && permission.reply.Outputs? && AllSupported(permission.reply.outputs) && !Denied(permission.reply.outputs)
        && pre.Hooked? && pre.event.PreToolUse? && pre.tool == name && pre.reply.Outputs? && AllSupported(pre.reply.outputs)
        && pre.input == VerdictOf(permission.reply.outputs, permission.input).input)
  }

  /** How far back the steps are. */
  lemma BackDown(log: seq<Event>, k: nat, n: nat)
    requires k <= |log|
    ensures Back(log, k, n + 1) == Before(log, Back(log, k, n)) <= Back(log, k, n)
    ensures Back(log, k, n) > 0 ==> Back(log, k, n + 1) < Back(log, k, n)
    ensures Back(log, k, 0) == k
  {
    assert k > 0 ==> Before(log, k) < k;
    BeforeIsLess(log, Back(log, k, n));
  }

  lemma {:induction false} BeforeIsLess(log: seq<Event>, k: int)
    requires -1 <= k <= |log|
    ensures k >= 0 ==> Before(log, k) < k
  {
    if k > 0 && Control(log[k - 1]) { BeforeIsLess(log, k - 1); }
  }

  lemma Preparation(c: Context, log: seq<Event>, k: nat)
    requires Lawful(c, log) && k <= |log| && Busy(StateAt(c, log[..k])) && StateAt(c, log[..k]).gate.Prepared?
    ensures PreparedBy(c, log, k)
    ensures log[Back(log, k, 3)].msg.call == Current(StateAt(c, log[..k]))
    ensures log[Back(log, k, 1)].input == StateAt(c, log[..k]).gate.input
  {
    hide Allowed, Next, Start, Denied, AllSupported, VerdictOf, Back, Before;
    StartIs(c);
    BackDown(log, k, 0);
    BackDown(log, k, 1);
    BackDown(log, k, 2);
    PriorEvent(c, log, k);
    var a := Back(log, k, 1);
    BackFromPrepared(c, StateAt(c, log[..a]), log[a]);
    PriorEvent(c, log, a);
    var b := Back(log, k, 2);
    BackFromPermitted(c, StateAt(c, log[..b]), log[b]);
    PriorEvent(c, log, b);
    var d := Back(log, k, 3);
    BackFromShown(c, StateAt(c, log[..d]), log[d]);
  }

  /**
   * The six events that end in a call, control events aside, each for the same tool and with the input
   * it was given.
   */
  ghost predicate GatedCall(c: Context, log: seq<Event>, i: nat)
    requires i < |log| && log[i].Called?
  {
    var a, b := Back(log, i, 1), Back(log, i, 2);
    && a > b >= 0 && PreparedBy(c, log, b)
    && (var name, input := log[Back(log, b, 3)].msg.call.name, log[Back(log, b, 1)].input;
        && log[b].Checked? && log[b].name == name && !Permission.Denies(log[b].policy, name)
        && log[b].policy == PolicyAfter(c.policy, log[..b])
        && log[a].Asked? && log[a].name == name && log[a].given == input
        && (log[a].answer.NoCallback? || log[a].answer.Allow?)
        && log[i].args == (if log[a].answer.Allow? && log[a].answer.input.Some? then log[a].answer.input.value else input)
        && name in c.registry && c.registry[name].server == log[i].server && c.registry[name].tool == log[i].toolName
        && log[i].server in c.servers && (c.servers[log[i].server].Sdk? || c.servers[log[i].server].External?))
  }

  /** The two events before a call. */
  lemma Clearance(c: Context, log: seq<Event>, i: nat)
    requires Lawful(c, log) && i < |log| && log[i].Called?
    ensures var a, b := Back(log, i, 1), Back(log, i, 2);
      && a > b >= 0 && log[b].Checked? && log[a].Asked?
      && Busy(StateAt(c, log[..b])) && StateAt(c, log[..b]).gate.Prepared?
      && (var name, input := Current(StateAt(c, log[..b])).name, StateAt(c, log[..b]).gate.input;
          && log[b].name == name && log[b].policy == StateAt(c, log[..b]).policy && !Permission.Denies(log[b].policy, name)
          && log[a].name == name && log[a].given == input && (log[a].answer.NoCallback? || log[a].answer.Allow?)
          && log[i].args == (if log[a].answer.Allow? && log[a].answer.input.Some? then log[a].answer.input.value else input)
          && name in c.registry && c.registry[name].server == log[i].server && c.registry[name].tool == log[i].toolName
          && log[i].server in c.servers && (c.servers[log[i].server].Sdk? || c.servers[log[i].server].External?))
  {
    hide Allowed, Next, Start, Lawful, StateAt, Permission.Denies, Back, Before;
    StartIs(c);
    BackDown(log, i, 0);
    BackDown(log, i, 1);
    EventAt(c, log, i);
    CalledFrom(c, StateAt(c, log[..i]), log[i]);
    PriorEvent(c, log, i);
    var a := Back(log, i, 1);
    BackFromCleared(c, StateAt(c, log[..a]), log[a]);
    PriorEvent(c, log, a);
    var b := Back(log, i, 2);
    BackFromPassed(c, StateAt(c, log[..b]), log[b]);
  }

  /**
   * No ungated call. Whatever reaches a server was announced, not denied by any permission hook
   * output, accepted by the pre-use hook, not denied by the policy of that moment, and not denied by
   * the callback; it is registered, and its arguments are those that the last of these settled on.
   */
  lemma NoUngatedCall(c: Context, log: seq<Event>, i: nat)
    requires Lawful(c, log) && i < |log| && log[i].Called?
    ensures GatedCall(c, log, i)
  {
    hide Allowed, Next, Lawful, StateAt, PolicyAfter, Permission.Denies, Back, PreparedBy;
    Clearance(c, log, i);
    var b := Back(log, i, 2);
    Preparation(c, log, b);
    PolicyIsDecided(c, log[..b]);
    PreparedPlaces(c, log, b);
  }

  lemma PreparedPlaces(c: Context, log: seq<Event>, k: nat)
    requires k <= |log| && PreparedBy(c, log, k)
    ensures 0 <= Back(log, k, 3) && 0 <= Back(log, k, 1) < |log|
    ensures log[Back(log, k, 3)].Sent? && log[Back(log, k, 3)].msg.ToolUse? && log[Back(log, k, 1)].Hooked?
  {
    hide Back;
    BackDown(log, k, 0);
    BackDown(log, k, 1);
    BackDown(log, k, 2);
  }

  /**
   * A tool that the options exclude is never called: its public name is not among the disallowed
   * ones, and it is among the configured and the allowed ones where there are any. It is called on a
   * server that lists it.
   */
  lemma FilteredToolsAreNotCalled(c: Context, filters: Registry.Filters, log: seq<Event>, i: nat)
    requires Lawful(c, log) && i < |log| && log[i].Called?
    requires Registry.IsRegistry(c.servers, filters, c.registry)
    ensures var name := "mcp__" + log[i].server + "__" + log[i].toolName;
      && (forall d :: d in filters.disallowed ==> TrimSpace(d) != name)
      && (filters.allowed != [] ==> exists a :: a in filters.allowed && TrimSpace(a) == name)
      && (filters.configured != [] ==> exists a :: a in filters.configured && TrimSpace(a) == name)
    ensures log[i].server in c.servers
    ensures exists t :: Registry.ListsTool(c.servers[log[i].server], t) && t.name == log[i].toolName
  {
    hide Allowed, Next, Lawful, StateAt, TrimSpace;
    CalledRegistered(c, log, i);
    Registry.RegistryHolds(c.servers, filters, c.registry);
    var ref := c.registry[LastUse(log[..i]).value.name];
    assert Registry.ListsTool(c.servers[ref.server], Registry.Tool(ref.tool, ref.desc));
  }

  /** What is called is what the registry has under the name announced last. */
  lemma CalledRegistered(c: Context, log: seq<Event>, i: nat)
    requires Lawful(c, log) && i < |log| && log[i].Called?
    ensures LastUse(log[..i]).Some? && LastUse(log[..i]).value.name in c.registry
    ensures var ref := c.registry[LastUse(log[..i]).value.name]; ref.server == log[i].server && ref.tool == log[i].toolName
  {
    hide Allowed, Next;
    EventAt(c, log, i);
    CalledFrom(c, StateAt(c, log[..i]), log[i]);
    WorkIsAnnounced(c, log[..i]);
  }

  /***** Answers *****/

  /** The call announced last. */
  function LastUse(log: seq<Event>): Option<Call> {
    if log == [] then None
    else if log[|log| - 1].Sent? && log[|log| - 1].msg.ToolUse? then Some(log[|log| - 1].msg.call)
    else LastUse(log[..|log| - 1])
  }

  lemma UseStep(c: Context, s: State, e: Event, use: Option<Call>)
    requires Allowed(c, s, e) && Busy(Next(c, s, e)) && !Next(c, s, e).gate.Shut?
    requires Busy(s) && !s.gate.Shut? ==> use == Some(Current(s))
    ensures (if e.Sent? && e.msg.ToolUse? then Some(e.msg.call) else use) == Some(Current(Next(c, s, e)))
  {
    hide Allowed, Next, VerdictOf, Permission.Denies;
    OpenGates(c, s, e);
    if e.Sent? && e.msg.ToolUse? { AnnouncedFrom(c, s, e); }
  }

  /** While a gate is open, the call in work is the one announced last. */
  lemma {:induction false} WorkIsAnnounced(c: Context, log: seq<Event>)
    requires Lawful(c, log) && Busy(StateAt(c, log)) && !StateAt(c, log).gate.Shut?
    ensures LastUse(log) == Some(Current(StateAt(c, log)))
  {
    hide Allowed, Next;
    if log == [] {
      StartIs(c);
    } else {
      var front, last := log[..|log| - 1], log[|log| - 1];
      if Busy(StateAt(c, front)) && !StateAt(c, front).gate.Shut? { WorkIsAnnounced(c, front); }
      UseStep(c, StateAt(c, front), last, LastUse(front));
    }
  }

  lemma ResultFrom(c: Context, s: State, e: Event)
    requires Allowed(c, s, e) && e.Sent? && e.msg.ToolResult?
    ensures Busy(s) && e.msg.callId == Current(s).id && s.gate.Posted?
    ensures if s.gate.result.Some? then e.msg.output == s.gate.result.value else "Error: " <= e.msg.output
  {
  }

  lemma BackFromPosted(c: Context, s: State, e: Event)
    requires Allowed(c, s, e) && Busy(Next(c, s, e)) && Next(c, s, e).gate.Posted? && !Control(e)
    ensures e.Hooked? && e.event.PostToolUse? && SameCall(s, Next(c, s, e)) && e.tool == Current(s).name
    ensures if s.gate.Yielded? then Next(c, s, e).gate.result == Some(s.gate.output)
            else s.gate.Failing? && Next(c, s, e).gate.result == None
  {
    hide Allowed, Next, VerdictOf;
    OpenGates(c, s, e);
  }

  lemma BackFromRan(c: Context, s: State, e: Event)
    requires Allowed(c, s, e) && Busy(Next(c, s, e)) && Next(c, s, e).gate.Yielded? && !Control(e)
    ensures e.Called? && SameCall(s, Next(c, s, e)) && e.output == Some(Next(c, s, e).gate.output)
  {
    hide Allowed, Next, VerdictOf;
    OpenGates(c, s, e);
  }

  lemma BackFromFailing(c: Context, s: State, e: Event)
    requires Allowed(c, s, e) && Busy(Next(c, s, e)) && Next(c, s, e).gate.Failing? && !Control(e)
    ensures e.Hooked? && e.event.PostToolUseFailure? && SameCall(s, Next(c, s, e)) && e.tool == Current(s).name
  {
    hide Allowed, Next, VerdictOf;
    OpenGates(c, s, e);
  }

  /** The two events before a tool result, control events aside. */
  lemma ResultOrigin(c: Context, log: seq<Event>, i: nat)
    requires Lawful(c, log) && i < |log| && log[i].Sent? && log[i].msg.ToolResult?
    ensures var a, b := Back(log, i, 1), Back(log, i, 2);
      && Busy(StateAt(c, log[..i])) && a > b >= 0
      && log[a].Hooked? && log[a].event.PostToolUse? && log[a].tool == Current(StateAt(c, log[..i])).name
      && ((log[b].Called? && log[b].output == Some(log[i].msg.output)) ||
          (log[b].Hooked? && log[b].event.PostToolUseFailure? && log[b].tool == log[a].tool && "Error: " <= log[i].msg.output))
  {
    hide Allowed, Next, Start, Back, Before;
    StartIs(c);
    BackDown(log, i, 0);
    BackDown(log, i, 1);
    EventAt(c, log, i);
    ResultFrom(c, StateAt(c, log[..i]), log[i]);
    PriorEvent(c, log, i);
    var a := Back(log, i, 1);
    BackFromPosted(c, StateAt(c, log[..a]), log[a]);
    PriorEvent(c, log, a);
    var b := Back(log, i, 2);
    if StateAt(c, log[..a]).gate.Yielded? {
      BackFromRan(c, StateAt(c, log[..b]), log[b]);
    } else {
      BackFromFailing(c, StateAt(c, log[..b]), log[b]);
    }
  }

  /**
   * A tool result answers the call announced last. It is the output of the call just made, followed
   * by the post-use hook; or else it is an error text, and then the failure hook fired as well as the
   * post-use hook, both for that call's tool.
   */
  lemma AnswersComeFromCalls(c: Context, log: seq<Event>, i: nat)
    requires Lawful(c, log) && i < |log| && log[i].Sent? && log[i].msg.ToolResult?
    ensures LastUse(log[..i]).Some? && log[i].msg.callId == LastUse(log[..i]).value.id
    ensures var a, b := Back(log, i, 1), Back(log, i, 2);
      && a > b >= 0 && log[a].Hooked? && log[a].event.PostToolUse? && log[a].tool == LastUse(log[..i]).value.name
      && ((log[b].Called? && log[b].output == Some(log[i].msg.output)) ||
          (log[b].Hooked? && log[b].event.PostToolUseFailure? && log[b].tool == log[a].tool && "Error: " <= log[i].msg.output))
  {
    hide Allowed, Next, Back, LastUse;
    ResultInWork(c, log, i);
    WorkIsAnnounced(c, log[..i]);
    ResultOrigin(c, log, i);
  }

  lemma ResultInWork(c: Context, log: seq<Event>, i: nat)
    requires Lawful(c, log) && i < |log| && log[i].Sent? && log[i].msg.ToolResult?
    ensures Lawful(c, log[..i]) && Busy(StateAt(c, log[..i])) && !StateAt(c, log[..i]).gate.Shut?
    ensures log[i].msg.callId == Current(StateAt(c, log[..i])).id
  {
    hide Allowed, Next;
    EventAt(c, log, i);
    ResultFrom(c, StateAt(c, log[..i]), log[i]);
  }
}
