/** What a lawful log guarantees about the beginning of a run: inputs, checkpoints and the first request. */
module OpeningLaws {
  import opened Common
  import opened ToolCalls
  import opened Trace
  import opened Hooks
  import opened Protocol
  import opened Moves
  import opened RunLaws
  import opened HistoryLaws
  import Permission
  import S = Sessions

  /** The messages that a session holds. */
  function Messages(t: Table, id: string): seq<Entry> { if id in t then t[id].messages else [] }

  /** A role and a text, and nothing else. */
  predicate Plain(e: Entry, role: Role, content: string) {
    e.role == role && e.content == content && e.reasoning == "" && e.images == [] && e.calls == [] && e.answers == None
  }

  /** A conversation is introduced by the system prompt when it is empty and there is one. */
  predicate Introducing(c: Context) { Messages(c.table, c.session) == [] && c.options.systemPrompt != "" }

  /** What the session held, the system prompt if that was nothing, and the first `m` inputs. */
  ghost predicate Opens(c: Context, h: seq<Entry>, m: nat) {
    var held := Messages(c.table, c.session);
    var n := |held| + if Introducing(c) then 1 else 0;
    && m <= |c.inputs| && |h| == n + m && held <= h
    && (Introducing(c) ==> Plain(h[0], SystemRole, c.options.systemPrompt))
    && forall k :: 0 <= k < m ==>
         Plain(h[n + k], if c.inputs[k].role.Some? then c.inputs[k].role.value else UserRole, c.inputs[k].content)
  }

  /** A run that still lacks the system entry holds what the session held. */
  ghost predicate Lacks(c: Context, s: State) {
    s.phase.Opening? && Introducing(c) && s.inputs == 0 && s.history == []
  }

  ghost predicate InOrder(c: Context, s: State) {
    && (s.phase.Fresh? ==> s.table == c.table && s.inputs == 0)
    && (Early(s.phase) && !s.phase.Fresh? ==> Opens(c, s.history, s.inputs) || Lacks(c, s))
  }

  lemma SystemOpens(c: Context)
    requires Introducing(c)
    ensures Opens(c, [SystemEntry(c.options.systemPrompt)], 0)
  {
  }

  lemma InputOpens(c: Context, h: seq<Entry>, m: nat)
    requires Opens(c, h, m) && m < |c.inputs|
    ensures Opens(c, h + [InputEntry(c.inputs[m])], m + 1)
  {
    var h' := h + [InputEntry(c.inputs[m])];
    assert forall k :: 0 <= k < |h| ==> h'[k] == h[k];
  }

  lemma HeldOpens(c: Context)
    ensures !Introducing(c) ==> Opens(c, Messages(c.table, c.session), 0)
    ensures S.Name(c.session) != "" && Messages(S.Created(c.table, c.session), c.session) == Messages(c.table, c.session)
  {
  }

  /** How many inputs an event takes in. */
  lemma InputsMove(c: Context, s: State, e: Event)
    requires Allowed(c, s, e)
    ensures var t := Next(c, s, e);
      && t.inputs == s.inputs + (if e.Hooked? && e.event.UserPromptSubmit? && Accepted(e.event, e.reply) then 1 else 0)
      && (e.Hooked? && e.event.UserPromptSubmit? ==> s.inputs < |c.inputs| && s.phase.Submitted?)
  {
    hide AllSupported, VerdictOf, ReplyFits, Permission.ApplyList, Permission.Denies, S.Created, S.Stated, S.Snapshotted;
  }

  lemma OpeningFacts(c: Context, s: State, e: Event)
    requires Allowed(c, s, e)
    ensures e.Opened? ==> e.session == c.session
    ensures e.Sent? && e.msg.System? ==> s.history == [] && e.msg.prompt == c.options.systemPrompt != ""
    ensures e.Issued? ==> Introduced(c, s)
    ensures e.Streamed? && e.attempt == 0 && s.phase.Opening? ==> Introduced(c, s) && s.inputs == |c.inputs| && e.history == s.history
  {
  }

  /** With nothing in the history and a prompt set, the system entry is what is missing. */
  lemma NotYet(c: Context, s: State)
    requires InOrder(c, s) && s.phase.Opening? && s.history == [] && c.options.systemPrompt != ""
    ensures Introducing(c) && s.inputs == 0
  {
  }

  lemma NotLacking(c: Context, s: State)
    requires Introduced(c, s)
    ensures !Lacks(c, s)
  {
  }

  lemma OpenedLacks(c: Context, t: State)
    requires t.phase.Opening? && t.inputs == 0 && t.history == Messages(c.table, c.session)
    ensures InOrder(c, t)
  {
    HeldOpens(c);
  }

  lemma StaysInOrder(c: Context, s: State, t: State, e: Event)
    requires InOrder(c, s) && PhaseMoves(s.phase, e, t.phase)
    requires t.history == HistoryBy(c, s, e) && t.table == TableBy(c, s.table, e)
    requires t.inputs == s.inputs + (if e.Hooked? && e.event.UserPromptSubmit? && Accepted(e.event, e.reply) then 1 else 0)
    requires e.Hooked? && e.event.UserPromptSubmit? ==> s.inputs < |c.inputs| && s.phase.Submitted?
    requires e.Opened? ==> e.session == c.session
    requires e.Sent? && e.msg.System? ==> s.history == [] && e.msg.prompt == c.options.systemPrompt != ""
    requires e.Issued? ==> Introduced(c, s)
    ensures InOrder(c, t)
  {
    hide Opens, AllSupported, VerdictOf, S.Stated, S.Snapshotted, S.Created, Introducing;
    assert s.history + [] == s.history;
    HeldOpens(c);
    match e {
      case Sent(System(prompt)) =>
        NotYet(c, s);
        SystemOpens(c);
        assert [] + [SystemEntry(prompt)] == [SystemEntry(prompt)];
      case Issued(_) => NotLacking(c, s);
      case Hooked(UserPromptSubmit, _, _, _) =>
        if Accepted(e.event, e.reply) { InputOpens(c, s.history, s.inputs); }
      case Opened(_) => OpenedLacks(c, t);
      case _ =>
    }
  }

  lemma {:induction false} OrderHolds(c: Context, log: seq<Event>)
    requires Lawful(c, log)
    ensures InOrder(c, StateAt(c, log))
  {
    hide Allowed, Next, InOrder;
    if log == [] {
      StartsInOrder(c);
    } else {
      var s, e := StateAt(c, log[..|log| - 1]), log[|log| - 1];
      OrderHolds(c, log[..|log| - 1]);
      AllowedMoves(c, s, e);
      HistoryMoves(c, s, e);
      TableMoves(c, s, e);
      InputsMove(c, s, e);
      OpeningFacts(c, s, e);
      StaysInOrder(c, s, Next(c, s, e), e);
    }
  }

  lemma StartsInOrder(c: Context)
    ensures InOrder(c, StateAt(c, []))
  {
    StartIs(c);
  }

  lemma LateStep(c: Context, s: State, e: Event)
    requires Allowed(c, s, e)
    ensures Next(c, s, e).turns >= s.turns && (e.Streamed? && e.attempt == 0 ==> Next(c, s, e).turns > 0)
    ensures e.Streamed? && e.attempt == 0 && !Early(s.phase) ==> s.phase.Working? && e.turn == s.turns
    ensures !Early(Next(c, s, e).phase) && Early(s.phase) ==> Closed(Next(c, s, e).phase) || (e.Streamed? && e.attempt == 0)
  {
    hide Allowed, Next;
    AllowedMoves(c, s, e);
    Books(c, s, e);
    if e.Streamed? && e.attempt == 0 { FirstRequest(c, s, e); }
  }

  /** Work begins with a request. */
  lemma {:induction false} WorkHasTurns(c: Context, log: seq<Event>)
    requires Lawful(c, log)
    ensures var s := StateAt(c, log); Early(s.phase) || Closed(s.phase) || s.turns > 0
  {
    hide Allowed, Next;
    if log == [] {
      StartIs(c);
    } else {
      WorkHasTurns(c, log[..|log| - 1]);
      LateStep(c, StateAt(c, log[..|log| - 1]), log[|log| - 1]);
      ClosingSteps(c, StateAt(c, log[..|log| - 1]), log[|log| - 1]);
    }
  }

  lemma FirstAttempt(c: Context, log: seq<Event>, i: nat)
    requires Lawful(c, log) && i < |log| && log[i].Streamed? && log[i].attempt == 0 && log[i].turn == 0
    ensures Opens(c, log[i].history, |c.inputs|)
  {
    hide Allowed, Next, Opens;
    EventAt(c, log, i);
    var s := StateAt(c, log[..i]);
    OrderHolds(c, log[..i]);
    WorkHasTurns(c, log[..i]);
    LateStep(c, s, log[i]);
    AllowedMoves(c, s, log[i]);
    OpeningFacts(c, s, log[i]);
    NotLacking(c, s);
  }

  /**
   * The first request, to whichever model: what the session held, the system prompt if and only if
   * that was nothing and there is one, and then every input in order, its text in full and its role
   * "user" unless it has another.
   */
  lemma FirstRequestOpens(c: Context, log: seq<Event>, i: nat)
    requires Lawful(c, log) && i < |log| && log[i].Streamed? && log[i].turn == 0
    ensures Opens(c, log[i].history, |c.inputs|)
  {
    hide Lawful, StateAt, Opens;
    if log[i].attempt == 0 {
      FirstAttempt(c, log, i);
    } else {
      OneAttemptPerTurn(c, log, i);
      FirstAttempt(c, log, Back(log, i, 2));
    }
  }

  /***** Inputs and checkpoints *****/

  /** User messages sent so far. */
  function UsersSent(log: seq<Event>): nat {
    if log == [] then 0 else UsersSent(log[..|log| - 1]) + if log[|log| - 1].Sent? && log[|log| - 1].msg.User? then 1 else 0
  }

  /** The inputs taken in, and the one that is being submitted. */
  function Sending(s: State): nat { s.inputs + if s.phase.Submitted? then 1 else 0 }

  lemma SendingStep(c: Context, s: State, e: Event)
    requires Allowed(c, s, e) && Early(Next(c, s, e).phase)
    ensures Early(s.phase)
    ensures Sending(Next(c, s, e)) == Sending(s) + if e.Sent? && e.msg.User? then 1 else 0
  {
    hide Allowed, Next, Accepted;
    AllowedMoves(c, s, e);
    InputsMove(c, s, e);
    if e.Hooked? && e.event.UserPromptSubmit? { PromptTaken(c, s, e); }
  }

  lemma PromptTaken(c: Context, s: State, e: Event)
    requires Allowed(c, s, e) && e.Hooked? && e.event.UserPromptSubmit?
    ensures Accepted(e.event, e.reply) <==> !Next(c, s, e).phase.Broken?
    ensures e.tool == "" && s.inputs < |c.inputs| && e.input == c.inputs[s.inputs].content
    ensures Next(c, s, e).phase.Checkpointing? ==> c.options.checkpointing
    ensures c.options.checkpointing && Accepted(e.event, e.reply) ==> s.phase.Submitted? && Next(c, s, e).phase == Checkpointing(s.phase.uid)
  {
    hide AllSupported;
  }

  lemma {:induction false} SendingIsSent(c: Context, log: seq<Event>)
    requires Lawful(c, log) && Early(StateAt(c, log).phase)
    ensures Sending(StateAt(c, log)) == UsersSent(log)
  {
    hide Allowed, Next;
    if log == [] {
      StartsSending(c);
    } else {
      SendingStep(c, StateAt(c, log[..|log| - 1]), log[|log| - 1]);
      SendingIsSent(c, log[..|log| - 1]);
    }
  }

  lemma StartsSending(c: Context)
    ensures Sending(StateAt(c, [])) == 0
  {
  }

  lemma UserFrom(c: Context, s: State, e: Event)
    requires Allowed(c, s, e) && e.Sent? && e.msg.User?
    ensures s.phase == Asking(e.msg.id) && s.inputs < |c.inputs| && e.msg.content == c.inputs[s.inputs].content
  {
  }

  lemma BackFromAsking(c: Context, s: State, e: Event)
    requires Allowed(c, s, e) && Next(c, s, e).phase.Asking? && !Control(e)
    ensures e == Issued(Next(c, s, e).phase.uid)
  {
    hide Allowed, Next;
    AllowedMoves(c, s, e);
  }

  /** The inputs are shown one after another, each under the identifier just issued for it. */
  lemma InputsAreShown(c: Context, log: seq<Event>, i: nat)
    requires Lawful(c, log) && i < |log| && log[i].Sent? && log[i].msg.User?
    ensures UsersSent(log[..i]) < |c.inputs| && log[i].msg.content == c.inputs[UsersSent(log[..i])].content
    ensures Before(log, i) >= 0 && log[Before(log, i)] == Issued(log[i].msg.id)
  {
    hide Allowed, Next, Start;
    StartIs(c);
    EventAt(c, log, i);
    UserFrom(c, StateAt(c, log[..i]), log[i]);
    SendingIsSent(c, log[..i]);
    PriorEvent(c, log, i);
    BackFromAsking(c, StateAt(c, log[..Before(log, i)]), log[Before(log, i)]);
  }

  lemma CheckpointFrom(c: Context, s: State, e: Event)
    requires Allowed(c, s, e) && e.Checkpointed?
    ensures s.phase == Checkpointing(e.uid) && e.messages == s.history
  {
  }

  lemma BackFromCheckpointing(c: Context, s: State, e: Event)
    requires Allowed(c, s, e) && Next(c, s, e).phase.Checkpointing? && !Control(e)
    ensures e.Hooked? && e.event.UserPromptSubmit? && s.phase == Submitted(Next(c, s, e).phase.uid)
  {
    hide Allowed, Next;
    AllowedMoves(c, s, e);
  }

  lemma BackFromSubmitted(c: Context, s: State, e: Event)
    requires Allowed(c, s, e) && Next(c, s, e).phase.Submitted? && !Control(e)
    ensures e.Sent? && e.msg.User? && e.msg.id == Next(c, s, e).phase.uid
  {
    hide Allowed, Next;
    AllowedMoves(c, s, e);
  }

  /**
   * A checkpoint is taken right after the message that it is named for went through the prompt hook,
   * and it holds the conversation through that message.
   */
  lemma CheckpointsOpen(c: Context, log: seq<Event>, i: nat)
    requires Lawful(c, log) && i < |log| && log[i].Checkpointed?
    ensures c.options.checkpointing && Opens(c, log[i].messages, UsersSent(log[..i])) && UsersSent(log[..i]) > 0
    ensures var j, k := Back(log, i, 1), Back(log, i, 2);
      && 0 <= k < j < i && log[k].Sent? && log[k].msg.User? && log[k].msg.id == log[i].uid
      && log[j].Hooked? && log[j].event.UserPromptSubmit? && log[j].input == log[k].msg.content
  {
    hide Allowed, Next, Start, Opens;
    StartIs(c);
    BackTwice(log, i);
    EventAt(c, log, i);
    CheckpointFrom(c, StateAt(c, log[..i]), log[i]);
    OrderHolds(c, log[..i]);
    SendingIsSent(c, log[..i]);
    PriorEvent(c, log, i);
    var j := Before(log, i);
    BackFromCheckpointing(c, StateAt(c, log[..j]), log[j]);
    PromptTaken(c, StateAt(c, log[..j]), log[j]);
    InputsMove(c, StateAt(c, log[..j]), log[j]);
    PriorEvent(c, log, j);
    var k := Before(log, j);
    BackFromSubmitted(c, StateAt(c, log[..k]), log[k]);
    UserFrom(c, StateAt(c, log[..k]), log[k]);
    InputsMove(c, StateAt(c, log[..k]), log[k]);
  }
}
