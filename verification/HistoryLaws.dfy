/** What a lawful log guarantees about histories: calls and answers stay paired, and requests only add. */
module HistoryLaws {
  import opened Common
  import opened ToolCalls
  import opened Trace
  import opened Hooks
  import opened Protocol
  import opened Moves
  import opened RunLaws
  import Permission
  import ToolLaws
  import S = Sessions

  /***** Pairing *****/

  predicate Answers(e: Entry, call: Call) { e.role.ToolRole? && e.answers == Some(call.id) && e.calls == [] }

  /** An entry with calls is an assistant entry, and one answer per call follows at once, in order. */
  ghost predicate Answered(h: seq<Entry>, i: nat)
    requires i < |h|
  {
    h[i].calls != [] ==>
      && h[i].role.AssistantRole?
      && i + |h[i].calls| < |h|
      && forall j :: 0 <= j < |h[i].calls| ==> Answers(h[i + 1 + j], h[i].calls[j])
  }

  /** A tool entry is one of the answers to an entry before it. */
  ghost predicate Owned(h: seq<Entry>, i: nat)
    requires i < |h|
  {
    h[i].role.ToolRole? ==> exists k :: 0 <= k < i && i <= k + |h[k].calls|
  }

  ghost predicate WellPaired(h: seq<Entry>) { forall i :: 0 <= i < |h| ==> Answered(h, i) && Owned(h, i) }

  lemma PairedPrefix(h: seq<Entry>, more: seq<Entry>, i: nat)
    requires WellPaired(h) && i < |h|
    ensures Answered(h + more, i) && Owned(h + more, i)
  {
    var all := h + more;
    assert forall k :: 0 <= k < |h| ==> all[k] == h[k];
    assert Answered(h, i) && Owned(h, i);
    if h[i].role.ToolRole? {
      var k :| 0 <= k < i && i <= k + |h[k].calls|;
      assert all[k] == h[k];
    }
  }

  /** An entry without calls keeps a history paired if and only if it is not a tool entry. */
  lemma EntryKeepsPairing(h: seq<Entry>, e: Entry)
    requires WellPaired(h) && e.calls == []
    ensures WellPaired(h + [e]) <==> !e.role.ToolRole?
  {
    var all := h + [e];
    forall i | 0 <= i < |h| ensures Answered(all, i) && Owned(all, i) { PairedPrefix(h, [e], i); }
    if e.role.ToolRole? {
      forall k | 0 <= k < |h| ensures k + |h[k].calls| < |h| { assert Answered(h, k); }
      assert forall k :: 0 <= k < |h| ==> all[k] == h[k];
      assert !Owned(all, |h|);
    } else {
      assert Answered(all, |h|) && Owned(all, |h|);
    }
  }

  /** Answers so far, one per call and in order. */
  ghost predicate Replies(answers: seq<Entry>, calls: seq<Call>) {
    |answers| <= |calls| && forall j :: 0 <= j < |answers| ==> Answers(answers[j], calls[j])
  }

  lemma TurnKeepsPairing(h: seq<Entry>, e: Entry, answers: seq<Entry>)
    requires WellPaired(h) && e.role.AssistantRole? && Replies(answers, e.calls) && |answers| == |e.calls|
    ensures WellPaired(h + ([e] + answers))
  {
    var all := h + ([e] + answers);
    var n := |h|;
    assert all[n] == e;
    assert forall j :: 0 <= j < |answers| ==> all[n + 1 + j] == answers[j];
    forall i | 0 <= i < |all| ensures Answered(all, i) && Owned(all, i) {
      if i < n {
        PairedPrefix(h, [e] + answers, i);
      } else if i > n {
        assert all[i] == answers[i - n - 1] && Answers(answers[i - n - 1], e.calls[i - n - 1]);
        assert 0 <= n < i && i <= n + |all[n].calls|;
      }
    }
  }

  ghost predicate PairedSession(s: S.Session<Entry>) {
    WellPaired(s.messages) && forall uid :: uid in s.checkpoints ==> WellPaired(s.checkpoints[uid])
  }

  ghost predicate PairedTable(t: Table) { forall id :: id in t ==> PairedSession(t[id]) }

  lemma StatedPaired(t: Table, id: string, messages: seq<Entry>, turns: int)
    requires PairedTable(t) && WellPaired(messages)
    ensures PairedTable(S.Stated(t, id, messages, turns)) && PairedTable(S.Created(t, id))
  {
  }

  lemma SnapshottedPaired(t: Table, id: string, uid: string)
    requires PairedTable(t)
    ensures PairedTable(S.Snapshotted(t, id, uid))
  {
  }

  lemma CountedPaired(t: Table, id: string, turns: int)
    requires PairedTable(t) && id in t
    ensures PairedTable(t[id := t[id].(userTurns := turns)])
  {
    assert PairedSession(t[id]);
  }

  /** No caller passes an input off as a tool answer. */
  predicate HonestRoles(inputs: seq<Input>) { forall i :: 0 <= i < |inputs| ==> inputs[i].role != Some(ToolRole) }

  ghost predicate PairedState(s: State) {
    WellPaired(s.history) && Replies(s.answers, s.calls) && PairedTable(s.table)
  }

  /** The messages that an event hands on. */
  function Carried(e: Event): seq<Entry> {
    match e
    case Streamed(_, _, _, history) => history
    case Checkpointed(_, messages) => messages
    case Saved(messages) => messages
    case _ => []
  }

  /** What an event does to the session table. */
  function TableBy(c: Context, t: Table, e: Event): Table {
    match e
    case Opened(session) => S.Created(t, session)
    case Issued(_) => if c.session in t then t[c.session := t[c.session].(userTurns := t[c.session].userTurns + 1)] else t
    case Checkpointed(uid, messages) =>
      S.Snapshotted(S.Stated(t, c.session, messages, UserTurns(t, c.session)), c.session, uid)
    case Saved(messages) => S.Stated(t, c.session, messages, UserTurns(t, c.session))
    case _ => t
  }

  lemma TableMoves(c: Context, s: State, e: Event)
    ensures Next(c, s, e).table == TableBy(c, s.table, e)
  {
    hide VerdictOf, AllSupported, Permission.ApplyList, Permission.Denies, S.Created, S.Stated, S.Snapshotted;
  }

  lemma TableStep(c: Context, s: State, e: Event)
    requires PairedState(s) && WellPaired(Carried(e))
    ensures PairedTable(Next(c, s, e).table)
  {
    hide Next, WellPaired, PairedSession, S.Created, S.Stated, S.Snapshotted;
    TableMoves(c, s, e);
    match e
    case Opened(session) => StatedPaired(s.table, session, s.history, 0);
    case Issued(_) =>
      if c.session in s.table { CountedPaired(s.table, c.session, s.table[c.session].userTurns + 1); }
    case Checkpointed(uid, messages) =>
      StatedPaired(s.table, c.session, messages, UserTurns(s.table, c.session));
      SnapshottedPaired(S.Stated(s.table, c.session, messages, UserTurns(s.table, c.session)), c.session, uid);
    case Saved(messages) => StatedPaired(s.table, c.session, messages, UserTurns(s.table, c.session));
    case _ =>
  }

  lemma CarriedStep(c: Context, s: State, e: Event)
    requires Allowed(c, s, e) && PairedState(s)
    ensures WellPaired(Carried(e))
  {
    hide PairedTable, ReplyFits;
    match e
    case Streamed(_, attempt, _, _) =>
      if attempt == 0 && !s.phase.Opening? {
        TurnKeepsPairing(s.history, AssistantEntry(s.reply, s.calls), s.answers);
      }
    case Saved(_) => EntryKeepsPairing(s.history, AssistantEntry(s.reply, []));
    case _ =>
  }

  lemma OpeningPaired(c: Context, s: State, e: Event)
    requires WellPaired(s.history) && HonestRoles(c.inputs)
    ensures WellPaired(s.history + OpeningEntry(c, s, e))
  {
    hide WellPaired;
    match e
    case Sent(System(prompt)) => EntryKeepsPairing(s.history, SystemEntry(prompt));
    case Hooked(UserPromptSubmit, _, _, reply) =>
      if s.inputs < |c.inputs| { EntryKeepsPairing(s.history, InputEntry(c.inputs[s.inputs])); }
      assert s.history + [] == s.history;
    case _ => assert s.history + [] == s.history;
  }

  lemma HistoryStep(c: Context, s: State, e: Event)
    requires Allowed(c, s, e) && PairedState(s) && WellPaired(Carried(e)) && HonestRoles(c.inputs)
    ensures WellPaired(Next(c, s, e).history)
  {
    hide Allowed, Next, WellPaired, OpeningEntry;
    HistoryMoves(c, s, e);
    OpeningPaired(c, s, e);
    NothingPaired();
    if e.Opened? {
      var t := S.Created(s.table, e.session);
      StatedPaired(s.table, e.session, s.history, 0);
      if e.session in t { assert PairedSession(t[e.session]); PairedMessages(t[e.session]); }
    }
  }

  lemma PairedMessages(s: S.Session<Entry>)
    requires PairedSession(s)
    ensures WellPaired(s.messages)
  {
  }

  lemma NothingPaired()
    ensures WellPaired([])
  {
  }

  lemma RepliesStep(c: Context, s: State, e: Event)
    requires Allowed(c, s, e) && Replies(s.answers, s.calls)
    ensures var t := Next(c, s, e); Replies(t.answers, t.calls)
  {
    hide Allowed, Next;
    Books(c, s, e);
    if e.Sent? && e.msg.ToolResult? { ToolLaws.ResultFrom(c, s, e); }
  }

  /** The answers of a turn are to its calls, one each and in order. */
  lemma {:induction false} RepliesHold(c: Context, log: seq<Event>)
    requires Lawful(c, log)
    ensures Replies(StateAt(c, log).answers, StateAt(c, log).calls)
  {
    hide Allowed, Next;
    if log == [] {
      StartIs(c);
    } else {
      RepliesHold(c, log[..|log| - 1]);
      RepliesStep(c, StateAt(c, log[..|log| - 1]), log[|log| - 1]);
    }
  }

  lemma {:induction false} PairingHolds(c: Context, log: seq<Event>)
    requires Lawful(c, log) && PairedTable(c.table) && HonestRoles(c.inputs)
    ensures PairedState(StateAt(c, log))
  {
    hide Allowed, Next, WellPaired, PairedTable;
    if log == [] {
      NothingPaired();
    } else {
      var front, last := log[..|log| - 1], log[|log| - 1];
      var s := StateAt(c, front);
      PairingHolds(c, front);
      CarriedStep(c, s, last);
      TableStep(c, s, last);
      HistoryStep(c, s, last);
      RepliesStep(c, s, last);
    }
  }

  /**
   * From a well-paired table, every history that a run sends, checkpoints or saves is well paired, and
   * so is the table it leaves.
   */
  lemma HistoriesArePaired(c: Context, log: seq<Event>, i: nat)
    requires Lawful(c, log) && PairedTable(c.table) && HonestRoles(c.inputs) && i < |log|
    ensures WellPaired(Carried(log[i])) && PairedTable(StateAt(c, log).table)
  {
    hide Allowed, Next, WellPaired, PairedTable;
    PairingHolds(c, log);
    EventAt(c, log, i);
    PairingHolds(c, log[..i]);
    CarriedStep(c, StateAt(c, log[..i]), log[i]);
  }

  /***** Requests only add *****/

  lemma RequestExtends(c: Context, s: State, e: Event)
    requires Allowed(c, s, e) && e.Streamed?
    ensures s.history <= e.history
  {
  }

  lemma GrowthStep(c: Context, s: State, e: Event)
    requires Allowed(c, s, e) && !s.phase.Fresh?
    ensures s.history <= Next(c, s, e).history && !Next(c, s, e).phase.Fresh?
    ensures e.Streamed? ==> s.history <= e.history
  {
    hide Allowed, Next, OpeningEntry;
    AllowedMoves(c, s, e);
    HistoryMoves(c, s, e);
    if e.Streamed? { RequestExtends(c, s, e); }
  }

  lemma AfterStreamed(c: Context, s: State, e: Event)
    requires Allowed(c, s, e) && e.Streamed?
    ensures Next(c, s, e).history == e.history && !Next(c, s, e).phase.Fresh?
  {
    hide Allowed, Next;
    AllowedMoves(c, s, e);
    HistoryMoves(c, s, e);
  }

  lemma {:induction false} HistoryGrows(c: Context, log: seq<Event>, i: nat, j: nat)
    requires Lawful(c, log) && i <= j <= |log| && !StateAt(c, log[..i]).phase.Fresh?
    ensures StateAt(c, log[..i]).history <= StateAt(c, log[..j]).history && !StateAt(c, log[..j]).phase.Fresh?
  {
    hide Allowed, Next;
    if i < j {
      HistoryGrows(c, log, i, j - 1);
      EventAt(c, log, j - 1);
      GrowthStep(c, StateAt(c, log[..j - 1]), log[j - 1]);
    }
  }

  /** A later request of a run repeats an earlier one and adds to it. */
  lemma RequestsGrow(c: Context, log: seq<Event>, i: nat, j: nat)
    requires Lawful(c, log) && i < j < |log| && log[i].Streamed? && log[j].Streamed?
    ensures log[i].history <= log[j].history
  {
    hide Allowed, Next;
    EventAt(c, log, i);
    AfterStreamed(c, StateAt(c, log[..i]), log[i]);
    HistoryGrows(c, log, i + 1, j);
    EventAt(c, log, j);
    GrowthStep(c, StateAt(c, log[..j]), log[j]);
  }

  /***** Requests repeat what the consumer was shown *****/

  function LastRequest(log: seq<Event>): seq<Entry> {
    if log == [] then []
    else if log[|log| - 1].Streamed? then log[|log| - 1].history
    else LastRequest(log[..|log| - 1])
  }

  /** A new turn began. */
  predicate NewTurn(e: Event) { e.Streamed? && e.attempt == 0 }

  /** The calls of the current turn. */
  function LastPlan(log: seq<Event>): seq<Call> {
    if log == [] then []
    else
      var e := log[|log| - 1];
      if e.Planned? then e.calls else if NewTurn(e) then [] else LastPlan(log[..|log| - 1])
  }

  /** The tool results sent in the current turn: the call answered, and the output. */
  function ShownResults(log: seq<Event>): seq<(string, string)> {
    if log == [] then []
    else
      var e := log[|log| - 1];
      if e.Planned? || NewTurn(e) then []
      else ShownResults(log[..|log| - 1]) + if e.Sent? && e.msg.ToolResult? then [(e.msg.callId, e.msg.output)] else []
  }

  /** The same as the protocol keeps them. */
  function ShownAnswers(log: seq<Event>): seq<Entry> {
    if log == [] then [] else AnswersBy(log[|log| - 1], ShownAnswers(log[..|log| - 1]))
  }

  /** A reply as a history entry. */
  predicate SaysReply(e: Entry, r: Reply, calls: seq<Call>) {
    && e.role == AssistantRole && e.content == r.text && e.reasoning == r.reasoning && e.images == r.images
    && e.calls == calls && e.answers == None
  }

  /** A tool result as a history entry. */
  predicate SaysResult(e: Entry, id: string, output: string) {
    && e.role == ToolRole && e.content == output && e.reasoning == "" && e.images == []
    && e.calls == [] && e.answers == Some(id)
  }

  /** The tool results, one entry each. */
  ghost predicate SaysResults(es: seq<Entry>, results: seq<(string, string)>) {
    |es| == |results| && forall k :: 0 <= k < |es| ==> SaysResult(es[k], results[k].0, results[k].1)
  }

  /** A history, then a reply, then tool results. */
  ghost predicate Repeats(h: seq<Entry>, before: seq<Entry>, r: Reply, calls: seq<Call>, results: seq<(string, string)>) {
    var n := |before|;
    |h| == n + 1 + |results| && before <= h && SaysReply(h[n], r, calls) && SaysResults(h[n + 1..], results)
  }

  lemma {:induction false} AnswersAreResults(log: seq<Event>)
    ensures SaysResults(ShownAnswers(log), ShownResults(log))
  {
    if log != [] { AnswersAreResults(log[..|log| - 1]); }
  }

  lemma RepeatsAll(before: seq<Entry>, r: Reply, calls: seq<Call>, answers: seq<Entry>, results: seq<(string, string)>)
    requires SaysResults(answers, results)
    ensures Repeats(before + ([AssistantEntry(r, calls)] + answers), before, r, calls, results)
  {
    var h := before + ([AssistantEntry(r, calls)] + answers);
    assert h[|before| + 1..] == answers;
  }

  predicate Early(p: Phase) { p.Fresh? || p.Opening? || p.Asking? || p.Submitted? || p.Checkpointing? }

  lemma {:induction false} WorkIsShown(c: Context, log: seq<Event>)
    ensures StateAt(c, log).calls == LastPlan(log) && StateAt(c, log).answers == ShownAnswers(log)
  {
    hide Next;
    if log != [] {
      WorkIsShown(c, log[..|log| - 1]);
      Books(c, StateAt(c, log[..|log| - 1]), log[|log| - 1]);
    }
  }

  lemma EarlyStep(c: Context, s: State, e: Event)
    requires Allowed(c, s, e)
    ensures Early(Next(c, s, e).phase) ==> Early(s.phase) && Next(c, s, e).turns == s.turns
    ensures Early(s.phase) && !Early(Next(c, s, e).phase) ==> e.Streamed? || Closed(Next(c, s, e).phase)
  {
    hide Allowed, Next;
    AllowedMoves(c, s, e);
    Books(c, s, e);
  }

  lemma RequestStep(c: Context, s: State, e: Event)
    requires Allowed(c, s, e) && !Early(Next(c, s, e).phase)
    ensures Closed(Next(c, s, e).phase) || Next(c, s, e).history == if e.Streamed? then e.history else s.history
  {
    hide Allowed, Next;
    AllowedMoves(c, s, e);
    HistoryMoves(c, s, e);
    assert s.history + [] == s.history;
  }

  /** Once a request went out, the history is that of the last request. */
  lemma {:induction false} HistoryIsLastRequest(c: Context, log: seq<Event>)
    requires Lawful(c, log)
    ensures Early(StateAt(c, log).phase) ==> StateAt(c, log).turns == 0
    ensures Early(StateAt(c, log).phase) || Closed(StateAt(c, log).phase) || StateAt(c, log).history == LastRequest(log)
  {
    hide Allowed, Next;
    if log == [] {
      StartIs(c);
    } else {
      var s, e := StateAt(c, log[..|log| - 1]), log[|log| - 1];
      HistoryIsLastRequest(c, log[..|log| - 1]);
      EarlyStep(c, s, e);
      if !Early(Next(c, s, e).phase) { RequestStep(c, s, e); }
      ClosingSteps(c, s, e);
    }
  }

  lemma ContinuedFrom(c: Context, s: State, e: Event)
    requires Allowed(c, s, e) && e.Streamed? && e.attempt == 0 && e.turn > 0 && (Early(s.phase) ==> s.turns == 0)
    ensures s.phase.Working? && e.history == Continued(s) && |s.answers| == |s.calls|
  {
  }

  /**
   * From the second turn on, a request is the one before, then the last reply with its calls, then
   * the tool results as they were sent to the consumer, one for each of the calls and in their order.
   */
  lemma RequestsRepeatTheRun(c: Context, log: seq<Event>, i: nat)
    requires Lawful(c, log) && i < |log| && log[i].Streamed? && log[i].attempt == 0 && log[i].turn > 0
    ensures var before := log[..i];
      && Repeats(log[i].history, LastRequest(before), LastReply(before), LastPlan(before), ShownResults(before))
      && |ShownResults(before)| == |LastPlan(before)|
      && forall k :: 0 <= k < |LastPlan(before)| ==> ShownResults(before)[k].0 == LastPlan(before)[k].id
  {
    hide Allowed, Next;
    var s := StateAt(c, log[..i]);
    EventAt(c, log, i);
    HistoryIsLastRequest(c, log[..i]);
    ContinuedFrom(c, s, log[i]);
    WorkIsShown(c, log[..i]);
    ReplyIsLast(c, log[..i]);
    AnswersAreResults(log[..i]);
    RepeatsAll(s.history, s.reply, s.calls, s.answers, ShownResults(log[..i]));
    RepliesHold(c, log[..i]);
    forall k | 0 <= k < |s.calls| ensures ShownResults(log[..i])[k].0 == s.calls[k].id {
      assert Answers(s.answers[k], s.calls[k]);
    }
  }

  lemma BackFromConcluded(c: Context, s: State, e: Event)
    requires Allowed(c, s, e) && Next(c, s, e).phase.Concluded? && !Control(e)
    ensures IsResult(e) && e.msg.kind.Success? && s.phase.Working?
    ensures Next(c, s, e).history == s.history && Next(c, s, e).reply == s.reply
  {
    hide Allowed, Next;
    AllowedMoves(c, s, e);
    Books(c, s, e);
    HistoryMoves(c, s, e);
    assert s.history + [] == s.history;
  }

  lemma SavedFrom(c: Context, s: State, e: Event)
    requires Allowed(c, s, e) && e.Saved?
    ensures s.phase.Concluded? && e.messages == s.history + [AssistantEntry(s.reply, [])]
  {
  }

  lemma {:induction false} NoRequestSince(log: seq<Event>, j: nat, i: nat)
    requires j < i <= |log| && !log[j].Streamed? && forall k :: j < k < i ==> Control(log[k])
    ensures LastRequest(log[..i]) == LastRequest(log[..j])
  {
    if i == j + 1 {
      assert log[..i][..j] == log[..j];
    } else {
      NoRequestSince(log, j, i - 1);
      assert log[..i][..i - 1] == log[..i - 1];
    }
  }

  /**
   * State is saved, control events aside, only right after a success result: the last request and the
   * last reply.
   */
  lemma SavedStateIsFinal(c: Context, log: seq<Event>, i: nat)
    requires Lawful(c, log) && i < |log| && log[i].Saved?
    ensures var j := Before(log, i); j >= 0 && IsResult(log[j]) && log[j].msg.kind.Success?
    ensures Repeats(log[i].messages, LastRequest(log[..i]), LastReply(log[..i]), [], [])
  {
    hide Allowed, Next, Start;
    StartIs(c);
    EventAt(c, log, i);
    SavedFrom(c, StateAt(c, log[..i]), log[i]);
    PriorEvent(c, log, i);
    var j := Before(log, i);
    BackFromConcluded(c, StateAt(c, log[..j]), log[j]);
    PrefixLawful(c, log, j);
    HistoryIsLastRequest(c, log[..j]);
    ReplyIsLast(c, log[..i]);
    NoRequestSince(log, j, i);
    RepeatsAll(LastRequest(log[..i]), LastReply(log[..i]), [], [], []);
    assert [AssistantEntry(LastReply(log[..i]), [])] + [] == [AssistantEntry(LastReply(log[..i]), [])];
  }
}
