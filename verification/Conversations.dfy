/** Several runs over the same sessions, with rewinds and forks in between. */
module Conversations {
  import opened Trace
  import opened Protocol
  import opened RunLaws
  import opened HistoryLaws
  import opened Moves
  import Identifiers
  import S = Sessions

  datatype Step = Ran(context: Context, log: seq<Event>) | Rewind(id: string, uid: string) | Fork(src: string, dst: string)

  function After(t: Table, step: Step): Table {
    match step
    case Ran(c, log) => StateAt(c, log).table
    case Rewind(id, uid) => S.Rewound(t, id, uid)
    case Fork(src, dst) => S.Cloned(t, src, dst)
  }

  function AfterAll(t: Table, steps: seq<Step>): Table {
    if steps == [] then t else After(AfterAll(t, steps[..|steps| - 1]), steps[|steps| - 1])
  }

  /** Runs start from the table they find, and are lawful. */
  ghost predicate Possible(t: Table, step: Step) {
    match step
    case Ran(c, log) => c.table == t && c.session != "" && Lawful(c, log)
    case Rewind(_, _) => true
    case Fork(_, _) => true
  }

  /** A fork that takes the name of a session does not set its counter back. */
  predicate Forward(t: Table, step: Step) {
    step.Fork? && S.CanClone(t, step.src, step.dst) && step.dst in t ==> t[step.src].userTurns >= t[step.dst].userTurns
  }

  ghost predicate AllForward(t: Table, steps: seq<Step>) {
    steps == [] || (AllForward(t, steps[..|steps| - 1]) && Forward(AfterAll(t, steps[..|steps| - 1]), steps[|steps| - 1]))
  }

  ghost predicate AllPossible(t: Table, steps: seq<Step>) {
    steps == [] ||
    (AllPossible(t, steps[..|steps| - 1]) && Possible(AfterAll(t, steps[..|steps| - 1]), steps[|steps| - 1]))
  }

  lemma NoSteps(t: Table)
    ensures AllPossible(t, []) && AfterAll(t, []) == t
  {
  }

  lemma StepsAppend(t: Table, steps: seq<Step>, step: Step)
    requires AllPossible(t, steps) && Possible(AfterAll(t, steps), step)
    ensures AllPossible(t, steps + [step]) && AfterAll(t, steps + [step]) == After(AfterAll(t, steps), step)
  {
    assert (steps + [step])[..|steps|] == steps;
  }

  /***** Identifiers of user messages *****/

  function IdsOf(log: seq<Event>): seq<string> {
    if log == [] then [] else IdsOf(log[..|log| - 1]) + if log[|log| - 1].Issued? then [log[|log| - 1].uid] else []
  }

  function AllIds(steps: seq<Step>): seq<string> {
    if steps == [] then []
    else AllIds(steps[..|steps| - 1]) + if steps[|steps| - 1].Ran? then IdsOf(steps[|steps| - 1].log) else []
  }

  /** The counter of some session has passed this identifier. */
  ghost predicate Below(t: Table, uid: string) {
    exists id, n: nat :: id in t && n <= t[id].userTurns && uid == Identifiers.UserId(id, n)
  }

  /** Distinct, and all passed by their counters. */
  ghost predicate UsedUp(t: Table, ids: seq<string>) {
    (forall i, j :: 0 <= i < j < |ids| ==> ids[i] != ids[j]) && forall i :: 0 <= i < |ids| ==> Below(t, ids[i])
  }

  ghost predicate TurnsGrow(t: Table, u: Table) {
    forall id :: id in t ==> id in u && t[id].userTurns <= u[id].userTurns
  }

  lemma BelowGrows(t: Table, u: Table, uid: string)
    requires TurnsGrow(t, u) && Below(t, uid)
    ensures Below(u, uid)
  {
    var id, n: nat :| id in t && n <= t[id].userTurns && uid == Identifiers.UserId(id, n);
    assert id in u && n <= u[id].userTurns;
  }

  lemma UsedUpGrows(t: Table, u: Table, ids: seq<string>)
    requires TurnsGrow(t, u) && UsedUp(t, ids)
    ensures UsedUp(u, ids)
  {
    hide Below;
    forall i | 0 <= i < |ids| ensures Below(u, ids[i]) { BelowGrows(t, u, ids[i]); }
  }

  /** The next identifier of a session was not passed before. */
  lemma NextIsNew(t: Table, id: string)
    requires id in t && t[id].userTurns >= 0
    ensures !Below(t, Identifiers.UserId(id, t[id].userTurns + 1))
  {
    var uid := Identifiers.UserId(id, t[id].userTurns + 1);
    forall other, n: nat | other in t && n <= t[other].userTurns ensures uid != Identifiers.UserId(other, n) {
      Identifiers.UserIdInjective(id, t[id].userTurns + 1, other, n);
    }
  }

  lemma GrowStep(c: Context, s: State, e: Event)
    requires c.session != ""
    ensures TurnsGrow(s.table, Next(c, s, e).table)
  {
    hide Next;
    TableMoves(c, s, e);
  }

  lemma IssuedFrom(c: Context, s: State, e: Event)
    requires Allowed(c, s, e) && e.Issued?
    ensures c.session in s.table && s.table[c.session].userTurns >= 0
    ensures e.uid == Identifiers.UserId(c.session, s.table[c.session].userTurns + 1)
    ensures Next(c, s, e).table == s.table[c.session := s.table[c.session].(userTurns := s.table[c.session].userTurns + 1)]
  {
  }

  lemma IssueOne(t: Table, u: Table, id: string, ids: seq<string>)
    requires UsedUp(t, ids) && id in t && t[id].userTurns >= 0
    requires u == t[id := t[id].(userTurns := t[id].userTurns + 1)]
    ensures UsedUp(u, ids + [Identifiers.UserId(id, t[id].userTurns + 1)])
  {
    var uid := Identifiers.UserId(id, t[id].userTurns + 1);
    NextIsNew(t, id);
    UsedUpGrows(t, u, ids);
    assert id in u && t[id].userTurns + 1 <= u[id].userTurns;
    assert Below(u, uid);
    forall i | 0 <= i < |ids| ensures ids[i] != uid { assert Below(t, ids[i]); }
  }

  lemma {:induction false} RunIssues(c: Context, log: seq<Event>, ids: seq<string>)
    requires c.session != "" && Lawful(c, log) && UsedUp(c.table, ids)
    ensures UsedUp(StateAt(c, log).table, ids + IdsOf(log))
  {
    hide Allowed, Next, UsedUp;
    if log == [] {
      assert ids + [] == ids;
    } else {
      var front, last := log[..|log| - 1], log[|log| - 1];
      var s := StateAt(c, front);
      RunIssues(c, front, ids);
      if last.Issued? {
        IssuedFrom(c, s, last);
        IssueOne(s.table, StateAt(c, log).table, c.session, ids + IdsOf(front));
        assert ids + IdsOf(log) == ids + IdsOf(front) + [last.uid];
      } else {
        GrowStep(c, s, last);
        assert IdsOf(log) == IdsOf(front);
        UsedUpGrows(s.table, StateAt(c, log).table, ids + IdsOf(front));
      }
    }
  }

  lemma OtherSteps(t: Table, step: Step)
    requires Forward(t, step) && !step.Ran?
    ensures TurnsGrow(t, After(t, step))
  {
  }

  /**
   * Over any sequence of runs, rewinds and forks that set no counter back, no user message identifier
   * is issued twice.
   */
  lemma {:induction false} NoIdentifierTwice(t: Table, steps: seq<Step>)
    requires AllPossible(t, steps) && AllForward(t, steps)
    ensures UsedUp(AfterAll(t, steps), AllIds(steps))
    ensures forall i, j :: 0 <= i < j < |AllIds(steps)| ==> AllIds(steps)[i] != AllIds(steps)[j]
  {
    hide Lawful, StateAt, Below;
    if steps != [] {
      var front, last := steps[..|steps| - 1], steps[|steps| - 1];
      NoIdentifierTwice(t, front);
      if last.Ran? {
        RunIssues(last.context, last.log, AllIds(front));
      } else {
        OtherSteps(AfterAll(t, front), last);
        UsedUpGrows(AfterAll(t, front), AfterAll(t, steps), AllIds(front));
        assert AllIds(steps) == AllIds(front);
      }
    }
  }

  /***** When a fork makes a run issue an identifier again *****/

  lemma TurnsStep(c: Context, s: State, e: Event, id: string)
    requires Allowed(c, s, e) && c.session != ""
    ensures UserTurns(Next(c, s, e).table, id) == UserTurns(s.table, id) + if e.Issued? && id == c.session then 1 else 0
  {
    hide Allowed, Next;
    TableMoves(c, s, e);
    if e.Issued? { IssuedFrom(c, s, e); }
    if e.Opened? { OpenedFrom(c, s, e); }
  }

  lemma OpenedFrom(c: Context, s: State, e: Event)
    requires Allowed(c, s, e) && e.Opened?
    ensures e.session == c.session
  {
  }

  /** The identifiers of a session that a run issued: those that its counter passed. */
  lemma {:induction false} RunIssuedExactly(c: Context, log: seq<Event>, id: string, n: nat)
    requires c.session != "" && Lawful(c, log)
    ensures Identifiers.UserId(id, n) in IdsOf(log) <==> UserTurns(c.table, id) < n <= UserTurns(StateAt(c, log).table, id)
    ensures UserTurns(c.table, id) <= UserTurns(StateAt(c, log).table, id)
  {
    hide Allowed, Next;
    if log != [] {
      var front, last := log[..|log| - 1], log[|log| - 1];
      var s := StateAt(c, front);
      RunIssuedExactly(c, front, id, n);
      TurnsStep(c, s, last, id);
      if last.Issued? {
        IssuedFrom(c, s, last);
        Identifiers.UserIdInjective(id, n, c.session, s.table[c.session].userTurns + 1);
      }
    }
  }

  /** No fork takes the name `id`. */
  predicate NeverForkedTo(steps: seq<Step>, id: string) {
    forall i :: 0 <= i < |steps| ==> !(steps[i].Fork? && steps[i].dst == id)
  }

  lemma {:induction false} IssuedExactly(t: Table, steps: seq<Step>, id: string, n: nat)
    requires AllPossible(t, steps) && NeverForkedTo(steps, id)
    ensures Identifiers.UserId(id, n) in AllIds(steps) <==> UserTurns(t, id) < n <= UserTurns(AfterAll(t, steps), id)
    ensures UserTurns(t, id) <= UserTurns(AfterAll(t, steps), id)
  {
    hide Lawful, StateAt;
    if steps != [] {
      var front, last := steps[..|steps| - 1], steps[|steps| - 1];
      IssuedExactly(t, front, id, n);
      if last.Ran? { RunIssuedExactly(last.context, last.log, id, n); }
    }
  }

  /**
   * After a fork over a session that was not forked to before, its next identifier is one that was
   * issued before if and only if the counter is set back into the range of what was issued.
   */
  lemma CloneOverReissues(t: Table, steps: seq<Step>, src: string, dst: string)
    requires AllPossible(t, steps) && NeverForkedTo(steps, dst)
    requires S.CanClone(AfterAll(t, steps), src, dst) && UserTurns(AfterAll(t, steps), src) >= 0
    ensures var now := AfterAll(t, steps);
      Identifiers.UserId(dst, UserTurns(S.Cloned(now, src, dst), dst) + 1) in AllIds(steps) <==>
      UserTurns(t, dst) <= UserTurns(now, src) < UserTurns(now, dst)
  {
    hide AllPossible, AfterAll, AllIds, Identifiers.UserId, NeverForkedTo;
    IssuedExactly(t, steps, dst, UserTurns(AfterAll(t, steps), src) + 1);
  }

  /** The beginning of a run: the session is found and its first identifier taken. */
  function FirstSteps(t: Table, id: string): seq<Event>
    requires UserTurns(t, id) >= 0
  {
    [Opened(id), Issued(Identifiers.UserId(id, UserTurns(t, id) + 1))]
  }

  lemma MayOpen(c: Context)
    requires c.session in c.table && c.session != ""
    ensures var t := Next(c, Start(c), Opened(c.session));
      && Allowed(c, Start(c), Opened(c.session))
      && t.phase.Opening? && t.table == c.table && t.turns == 0 && t.inputs == 0
  {
  }

  lemma MayIssue(c: Context, s: State)
    requires s.phase.Opening? && s.turns == 0 && s.inputs < |c.inputs| && c.options.systemPrompt == ""
    requires c.session in s.table && s.table[c.session].userTurns >= 0
    ensures Allowed(c, s, Issued(Identifiers.UserId(c.session, UserTurns(s.table, c.session) + 1)))
  {
  }

  lemma FirstIds(t: Table, id: string)
    requires UserTurns(t, id) >= 0
    ensures IdsOf(FirstSteps(t, id)) == [Identifiers.UserId(id, UserTurns(t, id) + 1)]
  {
    hide Identifiers.UserId;
    var log := FirstSteps(t, id);
    var first := [Opened(id)];
    assert first[..0] == [] && IdsOf(first) == [];
    assert log[..1] == first && log[1].Issued?;
  }

  lemma EmptyLog(c: Context)
    ensures Lawful(c, []) && StateAt(c, []) == Start(c)
  {
  }

  lemma RunsIssue(c: Context)
    requires c.session in c.table && c.table[c.session].userTurns >= 0 && c.session != ""
    requires c.inputs != [] && c.options.systemPrompt == ""
    ensures var log := FirstSteps(c.table, c.session);
      && Lawful(c, log)
      && StateAt(c, log).table == c.table[c.session := c.table[c.session].(userTurns := UserTurns(c.table, c.session) + 1)]
  {
    hide Allowed, Next, Start, Lawful, StateAt, Identifiers.UserId;
    var open, issue := Opened(c.session), Issued(Identifiers.UserId(c.session, UserTurns(c.table, c.session) + 1));
    EmptyLog(c);
    MayOpen(c);
    Protocol.Step(c, [], open);
    assert [] + [open] == [open];
    MayIssue(c, StateAt(c, [open]));
    IssuedFrom(c, StateAt(c, [open]), issue);
    Protocol.Step(c, [open], issue);
    assert FirstSteps(c.table, c.session) == [open] + [issue];
  }

  /** So identifiers do repeat: a run, a fork over its session from one as far as it was before, and a run. */
  lemma IdentifiersRepeat(c: Context, d: Context, src: string)
    requires c.session in c.table && c.table[c.session].userTurns >= 0 && c.session != "" && d.session == c.session
    requires c.inputs != [] && d.inputs != [] && c.options.systemPrompt == "" && d.options.systemPrompt == ""
    requires src in c.table && src != "" && src != c.session && c.table[src].userTurns == c.table[c.session].userTurns
    requires d.table == c.table[c.session := c.table[src]]
    ensures var log := FirstSteps(c.table, c.session);
      var steps := [Ran(c, log), Fork(src, c.session), Ran(d, log)];
      AllPossible(c.table, steps) && AllIds(steps) == IdsOf(log) + IdsOf(log) && |IdsOf(log)| == 1
  {
    hide Lawful, StateAt, IdsOf;
    var log := FirstSteps(c.table, c.session);
    RunsIssue(c);
    RunsIssue(d);
    FirstIds(c.table, c.session);
    var first := [Ran(c, log)];
    var second := first + [Fork(src, c.session)];
    NoSteps(c.table);
    StepsAppend(c.table, [], Ran(c, log));
    assert [] + first == first;
    StepsAppend(c.table, first, Fork(src, c.session));
    assert AfterAll(c.table, second) == d.table;
    StepsAppend(c.table, second, Ran(d, log));
    assert second + [Ran(d, log)] == [Ran(c, log), Fork(src, c.session), Ran(d, log)];
    IdsSnoc([], Ran(c, log));
    IdsSnoc(first, Fork(src, c.session));
    IdsSnoc(second, Ran(d, log));
  }

  lemma IdsSnoc(steps: seq<Step>, step: Step)
    ensures AllIds(steps + [step]) == AllIds(steps) + if step.Ran? then IdsOf(step.log) else []
  {
    assert (steps + [step])[..|steps|] == steps;
  }

  /***** Pairing *****/

  ghost predicate AllHonest(steps: seq<Step>) {
    forall i :: 0 <= i < |steps| && steps[i].Ran? ==> HonestRoles(steps[i].context.inputs)
  }

  lemma {:induction false} RunPairs(c: Context, log: seq<Event>)
    requires Lawful(c, log) && PairedTable(c.table) && HonestRoles(c.inputs)
    ensures PairedTable(StateAt(c, log).table)
    ensures forall i :: 0 <= i < |log| ==> WellPaired(Carried(log[i]))
  {
    hide Lawful, StateAt, WellPaired, PairedTable, PairedState;
    PairingHolds(c, log);
    PairedStateTable(StateAt(c, log));
    forall i | 0 <= i < |log| ensures WellPaired(Carried(log[i])) { HistoriesArePaired(c, log, i); }
  }

  lemma PairedStateTable(s: State)
    requires PairedState(s)
    ensures PairedTable(s.table)
  {
  }

  /**
   * From well-paired sessions, across any sequence of runs, finished or broken off, rewinds and forks,
   * every history sent, checkpointed or saved pairs each call with its answer, and the sessions do.
   */
  lemma {:induction false} ConversationsStayPaired(t: Table, steps: seq<Step>)
    requires AllPossible(t, steps) && AllHonest(steps) && PairedTable(t)
    ensures PairedTable(AfterAll(t, steps))
    ensures forall i, k :: 0 <= i < |steps| && steps[i].Ran? && 0 <= k < |steps[i].log| ==> WellPaired(Carried(steps[i].log[k]))
  {
    hide Lawful, StateAt, WellPaired, PairedSession;
    if steps != [] {
      var front, last := steps[..|steps| - 1], steps[|steps| - 1];
      ConversationsStayPaired(t, front);
      if last.Ran? {
        RunPairs(last.context, last.log);
      } else {
        OthersPair(AfterAll(t, front), last);
      }
    }
  }

  lemma OthersPair(t: Table, step: Step)
    requires PairedTable(t) && !step.Ran?
    ensures PairedTable(After(t, step))
  {
    hide WellPaired;
    if step.Rewind? && S.CanRewind(t, step.id, step.uid) { assert PairedSession(t[step.id]); }
    if step.Fork? && S.CanClone(t, step.src, step.dst) { assert PairedSession(t[step.src]); }
  }
}
