/** What a lawful log does to its session: what it saves and what it checkpoints is there afterwards. */
module SessionLaws {
  import opened Common
  import opened Trace
  import opened Protocol
  import opened Moves
  import opened RunLaws
  import opened HistoryLaws
  import Identifiers
  import S = Sessions

  /***** Saved state *****/

  predicate Settled(p: Phase) { p.Stored? || p.Over? || p.Broken? }

  lemma SettledStep(c: Context, s: State, e: Event)
    requires Allowed(c, s, e)
    ensures Settled(s.phase) ==> Settled(Next(c, s, e).phase) && Next(c, s, e).table == s.table
    ensures e.Saved? ==> Next(c, s, e).phase.Stored?
  {
    hide Allowed, Next, S.Created, S.Stated, S.Snapshotted;
    AllowedMoves(c, s, e);
    TableMoves(c, s, e);
  }

  lemma {:induction false} SettledStays(c: Context, log: seq<Event>, i: nat)
    requires Lawful(c, log) && i <= |log| && Settled(StateAt(c, log[..i]).phase)
    ensures StateAt(c, log).table == StateAt(c, log[..i]).table && Settled(StateAt(c, log).phase)
    decreases |log|
  {
    hide Allowed, Next;
    if i == |log| {
      assert log[..i] == log;
    } else {
      var front := log[..|log| - 1];
      assert front[..i] == log[..i];
      SettledStays(c, front, i);
      SettledStep(c, StateAt(c, front), log[|log| - 1]);
    }
  }

  lemma SavedStep(c: Context, s: State, e: Event)
    requires Allowed(c, s, e) && e.Saved? && c.session != ""
    ensures var t := Next(c, s, e).table;
      && c.session in t && t[c.session].messages == e.messages
      && t[c.session].userTurns == UserTurns(s.table, c.session)
      && (c.session in s.table ==> t[c.session].checkpoints == s.table[c.session].checkpoints)
      && forall id :: id != c.session ==> (id in t <==> id in s.table) && (id in t ==> t[id] == s.table[id])
  {
    hide Allowed, Next;
    TableMoves(c, s, e);
  }

  /** What a run saves is what its session holds afterwards, and so what the next run starts from. */
  lemma SavedStateIsKept(c: Context, log: seq<Event>, i: nat)
    requires Lawful(c, log) && c.session != "" && i < |log| && log[i].Saved?
    ensures c.session in StateAt(c, log).table && StateAt(c, log).table[c.session].messages == log[i].messages
  {
    hide Allowed, Next;
    EventAt(c, log, i);
    SavedStep(c, StateAt(c, log[..i]), log[i]);
    SettledStep(c, StateAt(c, log[..i]), log[i]);
    SettledStays(c, log, i + 1);
  }

  lemma OtherStep(c: Context, s: State, e: Event, id: string)
    requires Allowed(c, s, e) && c.session != "" && id != c.session
    ensures (id in Next(c, s, e).table <==> id in s.table) && (id in s.table ==> Next(c, s, e).table[id] == s.table[id])
  {
    hide Allowed, Next;
    TableMoves(c, s, e);
    if e.Opened? { OpenedHere(c, s, e); }
  }

  lemma OpenedHere(c: Context, s: State, e: Event)
    requires Allowed(c, s, e) && e.Opened?
    ensures e.session == c.session
  {
  }

  /** A run touches no session but its own. */
  lemma {:induction false} OthersStay(c: Context, log: seq<Event>, id: string)
    requires Lawful(c, log) && c.session != "" && id != c.session
    ensures id in StateAt(c, log).table <==> id in c.table
    ensures id in c.table ==> StateAt(c, log).table[id] == c.table[id]
  {
    hide Allowed, Next;
    if log == [] {
      StartTable(c);
    } else {
      OthersStay(c, log[..|log| - 1], id);
      OtherStep(c, StateAt(c, log[..|log| - 1]), log[|log| - 1], id);
    }
  }

  lemma StartTable(c: Context)
    ensures StateAt(c, []).table == c.table
  {
  }

  /***** Checkpoints *****/

  /** The identifier in use. */
  function InUse(p: Phase): seq<string> {
    match p
    case Asking(uid) => [uid]
    case Submitted(uid) => [uid]
    case Checkpointing(uid) => [uid]
    case _ => []
  }

  /** The checkpoint is in the session, and its identifier will not come again. */
  ghost predicate Kept(c: Context, s: State, n: nat, messages: seq<Entry>) {
    var uid := Identifiers.UserId(c.session, n);
    && c.session in s.table && uid in s.table[c.session].checkpoints && s.table[c.session].checkpoints[uid] == messages
    && n <= s.table[c.session].userTurns && uid !in InUse(s.phase) && !s.phase.Fresh?
  }

  lemma IssuedLater(c: Context, s: State, e: Event, n: nat)
    requires Allowed(c, s, e) && e.Issued? && c.session in s.table && n <= s.table[c.session].userTurns
    ensures e.uid != Identifiers.UserId(c.session, n)
  {
    Identifiers.UserIdInjective(c.session, UserTurns(s.table, c.session) + 1, c.session, n);
  }

  lemma KeptStep(c: Context, s: State, e: Event, n: nat, messages: seq<Entry>)
    requires Allowed(c, s, e) && c.session != "" && Kept(c, s, n, messages)
    ensures Kept(c, Next(c, s, e), n, messages)
  {
    hide Allowed, Next, Identifiers.UserId;
    AllowedMoves(c, s, e);
    TableMoves(c, s, e);
    if e.Issued? { IssuedLater(c, s, e, n); }
  }

  lemma {:induction false} KeptStays(c: Context, log: seq<Event>, i: nat, n: nat, messages: seq<Entry>)
    requires Lawful(c, log) && i <= |log| && c.session != "" && Kept(c, StateAt(c, log[..i]), n, messages)
    ensures Kept(c, StateAt(c, log), n, messages)
    decreases |log|
  {
    hide Allowed, Next, Kept;
    if i == |log| {
      assert log[..i] == log;
    } else {
      var front := log[..|log| - 1];
      assert front[..i] == log[..i];
      KeptStays(c, front, i, n, messages);
      KeptStep(c, StateAt(c, front), log[|log| - 1], n, messages);
    }
  }

  /** The identifier in use is the one that the counter of the session stands at. */
  ghost predicate Numbered(c: Context, s: State) {
    InUse(s.phase) != [] ==>
      && c.session in s.table && s.table[c.session].userTurns > 0
      && InUse(s.phase) == [Identifiers.UserId(c.session, s.table[c.session].userTurns)]
  }

  lemma IssuedNext(c: Context, s: State, e: Event)
    requires Allowed(c, s, e) && e.Issued?
    ensures c.session in s.table && s.table[c.session].userTurns >= 0
    ensures e.uid == Identifiers.UserId(c.session, s.table[c.session].userTurns + 1)
  {
  }

  lemma NumberedStep(c: Context, s: State, e: Event)
    requires Allowed(c, s, e) && Numbered(c, s)
    ensures Numbered(c, Next(c, s, e))
  {
    hide Allowed, Next, Identifiers.UserId;
    AllowedMoves(c, s, e);
    TableMoves(c, s, e);
    if e.Issued? { IssuedNext(c, s, e); }
  }

  lemma {:induction false} NumbersHold(c: Context, log: seq<Event>)
    requires Lawful(c, log)
    ensures Numbered(c, StateAt(c, log))
  {
    hide Allowed, Next, Numbered;
    if log == [] {
      StartsNumbered(c);
    } else {
      NumbersHold(c, log[..|log| - 1]);
      NumberedStep(c, StateAt(c, log[..|log| - 1]), log[|log| - 1]);
    }
  }

  lemma StartsNumbered(c: Context)
    ensures Numbered(c, StateAt(c, []))
  {
  }

  lemma UserIdIsSome(id: string, n: nat)
    ensures Identifiers.UserId(id, n) != ""
  {
  }

  lemma CheckpointStep(c: Context, s: State, e: Event)
    requires Allowed(c, s, e) && e.Checkpointed? && c.session != "" && Numbered(c, s)
    ensures c.session in s.table && s.table[c.session].userTurns > 0
    ensures e.uid == Identifiers.UserId(c.session, s.table[c.session].userTurns)
    ensures Kept(c, Next(c, s, e), s.table[c.session].userTurns, e.messages)
  {
    hide Allowed, Next, Identifiers.UserId;
    AllowedMoves(c, s, e);
    TableMoves(c, s, e);
    UserIdIsSome(c.session, s.table[c.session].userTurns);
  }

  /** What a run checkpoints is what a rewind after it brings back. */
  lemma CheckpointsAreKept(c: Context, log: seq<Event>, i: nat)
    requires Lawful(c, log) && c.session != "" && i < |log| && log[i].Checkpointed?
    ensures S.CanRewind(StateAt(c, log).table, c.session, log[i].uid)
    ensures S.Rewound(StateAt(c, log).table, c.session, log[i].uid)[c.session].messages == log[i].messages
  {
    hide Allowed, Next, Identifiers.UserId;
    EventAt(c, log, i);
    var s := StateAt(c, log[..i]);
    NumbersHold(c, log[..i]);
    CheckpointStep(c, s, log[i]);
    KeptStays(c, log, i + 1, s.table[c.session].userTurns, log[i].messages);
  }
}
