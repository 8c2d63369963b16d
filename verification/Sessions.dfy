/** What a session table means: messages, user turns and checkpoints, all held by value. */
module Sessions {
  import opened Common

  datatype Session<M> = Session(messages: seq<M>, userTurns: int, checkpoints: map<string, seq<M>>)

  type Table<M> = map<string, Session<M>>

  function Name(id: string): string { if id == "" then "default" else id }

  function NewSession<M>(): Session<M> { Session([], 0, map[]) }

  function Created<M>(t: Table<M>, id: string): Table<M> {
    if Name(id) in t then t else t[Name(id) := NewSession()]
  }

  function Stated<M>(t: Table<M>, id: string, messages: seq<M>, userTurns: int): Table<M> {
    var t' := Created(t, id);
    t'[Name(id) := t'[Name(id)].(messages := messages, userTurns := userTurns)]
  }

  /** `Snapshot` does not rename the empty id, and ignores unknown sessions. */
  function Snapshotted<M>(t: Table<M>, id: string, uid: string): Table<M> {
    if id !in t || uid == "" then t
    else t[id := t[id].(checkpoints := t[id].checkpoints[uid := t[id].messages])]
  }

  predicate CanRewind<M>(t: Table<M>, id: string, uid: string) { id in t && uid in t[id].checkpoints }

  /** The user-turn counter is not rewound. */
  function Rewound<M>(t: Table<M>, id: string, uid: string): Table<M> {
    if CanRewind(t, id, uid) then t[id := t[id].(messages := t[id].checkpoints[uid])] else t
  }

  predicate CanClone<M>(t: Table<M>, src: string, dst: string) { src != "" && dst != "" && src in t }

  /** A clone replaces whatever session has its name. */
  function Cloned<M>(t: Table<M>, src: string, dst: string): Table<M> {
    if CanClone(t, src, dst) then t[dst := t[src]] else t
  }

  /** An outside edit of one message of the live list, or of the list at that place. */
  function Edited<M>(t: Table<M>, id: string, i: nat, m: M): Table<M> {
    if id in t && i < |t[id].messages| then t[id := t[id].(messages := t[id].messages[i := m])] else t
  }

  /***** What the operations mean, field by field *****/

  /** Nothing but the session `id` differs. */
  ghost predicate OnlyAt<M(!new)>(t: Table<M>, u: Table<M>, id: string) {
    forall x :: x != id ==> (x in u <==> x in t) && (x in t ==> u[x] == t[x])
  }

  /**
   * A session that is created is empty, and one that exists stays as it is. The empty identifier means
   * the session "default".
   */
  lemma CreateMeans<M(!new)>(t: Table<M>, id: string)
    ensures var u, name := Created(t, id), if id == "" then "default" else id;
      && name in u && OnlyAt(t, u, name)
      && (if name in t then u[name] == t[name]
          else u[name].messages == [] && u[name].userTurns == 0 && u[name].checkpoints == map[])
  {
  }

  /** `SetState` puts in the messages and the counter and keeps the checkpoints. */
  lemma SetStateMeans<M(!new)>(t: Table<M>, id: string, messages: seq<M>, userTurns: int)
    ensures var u, name := Stated(t, id, messages, userTurns), if id == "" then "default" else id;
      && name in u && OnlyAt(t, u, name)
      && u[name].messages == messages && u[name].userTurns == userTurns
      && u[name].checkpoints == if name in t then t[name].checkpoints else map[]
  {
  }

  /** `Snapshot` keeps the messages of the moment under the identifier, and nothing else changes. */
  lemma SnapshotMeans<M(!new)>(t: Table<M>, id: string, uid: string)
    ensures var u := Snapshotted(t, id, uid);
      && OnlyAt(t, u, id) && (id in u <==> id in t)
      && (id in t ==> u[id].messages == t[id].messages && u[id].userTurns == t[id].userTurns)
      && (id in t && uid != "" ==> uid in u[id].checkpoints && u[id].checkpoints[uid] == t[id].messages)
      && (id in t ==> forall x :: x != uid || uid == "" ==>
            (x in u[id].checkpoints <==> x in t[id].checkpoints) &&
            (x in t[id].checkpoints ==> u[id].checkpoints[x] == t[id].checkpoints[x]))
  {
  }

  /** `Rewind` brings back the messages kept under the identifier, if there are any, and nothing else changes. */
  lemma RewindMeans<M(!new)>(t: Table<M>, id: string, uid: string)
    ensures var u := Rewound(t, id, uid);
      && OnlyAt(t, u, id) && (id in u <==> id in t)
      && (id in t ==> u[id].userTurns == t[id].userTurns && u[id].checkpoints == t[id].checkpoints)
      && (id in t ==> u[id].messages == if uid in t[id].checkpoints then t[id].checkpoints[uid] else t[id].messages)
  {
  }

  /** A clone has everything that its source has, under a name of its own; nothing else changes. */
  lemma CloneMeans<M(!new)>(t: Table<M>, src: string, dst: string)
    ensures var u := Cloned(t, src, dst);
      && OnlyAt(t, u, dst)
      && (src != "" && dst != "" && src in t ==>
            dst in u && u[dst].messages == t[src].messages && u[dst].userTurns == t[src].userTurns &&
            u[dst].checkpoints == t[src].checkpoints)
      && (src == "" || dst == "" || src !in t ==> u == t)
  {
  }

  /** An outside edit changes one message of one live list. */
  lemma EditMeans<M(!new)>(t: Table<M>, id: string, i: nat, m: M)
    ensures var u := Edited(t, id, i, m);
      && OnlyAt(t, u, id) && (id in u <==> id in t)
      && (id in t ==> u[id].userTurns == t[id].userTurns && u[id].checkpoints == t[id].checkpoints)
      && (id in t ==> |u[id].messages| == |t[id].messages|)
      && (id in t ==> forall k :: 0 <= k < |t[id].messages| ==> u[id].messages[k] == if k == i then m else t[id].messages[k])
  {
  }

  /***** Operations *****/

  datatype Op<M> =
    | Create(id: string)
    | SetState(id: string, messages: seq<M>, userTurns: int)
    | Snapshot(id: string, uid: string)
    | Rewind(id: string, uid: string)
    | Clone(src: string, dst: string)
    | List
    | EditLive(id: string, index: nat, message: M)
    | ReplaceLive(id: string, index: nat, message: M)
    | EditOutside(message: M)

  function After<M>(t: Table<M>, op: Op<M>): Table<M> {
    match op
    case Create(id) => Created(t, id)
    case SetState(id, messages, turns) => Stated(t, id, messages, turns)
    case Snapshot(id, uid) => Snapshotted(t, id, uid)
    case Rewind(id, uid) => Rewound(t, id, uid)
    case Clone(src, dst) => Cloned(t, src, dst)
    case List => t
    case EditLive(id, i, m) => Edited(t, id, i, m)
    case ReplaceLive(id, i, m) => Edited(t, id, i, m)
    case EditOutside(_) => t
  }

  function AfterAll<M>(t: Table<M>, ops: seq<Op<M>>): Table<M> {
    if ops == [] then t else After(AfterAll(t, ops[..|ops| - 1]), ops[|ops| - 1])
  }

  /** Only taking the same checkpoint again, or cloning over the session, replaces a checkpoint. */
  predicate Replaces<M>(op: Op<M>, id: string, uid: string) {
    (op.Snapshot? && op.id == id && op.uid == uid) || (op.Clone? && op.dst == id)
  }

  lemma {:induction false} CheckpointSurvives<M>(t: Table<M>, ops: seq<Op<M>>, id: string, uid: string)
    requires CanRewind(t, id, uid)
    requires forall i :: 0 <= i < |ops| ==> !Replaces(ops[i], id, uid)
    ensures CanRewind(AfterAll(t, ops), id, uid)
    ensures AfterAll(t, ops)[id].checkpoints[uid] == t[id].checkpoints[uid]
  {
    if ops != [] { CheckpointSurvives(t, ops[..|ops| - 1], id, uid); }
  }

  /**
   * Whatever happens in between, a rewind brings back the messages of the snapshot, and leaves the
   * user-turn counter where it is by then.
   */
  lemma SnapshotThenRewind<M>(t: Table<M>, ops: seq<Op<M>>, id: string, uid: string)
    requires id in t && uid != ""
    requires forall i :: 0 <= i < |ops| ==> !Replaces(ops[i], id, uid)
    ensures var later := AfterAll(Snapshotted(t, id, uid), ops);
      && CanRewind(later, id, uid) && Rewound(later, id, uid)[id].messages == t[id].messages
      && Rewound(later, id, uid)[id].userTurns == later[id].userTurns
  {
    CheckpointSurvives(Snapshotted(t, id, uid), ops, id, uid);
  }

  /** Operations that may touch the session `id`. */
  predicate Touches<M>(op: Op<M>, id: string) {
    match op
    case Create(x) => Name(x) == id
    case SetState(x, _, _) => Name(x) == id
    case Snapshot(x, _) => x == id
    case Rewind(x, _) => x == id
    case Clone(_, dst) => dst == id
    case EditLive(x, _, _) => x == id
    case ReplaceLive(x, _, _) => x == id
    case _ => false
  }

  lemma UntouchedStays<M>(t: Table<M>, op: Op<M>, id: string)
    requires id in t && !Touches(op, id)
    ensures id in After(t, op) && After(t, op)[id] == t[id]
  {
  }

  /** Operations on other sessions leave a session alone. */
  lemma {:induction false} UntouchedThroughout<M>(t: Table<M>, ops: seq<Op<M>>, id: string)
    requires id in t && forall i :: 0 <= i < |ops| ==> !Touches(ops[i], id)
    ensures id in AfterAll(t, ops) && AfterAll(t, ops)[id] == t[id]
  {
    hide After, Touches;
    if ops != [] {
      UntouchedThroughout(t, ops[..|ops| - 1], id);
      UntouchedStays(AfterAll(t, ops[..|ops| - 1]), ops[|ops| - 1], id);
    }
  }

  /** State that was set stays, whatever is done to other sessions. */
  lemma SetStateLasts<M(!new)>(t: Table<M>, id: string, messages: seq<M>, userTurns: int, ops: seq<Op<M>>)
    requires forall i :: 0 <= i < |ops| ==> !Touches(ops[i], if id == "" then "default" else id)
    ensures var u, name := AfterAll(After(t, SetState(id, messages, userTurns)), ops), if id == "" then "default" else id;
      && name in u && u[name].messages == messages && u[name].userTurns == userTurns
      && u[name].checkpoints == if name in t then t[name].checkpoints else map[]
  {
    SetStateMeans(t, id, messages, userTurns);
    UntouchedThroughout(Stated(t, id, messages, userTurns), ops, if id == "" then "default" else id);
  }

  /** A clone and its source go separate ways. */
  lemma CloneIsIndependent<M>(t: Table<M>, ops: seq<Op<M>>, src: string, dst: string)
    requires CanClone(t, src, dst)
    ensures (forall i :: 0 <= i < |ops| ==> !Touches(ops[i], src)) && src != dst ==>
              src in AfterAll(Cloned(t, src, dst), ops) && AfterAll(Cloned(t, src, dst), ops)[src] == t[src]
    ensures (forall i :: 0 <= i < |ops| ==> !Touches(ops[i], dst)) ==>
              dst in AfterAll(Cloned(t, src, dst), ops) && AfterAll(Cloned(t, src, dst), ops)[dst] == t[src]
  {
    if forall i :: 0 <= i < |ops| ==> !Touches(ops[i], src) { UntouchedThroughout(Cloned(t, src, dst), ops, src); }
    if forall i :: 0 <= i < |ops| ==> !Touches(ops[i], dst) { UntouchedThroughout(Cloned(t, src, dst), ops, dst); }
  }

  /***** Nested values *****/

  /** A message field: a text, or the address of a nested value. Cloning a message copies the address. */
  datatype Field = Plain(text: string) | Nested(address: nat)

  type Fields = map<string, Field>

  /** The nested values by address; anybody who holds one may write it. */
  type Cells = map<nat, string>

  function Content(cells: Cells, a: nat): string { if a in cells then cells[a] else "" }

  function Read(f: Field, cells: Cells): string { if f.Plain? then f.text else Content(cells, f.address) }

  function ReadMessage(m: Fields, cells: Cells): map<string, string> { map k | k in m :: Read(m[k], cells) }

  function ReadAll(ms: seq<Fields>, cells: Cells): seq<map<string, string>> {
    seq(|ms|, i requires 0 <= i < |ms| => ReadMessage(ms[i], cells))
  }

  /** Some message holds this address. */
  ghost predicate Holds(ms: seq<Fields>, a: nat) {
    exists i, k :: 0 <= i < |ms| && k in ms[i] && ms[i][k] == Nested(a)
  }

  lemma ReadsTheSame(ms: seq<Fields>, before: Cells, after: Cells)
    ensures ReadAll(ms, after) == ReadAll(ms, before) <==> forall a :: Holds(ms, a) ==> Content(after, a) == Content(before, a)
  {
    if forall a :: Holds(ms, a) ==> Content(after, a) == Content(before, a) {
      forall i | 0 <= i < |ms| ensures ReadMessage(ms[i], after) == ReadMessage(ms[i], before) {
        forall k | k in ms[i] ensures Read(ms[i][k], after) == Read(ms[i][k], before) {
          if ms[i][k].Nested? { assert Holds(ms, ms[i][k].address); }
        }
      }
    }
    if ReadAll(ms, after) == ReadAll(ms, before) {
      forall a | Holds(ms, a) ensures Content(after, a) == Content(before, a) {
        var i, k :| 0 <= i < |ms| && k in ms[i] && ms[i][k] == Nested(a);
        assert ReadAll(ms, after)[i] == ReadAll(ms, before)[i];
        assert ReadMessage(ms[i], after)[k] == ReadMessage(ms[i], before)[k];
      }
    }
  }

  /**
   * The isolation of checkpoints is shallow. After a rewind, messages read as they did at the snapshot
   * if and only if no nested value that they hold was written in between, by whoever.
   */
  lemma NestedEditsShowThrough(t: Table<Fields>, ops: seq<Op<Fields>>, id: string, uid: string, before: Cells, after: Cells)
    requires id in t && uid != ""
    requires forall i :: 0 <= i < |ops| ==> !Replaces(ops[i], id, uid)
    ensures var later := AfterAll(Snapshotted(t, id, uid), ops);
      CanRewind(later, id, uid) &&
      (ReadAll(Rewound(later, id, uid)[id].messages, after) == ReadAll(t[id].messages, before) <==>
       forall a :: Holds(t[id].messages, a) ==> Content(after, a) == Content(before, a))
  {
    SnapshotThenRewind(t, ops, id, uid);
    ReadsTheSame(t[id].messages, before, after);
  }
}
