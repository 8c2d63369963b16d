/** The session manager on the heap: lists and maps are shared by reference, so cloning matters. */
module SessionStore {
  import opened Common
  import S = Sessions

  /** A message's fields. Cloning copies the map; nested values stay where they are, see `Sessions.Field`. */
  type Fields = S.Fields

  class Message {
    var fields: Fields

    constructor (fields: Fields)
      ensures this.fields == fields
    {
      this.fields := fields;
    }
  }

  /** A list of messages and what they say. */
  ghost predicate Says(list: array<Message>, texts: seq<Fields>)
    reads list, list[..]
  {
    list.Length == |texts| && forall i :: 0 <= i < list.Length ==> list[i].fields == texts[i]
  }

  ghost predicate Distinct(list: array<Message>)
    reads list
  {
    forall i, j :: 0 <= i < j < list.Length ==> list[i] != list[j]
  }

  /** `cloneMessages`: a new list of new messages. */
  method CloneMessages(list: array<Message>, ghost texts: seq<Fields>) returns (out: array<Message>)
    requires Says(list, texts)
    ensures fresh(out) && (forall i :: 0 <= i < out.Length ==> fresh(out[i]))
    ensures Says(out, texts) && Distinct(out)
    ensures out.Length == list.Length && forall i :: 0 <= i < list.Length ==> out[i].fields == list[i].fields
  {
    var copies: seq<Message> := [];
    for i := 0 to list.Length
      invariant |copies| == i
      invariant forall k :: 0 <= k < i ==> fresh(copies[k]) && copies[k].fields == texts[k]
      invariant forall j, k :: 0 <= j < k < i ==> copies[j] != copies[k]
    {
      var m := new Message(list[i].fields);
      copies := copies + [m];
    }
    out := new Message[|copies|](i requires 0 <= i < |copies| => copies[i]);
  }

  class Session {
    var messages: array<Message>
    var userTurns: int
    var checkpoints: map<string, array<Message>>

    constructor (messages: array<Message>, userTurns: int, checkpoints: map<string, array<Message>>)
      ensures this.messages == messages && this.userTurns == userTurns && this.checkpoints == checkpoints
    {
      this.messages, this.userTurns, this.checkpoints := messages, userTurns, checkpoints;
    }
  }

  /** Who owns an object: a session itself, its live list, or one of its checkpoints. */
  datatype Slot = Record(id: string) | Live(id: string) | Checkpoint(id: string, uid: string)

  type Owners = map<object, Slot>

  ghost predicate Extends(own: Owners, more: Owners) {
    forall o :: o in own ==> o in more && more[o] == own[o]
  }

  /** A list, all its messages in one slot, and what it says. */
  ghost predicate Owned(own: Owners, list: array<Message>, slot: Slot, texts: seq<Fields>)
    reads list, own.Keys
  {
    && list in own && own[list] == slot
    && list.Length == |texts| && Distinct(list)
    && forall i :: 0 <= i < list.Length ==> list[i] in own && own[list[i]] == slot && list[i].fields == texts[i]
  }

  ghost predicate OwnsAll(own: Owners, id: string, cps: map<string, array<Message>>, texts: map<string, seq<Fields>>)
    reads own.Keys
  {
    && cps.Keys == texts.Keys
    && forall u :: u in cps ==> cps[u] in own && Owned(own, cps[u], Checkpoint(id, u), texts[u])
  }

  lemma OwnedExtends(own: Owners, more: Owners, list: array<Message>, slot: Slot, texts: seq<Fields>)
    requires Extends(own, more) && Owned(own, list, slot, texts)
    ensures Owned(more, list, slot, texts)
  {
  }

  lemma OwnsAllExtends(own: Owners, more: Owners, id: string, cps: map<string, array<Message>>, texts: map<string, seq<Fields>>)
    requires Extends(own, more) && OwnsAll(own, id, cps, texts)
    ensures OwnsAll(more, id, cps, texts)
  {
    forall u | u in cps ensures cps[u] in more && Owned(more, cps[u], Checkpoint(id, u), texts[u]) {
      OwnedExtends(own, more, cps[u], Checkpoint(id, u), texts[u]);
    }
  }

  ghost function Footprint(list: array<Message>): set<object>
    reads list
  {
    {list} + set i | 0 <= i < list.Length :: list[i]
  }

  /** A clone with an owner of its own. */
  method OwnedCopy(list: array<Message>, ghost slot: Slot, ghost texts: seq<Fields>, ghost own: Owners)
    returns (copy: array<Message>, ghost more: Owners)
    requires Says(list, texts)
    ensures Extends(own, more) && Owned(more, copy, slot, texts)
    ensures fresh(copy) && (forall i :: 0 <= i < copy.Length ==> fresh(copy[i])) && forall o :: o in more && o !in own ==> fresh(o)
  {
    copy := CloneMessages(list, texts);
    more := own + map o | o in Footprint(copy) :: slot;
    assert forall o :: o in Footprint(copy) ==> fresh(o);
  }

  method AddCopy(list: array<Message>, u: string, dst: string, cps: map<string, array<Message>>,
                 ghost text: seq<Fields>, ghost texts: map<string, seq<Fields>>, ghost own: Owners)
    returns (out: map<string, array<Message>>, ghost more: Owners)
    requires Says(list, text) && OwnsAll(own, dst, cps, texts)
    ensures Extends(own, more) && OwnsAll(more, dst, out, texts[u := text])
    ensures forall o :: o in more && o !in own ==> fresh(o)
  {
    var cp;
    cp, more := OwnedCopy(list, Checkpoint(dst, u), text, own);
    OwnsAllExtends(own, more, dst, cps, texts);
    out := cps[u := cp];
  }

  lemma RestrictStep<V>(m: map<string, V>, left: set<string>, u: string)
    requires u in left && left <= m.Keys
    ensures (m - left)[u := m[u]] == m - (left - {u})
  {
  }

  /** The loop of `Clone` over the checkpoints of its source. */
  method CopyCheckpoints(cps: map<string, array<Message>>, dst: string, ghost texts: map<string, seq<Fields>>, ghost own: Owners)
    returns (out: map<string, array<Message>>, ghost more: Owners)
    requires cps.Keys == texts.Keys && forall u :: u in cps ==> Says(cps[u], texts[u])
    ensures Extends(own, more) && OwnsAll(more, dst, out, texts)
    ensures forall o :: o in more && o !in own ==> fresh(o)
  {
    out, more := map[], own;
    var left := cps.Keys;
    while left != {}
      invariant left <= cps.Keys
      invariant Extends(own, more) && OwnsAll(more, dst, out, texts - left)
      invariant forall o :: o in more && o !in own ==> fresh(o)
      decreases |left|
    {
      var u := Pick(left);
      out, more := AddCopy(cps[u], u, dst, out, texts[u], texts - left, more);
      RestrictStep(texts, left, u);
      left := left - {u};
    }
    assert texts - {} == texts;
  }

  /** A record and its lists, all owned by session `id`. */
  ghost predicate OwnedSession(own: Owners, s: Session, id: string, v: S.Session<Fields>)
    reads s, own.Keys
  {
    && s in own && own[s] == Record(id)
    && s.messages in own && Owned(own, s.messages, Live(id), v.messages)
    && s.userTurns == v.userTurns
    && OwnsAll(own, id, s.checkpoints, v.checkpoints)
  }

  /** `cloneSession`, and the copying part of `Clone`. */
  method CopySession(s: Session, ghost src: string, dst: string, ghost v: S.Session<Fields>, ghost from: Owners, ghost own: Owners)
    returns (c: Session, ghost more: Owners)
    requires s in from && OwnedSession(from, s, src, v)
    ensures Extends(own, more) && OwnedSession(more, c, dst, v)
    ensures fresh(c) && forall o :: o in more && o !in own ==> fresh(o)
  {
    var live, withLive := OwnedCopy(s.messages, Live(dst), v.messages, own);
    var cps, withAll := CopyCheckpoints(s.checkpoints, dst, v.checkpoints, withLive);
    OwnedExtends(withLive, withAll, live, Live(dst), v.messages);
    c := new Session(live, s.userTurns, cps);
    more := withAll[c := Record(dst)];
    OwnedExtends(withAll, more, live, Live(dst), v.messages);
    OwnsAllExtends(withAll, more, dst, cps, v.checkpoints);
  }

  class Manager {
    var sessions: map<string, Session>

    /** What the heap stands for: the same table by value. */
    ghost var table: S.Table<Fields>

    ghost var owner: Owners

    ghost predicate ValidSession(id: string)
      requires id in sessions && id in table && sessions[id] in owner
      reads this, owner.Keys
    {
      OwnedSession(owner, sessions[id], id, table[id])
    }

    /** Every session says what the table says, and no object has two owners. */
    ghost predicate Valid()
      reads this, owner.Keys
    {
      && this !in owner
      && sessions.Keys == table.Keys
      && forall id :: id in sessions ==> sessions[id] in owner && ValidSession(id)
    }

    constructor ()
      ensures Valid() && table == map[]
    {
      sessions, table, owner := map[], map[], map[];
    }

    /***** Framing *****/

    /** Owners are kept, and given to new objects only. */
    twostate predicate Progress()
      reads this
    {
      Extends(old(owner), owner) && forall o :: o in owner && o !in old(owner) ==> fresh(o)
    }

    /** Nothing of a session changed. */
    twostate predicate SessionIntact(id: string)
      reads *
    {
      && id in old(sessions) && id in sessions && sessions[id] == old(sessions[id])
      && id in old(table) && id in table && table[id] == old(table[id])
      && Extends(old(owner), owner)
      && forall o :: o in old(owner) && old(owner[o]).id == id ==> unchanged(o)
    }

    twostate lemma SessionKept(id: string)
      requires old(Valid()) && SessionIntact(id)
      ensures sessions[id] in owner && ValidSession(id)
    {
      assert old(ValidSession(id));
      assert unchanged(sessions[id]);
      LiveKept(id);
      CheckpointsKept(id);
    }

    twostate lemma CheckpointsKept(id: string)
      requires old(Valid()) && Extends(old(owner), owner) && id in old(sessions)
      requires forall o :: o in old(owner) && old(owner[o]).id == id && old(owner[o]).Checkpoint? ==> unchanged(o)
      ensures OwnsAll(owner, id, old(sessions[id].checkpoints), old(table[id].checkpoints))
    {
      var cps, texts := old(sessions[id].checkpoints), old(table[id].checkpoints);
      assert old(ValidSession(id));
      forall u | u in cps ensures cps[u] in owner && Owned(owner, cps[u], Checkpoint(id, u), texts[u]) {
        assert old(Owned(owner, cps[u], Checkpoint(id, u), texts[u]));
        assert unchanged(cps[u]);
        assert forall i :: 0 <= i < cps[u].Length ==> unchanged(cps[u][i]);
      }
    }

    twostate lemma LiveKept(id: string)
      requires old(Valid()) && Extends(old(owner), owner) && id in old(sessions)
      requires forall o :: o in old(owner) && old(owner[o]).id == id && old(owner[o]).Live? ==> unchanged(o)
      ensures old(sessions[id].messages) in owner
      ensures Owned(owner, old(sessions[id].messages), Live(id), old(table[id].messages))
    {
      var list := old(sessions[id].messages);
      assert old(ValidSession(id));
      assert unchanged(list);
      assert forall i :: 0 <= i < list.Length ==> unchanged(list[i]);
    }

    /** Only the session `name` and its objects changed. */
    twostate predicate OnlyTouched(name: string)
      reads *
    {
      && this !in owner && sessions.Keys == table.Keys && name in sessions
      && forall id :: id in sessions && id != name ==> SessionIntact(id)
    }

    twostate lemma ValidAgain(name: string)
      requires old(Valid()) && OnlyTouched(name) && sessions[name] in owner && ValidSession(name)
      ensures Valid()
    {
      forall id | id in sessions && id != name ensures sessions[id] in owner && ValidSession(id) { SessionKept(id); }
    }

    /** Of the objects known before, only the record of session `id` may differ. */
    twostate predicate OnlyRecord(id: string)
      reads *
    {
      && Extends(old(owner), owner) && this !in owner
      && sessions == old(sessions) && id in sessions && table.Keys == sessions.Keys
      && (forall x :: x in table && x != id ==> x in old(table) && table[x] == old(table[x]))
      && forall o :: o in old(owner) && o != sessions[id] ==> unchanged(o)
    }

    twostate lemma RecordTouched(id: string)
      requires old(Valid()) && OnlyRecord(id)
      ensures OnlyTouched(id) && sessions[id] in owner && owner[sessions[id]] == Record(id)
    {
      assert old(ValidSession(id));
    }

    /** The record got a new live list. */
    twostate lemma LiveReplaced(id: string)
      requires old(Valid()) && OnlyRecord(id)
      requires sessions[id].checkpoints == old(sessions[id].checkpoints)
      requires table[id].checkpoints == old(table[id].checkpoints)
      requires sessions[id].userTurns == table[id].userTurns
      requires sessions[id].messages in owner && Owned(owner, sessions[id].messages, Live(id), table[id].messages)
      ensures Valid()
    {
      RecordTouched(id);
      assert old(ValidSession(id));
      CheckpointsKept(id);
      ValidAgain(id);
    }

    twostate predicate NewCheckpoint(key: (string, string))
      reads *
    {
      && OnlyRecord(key.0)
      && sessions[key.0].messages == old(sessions[key.0].messages)
      && sessions[key.0].userTurns == old(sessions[key.0].userTurns)
      && key.1 in sessions[key.0].checkpoints && key.1 in table[key.0].checkpoints
      && sessions[key.0].checkpoints == old(sessions[key.0].checkpoints)[key.1 := sessions[key.0].checkpoints[key.1]]
      && key.0 in old(table)
      && table[key.0] == old(table[key.0]).(checkpoints := old(table[key.0].checkpoints)[key.1 := table[key.0].checkpoints[key.1]])
      && sessions[key.0].checkpoints[key.1] in owner
      && Owned(owner, sessions[key.0].checkpoints[key.1], Checkpoint(key.0, key.1), table[key.0].checkpoints[key.1])
    }

    /** The record got a new checkpoint. */
    twostate lemma CheckpointAdded(key: (string, string))
      requires old(Valid()) && NewCheckpoint(key)
      ensures Valid()
    {
      RecordTouched(key.0);
      assert old(ValidSession(key.0));
      CheckpointsKept(key.0);
      LiveKept(key.0);
      ValidAgain(key.0);
    }

    /***** Operations *****/

    /** A session record enters the table. */
    method Enter(id: string, s: Session, ghost v: S.Session<Fields>, ghost own: Owners)
      requires Valid() && Extends(owner, own) && this !in own && OwnedSession(own, s, id, v)
      modifies this
      ensures Valid()
      ensures sessions == old(sessions)[id := s] && table == old(table)[id := v] && owner == own
    {
      sessions, table, owner := sessions[id := s], table[id := v], own;
      EntryTouched(id);
      ValidAgain(id);
    }

    /** A new record; no object known before changed. */
    twostate predicate OnlyEntry(id: string)
      reads *
    {
      && Extends(old(owner), owner) && this !in owner
      && id in sessions && id in table
      && sessions == old(sessions)[id := sessions[id]] && table == old(table)[id := table[id]]
      && forall o :: o in old(owner) ==> unchanged(o)
    }

    twostate lemma EntryTouched(id: string)
      requires old(Valid()) && OnlyEntry(id)
      ensures OnlyTouched(id)
    {
    }

    method SetLive(id: string, list: array<Message>, userTurns: int, ghost texts: seq<Fields>, ghost own: Owners)
      requires Valid() && id in sessions && Extends(owner, own) && this !in own
      requires Owned(own, list, Live(id), texts)
      modifies this`table, this`owner, sessions[id]
      ensures Valid() && owner == own && sessions[id].messages == list
      ensures table == old(table)[id := old(table)[id].(messages := texts, userTurns := userTurns)]
    {
      hide OwnedSession;
      var s := sessions[id];
      assert ValidSession(id);
      s.messages, s.userTurns := list, userTurns;
      table, owner := table[id := table[id].(messages := texts, userTurns := userTurns)], own;
      LiveReplaced(id);
    }

    method SetCheckpoint(id: string, uid: string, list: array<Message>, ghost texts: seq<Fields>, ghost own: Owners)
      requires Valid() && id in sessions && Extends(owner, own) && this !in own
      requires Owned(own, list, Checkpoint(id, uid), texts)
      modifies this`table, this`owner, sessions[id]
      ensures Valid() && owner == own
      ensures table == old(table)[id := old(table)[id].(checkpoints := old(table)[id].checkpoints[uid := texts])]
    {
      var s := sessions[id];
      ghost var v := table[id];
      assert ValidSession(id);
      s.checkpoints := s.checkpoints[uid := list];
      table, owner := table[id := v.(checkpoints := v.checkpoints[uid := texts])], own;
      CheckpointAdded((id, uid));
    }

    /** `getOrCreateLocked`, `GetOrCreate`. */
    method GetOrCreate(id: string) returns (s: Session)
      requires Valid()
      modifies this
      ensures Valid() && Progress()
      ensures S.Name(id) in sessions && s == sessions[S.Name(id)]
      ensures table == S.Created(old(table), id)
      ensures if S.Name(id) in old(sessions) then sessions == old(sessions) else fresh(s)
    {
      var name := S.Name(id);
      if name in sessions {
        s := sessions[name];
      } else {
        var none := new Message[0];
        s := new Session(none, 0, map[]);
        Enter(name, s, S.NewSession(), owner[none := Live(name)][s := Record(name)]);
      }
    }

    /** `SetState`. The caller keeps its list. */
    method SetState(id: string, list: array<Message>, userTurns: int, ghost texts: seq<Fields>)
      requires Valid() && Says(list, texts)
      modifies this, if S.Name(id) in sessions then {sessions[S.Name(id)]} else {}
      ensures Valid() && Progress()
      ensures table == S.Stated(old(table), id, texts, userTurns)
    {
      var s := GetOrCreate(id);
      var copy, own := OwnedCopy(list, Live(S.Name(id)), texts, owner);
      SetLive(S.Name(id), copy, userTurns, texts, own);
    }

    /** `Rewind`. */
    method Rewind(id: string, uid: string) returns (ok: bool)
      requires Valid()
      modifies this`owner, this`table, if id in sessions then {sessions[id]} else {}
      ensures Valid() && Progress()
      ensures ok == S.CanRewind(old(table), id, uid)
      ensures ok ==> fresh(sessions[id].messages)
      ensures ok ==> forall i :: 0 <= i < sessions[id].messages.Length ==> fresh(sessions[id].messages[i])
      ensures table == S.Rewound(old(table), id, uid)
    {
      hide OwnedSession, OwnsAll, Owned, ValidSession;
      if id !in sessions { return false; }
      CheckpointSays(id, uid);
      var s := sessions[id];
      if uid !in s.checkpoints { return false; }
      ghost var texts := table[id].checkpoints[uid];
      var copy, own := OwnedCopy(s.checkpoints[uid], Live(id), texts, owner);
      SetLive(id, copy, s.userTurns, texts, own);
      return true;
    }

    /** `Snapshot`. */
    method Snapshot(id: string, uid: string)
      requires Valid()
      modifies this`owner, this`table, if id in sessions then {sessions[id]} else {}
      ensures Valid() && Progress()
      ensures table == S.Snapshotted(old(table), id, uid)
    {
      if id !in sessions || uid == "" { return; }
      assert ValidSession(id);
      var cp, own := OwnedCopy(sessions[id].messages, Checkpoint(id, uid), table[id].messages, owner);
      SetCheckpoint(id, uid, cp, table[id].messages, own);
    }

    /** `Clone`. */
    method CloneSession(src: string, dst: string) returns (ok: bool)
      requires Valid()
      modifies this
      ensures Valid() && Progress()
      ensures ok == S.CanClone(old(table), src, dst)
      ensures table == S.Cloned(old(table), src, dst)
      ensures ok ==> fresh(sessions[dst])
    {
      if src == "" || dst == "" || src !in sessions { return false; }
      assert ValidSession(src);
      var s, own := CopySession(sessions[src], src, dst, table[src], owner, owner);
      Enter(dst, s, table[src], own);
      return true;
    }

    /** `List`: clones that the manager does not own. Their order is not part of the model. */
    method List() returns (copies: map<string, Session>, ghost held: Owners)
      requires Valid()
      ensures copies.Keys == table.Keys
      ensures AllOwned(held, copies, table) && forall o :: o in held ==> fresh(o)
    {
      assert forall id :: id in sessions ==> ValidSession(id);
      var order := Ordered(sessions.Keys);
      copies, held := CopyAll(sessions, order, table, owner);
    }

    lemma LiveSays(id: string)
      requires Valid() && id in sessions
      ensures sessions[id].messages in owner && Owned(owner, sessions[id].messages, Live(id), table[id].messages)
      ensures sessions[id] in owner && sessions[id].messages.Length == |table[id].messages|
      ensures forall i :: 0 <= i < sessions[id].messages.Length ==>
                sessions[id].messages[i] in owner && sessions[id].messages[i].fields == table[id].messages[i]
    {
      assert ValidSession(id);
    }

    lemma CheckpointSays(id: string, uid: string)
      requires Valid() && id in sessions
      ensures uid in sessions[id].checkpoints <==> uid in table[id].checkpoints
      ensures uid in table[id].checkpoints ==>
                var kept, texts := sessions[id].checkpoints[uid], table[id].checkpoints[uid];
                kept.Length == |texts| && forall i :: 0 <= i < kept.Length ==> kept[i].fields == texts[i]
      ensures sessions[id].userTurns == table[id].userTurns
    {
      assert ValidSession(id);
    }

    /** Code outside holds the live list of a session and writes one of its messages. */
    method EditLive(id: string, i: nat, fields: Fields)
      requires Valid() && id in sessions && i < |table[id].messages|
      modifies this`table, (LiveSays(id); sessions[id].messages[i])
      ensures Valid()
      ensures table == S.Edited(old(table), id, i, fields)
    {
      hide OwnedSession, ValidSession;
      LiveSays(id);
      var list := sessions[id].messages;
      list[i].fields := fields;
      table := table[id := table[id].(messages := table[id].messages[i := fields])];
      assert Owned(owner, list, Live(id), table[id].messages);
      MessageEdited(id);
    }

    /** Code outside holds the live list of a session and puts a new message at one place. */
    method ReplaceLive(id: string, i: nat, fields: Fields)
      requires Valid() && id in sessions && i < |table[id].messages|
      modifies this`table, this`owner, (LiveSays(id); sessions[id].messages)
      ensures Valid() && Progress()
      ensures table == S.Edited(old(table), id, i, fields)
    {
      hide OwnedSession, ValidSession;
      LiveSays(id);
      var list := sessions[id].messages;
      var m := new Message(fields);
      list[i] := m;
      owner := owner[m := Live(id)];
      table := table[id := table[id].(messages := table[id].messages[i := fields])];
      assert Owned(owner, list, Live(id), table[id].messages);
      MessageEdited(id);
    }

    twostate lemma MessageEdited(id: string)
      requires old(Valid()) && OnlyLive(id)
      requires Owned(owner, sessions[id].messages, Live(id), table[id].messages)
      requires table[id] == old(table[id]).(messages := table[id].messages)
      ensures Valid()
    {
      assert old(ValidSession(id));
      CheckpointsKept(id);
      ValidAgain(id);
    }

    /** Of the objects known before, only the live list of session `id` and its messages may differ. */
    twostate predicate OnlyLive(id: string)
      reads *
    {
      && Extends(old(owner), owner) && this !in owner && sessions == old(sessions)
      && id in sessions && id in old(table) && table.Keys == sessions.Keys
      && (forall x :: x in table && x != id ==> x in old(table) && table[x] == old(table[x]))
      && unchanged(sessions[id])
      && forall o :: o in old(owner) && old(owner[o]) != Live(id) ==> unchanged(o)
    }

    /***** Runs *****/

    /** One operation on the manager, with the caller's lists built from values. */
    method RunOne(op: S.Op<Fields>)
      requires Valid() && !op.List? && !op.EditOutside? && !op.SetState?
      modifies this, owner.Keys
      ensures Valid() && Progress()
      ensures table == S.After(old(table), op)
    {
      hide OwnedSession, OwnsAll, Owned, ValidSession;
      match op
      case Create(id) => var _ := GetOrCreate(id);
      case Snapshot(id, uid) =>
        if id in sessions { LiveSays(id); }
        Snapshot(id, uid);
      case Rewind(id, uid) =>
        if id in sessions { LiveSays(id); }
        var _ := Rewind(id, uid);
      case Clone(src, dst) => var _ := CloneSession(src, dst);
      case EditLive(id, i, m) =>
        if id in sessions {
          LiveSays(id);
          if i < sessions[id].messages.Length { EditLive(id, i, m); }
        }
      case ReplaceLive(id, i, m) =>
        if id in sessions {
          LiveSays(id);
          if i < sessions[id].messages.Length { ReplaceLive(id, i, m); }
        }
    }

    /** `SetState` with a list that the caller goes on holding. */
    method Give(id: string, texts: seq<Fields>, userTurns: int, ghost held: set<object>)
      returns (list: array<Message>, ghost more: set<object>)
      requires Valid() && held !! owner.Keys && this !in held
      modifies this, owner.Keys
      ensures Valid() && Progress() && table == S.Stated(old(table), id, texts, userTurns)
      ensures more !! owner.Keys && this !in more && held <= more && HeldList(list, more)
      ensures forall o :: o in more && o !in held ==> fresh(o)
    {
      hide OwnedSession, OwnsAll, Owned, ValidSession;
      list := MakeList(texts);
      more := held + Footprint(list);
      SetState(id, list, userTurns, texts);
    }

    /** `List`, whose copies the caller goes on holding. */
    method Take(outside: Outside, ghost held: set<object>) returns (out: Outside, ghost more: set<object>)
      requires Valid() && held !! owner.Keys && this !in held && Within(outside, held)
      ensures more !! owner.Keys && this !in more && Within(out, more) && forall o :: o in more && o !in held ==> fresh(o)
    {
      hide OwnedSession, OwnsAll, Owned, AllOwned, HeldSession;
      var copies;
      ghost var own;
      copies, own := List();
      more := held + own.Keys;
      CopiesAreHeld(copies, own, table, more);
      WithinGrows(outside, held, more);
      out := outside.(copies := outside.copies + [copies]);
    }

    method Step(op: S.Op<Fields>, outside: Outside, ghost held: set<object>)
      returns (out: Outside, ghost more: set<object>)
      requires Valid() && held !! owner.Keys && this !in held && Within(outside, held)
      modifies this, owner.Keys, held
      ensures Valid() && Progress()
      ensures table == S.After(old(table), op)
      ensures more !! owner.Keys && this !in more && Within(out, more) && forall o :: o in more && o !in held ==> fresh(o)
    {
      hide OwnedSession, OwnsAll, Owned, AllOwned;
      out, more := outside, held;
      match op
      case List =>
        out, more := Take(outside, held);
      case SetState(id, texts, turns) =>
        var list;
        list, more := Give(id, texts, turns, held);
        WithinGrows(outside, held, more);
        out := outside.(lists := outside.lists + [list]);
      case EditOutside(m) => EditOutside(outside, m, held);
      case _ => RunOne(op);
    }

    /**
     * Any mix of operations, of edits to live lists and messages, and of edits to listed copies and to
     * lists handed in: the heap does what the table does by value. Checkpoints and clones are isolated
     * because they are there.
     */
    method RunAll(ops: seq<S.Op<Fields>>)
      requires Valid()
      modifies this, owner.Keys
      ensures Valid() && Progress()
      ensures table == S.AfterAll(old(table), ops)
    {
      var outside := Outside([], []);
      ghost var held: set<object> := {};
      for k := 0 to |ops|
        invariant Valid() && Progress() && table == S.AfterAll(old(table), ops[..k])
        invariant held !! owner.Keys && this !in held && (forall o :: o in held ==> fresh(o))
        invariant Within(outside, held)
      {
        assert ops[..k + 1][..k] == ops[..k];
        outside, held := Step(ops[k], outside, held);
      }
      assert ops[..|ops|] == ops;
    }
  }

  /***** What callers hold *****/

  /** Listed copies, and lists that were handed to `SetState`. */
  datatype Outside = Outside(copies: seq<map<string, Session>>, lists: seq<array<Message>>)

  ghost predicate HeldList(list: array<Message>, held: set<object>)
    reads list
  {
    list in held && forall i :: 0 <= i < list.Length ==> list[i] in held
  }

  /** Everything a caller can reach from what it holds. */
  ghost predicate HeldSession(s: Session, held: set<object>)
    reads held
  {
    && s in held && s.messages in held && HeldList(s.messages, held)
    && forall u :: u in s.checkpoints ==> s.checkpoints[u] in held && HeldList(s.checkpoints[u], held)
  }

  ghost predicate HeldCopies(copies: map<string, Session>, held: set<object>)
    reads held
  {
    forall id :: id in copies ==> HeldSession(copies[id], held)
  }

  ghost predicate Within(outside: Outside, held: set<object>)
    reads held
  {
    && (forall k :: 0 <= k < |outside.copies| ==> HeldCopies(outside.copies[k], held))
    && forall k :: 0 <= k < |outside.lists| ==> outside.lists[k] in held && HeldList(outside.lists[k], held)
  }

  lemma WithinGrows(outside: Outside, held: set<object>, more: set<object>)
    requires Within(outside, held) && held <= more
    ensures Within(outside, more)
  {
    forall k | 0 <= k < |outside.copies| ensures HeldCopies(outside.copies[k], more) {
      assert HeldCopies(outside.copies[k], held);
    }
  }

  lemma CopiesAreHeld(copies: map<string, Session>, own: Owners, table: S.Table<Fields>, held: set<object>)
    requires AllOwned(own, copies, table) && own.Keys <= held
    ensures HeldCopies(copies, held)
  {
    forall id | id in copies ensures HeldSession(copies[id], held) {
      assert OwnedSession(own, copies[id], id, table[id]);
    }
  }

  /** A caller overwrites every message of one list. */
  method EditList(list: array<Message>, fields: Fields)
    modifies list[..]
  {
    for i := 0 to list.Length { list[i].fields := fields; }
  }

  /** A caller overwrites every message of one copy, checkpoints included. */
  method EditSession(s: Session, fields: Fields, ghost held: set<object>)
    requires HeldSession(s, held)
    modifies set m: Message | m in held
  {
    EditList(s.messages, fields);
    var left := s.checkpoints.Keys;
    while left != {}
      invariant left <= s.checkpoints.Keys
      decreases |left|
    {
      var u := Pick(left);
      left := left - {u};
      EditList(s.checkpoints[u], fields);
    }
  }

  /** A caller overwrites everything it can reach. */
  method EditOutside(outside: Outside, fields: Fields, ghost held: set<object>)
    requires Within(outside, held)
    modifies set m: Message | m in held
  {
    for k := 0 to |outside.copies| {
      var copies := outside.copies[k];
      var left := copies.Keys;
      while left != {}
        invariant left <= copies.Keys
        decreases |left|
      {
        var id := Pick(left);
        left := left - {id};
        EditSession(copies[id], fields, held);
      }
    }
    for k := 0 to |outside.lists| {
      EditList(outside.lists[k], fields);
    }
  }

  method MakeList(texts: seq<Fields>) returns (list: array<Message>)
    ensures fresh(list) && Says(list, texts) && forall i :: 0 <= i < list.Length ==> fresh(list[i])
  {
    var ms: seq<Message> := [];
    for i := 0 to |texts|
      invariant |ms| == i && forall k :: 0 <= k < i ==> fresh(ms[k]) && ms[k].fields == texts[k]
    {
      var m := new Message(texts[i]);
      ms := ms + [m];
    }
    list := new Message[|ms|](i requires 0 <= i < |ms| => ms[i]);
  }

  method AddSession(sessions: map<string, Session>, id: string, copies: map<string, Session>, ghost table: S.Table<Fields>, ghost from: Owners, ghost own: Owners)
    returns (out: map<string, Session>, ghost more: Owners)
    requires id in sessions && AllOwned(from, sessions, table) && AllOwned(own, copies, table)
    ensures out.Keys == copies.Keys + {id} && AllOwned(more, out, table)
    ensures Extends(own, more) && forall o :: o in more && o !in own ==> fresh(o)
  {
    var c;
    c, more := CopySession(sessions[id], id, id, table[id], from, own);
    AllExtend(own, more, copies, table);
    out := copies[id := c];
  }

  /** The loop of `List`. */
  method CopyAll(sessions: map<string, Session>, order: seq<string>, ghost table: S.Table<Fields>, ghost from: Owners)
    returns (copies: map<string, Session>, ghost held: Owners)
    requires (forall id :: id in order ==> id in sessions) && AllOwned(from, sessions, table)
    ensures (forall id :: id in copies <==> id in order)
    ensures AllOwned(held, copies, table) && forall o :: o in held ==> fresh(o)
  {
    copies, held := map[], map[];
    for k := 0 to |order|
      invariant forall id :: id in copies <==> id in order[..k]
      invariant AllOwned(held, copies, table) && forall o :: o in held ==> fresh(o)
    {
      copies, held := AddSession(sessions, order[k], copies, table, from, held);
    }
  }

  /** Listed copies, each saying what the table says. */
  ghost predicate AllOwned(own: Owners, copies: map<string, Session>, table: S.Table<Fields>)
    reads own.Keys
  {
    copies.Keys <= table.Keys &&
    forall id :: id in copies ==> copies[id] in own && OwnedSession(own, copies[id], id, table[id])
  }

  lemma AllExtend(own: Owners, more: Owners, copies: map<string, Session>, table: S.Table<Fields>)
    requires Extends(own, more) && AllOwned(own, copies, table)
    ensures AllOwned(more, copies, table)
  {
    forall id | id in copies ensures copies[id] in more && OwnedSession(more, copies[id], id, table[id]) {
      OwnedExtends(own, more, copies[id].messages, Live(id), table[id].messages);
      OwnsAllExtends(own, more, id, copies[id].checkpoints, table[id].checkpoints);
    }
  }
}
