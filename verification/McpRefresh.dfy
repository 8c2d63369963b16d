/**
 * Status refresh of MCP servers (`GetMCPStatus`, `startMCPRefresh`) as interleaved steps. Each step
 * is one access to shared state: the host's status map (read and replaced whole, without the flag's
 * lock) or the `refresh` flag (tested and set under its mutex).
 */
module McpRefresh {
  import opened Common
  import Registry

  type Servers = map<string, Registry.ServerConfig>

  /** `Settled` is what a registry reports: ready, or an error with its reason. */
  datatype Status = Configured | Connecting | Settled(outcome: Registry.Status)

  type Statuses = map<string, Status>

  /** Where a caller of `GetMCPStatus` stands, with its private copies. */
  datatype Caller =
    | Entered
    | Decide(current: Statuses)
    | WriteInitial
    | TryFlag
    | ReadAgain
    | WriteConnecting(seen: Statuses)
    | Spawn
    | Answer
    | Returned(reply: Statuses)

  /** The background goroutine of one refresh. */
  datatype Worker = Discover | Publish(latest: Statuses) | Release | Finished

  datatype State = State(status: Statuses, flag: bool, callers: seq<Caller>, workers: seq<Worker>)

  /** `Work` carries which external servers answer when the worker is discovering. */
  datatype Step = Call | Advance(caller: nat) | Work(worker: nat, answering: set<string>)

  predicate Pending(m: Statuses) { exists n :: n in m && (m[n] == Connecting || m[n] == Configured) }

  predicate AnyConnecting(m: Statuses) { exists n :: n in m && m[n] == Connecting }

  /** The configurations with the listing calls that are answered this time. */
  function Answering(servers: Servers, answering: set<string>): Servers {
    map n | n in servers ::
      if !servers[n].External? then servers[n]
      else if n !in answering then Registry.External(None)
      else if servers[n].listing.Some? then servers[n]
      else Registry.External(Some([]))
  }

  /** `refreshFn`: the statuses of a new registry. */
  function Discovered(servers: Servers, answering: set<string>): Statuses {
    var found := Registry.Statuses(Answering(servers, answering));
    map n | n in found :: Settled(found[n])
  }

  /** Every configured server, and no other, has a final status. */
  predicate Final(m: Statuses, servers: Servers) {
    m.Keys == servers.Keys && forall n :: n in m ==> m[n].Settled?
  }

  /** The names come from the configuration, whatever the servers answer. */
  lemma DiscoveryIsFinal(servers: Servers, answering: set<string>)
    ensures Final(Discovered(servers, answering), servers)
  {
    assert Answering(servers, answering).Keys == servers.Keys;
  }

  function Initial(servers: Servers): Statuses { map n | n in servers :: Configured }

  function AllConnecting(m: Statuses): Statuses { map n | n in m :: Connecting }

  /***** Steps *****/

  function At(s: State, i: nat, c: Caller): State
    requires i < |s.callers|
  {
    s.(callers := s.callers[i := c])
  }

  function AdvanceCaller(s: State, i: nat, servers: Servers): State
    requires i < |s.callers|
  {
    match s.callers[i]
    case Entered => At(s, i, if servers == map[] then Answer else Decide(s.status))
    case Decide(current) =>
      At(s, i, if current == map[] then WriteInitial else if Pending(current) then TryFlag else Answer)
    case WriteInitial => At(s, i, Answer).(status := Initial(servers))
    case TryFlag => if s.flag then At(s, i, Answer) else At(s, i, ReadAgain).(flag := true)
    case ReadAgain => At(s, i, if s.status == map[] then Spawn else WriteConnecting(s.status))
    case WriteConnecting(seen) => At(s, i, Spawn).(status := AllConnecting(seen))
    case Spawn => At(s, i, Answer).(workers := s.workers + [Discover])
    case Answer => At(s, i, Returned(s.status))
    case Returned(_) => s
  }

  function AdvanceWorker(s: State, j: nat, answering: set<string>, servers: Servers): State
    requires j < |s.workers|
  {
    match s.workers[j]
    case Discover => s.(workers := s.workers[j := Publish(Discovered(servers, answering))])
    case Publish(latest) => s.(workers := s.workers[j := Release], status := latest)
    case Release => s.(workers := s.workers[j := Finished], flag := false)
    case Finished => s
  }

  /** A step that is not enabled changes nothing. */
  function Next(s: State, step: Step, servers: Servers): State {
    match step
    case Call => s.(callers := s.callers + [Entered])
    case Advance(i) => if i < |s.callers| then AdvanceCaller(s, i, servers) else s
    case Work(j, answering) => if j < |s.workers| then AdvanceWorker(s, j, answering, servers) else s
  }

  function Run(s: State, steps: seq<Step>, servers: Servers): State {
    if steps == [] then s else Next(Run(s, steps[..|steps| - 1], servers), steps[|steps| - 1], servers)
  }

  /** After `Start`: the statuses of the first discovery, or none. */
  ghost predicate Init(s: State, servers: Servers) {
    && (s.status == map[] || Final(s.status, servers))
    && !s.flag && s.callers == [] && s.workers == []
  }

  /***** Invariant *****/

  /** Whoever has the refresh in hand. */
  datatype Owner = Nobody | ByCaller(i: nat) | ByWorker(j: nat)

  predicate CallerHolds(c: Caller) { c.ReadAgain? || c.WriteConnecting? || c.Spawn? }

  predicate WorkerHolds(w: Worker) { !w.Finished? }

  /** The refresh in hand has yet to publish. */
  predicate WillPublish(s: State, o: Owner) {
    match o
    case Nobody => false
    case ByCaller(i) => i < |s.callers| && CallerHolds(s.callers[i])
    case ByWorker(j) => j < |s.workers| && (s.workers[j].Discover? || s.workers[j].Publish?)
  }

  predicate Named(m: Statuses, servers: Servers) { m == map[] || m.Keys == servers.Keys }

  predicate CallerFits(c: Caller, s: State, servers: Servers) {
    match c
    case Entered => true
    case Decide(current) => servers != map[] && Named(current, servers) && (current != map[] ==> s.status.Keys == servers.Keys)
    case WriteInitial => servers != map[]
    case WriteConnecting(seen) => servers != map[] && seen.Keys == servers.Keys
    case Answer => servers != map[] ==> s.status.Keys == servers.Keys
    case Returned(reply) => servers != map[] ==> reply.Keys == servers.Keys
    case _ => servers != map[] && s.status.Keys == servers.Keys
  }

  ghost predicate Held(s: State, o: Owner) {
    && s.flag == !o.Nobody?
    && (forall i :: 0 <= i < |s.callers| ==> (CallerHolds(s.callers[i]) <==> o == ByCaller(i)))
    && (forall j :: 0 <= j < |s.workers| ==> (WorkerHolds(s.workers[j]) <==> o == ByWorker(j)))
    && (o.ByCaller? ==> o.i < |s.callers|) && (o.ByWorker? ==> o.j < |s.workers|)
  }

  /** The owner is the only one inside a refresh, and the flag says whether there is one. */
  ghost predicate Inv(s: State, o: Owner, servers: Servers) {
    && Held(s, o)
    && Named(s.status, servers)
    && (AnyConnecting(s.status) ==> WillPublish(s, o))
    && (forall i :: 0 <= i < |s.callers| ==> CallerFits(s.callers[i], s, servers))
    && (forall j :: 0 <= j < |s.workers| && s.workers[j].Publish? ==> Final(s.workers[j].latest, servers))
  }

  lemma InitHasInv(s: State, servers: Servers)
    requires Init(s, servers)
    ensures Inv(s, Nobody, servers)
  {
  }

  lemma CallersFit(s: State, o: Owner, i: nat, servers: Servers)
    requires Inv(s, o, servers) && i < |s.callers|
    ensures var s' := AdvanceCaller(s, i, servers);
      Named(s'.status, servers) && forall k :: 0 <= k < |s'.callers| ==> CallerFits(s'.callers[k], s', servers)
  {
    hide Discovered, Pending, AnyConnecting, Final, WillPublish;
    var s' := AdvanceCaller(s, i, servers);
    assert CallerFits(s.callers[i], s, servers);
    forall k | 0 <= k < |s'.callers| ensures CallerFits(s'.callers[k], s', servers) {
      if k != i { assert CallerFits(s.callers[k], s, servers); }
    }
  }

  function OwnerAfter(s: State, o: Owner, i: nat): Owner
    requires i < |s.callers|
  {
    if s.callers[i].TryFlag? && !s.flag then ByCaller(i)
    else if s.callers[i].Spawn? then ByWorker(|s.workers|)
    else o
  }

  lemma HeldStep(s: State, o: Owner, i: nat, servers: Servers)
    requires Held(s, o) && i < |s.callers|
    ensures Held(AdvanceCaller(s, i, servers), OwnerAfter(s, o, i))
  {
    hide Discovered, Initial, AllConnecting, Pending;
  }

  lemma ConnectingStep(s: State, o: Owner, i: nat, servers: Servers)
    requires Held(s, o) && i < |s.callers| && (AnyConnecting(s.status) ==> WillPublish(s, o))
    ensures var s' := AdvanceCaller(s, i, servers); AnyConnecting(s'.status) ==> WillPublish(s', OwnerAfter(s, o, i))
  {
    hide Discovered, Pending;
  }

  lemma CallerStep(s: State, o: Owner, i: nat, servers: Servers) returns (o': Owner)
    requires Inv(s, o, servers) && i < |s.callers|
    ensures Inv(AdvanceCaller(s, i, servers), o', servers)
  {
    hide Discovered, CallerFits, Final, Named, Held, AnyConnecting, WillPublish, Initial, AllConnecting;
    o' := OwnerAfter(s, o, i);
    CallersFit(s, o, i, servers);
    HeldStep(s, o, i, servers);
    ConnectingStep(s, o, i, servers);
  }

  lemma WorkerStep(s: State, o: Owner, j: nat, answering: set<string>, servers: Servers) returns (o': Owner)
    requires Inv(s, o, servers) && j < |s.workers|
    ensures Inv(AdvanceWorker(s, j, answering, servers), o', servers)
  {
    var s' := AdvanceWorker(s, j, answering, servers);
    DiscoveryIsFinal(servers, answering);
    o' := if s.workers[j].Release? then Nobody else o;
    forall k | 0 <= k < |s'.callers| ensures CallerFits(s'.callers[k], s', servers) {
      assert CallerFits(s.callers[k], s, servers);
    }
  }

  lemma NextKeepsInv(s: State, o: Owner, step: Step, servers: Servers) returns (o': Owner)
    requires Inv(s, o, servers)
    ensures Inv(Next(s, step, servers), o', servers)
  {
    o' := o;
    match step
    case Call =>
      var s' := Next(s, Call, servers);
      forall k | 0 <= k < |s'.callers| ensures CallerFits(s'.callers[k], s', servers) {
        if k < |s.callers| { assert CallerFits(s.callers[k], s, servers); }
      }
    case Advance(i) => if i < |s.callers| { o' := CallerStep(s, o, i, servers); }
    case Work(j, answering) => if j < |s.workers| { o' := WorkerStep(s, o, j, answering, servers); }
  }

  lemma {:induction false} RunKeepsInv(s: State, steps: seq<Step>, servers: Servers) returns (o: Owner)
    requires Init(s, servers)
    ensures Inv(Run(s, steps, servers), o, servers)
  {
    if steps == [] {
      InitHasInv(s, servers);
      o := Nobody;
    } else {
      o := RunKeepsInv(s, steps[..|steps| - 1], servers);
      o := NextKeepsInv(Run(s, steps[..|steps| - 1], servers), o, steps[|steps| - 1], servers);
    }
  }

  /***** Main results: every interleaving of callers and refreshes *****/

  predicate InFlight(s: State, o: Owner) {
    match o
    case Nobody => false
    case ByCaller(i) => i < |s.callers| && CallerHolds(s.callers[i])
    case ByWorker(j) => j < |s.workers| && WorkerHolds(s.workers[j])
  }

  /** At most one refresh is in flight. */
  lemma OneRefreshAtATime(s: State, steps: seq<Step>, servers: Servers, a: Owner, b: Owner)
    requires Init(s, servers)
    requires InFlight(Run(s, steps, servers), a) && InFlight(Run(s, steps, servers), b)
    ensures a == b && Run(s, steps, servers).flag
  {
    var o := RunKeepsInv(s, steps, servers);
  }

  /** A "connecting" status is always that of a refresh that will still publish. */
  lemma ConnectingIsTemporary(s: State, steps: seq<Step>, servers: Servers) returns (o: Owner)
    requires Init(s, servers) && AnyConnecting(Run(s, steps, servers).status)
    ensures WillPublish(Run(s, steps, servers), o)
  {
    o := RunKeepsInv(s, steps, servers);
  }

  /** What a worker is about to publish has exactly the configured names, each with a final status. */
  lemma PublishedIsFinal(s: State, steps: seq<Step>, servers: Servers, j: nat)
    requires Init(s, servers) && j < |Run(s, steps, servers).workers| && Run(s, steps, servers).workers[j].Publish?
    ensures Final(Run(s, steps, servers).workers[j].latest, servers)
  {
    var o := RunKeepsInv(s, steps, servers);
  }

  /** Every reply lists exactly the configured servers, however it was interleaved. */
  lemma RepliesAreComplete(s: State, steps: seq<Step>, servers: Servers, i: nat)
    requires Init(s, servers) && servers != map[]
    requires i < |Run(s, steps, servers).callers| && Run(s, steps, servers).callers[i].Returned?
    ensures Run(s, steps, servers).callers[i].reply.Keys == servers.Keys
  {
    var o := RunKeepsInv(s, steps, servers);
    assert CallerFits(Run(s, steps, servers).callers[i], Run(s, steps, servers), servers);
  }

  /** The statuses of the host at some point of the run. */
  ghost predicate Had(s: State, steps: seq<Step>, servers: Servers, m: Statuses) {
    exists k :: 0 <= k <= |steps| && Run(s, steps[..k], servers).status == m
  }

  lemma HadBefore(s: State, steps: seq<Step>, servers: Servers, m: Statuses)
    requires steps != [] && Had(s, steps[..|steps| - 1], servers, m)
    ensures Had(s, steps, servers, m)
  {
    var front := steps[..|steps| - 1];
    var k :| 0 <= k <= |front| && Run(s, front[..k], servers).status == m;
    assert front[..k] == steps[..k];
  }

  lemma HasNow(s: State, steps: seq<Step>, servers: Servers)
    ensures Had(s, steps, servers, Run(s, steps, servers).status)
  {
    assert steps[..|steps|] == steps;
  }

  lemma RepliesFrom(s: State, step: Step, servers: Servers, i: nat)
    requires i < |Next(s, step, servers).callers| && Next(s, step, servers).callers[i].Returned?
    ensures (i < |s.callers| && s.callers[i] == Next(s, step, servers).callers[i]) ||
            Next(s, step, servers).callers[i].reply == s.status
  {
    hide Discovered, Initial, AllConnecting, Pending;
  }

  /** A caller is answered with statuses that the host had at some point. */
  lemma {:induction false} RepliesWereHad(s: State, steps: seq<Step>, servers: Servers, i: nat)
    requires s.callers == [] && i < |Run(s, steps, servers).callers| && Run(s, steps, servers).callers[i].Returned?
    ensures Had(s, steps, servers, Run(s, steps, servers).callers[i].reply)
  {
    hide Next, Had;
    if steps != [] {
      var front, last := steps[..|steps| - 1], steps[|steps| - 1];
      var t := Run(s, front, servers);
      RepliesFrom(t, last, servers, i);
      if i < |t.callers| && t.callers[i] == Run(s, steps, servers).callers[i] {
        RepliesWereHad(s, front, servers, i);
      } else {
        HasNow(s, front, servers);
      }
      HadBefore(s, steps, servers, Run(s, steps, servers).callers[i].reply);
    }
  }

  /**
   * What discovery finds: a server is ready if and only if it is an SDK server, or an external one that
   * answers; of the others each says why not.
   */
  ghost predicate Found(m: Statuses, servers: Servers, answering: set<string>) {
    m.Keys == servers.Keys &&
    forall n :: n in m ==>
      m[n].Settled? &&
      (m[n].outcome == Registry.Ready <==> servers[n].Sdk? || (servers[n].External? && n in answering))
  }

  /** The statuses that a host can have: those at the start, or one status for every server, or what was found. */
  ghost predicate Known(m: Statuses, start: Statuses, servers: Servers) {
    || m == start
    || (m.Keys == servers.Keys && forall n :: n in m ==> m[n] == Configured)
    || (m.Keys == servers.Keys && forall n :: n in m ==> m[n] == Connecting)
    || exists answering :: Found(m, servers, answering)
  }

  lemma DiscoveryFinds(servers: Servers, answering: set<string>)
    ensures Found(Discovered(servers, answering), servers, answering)
  {
    DiscoveryIsFinal(servers, answering);
    var a := Answering(servers, answering);
    forall n | n in servers
      ensures Discovered(servers, answering)[n] == Settled(Registry.Statuses(a)[n])
      ensures Registry.Statuses(a)[n] == Registry.Ready <==> servers[n].Sdk? || (servers[n].External? && n in answering)
    {
      Registry.StatusMeans(a, n);
    }
  }

  /** All that a caller or a worker may still write is known as well. */
  ghost predicate AllKnown(s: State, start: Statuses, servers: Servers) {
    && Known(s.status, start, servers)
    && forall j :: 0 <= j < |s.workers| && s.workers[j].Publish? ==> Known(s.workers[j].latest, start, servers)
  }

  lemma ConnectingIsKnown(m: Statuses, start: Statuses, servers: Servers)
    requires m.Keys == servers.Keys
    ensures Known(AllConnecting(m), start, servers) && Known(Initial(servers), start, servers)
  {
    assert AllConnecting(m).Keys == servers.Keys && Initial(servers).Keys == servers.Keys;
  }

  lemma KnownStep(s: State, o: Owner, step: Step, start: Statuses, servers: Servers)
    requires Inv(s, o, servers) && AllKnown(s, start, servers)
    ensures AllKnown(Next(s, step, servers), start, servers)
  {
    hide Known, Discovered, Initial, AllConnecting, Pending, Held, Final, AnyConnecting, WillPublish;
    match step
    case Call =>
    case Advance(i) =>
      if i < |s.callers| {
        assert CallerFits(s.callers[i], s, servers);
        if s.callers[i].WriteConnecting? { ConnectingIsKnown(s.callers[i].seen, start, servers); }
        if s.callers[i].WriteInitial? { InitialIsKnown(start, servers); }
      }
    case Work(j, answering) =>
      DiscoveryIsKnown(start, servers, answering);
  }

  lemma InitialIsKnown(start: Statuses, servers: Servers)
    ensures Known(Initial(servers), start, servers)
  {
    assert Initial(servers).Keys == servers.Keys;
  }

  lemma DiscoveryIsKnown(start: Statuses, servers: Servers, answering: set<string>)
    ensures Known(Discovered(servers, answering), start, servers)
  {
    DiscoveryFinds(servers, answering);
  }

  lemma {:induction false} StatusesAreKnown(s: State, steps: seq<Step>, servers: Servers)
    requires Init(s, servers)
    ensures AllKnown(Run(s, steps, servers), s.status, servers)
  {
    hide Next, Inv;
    if steps != [] {
      var front := steps[..|steps| - 1];
      StatusesAreKnown(s, front, servers);
      var o := RunKeepsInv(s, front, servers);
      KnownStep(Run(s, front, servers), o, steps[|steps| - 1], s.status, servers);
    }
  }

  /**
   * Whatever the interleaving, a caller is told the statuses of the start, or that every server is
   * configured, or that every server is connecting, or what one discovery found.
   */
  lemma RepliesAreKnown(s: State, steps: seq<Step>, servers: Servers, i: nat)
    requires Init(s, servers) && i < |Run(s, steps, servers).callers| && Run(s, steps, servers).callers[i].Returned?
    ensures Known(Run(s, steps, servers).callers[i].reply, s.status, servers)
  {
    hide Known, Run;
    RepliesWereHad(s, steps, servers, i);
    var k :| 0 <= k <= |steps| && Run(s, steps[..k], servers).status == Run(s, steps, servers).callers[i].reply;
    StatusesAreKnown(s, steps[..k], servers);
  }

  /** How many of its own steps the refresh in hand needs. */
  function Remaining(s: State, o: Owner): nat {
    match o
    case Nobody => 0
    case ByCaller(i) =>
      if i >= |s.callers| then 0
      else if s.callers[i].ReadAgain? then 6 else if s.callers[i].WriteConnecting? then 5
      else if s.callers[i].Spawn? then 4 else 0
    case ByWorker(j) =>
      if j >= |s.workers| then 0
      else if s.workers[j].Discover? then 3 else if s.workers[j].Publish? then 2
      else if s.workers[j].Release? then 1 else 0
  }

  function Turn(o: Owner, answering: set<string>): Step
    requires !o.Nobody?
  {
    match o case ByCaller(i) => Advance(i) case ByWorker(j) => Work(j, answering)
  }

  lemma TurnMakesProgress(s: State, o: Owner, answering: set<string>, servers: Servers) returns (o': Owner)
    requires Inv(s, o, servers) && !o.Nobody?
    ensures Inv(Next(s, Turn(o, answering), servers), o', servers)
    ensures Remaining(Next(s, Turn(o, answering), servers), o') < Remaining(s, o)
    ensures o'.Nobody? ==> Next(s, Turn(o, answering), servers).status == s.status
  {
    o' := NextKeepsInv(s, o, Turn(o, answering), servers);
  }

  /**
   * From every reachable state the refresh in hand completes in at most six steps of its own,
   * whatever the other callers do not do: it publishes and frees the flag, and nothing is left
   * "connecting".
   */
  lemma {:induction false} RefreshCompletes(s: State, o: Owner, answering: set<string>, servers: Servers)
    returns (steps: seq<Step>)
    requires Inv(s, o, servers)
    ensures |steps| <= Remaining(s, o) && (forall k :: 0 <= k < |steps| ==> !steps[k].Call?)
    ensures var s' := RunOn(s, steps, servers); !s'.flag && !AnyConnecting(s'.status)
    decreases Remaining(s, o)
  {
    if o.Nobody? {
      steps := [];
    } else {
      var o' := TurnMakesProgress(s, o, answering, servers);
      var rest := RefreshCompletes(Next(s, Turn(o, answering), servers), o', answering, servers);
      steps := [Turn(o, answering)] + rest;
      assert steps[1..] == rest;
    }
  }

  /** `Run`, unfolded from the front. */
  function RunOn(s: State, steps: seq<Step>, servers: Servers): State
    decreases |steps|
  {
    if steps == [] then s else RunOn(Next(s, steps[0], servers), steps[1..], servers)
  }

  lemma {:induction false} RunOnSnoc(s: State, steps: seq<Step>, step: Step, servers: Servers)
    ensures RunOn(s, steps + [step], servers) == Next(RunOn(s, steps, servers), step, servers)
    decreases |steps|
  {
    if steps == [] {
      assert [step][1..] == [];
    } else {
      assert (steps + [step])[1..] == steps[1..] + [step];
      RunOnSnoc(Next(s, steps[0], servers), steps[1..], step, servers);
    }
  }

  lemma Then(start: State, steps: seq<Step>, s: State, step: Step, servers: Servers) returns (more: seq<Step>, s': State)
    requires RunOn(start, steps, servers) == s
    ensures s' == Next(s, step, servers) && RunOn(start, more, servers) == s'
  {
    more, s' := steps + [step], Next(s, step, servers);
    RunOnSnoc(start, steps, step, servers);
  }

  lemma TwoFirstCallers(start: State, servers: Servers) returns (p: seq<Step>)
    requires start == State(map[], false, [], []) && servers != map[]
    ensures RunOn(start, p, servers) == State(Initial(servers), false, [WriteInitial, Answer], [])
  {
    var s;
    p, s := Then(start, [], start, Call, servers);
    p, s := Then(start, p, s, Advance(0), servers);
    p, s := Then(start, p, s, Advance(0), servers);
    assert s.callers == [WriteInitial];
    p, s := Then(start, p, s, Call, servers);
    p, s := Then(start, p, s, Advance(1), servers);
    p, s := Then(start, p, s, Advance(1), servers);
    p, s := Then(start, p, s, Advance(1), servers);
    assert s.callers == [WriteInitial, Answer];
  }

  lemma ThirdCaller(start: State, q: seq<Step>, servers: Servers) returns (p: seq<Step>, s: State)
    requires servers != map[]
    requires RunOn(start, q, servers) == State(Initial(servers), false, [WriteInitial, Answer], [])
    ensures RunOn(start, p, servers) == s && s.callers == [WriteInitial, Answer, Answer] && s.workers == [Discover]
  {
    hide Discovered, Answering;
    var n :| n in servers;
    var m := Initial(servers);
    assert m[n] == Configured && Pending(m);
    hide Initial, Pending;
    p, s := Then(start, q, State(m, false, [WriteInitial, Answer], []), Call, servers);
    p, s := Then(start, p, s, Advance(2), servers);
    assert s.callers == [WriteInitial, Answer, Decide(m)];
    p, s := Then(start, p, s, Advance(2), servers);
    p, s := Then(start, p, s, Advance(2), servers);
    p, s := Then(start, p, s, Advance(2), servers);
    assert s.callers == [WriteInitial, Answer, WriteConnecting(m)];
    p, s := Then(start, p, s, Advance(2), servers);
    p, s := Then(start, p, s, Advance(2), servers);
    assert s.callers == [WriteInitial, Answer, Answer];
  }

  /**
   * A published result can be lost: two first callers find no statuses; one writes its initial map, a
   * third caller's refresh publishes, and then the slow one writes its own.
   */
  lemma SlowFirstCallerWins(start: State, servers: Servers, answering: set<string>)
    returns (published: seq<Step>, late: Step)
    requires start == State(map[], false, [], []) && servers != map[]
    ensures RunOn(start, published, servers).status == Discovered(servers, answering)
    ensures RunOn(start, published + [late], servers).status == Initial(servers)
  {
    hide Discovered;
    var p := TwoFirstCallers(start, servers);
    var s;
    p, s := ThirdCaller(start, p, servers);
    p, s := Then(start, p, s, Work(0, answering), servers);
    published, s := Then(start, p, s, Work(0, answering), servers);
    late := Advance(0);
    RunOnSnoc(start, published, late, servers);
  }

  lemma {:induction false} RunIsRunOn(s: State, steps: seq<Step>, servers: Servers)
    ensures Run(s, steps, servers) == RunOn(s, steps, servers)
  {
    if steps != [] {
      var front, last := steps[..|steps| - 1], steps[|steps| - 1];
      RunIsRunOn(s, front, servers);
      RunOnSnoc(s, front, last, servers);
      assert front + [last] == steps;
    }
  }

  /** Nobody refreshes: callers look at the statuses and answer with them. */
  ghost predicate Resting(m: Statuses, s: State) {
    && s.status == m && !s.flag && s.workers == []
    && forall i :: 0 <= i < |s.callers| ==>
         s.callers[i] == Entered || s.callers[i] == Decide(m) || s.callers[i] == Answer || s.callers[i] == Returned(m)
  }

  lemma RestingStep(m: Statuses, s: State, step: Step, servers: Servers)
    requires Final(m, servers) && servers != map[] && Resting(m, s)
    ensures Resting(m, Next(s, step, servers))
  {
    var n :| n in servers;
    assert m[n].Settled?;
    assert !Pending(m) by {
      forall k | k in m ensures m[k] != Connecting && m[k] != Configured { assert m[k].Settled?; }
    }
  }

  /** A host that starts with statuses keeps them: no caller ever finds a reason to refresh. */
  lemma {:induction false} StatusesStay(s: State, steps: seq<Step>, servers: Servers)
    requires Init(s, servers) && servers != map[] && s.status != map[]
    ensures Resting(s.status, Run(s, steps, servers))
  {
    if steps != [] {
      StatusesStay(s, steps[..|steps| - 1], servers);
      RestingStep(s.status, Run(s, steps[..|steps| - 1], servers), steps[|steps| - 1], servers);
    }
  }

  /** Some run settles the statuses and later unsettles them. */
  ghost predicate CanLose(start: State, servers: Servers) {
    exists steps, step ::
      Final(Run(start, steps, servers).status, servers) && !Final(Run(start, steps + [step], servers).status, servers)
  }

  /** A published result can be lost if and only if the host starts without statuses. */
  lemma LostIffStartedEmpty(start: State, servers: Servers)
    requires Init(start, servers) && servers != map[]
    ensures CanLose(start, servers) <==> start.status == map[]
  {
    if start.status == map[] {
      var published, late := SlowFirstCallerWins(start, servers, {});
      RunIsRunOn(start, published, servers);
      RunIsRunOn(start, published + [late], servers);
      DiscoveryIsFinal(servers, {});
      var n :| n in servers;
      assert Initial(servers)[n] == Configured;
    } else {
      forall steps, step ensures Final(Run(start, steps + [step], servers).status, servers) {
        StatusesStay(start, steps + [step], servers);
      }
    }
  }
}
