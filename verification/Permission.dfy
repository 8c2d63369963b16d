/**
 * Permission policy: the executor's in-memory rule table and the store of three layered files.
 * Modes and behaviours are open strings in the source; only the constants below are special.
 */
module Permission {
  import opened Common

  const BYPASS := "bypassPermissions"
  const DENY := "deny"
  const ASK := "ask"

  datatype UpdateType = SetMode | AddRules | ReplaceRules | RemoveRules | OtherType

  datatype Destination = UserSettings | ProjectSettings | LocalSettings | SessionOnly | Unrecognized

  /** A rule may be nil; its tool name may be empty. */
  datatype Update = Update(kind: UpdateType, rules: seq<Option<string>>, behavior: Option<string>,
                           mode: Option<string>, destination: Option<Destination>)

  datatype Policy = Policy(mode: Option<string>, rules: map<string, string>)

  const EMPTY := Policy(None, map[])

  /***** The meaning of an update *****/

  predicate Usable(r: Option<string>) { r.Some? && r.value != "" }

  function Named(up: Update): set<string> {
    set r | r in up.rules && Usable(r) :: r.value
  }

  function BehaviorOf(up: Update): string { if up.behavior.Some? then up.behavior.value else ASK }

  function Entries(up: Update): map<string, string> { map t | t in Named(up) :: BehaviorOf(up) }

  function Apply(p: Policy, up: Update): Policy {
    match up.kind
    case SetMode => p.(mode := up.mode)
    case AddRules => p.(rules := p.rules + Entries(up))
    case ReplaceRules => p.(rules := Entries(up))
    case RemoveRules => p.(rules := p.rules - Named(up))
    case OtherType => p
  }

  function NamedUpTo(up: Update, k: nat): set<string>
    requires k <= |up.rules|
  {
    set r | r in up.rules[..k] && Usable(r) :: r.value
  }

  lemma NamedStep(up: Update, k: nat)
    requires k < |up.rules|
    ensures NamedUpTo(up, k + 1) == NamedUpTo(up, k) + if Usable(up.rules[k]) then {up.rules[k].value} else {}
  {
    assert up.rules[..k + 1] == up.rules[..k] + [up.rules[k]];
  }

  function EntriesUpTo(up: Update, k: nat): map<string, string>
    requires k <= |up.rules|
  {
    map t | t in NamedUpTo(up, k) :: BehaviorOf(up)
  }

  lemma WriteStep(rules: map<string, string>, up: Update, k: nat)
    requires k < |up.rules|
    ensures rules + EntriesUpTo(up, k + 1) ==
            if Usable(up.rules[k]) then (rules + EntriesUpTo(up, k))[up.rules[k].value := BehaviorOf(up)]
            else rules + EntriesUpTo(up, k)
  {
    NamedStep(up, k);
    var a, b := EntriesUpTo(up, k), EntriesUpTo(up, k + 1);
    if Usable(up.rules[k]) {
      assert b == a[up.rules[k].value := BehaviorOf(up)];
    } else {
      assert b == a;
    }
  }

  /** The loop that writes an update's rules. */
  method WriteRules(rules: map<string, string>, up: Update) returns (r: map<string, string>)
    ensures r == rules + Entries(up)
  {
    r := rules;
    var behavior := ASK;
    if up.behavior.Some? { behavior := up.behavior.value; }
    for k := 0 to |up.rules|
      invariant r == rules + EntriesUpTo(up, k)
    {
      WriteStep(rules, up, k);
      if up.rules[k].Some? && up.rules[k].value != "" {
        r := r[up.rules[k].value := behavior];
      }
    }
    assert up.rules[..|up.rules|] == up.rules;
  }

  method DeleteRules(rules: map<string, string>, up: Update) returns (r: map<string, string>)
    ensures r == rules - Named(up)
  {
    r := rules;
    for k := 0 to |up.rules|
      invariant r == rules - NamedUpTo(up, k)
    {
      NamedStep(up, k);
      if up.rules[k].Some? && up.rules[k].value != "" {
        r := r - {up.rules[k].value};
      }
    }
    assert up.rules[..|up.rules|] == up.rules;
  }

  /***** What an update says about one tool *****/

  /** The rule that a policy has for a tool. */
  function RuleOf(p: Policy, t: string): Option<string> { if t in p.rules then Some(p.rules[t]) else None }

  /**
   * What an update says about a tool, if anything: a rule, or no rule. A rule is written with the
   * behaviour of the update, "ask" when it has none; nil rules and empty names are passed over.
   */
  function Ruling(up: Update, t: string): Option<Option<string>> {
    var listed := t != "" && Some(t) in up.rules;
    var rule := Some(match up.behavior case Some(b) => b case None => "ask");
    match up.kind
    case AddRules => if listed then Some(rule) else None
    case ReplaceRules => Some(if listed then rule else None)
    case RemoveRules => if listed then Some(None) else None
    case _ => None
  }

  /** An update changes exactly the rules that it says something about, and the mode if it sets one. */
  lemma UpdateMeans(p: Policy, up: Update)
    ensures forall t :: RuleOf(Apply(p, up), t) == if Ruling(up, t).Some? then Ruling(up, t).value else RuleOf(p, t)
    ensures Apply(p, up).mode == if up.kind.SetMode? then up.mode else p.mode
  {
    forall t ensures t in Named(up) <==> t != "" && Some(t) in up.rules {
      if t != "" && Some(t) in up.rules { assert Usable(Some(t)); }
    }
  }

  /** Update `k` is the last that says anything about the tool. */
  ghost predicate LastRuling(ups: seq<Option<Update>>, k: nat, t: string) {
    && k < |ups| && ups[k].Some? && Ruling(ups[k].value, t).Some?
    && forall j :: k < j < |ups| && ups[j].Some? ==> Ruling(ups[j].value, t).None?
  }

  /** Of a list of updates, the last that says anything about a tool decides its rule. */
  lemma {:induction false} LastRulingDecides(p: Policy, ups: seq<Option<Update>>, k: nat, t: string)
    requires LastRuling(ups, k, t)
    ensures RuleOf(ApplyList(p, ups), t) == Ruling(ups[k].value, t).value
  {
    hide Ruling, Apply, RuleOf;
    var front, last := ups[..|ups| - 1], ups[|ups| - 1];
    if last.Some? { UpdateMeans(ApplyList(p, front), last.value); }
    if k < |front| { LastRulingDecides(p, front, k, t); }
  }

  /** A rule that no update of a list says anything about stays. */
  lemma {:induction false} SilenceKeepsRules(p: Policy, ups: seq<Option<Update>>, t: string)
    requires forall j :: 0 <= j < |ups| && ups[j].Some? ==> Ruling(ups[j].value, t).None?
    ensures RuleOf(ApplyList(p, ups), t) == RuleOf(p, t)
  {
    hide Ruling, Apply, RuleOf;
    if ups != [] {
      var front, last := ups[..|ups| - 1], ups[|ups| - 1];
      if last.Some? { UpdateMeans(ApplyList(p, front), last.value); }
      SilenceKeepsRules(p, front, t);
    }
  }

  /** Update `k` is the last that sets the mode. */
  ghost predicate LastMode(ups: seq<Option<Update>>, k: nat) {
    && k < |ups| && ups[k].Some? && ups[k].value.kind.SetMode?
    && forall j :: k < j < |ups| && ups[j].Some? ==> !ups[j].value.kind.SetMode?
  }

  lemma {:induction false} LastModeDecides(p: Policy, ups: seq<Option<Update>>, k: nat)
    requires LastMode(ups, k)
    ensures ApplyList(p, ups).mode == ups[k].value.mode
  {
    hide Apply;
    var front, last := ups[..|ups| - 1], ups[|ups| - 1];
    if last.Some? { UpdateMeans(ApplyList(p, front), last.value); }
    if k < |front| { LastModeDecides(p, front, k); }
  }

  /**
   * After rules were added or set anew, a tool that they name is denied in every mode but
   * "bypassPermissions" if they say "deny", and in no mode if they say anything else or nothing.
   */
  lemma RulesReachTheGate(p: Policy, ups: seq<Option<Update>>, k: nat, t: string)
    requires LastRuling(ups, k, t) && (ups[k].value.kind.AddRules? || ups[k].value.kind.ReplaceRules?)
    requires t != "" && Some(t) in ups[k].value.rules
    ensures var q := ApplyList(p, ups);
      && t in q.rules
      && (Denies(q, t) <==> q.mode != Some("bypassPermissions") && ups[k].value.behavior == Some("deny"))
  {
    LastRulingDecides(p, ups, k, t);
  }

  lemma {:induction false} ApplyListAppend(p: Policy, xs: seq<Option<Update>>, ys: seq<Option<Update>>)
    ensures ApplyList(p, xs + ys) == ApplyList(ApplyList(p, xs), ys)
  {
    hide Apply;
    if ys == [] {
      assert xs + ys == xs;
    } else {
      assert (xs + ys)[..|xs + ys| - 1] == xs + ys[..|ys| - 1];
      ApplyListAppend(p, xs, ys[..|ys| - 1]);
    }
  }

  lemma ApplyListOne(p: Policy, up: Option<Update>)
    ensures ApplyList(p, [up]) == if up.Some? then Apply(p, up.value) else p
  {
    assert [up][..0] == [];
  }

  /***** Layers: user, then project, then local settings *****/

  datatype File = Missing | Corrupt | Stored(policy: Policy)

  datatype Layers = Layers(user: File, project: File, local: File)

  function Content(f: File): Policy { if f.Stored? then f.policy else EMPTY }

  function Over(below: Policy, above: Policy): Policy {
    Policy(if above.mode.Some? then above.mode else below.mode, below.rules + above.rules)
  }

  function Stack(files: seq<File>, k: nat): Policy
    requires k <= |files|
  {
    if k == 0 then EMPTY else Over(Stack(files, k - 1), Content(files[k - 1]))
  }

  predicate Readable(l: Layers) { !l.user.Corrupt? && !l.project.Corrupt? && !l.local.Corrupt? }

  function Merged(l: Layers): Policy {
    Over(Over(Content(l.user), Content(l.project)), Content(l.local))
  }

  /** What a new executor starts with, given the mode in its options. */
  function Fresh(optionMode: Option<string>, l: Layers): Policy {
    if Readable(l) then Over(Policy(optionMode, map[]), Merged(l)) else Policy(optionMode, map[])
  }

  function At(l: Layers, d: Destination): File
    requires !d.SessionOnly? && !d.Unrecognized?
  {
    match d case UserSettings => l.user case ProjectSettings => l.project case LocalSettings => l.local
  }

  function With(l: Layers, d: Destination, f: File): Layers
    requires !d.SessionOnly? && !d.Unrecognized?
  {
    match d
    case UserSettings => l.(user := f)
    case ProjectSettings => l.(project := f)
    case LocalSettings => l.(local := f)
  }

  predicate Persists(up: Update) {
    up.destination.Some? && !up.destination.value.SessionOnly? && !up.destination.value.Unrecognized?
  }

  /** The files after an update that was written. */
  function Persisted(l: Layers, up: Update): Layers {
    if Persists(up) && !At(l, up.destination.value).Corrupt?
    then With(l, up.destination.value, Stored(Apply(Content(At(l, up.destination.value)), up)))
    else l
  }

  /** The rule that a file has for a tool. */
  function FileRule(f: File, t: string): Option<string> {
    match f case Stored(policy) => RuleOf(policy, t) case _ => None
  }

  function FileMode(f: File): Option<string> { match f case Stored(policy) => policy.mode case _ => None }

  /** The first that is there. */
  function First(a: Option<string>, b: Option<string>, c: Option<string>): Option<string> {
    if a.Some? then a else if b.Some? then b else c
  }

  /**
   * A new executor has each rule from the topmost file that has it, and the mode from the topmost file
   * that sets one, or else the mode of its options. With an unreadable file it has no rules.
   */
  lemma TopmostFileWins(optionMode: Option<string>, l: Layers, t: string)
    ensures if l.user == Corrupt || l.project == Corrupt || l.local == Corrupt
            then Fresh(optionMode, l) == Policy(optionMode, map[])
            else
              && RuleOf(Fresh(optionMode, l), t) == First(FileRule(l.local, t), FileRule(l.project, t), FileRule(l.user, t))
              && Fresh(optionMode, l).mode ==
                   First(First(FileMode(l.local), FileMode(l.project), FileMode(l.user)), optionMode, None)
  {
  }

  /** The policy of a file with an update applied; a missing file is an empty policy. */
  ghost predicate Holds(f: File, before: File, up: Update) {
    && f.Stored?
    && (forall t :: RuleOf(f.policy, t) == if Ruling(up, t).Some? then Ruling(up, t).value else FileRule(before, t))
    && f.policy.mode == if up.kind.SetMode? then up.mode else FileMode(before)
  }

  /** An update is written to the file of its destination and to no other; without one, to none. */
  lemma UpdateIsWritten(l: Layers, up: Update)
    ensures var l' := Persisted(l, up);
      && (if up.destination == Some(UserSettings) && !l.user.Corrupt? then Holds(l'.user, l.user, up) else l'.user == l.user)
      && (if up.destination == Some(ProjectSettings) && !l.project.Corrupt? then Holds(l'.project, l.project, up)
          else l'.project == l.project)
      && (if up.destination == Some(LocalSettings) && !l.local.Corrupt? then Holds(l'.local, l.local, up) else l'.local == l.local)
  {
    hide Ruling, Apply;
    if Persists(up) { UpdateMeans(Content(At(l, up.destination.value)), up); }
  }

  class Store {
    var layers: Layers

    constructor (layers: Layers)
      ensures this.layers == layers
    {
      this.layers := layers;
    }

    /** `LoadMerged`: an unreadable file is an error. */
    method LoadMerged() returns (r: Option<Policy>)
      ensures r == if Readable(layers) then Some(Merged(layers)) else None
    {
      var out := EMPTY;
      var files := [layers.user, layers.project, layers.local];
      for i := 0 to 3
        invariant forall j :: 0 <= j < i ==> !files[j].Corrupt?
        invariant out == Stack(files, i)
      {
        match files[i]
        case Corrupt => return None;
        case Missing =>
          assert out.rules + EMPTY.rules == out.rules;
        case Stored(pol) =>
          if pol.mode.Some? { out := out.(mode := pol.mode); }
          out := out.(rules := out.rules + pol.rules);
      }
      assert EMPTY.rules + Content(files[0]).rules == Content(files[0]).rules;
      assert Stack(files, 1) == Content(files[0]);
      assert Stack(files, 2) == Over(Content(files[0]), Content(files[1]));
      return Some(out);
    }

    /** `applyUpdate`, the store's own version. */
    static method ApplyUpdate(pol: Policy, up: Update) returns (r: Policy)
      ensures r == Apply(pol, up)
      ensures forall t :: RuleOf(r, t) == if Ruling(up, t).Some? then Ruling(up, t).value else RuleOf(pol, t)
      ensures r.mode == if up.kind.SetMode? then up.mode else pol.mode
    {
      hide RuleOf, Ruling;
      UpdateMeans(pol, up);
      r := pol;
      match up.kind
      case SetMode => r := r.(mode := up.mode);
      case AddRules =>
        var rules := WriteRules(r.rules, up);
        r := r.(rules := rules);
      case ReplaceRules =>
        var rules := WriteRules(map[], up);
        assert map[] + Entries(up) == Entries(up);
        r := r.(rules := rules);
      case RemoveRules =>
        var rules := DeleteRules(r.rules, up);
        r := r.(rules := rules);
      case OtherType =>
    }

    /** `ApplyPersistentUpdate`. A save that fails may leave anything in the file. */
    method ApplyPersistentUpdate(up: Update) returns (ok: bool)
      modifies this
      ensures ok ==> layers == Persisted(old(layers), up)
      ensures !ok ==> Persists(up) && layers == With(old(layers), up.destination.value, At(layers, up.destination.value))
      ensures ok && Persists(up) ==> !At(old(layers), up.destination.value).Corrupt?
    {
      if up.destination.None? || up.destination.value.SessionOnly? || up.destination.value.Unrecognized? {
        return true;
      }
      var d := up.destination.value;
      var file := At(layers, d);
      if file.Corrupt? {
        assert layers == With(layers, d, file);
        return false;
      }
      var pol := if file.Missing? then EMPTY else file.policy;
      pol := ApplyUpdate(pol, up);
      ok := *;
      var left: File := *;
      layers := With(layers, d, if ok then Stored(pol) else left);
    }
  }

  /***** The executor's policy state *****/

  predicate Denies(p: Policy, tool: string) {
    p.mode != Some(BYPASS) && tool in p.rules && p.rules[tool] == DENY
  }

  function ApplyList(p: Policy, ups: seq<Option<Update>>): Policy {
    if ups == [] then p
    else
      var before := ApplyList(p, ups[..|ups| - 1]);
      if ups[|ups| - 1].Some? then Apply(before, ups[|ups| - 1].value) else before
  }

  class PolicyState {
    var mode: Option<string>
    var rules: map<string, string>
    const store: Store

    ghost function Current(): Policy
      reads this
    {
      Policy(mode, rules)
    }

    /** The policy part of `NewExecutor`; an empty mode option is no mode. */
    constructor (optionMode: string, store: Store)
      ensures this.store == store
      ensures Current() == Fresh(if optionMode == "" then None else Some(optionMode), store.layers)
    {
      this.store := store;
      this.mode := None;
      this.rules := map[];
      new;
      if optionMode != "" { mode := Some(optionMode); }
      var pol := store.LoadMerged();
      if pol.Some? {
        if pol.value.mode.Some? { mode := pol.value.mode; }
        rules := rules + pol.value.rules;
      }
    }

    /** `evaluatePolicy`. */
    method EvaluatePolicy(tool: string) returns (deny: bool)
      ensures deny == Denies(Current(), tool)
      ensures deny <==> mode != Some("bypassPermissions") && tool in rules && rules[tool] == "deny"
    {
      if mode == Some(BYPASS) { return false; }
      if tool !in rules { return false; }
      return rules[tool] == DENY;
    }

    method SetMode(m: string)
      modifies this
      ensures Current() == old(Current()).(mode := Some(m))
    {
      mode := Some(m);
    }

    /** One round of `ApplyPermissionUpdates`: adding and replacing share a branch here. */
    method ApplyOne(up: Update)
      modifies this
      ensures Current() == Apply(old(Current()), up)
    {
      if up.kind.SetMode? {
        mode := up.mode;
      } else if up.kind.AddRules? || up.kind.ReplaceRules? {
        if up.kind.ReplaceRules? { rules := map[]; }
        rules := WriteRules(rules, up);
        assert map[] + Entries(up) == Entries(up);
      } else if up.kind.RemoveRules? {
        rules := DeleteRules(rules, up);
      }
    }

    /** `ApplyPermissionUpdates`. The outcome of each write is ignored. */
    method ApplyPermissionUpdates(ups: seq<Option<Update>>) returns (written: bool)
      modifies this, store
      ensures Current() == ApplyList(old(Current()), ups)
      ensures forall k: nat, t :: LastRuling(ups, k, t) ==> RuleOf(Current(), t) == Ruling(ups[k].value, t).value
      ensures forall k: nat :: LastMode(ups, k) ==> Current().mode == ups[k].value.mode
      ensures written ==> store.layers == PersistedList(old(store.layers), ups)
    {
      hide RuleOf, Ruling, Apply, LastRuling, LastMode;
      written := true;
      for k := 0 to |ups|
        invariant Current() == ApplyList(old(Current()), ups[..k])
        invariant written ==> store.layers == PersistedList(old(store.layers), ups[..k])
      {
        assert ups[..k + 1][..k] == ups[..k];
        if ups[k].Some? {
          ApplyOne(ups[k].value);
          var ok := store.ApplyPersistentUpdate(ups[k].value);
          written := written && ok;
        }
      }
      assert ups[..|ups|] == ups;
      LastRulingsDecide(old(Current()), ups);
    }
  }

  lemma LastRulingsDecide(p: Policy, ups: seq<Option<Update>>)
    ensures forall k: nat, t :: LastRuling(ups, k, t) ==> RuleOf(ApplyList(p, ups), t) == Ruling(ups[k].value, t).value
    ensures forall k: nat :: LastMode(ups, k) ==> ApplyList(p, ups).mode == ups[k].value.mode
  {
    forall k: nat, t | LastRuling(ups, k, t) ensures RuleOf(ApplyList(p, ups), t) == Ruling(ups[k].value, t).value {
      LastRulingDecides(p, ups, k, t);
    }
    forall k: nat | LastMode(ups, k) ensures ApplyList(p, ups).mode == ups[k].value.mode { LastModeDecides(p, ups, k); }
  }

  function PersistedList(l: Layers, ups: seq<Option<Update>>): Layers {
    if ups == [] then l
    else
      var before := PersistedList(l, ups[..|ups| - 1]);
      if ups[|ups| - 1].Some? then Persisted(before, ups[|ups| - 1].value) else before
  }

  /***** Coherence: memory against a reload *****/

  ghost predicate Coherent(optionMode: Option<string>, memory: Policy, l: Layers) {
    memory == Fresh(optionMode, l)
  }

  /** The layers under and over a destination. The option mode lies under all of them. */
  function Below(optionMode: Option<string>, l: Layers, d: Destination): Policy
    requires !d.SessionOnly? && !d.Unrecognized?
  {
    var base := Policy(optionMode, map[]);
    match d
    case UserSettings => base
    case ProjectSettings => Over(base, Content(l.user))
    case LocalSettings => Over(Over(base, Content(l.user)), Content(l.project))
  }

  function Above(l: Layers, d: Destination): Policy
    requires !d.SessionOnly? && !d.Unrecognized?
  {
    match d
    case UserSettings => Over(Content(l.project), Content(l.local))
    case ProjectSettings => Content(l.local)
    case LocalSettings => EMPTY
  }

  /** What a caller can check before sending an update to a file: nothing shows through. */
  ghost predicate NothingShowsThrough(up: Update, below: Policy, above: Policy) {
    match up.kind
    case SetMode =>
      if up.mode.Some? then above.mode.None? || above.mode == up.mode
      else above.mode.None? && below.mode.None?
    case AddRules => forall t :: t in Named(up) && t in above.rules ==> above.rules[t] == BehaviorOf(up)
    case ReplaceRules =>
      below.rules.Keys <= Named(up) &&
      forall t :: t in above.rules ==> t in Named(up) && above.rules[t] == BehaviorOf(up)
    case RemoveRules => Named(up) !! below.rules.Keys && Named(up) !! above.rules.Keys
    case OtherType => true
  }

  lemma OverAssociative(a: Policy, b: Policy, c: Policy)
    ensures Over(Over(a, b), c) == Over(a, Over(b, c))
  {
    assert a.rules + b.rules + c.rules == a.rules + (b.rules + c.rules);
  }

  lemma FreshByDestination(optionMode: Option<string>, l: Layers, d: Destination)
    requires Readable(l) && !d.SessionOnly? && !d.Unrecognized?
    ensures Fresh(optionMode, l) == Over(Over(Below(optionMode, l, d), Content(At(l, d))), Above(l, d))
  {
    var base, u, p, c := Policy(optionMode, map[]), Content(l.user), Content(l.project), Content(l.local);
    OverAssociative(base, Over(u, p), c);
    OverAssociative(base, u, p);
    OverAssociative(Over(base, u), p, c);
    assert forall x: Policy :: x.rules + map[] == x.rules;
  }

  /**
   * One written update: memory still equals a reload if and only if nothing of the other layers
   * shows through it.
   */
  lemma CoherentAfterUpdate(optionMode: Option<string>, l: Layers, up: Update)
    requires Readable(l) && Persists(up)
    ensures Coherent(optionMode, Apply(Fresh(optionMode, l), up), Persisted(l, up)) <==>
            NothingShowsThrough(up, Below(optionMode, l, up.destination.value), Above(l, up.destination.value))
  {
    var d := up.destination.value;
    var l' := Persisted(l, up);
    FreshByDestination(optionMode, l, d);
    FreshByDestination(optionMode, l', d);
    LayeredUpdate(Below(optionMode, l, d), Content(At(l, d)), Above(l, d), up);
  }

  /** Memory, updated on the merged policy, against a merge with the updated layer. */
  predicate ShownAs(below: Policy, own: Policy, above: Policy, up: Update) {
    Apply(Over(Over(below, own), above), up) == Over(Over(below, Apply(own, up)), above)
  }

  lemma LayeredSet(below: Policy, own: Policy, above: Policy, up: Update)
    requires up.kind.SetMode?
    ensures ShownAs(below, own, above, up) <==> NothingShowsThrough(up, below, above)
  {
  }

  lemma LayeredAdds(below: Policy, own: Policy, above: Policy, up: Update)
    requires up.kind.AddRules?
    ensures ShownAs(below, own, above, up) <==> NothingShowsThrough(up, below, above)
  {
    LayeredAdd(below.rules, own.rules, above.rules, Entries(up));
  }

  lemma LayeredReplaces(below: Policy, own: Policy, above: Policy, up: Update)
    requires up.kind.ReplaceRules?
    ensures ShownAs(below, own, above, up) <==> NothingShowsThrough(up, below, above)
  {
    LayeredReplace(below.rules, above.rules, Entries(up));
  }

  lemma LayeredRemoves(below: Policy, own: Policy, above: Policy, up: Update)
    requires up.kind.RemoveRules?
    ensures ShownAs(below, own, above, up) <==> NothingShowsThrough(up, below, above)
  {
    LayeredRemove(below.rules, own.rules, above.rules, Named(up));
  }

  lemma LayeredOther(below: Policy, own: Policy, above: Policy, up: Update)
    requires up.kind.OtherType?
    ensures ShownAs(below, own, above, up) <==> NothingShowsThrough(up, below, above)
  {
  }

  lemma LayeredUpdate(below: Policy, own: Policy, above: Policy, up: Update)
    ensures ShownAs(below, own, above, up) <==> NothingShowsThrough(up, below, above)
  {
    hide ShownAs, NothingShowsThrough;
    match up.kind
    case SetMode => LayeredSet(below, own, above, up);
    case AddRules => LayeredAdds(below, own, above, up);
    case ReplaceRules => LayeredReplaces(below, own, above, up);
    case RemoveRules => LayeredRemoves(below, own, above, up);
    case OtherType => LayeredOther(below, own, above, up);
  }

  lemma LayeredAdd(b: map<string, string>, o: map<string, string>, a: map<string, string>, n: map<string, string>)
    ensures b + o + a + n == b + (o + n) + a <==> forall t :: t in n && t in a ==> a[t] == n[t]
  {
    var m, r := b + o + a + n, b + (o + n) + a;
    if m == r {
      forall t | t in n && t in a ensures a[t] == n[t] { assert m[t] == n[t] && r[t] == a[t]; }
    }
  }

  lemma LayeredReplace(b: map<string, string>, a: map<string, string>, n: map<string, string>)
    ensures n == b + n + a <==> b.Keys <= n.Keys && forall t :: t in a ==> t in n && a[t] == n[t]
  {
    var r := b + n + a;
    if n == r {
      forall t | t in b ensures t in n { assert t in r; }
      forall t | t in a ensures t in n && a[t] == n[t] { assert t in r && r[t] == a[t]; }
    }
  }

  lemma LayeredRemove(b: map<string, string>, o: map<string, string>, a: map<string, string>, n: set<string>)
    ensures b + o + a - n == b + (o - n) + a <==> n !! b.Keys && n !! a.Keys
  {
    var m, r := b + o + a - n, b + (o - n) + a;
    if m == r {
      forall t | t in n ensures t !in b && t !in a { assert t !in m; }
    }
  }

  /** What a caller can check before an update: the policy already says what it would say. */
  ghost predicate SaysAlready(p: Policy, up: Update) {
    match up.kind
    case SetMode => up.mode == p.mode
    case AddRules => forall t :: t in Named(up) ==> t in p.rules && p.rules[t] == BehaviorOf(up)
    case ReplaceRules => p.rules.Keys == Named(up) && forall t :: t in p.rules ==> p.rules[t] == BehaviorOf(up)
    case RemoveRules => Named(up) !! p.rules.Keys
    case OtherType => true
  }

  lemma AddingChanges(r: map<string, string>, n: map<string, string>)
    ensures r + n == r <==> forall t :: t in n ==> t in r && r[t] == n[t]
  {
    if r + n == r {
      forall t | t in n ensures t in r && r[t] == n[t] { assert t in r + n; }
    }
  }

  lemma RemovingChanges(r: map<string, string>, n: set<string>)
    ensures r - n == r <==> n !! r.Keys
  {
    if r - n == r {
      forall t | t in n ensures t !in r { assert t !in r - n; }
    }
  }

  /** An update changes nothing exactly when the policy says so already. */
  lemma UpdateChangesNothing(p: Policy, up: Update)
    ensures Apply(p, up) == p <==> SaysAlready(p, up)
  {
    AddingChanges(p.rules, Entries(up));
    RemovingChanges(p.rules, Named(up));
    assert Entries(up).Keys == Named(up);
  }

  /**
   * An update that no file takes: memory still equals a reload if and only if the reloaded policy
   * says already what the update says.
   */
  lemma SessionUpdateCoherence(optionMode: Option<string>, l: Layers, up: Update)
    requires !Persists(up)
    ensures Coherent(optionMode, Apply(Fresh(optionMode, l), up), Persisted(l, up)) <==> SaysAlready(Fresh(optionMode, l), up)
  {
    UpdateChangesNothing(Fresh(optionMode, l), up);
  }

  /** Updates that a local file always absorbs: rules added, or a mode set. */
  predicate LocalGrowth(up: Update) {
    up.destination == Some(LocalSettings) && (up.kind.AddRules? || (up.kind.SetMode? && up.mode.Some?))
  }

  /** Over any run of such updates with successful writes, memory equals a reload. */
  lemma {:induction false} CoherentOverRuns(optionMode: Option<string>, l: Layers, ups: seq<Option<Update>>)
    requires Readable(l)
    requires forall i :: 0 <= i < |ups| && ups[i].Some? ==> LocalGrowth(ups[i].value)
    ensures Readable(PersistedList(l, ups))
    ensures Coherent(optionMode, ApplyList(Fresh(optionMode, l), ups), PersistedList(l, ups))
  {
    if ups != [] {
      var front := ups[..|ups| - 1];
      CoherentOverRuns(optionMode, l, front);
      if ups[|ups| - 1].Some? {
        CoherentAfterUpdate(optionMode, PersistedList(l, front), ups[|ups| - 1].value);
      }
    }
  }

  /** Removing a rule from the local file lets a user rule show through on reload. */
  lemma RemovedRuleReturns(l: Layers, up: Update)
    requires l == Layers(Stored(Policy(None, map["t" := "deny"])), Missing, Missing)
    requires up == Update(RemoveRules, [Some("t")], None, None, Some(LocalSettings))
    ensures !Denies(Apply(Fresh(None, l), up), "t") && Denies(Fresh(None, Persisted(l, up)), "t")
  {
    assert Some("t") in up.rules;
    assert "t" in Named(up);
  }
}
