/** Assembly of tool calls from streamed deltas, and from tagged text when there are none. */
module ToolCalls {
  import opened Common
  import opened Text
  import opened Tags

  datatype ToolDelta = ToolDelta(index: int, id: string, name: string, args: string)

  /** `pendingToolCall`: identifier, tool name and the argument text received so far. */
  datatype Call = Call(id: string, name: string, args: string)

  type Pending = map<int, Call>

  /***** Assembly *****/

  function Absorb(calls: Pending, d: ToolDelta): Pending {
    var c := if d.index in calls then calls[d.index] else Call("", "", "");
    calls[d.index := Call(if d.id != "" then d.id else c.id,
                          if d.name != "" then d.name else c.name,
                          c.args + d.args)]
  }

  function AbsorbAll(calls: Pending, ds: seq<ToolDelta>): Pending {
    if ds == [] then calls else Absorb(AbsorbAll(calls, ds[..|ds| - 1]), ds[|ds| - 1])
  }

  /** The delta loop of `runStream`. */
  method AbsorbDeltas(calls: Pending, ds: seq<ToolDelta>) returns (r: Pending)
    ensures r == AbsorbAll(calls, ds)
  {
    r := calls;
    for k := 0 to |ds|
      invariant r == AbsorbAll(calls, ds[..k])
    {
      assert ds[..k + 1][..k] == ds[..k];
      var td := ds[k];
      var pc := if td.index in r then r[td.index] else Call("", "", "");
      if td.id != "" { pc := pc.(id := td.id); }
      if td.name != "" { pc := pc.(name := td.name); }
      if td.args != "" { pc := pc.(args := pc.args + td.args); }
      r := r[td.index := pc];
      assert td.args == "" ==> pc.args + td.args == pc.args;
    }
    assert ds[..|ds|] == ds;
  }

  /** The fragments of one call, in arrival order. */
  function Of(ds: seq<ToolDelta>, index: int): seq<ToolDelta> {
    if ds == [] then []
    else Of(ds[..|ds| - 1], index) + if ds[|ds| - 1].index == index then [ds[|ds| - 1]] else []
  }

  /** Identifier and name: the last non-empty ones. Arguments: every fragment in arrival order. */
  ghost predicate AssembledFrom(c: Call, ds: seq<ToolDelta>) {
    && c.id == LastNonEmpty(Ids(ds))
    && c.name == LastNonEmpty(Names(ds))
    && c.args == Flatten(Args(ds))
  }

  function Ids(ds: seq<ToolDelta>): seq<string> { seq(|ds|, i requires 0 <= i < |ds| => ds[i].id) }

  function Names(ds: seq<ToolDelta>): seq<string> { seq(|ds|, i requires 0 <= i < |ds| => ds[i].name) }

  function Args(ds: seq<ToolDelta>): seq<string> { seq(|ds|, i requires 0 <= i < |ds| => ds[i].args) }

  function LastNonEmpty(ss: seq<string>): string {
    if ss == [] then ""
    else if ss[|ss| - 1] != "" then ss[|ss| - 1]
    else LastNonEmpty(ss[..|ss| - 1])
  }

  lemma AssembledEmpty()
    ensures AssembledFrom(Call("", "", ""), [])
  {
    assert Args([]) == [] && Ids([]) == [] && Names([]) == [];
  }

  lemma AssembledSnoc(c: Call, ds: seq<ToolDelta>, d: ToolDelta)
    requires AssembledFrom(c, ds)
    ensures AssembledFrom(Call(if d.id != "" then d.id else c.id, if d.name != "" then d.name else c.name, c.args + d.args), ds + [d])
  {
    assert Ids(ds + [d]) == Ids(ds) + [d.id];
    assert Names(ds + [d]) == Names(ds) + [d.name];
    assert Args(ds + [d]) == Args(ds) + [d.args];
    assert (Ids(ds) + [d.id])[..|ds|] == Ids(ds);
    assert (Names(ds) + [d.name])[..|ds|] == Names(ds);
    FlattenSnoc(Args(ds), d.args);
  }

  /** What a call ends up as depends on its own fragments only. */
  lemma {:induction false} AssemblyPerIndex(ds: seq<ToolDelta>, index: int)
    ensures index in AbsorbAll(map[], ds) <==> Of(ds, index) != []
    ensures index in AbsorbAll(map[], ds) ==> AssembledFrom(AbsorbAll(map[], ds)[index], Of(ds, index))
  {
    if ds != [] {
      var front, d := ds[..|ds| - 1], ds[|ds| - 1];
      AssemblyPerIndex(front, index);
      if d.index == index {
        AssemblyStep(AbsorbAll(map[], front), d, Of(front, index));
        assert Of(ds, index) == Of(front, index) + [d];
      } else {
        assert Of(ds, index) == Of(front, index);
      }
    }
  }

  lemma AssemblyStep(calls: Pending, d: ToolDelta, ds: seq<ToolDelta>)
    requires d.index in calls ==> AssembledFrom(calls[d.index], ds)
    requires d.index !in calls ==> ds == []
    ensures AssembledFrom(Absorb(calls, d)[d.index], ds + [d])
  {
    AssembledEmpty();
    AssembledSnoc(if d.index in calls then calls[d.index] else Call("", "", ""), ds, d);
  }

  lemma AssembledFromIsUnique(a: Call, b: Call, ds: seq<ToolDelta>)
    requires AssembledFrom(a, ds) && AssembledFrom(b, ds)
    ensures a == b
  {
  }

  /***** orderCalls *****/

  /** `keys` are the non-negative indices, ascending, and `out` the calls at them. */
  ghost predicate Listing(calls: Pending, keys: seq<int>, out: seq<Call>) {
    && |keys| == |out|
    && (forall i, j :: 0 <= i < j < |keys| ==> keys[i] < keys[j])
    && (forall k :: k in keys <==> k in calls && k >= 0)
    && forall i :: 0 <= i < |keys| ==> keys[i] in calls && out[i] == calls[keys[i]]
  }

  method MaxIndex(calls: Pending) returns (max: int)
    ensures max >= -1 && forall k :: k in calls ==> k <= max
  {
    max := -1;
    var left: set<int> := calls.Keys;
    while left != {}
      invariant left <= calls.Keys && max >= -1
      invariant forall k :: k in calls ==> k in left || k <= max
      decreases |left|
    {
      var i := Pick(left);
      left := left - {i};
      if i > max { max := i; }
    }
  }

  /** `orderCalls`. The first loop ranges over a map, so in no particular order. */
  method OrderCalls(calls: Pending) returns (out: seq<Call>)
    ensures exists keys :: Listing(calls, keys, out)
  {
    out := [];
    ghost var keys: seq<int> := [];
    var max := MaxIndex(calls);
    for i := 0 to max + 1
      invariant |keys| == |out|
      invariant forall j, k :: 0 <= j < k < |keys| ==> keys[j] < keys[k]
      invariant forall k :: k in keys <==> k in calls && 0 <= k < i
      invariant forall j :: 0 <= j < |keys| ==> keys[j] in calls && out[j] == calls[keys[j]]
    {
      if i in calls {
        assert forall j :: 0 <= j < |keys| ==> keys[j] in keys;
        out, keys := out + [calls[i]], keys + [i];
      }
    }
    assert Listing(calls, keys, out);
  }

  lemma SameElementsEmpty(a: seq<int>, b: seq<int>)
    requires a != [] && forall k :: k in a ==> k in b
    ensures b != []
  {
    var x := a[0];
    assert x in a;
    assert x in b;
  }

  /** There is one listing. */
  lemma {:induction false} ListingIsUnique(a: seq<int>, b: seq<int>)
    requires forall i, j :: 0 <= i < j < |a| ==> a[i] < a[j]
    requires forall i, j :: 0 <= i < j < |b| ==> b[i] < b[j]
    requires forall k :: k in a <==> k in b
    ensures a == b
  {
    if a != [] && b != [] {
      var x, y := a[|a| - 1], b[|b| - 1];
      assert x in b && y in a;
      assert x == y;
      var a', b' := a[..|a| - 1], b[..|b| - 1];
      forall k ensures k in a' <==> k in b' {
        assert k in a' <==> k in a && k != x;
        assert k in b' <==> k in b && k != x;
      }
      ListingIsUnique(a', b');
      assert a == a' + [x] && b == b' + [y];
    } else {
      if a != [] { SameElementsEmpty(a, b); }
      if b != [] { SameElementsEmpty(b, a); }
    }
  }

  /**
   * Interleaving does not matter: two delta streams that agree on the fragments of each call give
   * the same calls in the same order, each assembled from its own fragments.
   */
  lemma InterleavingInvariance(d1: seq<ToolDelta>, d2: seq<ToolDelta>, k1: seq<int>, k2: seq<int>,
                               o1: seq<Call>, o2: seq<Call>)
    requires forall i :: Of(d1, i) == Of(d2, i)
    requires Listing(AbsorbAll(map[], d1), k1, o1) && Listing(AbsorbAll(map[], d2), k2, o2)
    ensures o1 == o2 && k1 == k2
    ensures forall j :: 0 <= j < |o1| ==> AssembledFrom(o1[j], Of(d1, k1[j]))
  {
    var c1, c2 := AbsorbAll(map[], d1), AbsorbAll(map[], d2);
    forall i ensures i in c1 <==> i in c2 {
      AssemblyPerIndex(d1, i);
      AssemblyPerIndex(d2, i);
    }
    ListingIsUnique(k1, k2);
    forall j | 0 <= j < |o1| ensures o1[j] == o2[j] && AssembledFrom(o1[j], Of(d1, k1[j])) {
      AssemblyPerIndex(d1, k1[j]);
      AssemblyPerIndex(d2, k1[j]);
      AssembledFromIsUnique(o1[j], o2[j], Of(d1, k1[j]));
    }
  }

  /** A call is executed exactly when its index is not negative: the others are dropped. */
  lemma NegativeIndexIsDropped(ds: seq<ToolDelta>, keys: seq<int>, out: seq<Call>, index: int)
    requires Listing(AbsorbAll(map[], ds), keys, out) && Of(ds, index) != []
    ensures index in keys <==> index >= 0
  {
    AssemblyPerIndex(ds, index);
  }

  /***** Calls written as text: extractInlineToolCalls *****/

  /**
   * The two readings of a block body, as functions of its text: JSON with a name and arguments, and
   * the `<function=...>` form.
   */
  datatype Readers = Readers(hermes: string -> Option<(string, string)>, qwen: string -> Option<(string, string)>) {
    function Read(inner: string): Option<(string, string)> {
      var h := hermes(inner);
      if h.Some? && h.value.0 != "" then Some((h.value.0, if h.value.1 == "" then "{}" else h.value.1))
      else
        var q := qwen(TrimSpace(inner));
        if q.Some? && TrimSpace(q.value.0) != "" then Some((TrimSpace(q.value.0), q.value.1)) else None
    }
  }

  /** Deltas of the readable blocks, numbered by block position. */
  function InlineFrom(inners: seq<string>, r: Readers, first: int): seq<ToolDelta> {
    if inners == [] then []
    else Readable(inners[0], r, first) + InlineFrom(inners[1..], r, first + 1)
  }

  function Readable(inner: string, r: Readers, i: int): (ds: seq<ToolDelta>)
    ensures |ds| <= 1 && forall k :: 0 <= k < |ds| ==> ds[k].index == i && ds[k].id == ""
  {
    var c := r.Read(inner);
    if c.Some? then [ToolDelta(i, "", c.value.0, c.value.1)] else []
  }

  method ExtractInlineToolCalls(text: string, tag: Tag, r: Readers) returns (out: seq<ToolDelta>)
    requires tag.open != "" && tag.close != ""
    ensures out == InlineFrom(Inners(CutAt(text, tag)), r, 0)
  {
    out := [];
    var i := 0;
    var rest := text;
    ghost var cuts := CutAt(text, tag);
    ghost var all := InlineFrom(Inners(cuts), r, 0);
    var found, before, inner, after := NextBlock(rest, tag);
    while found
      invariant cuts == CutAt(rest, tag)
      invariant if found then |after| < |rest| && cuts == Block(before, inner, CutAt(after, tag)) else cuts == Rest(rest)
      invariant out + InlineFrom(Inners(cuts), r, i) == all
      decreases |rest|
    {
      InlineStep(out, cuts, r, i);
      var ds := ReadBlock(inner, r, i);
      out := out + ds;
      i, rest, cuts := i + 1, after, cuts.more;
      found, before, inner, after := NextBlock(rest, tag);
    }
    assert InlineFrom([], r, i) == [];
  }

  /** One round of the loop: the JSON reading first, the other when it gives no name. */
  method ReadBlock(inner: string, r: Readers, i: int) returns (ds: seq<ToolDelta>)
    ensures ds == Readable(inner, r, i)
  {
    var h := r.hermes(inner);
    if h.Some? && h.value.0 != "" {
      return [ToolDelta(i, "", h.value.0, if h.value.1 == "" then "{}" else h.value.1)];
    }
    var q := r.qwen(TrimSpace(inner));
    if q.None? { return []; }
    var name := TrimSpace(q.value.0);
    if name == "" { return []; }
    return [ToolDelta(i, "", name, q.value.1)];
  }

  lemma InlineStep(out: seq<ToolDelta>, c: Cuts, r: Readers, i: int)
    requires c.Block?
    ensures out + Readable(c.inner, r, i) + InlineFrom(Inners(c.more), r, i + 1) == out + InlineFrom(Inners(c), r, i)
  {
    assert Inners(c)[1..] == Inners(c.more);
  }

  /** The synthesis loop of `runStream`: names go through the registry's resolver. */
  function Synthesize(ds: seq<ToolDelta>, resolve: string -> string): Pending {
    if ds == [] then map[]
    else
      var d := ds[|ds| - 1];
      Synthesize(ds[..|ds| - 1], resolve)[d.index := Call(d.id, resolve(d.name), d.args)]
  }

  method SynthesizeCalls(ds: seq<ToolDelta>, resolve: string -> string) returns (calls: Pending)
    ensures calls == Synthesize(ds, resolve)
  {
    calls := map[];
    for k := 0 to |ds|
      invariant calls == Synthesize(ds[..k], resolve)
    {
      assert ds[..k + 1][..k] == ds[..k];
      calls := calls[ds[k].index := Call(ds[k].id, resolve(ds[k].name), ds[k].args)];
    }
    assert ds[..|ds|] == ds;
  }

  ghost predicate Ascending(ds: seq<ToolDelta>, first: int) {
    && (forall i :: 0 <= i < |ds| ==> first <= ds[i].index)
    && forall i, j :: 0 <= i < j < |ds| ==> ds[i].index < ds[j].index
  }

  lemma {:induction false} InlineAscending(inners: seq<string>, r: Readers, first: int)
    ensures Ascending(InlineFrom(inners, r, first), first)
    ensures forall i :: 0 <= i < |InlineFrom(inners, r, first)| ==> InlineFrom(inners, r, first)[i].id == ""
  {
    if inners != [] {
      InlineAscending(inners[1..], r, first + 1);
      AscendingCons(Readable(inners[0], r, first), InlineFrom(inners[1..], r, first + 1), first);
    }
  }

  lemma AscendingCons(a: seq<ToolDelta>, b: seq<ToolDelta>, first: int)
    requires |a| <= 1 && (forall k :: 0 <= k < |a| ==> a[k].index == first) && Ascending(b, first + 1)
    ensures Ascending(a + b, first)
  {
    var ab := a + b;
    forall i | 0 <= i < |ab| ensures first <= ab[i].index {
      if i >= |a| { assert ab[i] == b[i - |a|]; }
    }
    forall i, j | 0 <= i < j < |ab| ensures ab[i].index < ab[j].index {
      assert ab[j] == b[j - |a|];
      if i >= |a| { assert ab[i] == b[i - |a|]; }
    }
  }

  lemma {:induction false} SynthesizeAscending(ds: seq<ToolDelta>, resolve: string -> string)
    requires Ascending(ds, 0)
    ensures forall k :: k in Synthesize(ds, resolve) <==> exists i :: 0 <= i < |ds| && ds[i].index == k
    ensures forall i :: 0 <= i < |ds| ==>
              (ds[i].index in Synthesize(ds, resolve) &&
               Synthesize(ds, resolve)[ds[i].index] == Call(ds[i].id, resolve(ds[i].name), ds[i].args))
  {
    if ds != [] {
      var front := ds[..|ds| - 1];
      SynthesizeAscending(front, resolve);
      assert forall i :: 0 <= i < |front| ==> front[i] == ds[i];
    }
  }

  /** What block `k` says, if it can be read: JSON with a name, or else the other form, with a name once trimmed. */
  predicate SaysCall(inner: string, r: Readers, name: string, args: string) {
    var json := r.hermes(inner);
    if json.Some? && json.value.0 != "" then name == json.value.0 && args == (if json.value.1 == "" then "{}" else json.value.1)
    else
      var other := r.qwen(TrimSpace(inner));
      other.Some? && name != "" && name == TrimSpace(other.value.0) && args == other.value.1
  }

  lemma ReadSays(inner: string, r: Readers, i: int, name: string, args: string)
    ensures SaysCall(inner, r, name, args) <==> ToolDelta(i, "", name, args) in Readable(inner, r, i)
  {
  }

  lemma {:induction false} InlineHasBlock(inners: seq<string>, r: Readers, first: int, k: nat, name: string, args: string)
    requires k < |inners|
    ensures SaysCall(inners[k], r, name, args) <==> ToolDelta(first + k, "", name, args) in InlineFrom(inners, r, first)
  {
    var rest := inners[1..];
    if k == 0 {
      ReadSays(inners[0], r, first, name, args);
      InlineAscending(rest, r, first + 1);
    } else {
      InlineHasBlock(rest, r, first + 1, k - 1, name, args);
      assert inners[k] == rest[k - 1];
    }
  }

  /** Block `k` becomes call `k` of the turn, under its resolved name, if and only if it can be read. */
  lemma InlineCallsAreBlocks(inners: seq<string>, r: Readers, resolve: string -> string, k: nat, name: string, args: string)
    requires k < |inners| && SaysCall(inners[k], r, name, args)
    ensures var calls := Synthesize(InlineFrom(inners, r, 0), resolve); k in calls && calls[k] == Call("", resolve(name), args)
  {
    InlineHasBlock(inners, r, 0, k, name, args);
    InlineAscending(inners, r, 0);
    SynthesizeAscending(InlineFrom(inners, r, 0), resolve);
  }

  /** And nothing else does. */
  lemma UnreadBlocksAreNoCalls(inners: seq<string>, r: Readers, resolve: string -> string, k: int)
    requires k in Synthesize(InlineFrom(inners, r, 0), resolve)
    ensures 0 <= k < |inners| && exists name, args :: SaysCall(inners[k], r, name, args)
  {
    hide InlineFrom, Synthesize, SaysCall;
    InlineAscending(inners, r, 0);
    SynthesizeAscending(InlineFrom(inners, r, 0), resolve);
    var ds := InlineFrom(inners, r, 0);
    var i :| 0 <= i < |ds| && ds[i].index == k;
    InlineIsBounded(inners, r, 0, i);
    InlineHasBlock(inners, r, 0, k, ds[i].name, ds[i].args);
    assert ds[i] in ds && ds[i] == ToolDelta(k, "", ds[i].name, ds[i].args);
  }

  lemma {:induction false} InlineIsBounded(inners: seq<string>, r: Readers, first: int, i: nat)
    requires i < |InlineFrom(inners, r, first)|
    ensures first <= InlineFrom(inners, r, first)[i].index < first + |inners|
  {
    var a := Readable(inners[0], r, first);
    if i >= |a| { InlineIsBounded(inners[1..], r, first + 1, i - |a|); }
  }

  /** Inline calls run in document order, one per readable block. */
  lemma InlineRunsInDocumentOrder(inners: seq<string>, r: Readers, resolve: string -> string, keys: seq<int>, out: seq<Call>)
    requires Listing(Synthesize(InlineFrom(inners, r, 0), resolve), keys, out)
    ensures var ds := InlineFrom(inners, r, 0);
            |out| == |ds| && forall i :: 0 <= i < |ds| ==> out[i] == Call("", resolve(ds[i].name), ds[i].args)
  {
    var ds := InlineFrom(inners, r, 0);
    var calls := Synthesize(ds, resolve);
    InlineAscending(inners, r, 0);
    SynthesizeAscending(ds, resolve);
    var idx := seq(|ds|, i requires 0 <= i < |ds| => ds[i].index);
    forall k ensures k in keys <==> k in idx {
      assert k in keys <==> k in calls && k >= 0;
      if k in calls {
        var i :| 0 <= i < |ds| && ds[i].index == k;
        assert idx[i] == k;
      }
    }
    ListingIsUnique(keys, idx);
  }
}
