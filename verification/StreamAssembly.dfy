/** Assembly of one model turn from a stream of events (`runStream`). */
module StreamAssembly {
  import opened Common
  import opened Text
  import opened Tags
  import opened ToolCalls
  import opened Trace

  /***** Text *****/

  /** `normalizeAssistantContent`: a chunk that repeats everything so far is a snapshot. */
  function Normalize(current: string, incoming: string): string {
    if incoming == "" then ""
    else if current == "" then incoming
    else if current <= incoming then incoming[|current|..]
    else incoming
  }

  function AssembledText(contents: seq<string>): string {
    if contents == [] then ""
    else
      var before := AssembledText(contents[..|contents| - 1]);
      before + Normalize(before, contents[|contents| - 1])
  }

  /** What is shown of a piece: nothing while only white space has come. */
  function Show(shown: string, piece: string): string {
    if piece == "" || (Blank(shown) && Blank(piece)) then "" else piece
  }

  function ShownText(contents: seq<string>): string {
    if contents == [] then ""
    else
      var front := contents[..|contents| - 1];
      ShownText(front) + Show(ShownText(front), Normalize(AssembledText(front), contents[|contents| - 1]))
  }

  /** The text is the shown text behind leading white space, and what is shown starts with ink. */
  ghost predicate Refines(text: string, shown: string, lead: string) {
    text == lead + shown && Blank(lead) && (shown != "" ==> !Blank(shown))
  }

  lemma InkStays(shown: string, piece: string)
    ensures Blank(shown + piece) ==> Blank(shown) && Blank(piece)
  {
    forall i | 0 <= i < |shown| ensures (shown + piece)[i] == shown[i] {}
    forall i | 0 <= i < |piece| ensures (shown + piece)[|shown| + i] == piece[i] {}
  }

  lemma RefinesStep(text: string, shown: string, lead: string, piece: string) returns (lead': string)
    requires Refines(text, shown, lead)
    ensures Refines(text + piece, shown + Show(shown, piece), lead')
  {
    if Show(shown, piece) == "" {
      lead' := text + piece;
      if piece == "" { lead' := lead; }
      assert shown + "" == shown && lead' + shown == text + piece;
    } else {
      lead' := lead;
      InkStays(shown, piece);
      assert lead + (shown + piece) == lead + shown + piece;
    }
  }

  /**
   * The streaming view refines the final one: the assembled text is the shown text behind leading
   * white space, so both trim to the same.
   */
  lemma {:induction false} ShownRefinesAssembled(contents: seq<string>) returns (lead: string)
    ensures Refines(AssembledText(contents), ShownText(contents), lead)
    ensures TrimSpace(ShownText(contents)) == TrimSpace(AssembledText(contents))
  {
    if contents == [] {
      lead := "";
    } else {
      var front := contents[..|contents| - 1];
      lead := ShownRefinesAssembled(front);
      lead := RefinesStep(AssembledText(front), ShownText(front), lead, Normalize(AssembledText(front), contents[|contents| - 1]));
    }
    TrimDropsBlankPrefix(lead, ShownText(contents));
  }

  /** Each chunk repeats the one before and may add to it. */
  ghost predicate Cumulative(contents: seq<string>) {
    forall i :: 0 <= i < |contents| - 1 ==> contents[i] <= contents[i + 1]
  }

  /** A stream of snapshots assembles to the last one. */
  lemma {:induction false} SnapshotsAssemble(contents: seq<string>)
    requires contents != [] && Cumulative(contents)
    ensures AssembledText(contents) == contents[|contents| - 1]
  {
    var front, last := contents[..|contents| - 1], contents[|contents| - 1];
    if front != [] {
      SnapshotsAssemble(front);
      SnapshotStep(front[|front| - 1], last);
    }
  }

  lemma SnapshotStep(before: string, c: string)
    requires before <= c
    ensures before + Normalize(before, c) == c
  {
  }

  lemma ReplayStep(contents: seq<string>)
    ensures AssembledText(contents + [AssembledText(contents)]) == AssembledText(contents)
  {
    assert (contents + [AssembledText(contents)])[..|contents|] == contents;
  }

  function Replays(text: string, n: nat): seq<string> { if n == 0 then [] else Replays(text, n - 1) + [text] }

  /** Replaying the full text, however often, adds nothing. */
  lemma {:induction false} ReplaysAddNothing(contents: seq<string>, n: nat)
    ensures AssembledText(contents + Replays(AssembledText(contents), n)) == AssembledText(contents)
  {
    hide AssembledText;
    var text := AssembledText(contents);
    if n == 0 {
      assert contents + [] == contents;
    } else {
      ReplaysAddNothing(contents, n - 1);
      ReplayStep(contents + Replays(text, n - 1));
      Assoc(contents, Replays(text, n - 1), [text]);
    }
  }

  /** No chunk happens to repeat all the text before it. */
  predicate NeverRepeats(contents: seq<string>) {
    contents == [] ||
    (var front, c := contents[..|contents| - 1], contents[|contents| - 1];
     NeverRepeats(front) && !(c != "" && Flatten(front) != "" && Flatten(front) <= c))
  }

  /** Deltas are assembled by plain concatenation if and only if none of them is taken for a snapshot. */
  lemma {:induction false} DeltasConcatenate(contents: seq<string>)
    ensures AssembledText(contents) == Flatten(contents) <==> NeverRepeats(contents)
    ensures AssembledText(contents) == Flatten(contents) || |AssembledText(contents)| < |Flatten(contents)|
  {
    if contents != [] {
      var front := contents[..|contents| - 1];
      DeltasConcatenate(front);
      OneDelta(AssembledText(front), Flatten(front), contents[|contents| - 1]);
    }
  }

  /** A delta that repeats the one before is lost. */
  lemma RepeatedDeltaIsLost()
    ensures AssembledText(["ha", "ha"]) == "ha"
  {
    var cs := ["ha", "ha"];
    assert cs[..1] == ["ha"] && cs[..1][..0] == [];
    assert AssembledText(cs[..1]) == "ha";
  }

  lemma OneDelta(assembled: string, flat: string, c: string)
    requires assembled == flat || |assembled| < |flat|
    ensures var a, f := assembled + Normalize(assembled, c), flat + c;
      && (a == f || |a| < |f|)
      && (a == f <==> assembled == flat && !(c != "" && flat != "" && flat <= c))
  {
    assert assembled == flat && Normalize(assembled, c) == c ==> assembled + c == flat + c;
  }

  /***** Images *****/

  function Urls(images: seq<Image>): set<string> { set i | i in images :: i.url }

  /** `appendNewAssistantImages`: the incoming images with a URL that was not seen before. */
  function NewImages(seen: set<string>, incoming: seq<Image>): seq<Image>
    decreases |incoming|
  {
    if incoming == [] then []
    else
      var i := incoming[0];
      if i.url == "" || i.url in seen then NewImages(seen, incoming[1..])
      else [i] + NewImages(seen + {i.url}, incoming[1..])
  }

  method AppendNewImages(existing: seq<Image>, incoming: seq<Image>) returns (out: seq<Image>)
    ensures out == NewImages(Urls(existing), incoming)
  {
    var seen := Urls(existing);
    out := [];
    for k := 0 to |incoming|
      invariant out + NewImages(seen, incoming[k..]) == NewImages(Urls(existing), incoming)
    {
      var image := incoming[k];
      assert incoming[k..][0] == image && incoming[k..][1..] == incoming[k + 1..];
      if image.url != "" && image.url !in seen {
        assert out + ([image] + NewImages(seen + {image.url}, incoming[k + 1..])) ==
               out + [image] + NewImages(seen + {image.url}, incoming[k + 1..]);
        seen := seen + {image.url};
        out := out + [image];
      }
    }
  }

  ghost predicate DistinctUrls(images: seq<Image>) {
    (forall i :: 0 <= i < |images| ==> images[i].url != "") &&
    forall i, j :: 0 <= i < j < |images| ==> images[i].url != images[j].url
  }

  lemma {:induction false} NewImagesDistinct(seen: set<string>, incoming: seq<Image>)
    ensures DistinctUrls(NewImages(seen, incoming))
    ensures forall i :: 0 <= i < |NewImages(seen, incoming)| ==> NewImages(seen, incoming)[i].url !in seen
    ensures forall i :: 0 <= i < |incoming| && incoming[i].url != "" ==>
      incoming[i].url in seen || exists j :: 0 <= j < |NewImages(seen, incoming)| && NewImages(seen, incoming)[j].url == incoming[i].url
    decreases |incoming|
  {
    if incoming != [] {
      var i := incoming[0];
      var rest := incoming[1..];
      if i.url == "" || i.url in seen {
        NewImagesDistinct(seen, rest);
      } else {
        NewImagesDistinct(seen + {i.url}, rest);
        var n := NewImages(seen + {i.url}, rest);
        assert NewImages(seen, incoming) == [i] + n;
        forall k | 0 <= k < |incoming| && incoming[k].url != ""
          ensures incoming[k].url in seen || exists j :: 0 <= j < |[i] + n| && ([i] + n)[j].url == incoming[k].url
        {
          if k > 0 && incoming[k].url !in seen && incoming[k].url != i.url {
            assert incoming[k] == rest[k - 1];
            var j :| 0 <= j < |n| && n[j].url == incoming[k].url;
            assert ([i] + n)[j + 1].url == incoming[k].url;
          } else if incoming[k].url == i.url {
            assert ([i] + n)[0].url == incoming[k].url;
          }
        }
      }
    }
  }

  /***** One stream *****/

  /** The variables of `runStream`; `shown` is filled only with partial messages on. */
  datatype Assembly = Assembly(text: string, shown: string, reasoning: string, images: seq<Image>, calls: Pending)

  const START := Assembly("", "", "", [], map[])

  function Piece(a: Assembly, ch: Chunk): string { Normalize(a.text, ch.content) }

  function ShownPiece(a: Assembly, ch: Chunk, partial: bool): string {
    if partial then Show(a.shown, Piece(a, ch)) else ""
  }

  function Absorbed(a: Assembly, ch: Chunk, partial: bool): Assembly {
    Assembly(a.text + Piece(a, ch), a.shown + ShownPiece(a, ch, partial), a.reasoning + ch.reasoning,
             a.images + NewImages(Urls(a.images), ch.images), AbsorbAll(a.calls, ch.deltas))
  }

  /** What a chunk shows when partial messages are on: thoughts, text, images. */
  function ThoughtShown(ch: Chunk, partial: bool): seq<Event> {
    if partial && ch.reasoning != "" then [Sent(Thinking(ch.reasoning))] else []
  }

  function TextShown(a: Assembly, ch: Chunk, partial: bool): seq<Event> {
    if ShownPiece(a, ch, partial) != "" then [Sent(Partial(ShownPiece(a, ch, partial)))] else []
  }

  function ImagesShown(a: Assembly, ch: Chunk, partial: bool): seq<Event> {
    var images := NewImages(Urls(a.images), ch.images);
    if partial && images != [] then [Sent(Pictures(images))] else []
  }

  function Shown(a: Assembly, ch: Chunk, partial: bool): seq<Event> {
    ThoughtShown(ch, partial) + TextShown(a, ch, partial) + ImagesShown(a, ch, partial)
  }

  function AbsorbedAll(a: Assembly, chunks: seq<Chunk>, partial: bool): Assembly {
    if chunks == [] then a else Absorbed(AbsorbedAll(a, chunks[..|chunks| - 1], partial), chunks[|chunks| - 1], partial)
  }

  function ShownAll(a: Assembly, chunks: seq<Chunk>, partial: bool): seq<Event> {
    if chunks == [] then []
    else
      var front := chunks[..|chunks| - 1];
      ShownAll(a, front, partial) + Shown(AbsorbedAll(a, front, partial), chunks[|chunks| - 1], partial)
  }

  /** The chunks of an item: none unless it is an event that parses. */
  function ChunksOfOne(item: Item): seq<Chunk> {
    if item.Ev? && item.event.chunks.Some? then item.event.chunks.value else []
  }

  function ChunksOf(items: seq<Item>): seq<Chunk> {
    if items == [] then [] else ChunksOf(items[..|items| - 1]) + ChunksOfOne(items[|items| - 1])
  }

  /** The last cost reported. */
  function CostOf(items: seq<Item>): Option<real> {
    if items == [] then None
    else
      var last := items[|items| - 1];
      if last.Ev? && last.event.cost.Some? then last.event.cost else CostOf(items[..|items| - 1])
  }

  /** What one event sends: itself, then what its chunks show or the error that it does not parse. */
  function EventsOfOne(a: Assembly, event: ServerEvent, partial: bool): seq<Event> {
    [Sent(StreamEvent)] + RestOfOne(a, event, partial)
  }

  function RestOfOne(a: Assembly, event: ServerEvent, partial: bool): seq<Event> {
    if event.chunks.None? then [Failed(BadEvent)] else ShownAll(a, event.chunks.value, partial)
  }

  function AssemblyOf(items: seq<Item>, partial: bool): Assembly { AbsorbedAll(START, ChunksOf(items), partial) }

  function EventsOf(items: seq<Item>, partial: bool): seq<Event> {
    if items == [] then []
    else
      var front, last := items[..|items| - 1], items[|items| - 1];
      EventsOf(front, partial) + if last.Ev? then EventsOfOne(AssemblyOf(front, partial), last.event, partial) else []
  }

  lemma {:induction false} AbsorbedAppend(a: Assembly, xs: seq<Chunk>, ys: seq<Chunk>, partial: bool)
    ensures AbsorbedAll(a, xs + ys, partial) == AbsorbedAll(AbsorbedAll(a, xs, partial), ys, partial)
  {
    if ys == [] {
      assert xs + ys == xs;
    } else {
      assert (xs + ys)[..|xs + ys| - 1] == xs + ys[..|ys| - 1];
      AbsorbedAppend(a, xs, ys[..|ys| - 1], partial);
    }
  }

  /** More chunks show more, after what came before. */
  lemma {:induction false} ShownAllGrows(a: Assembly, chunks: seq<Chunk>, k: nat, partial: bool)
    requires k <= |chunks|
    ensures ShownAll(a, chunks[..k], partial) <= ShownAll(a, chunks, partial)
  {
    if k == |chunks| {
      assert chunks[..k] == chunks;
    } else {
      var front := chunks[..|chunks| - 1];
      assert front[..k] == chunks[..k];
      ShownAllGrows(a, front, k, partial);
    }
  }

  lemma {:induction false} EventsGrow(items: seq<Item>, k: nat, partial: bool)
    requires k <= |items|
    ensures EventsOf(items[..k], partial) <= EventsOf(items, partial)
  {
    if k == |items| {
      assert items[..k] == items;
    } else {
      var front := items[..|items| - 1];
      assert front[..k] == items[..k];
      EventsGrow(front, k, partial);
    }
  }

  /***** The assembled values, field by field *****/

  function Contents(chunks: seq<Chunk>): seq<string> { seq(|chunks|, i requires 0 <= i < |chunks| => chunks[i].content) }

  function Thoughts(chunks: seq<Chunk>): seq<string> { seq(|chunks|, i requires 0 <= i < |chunks| => chunks[i].reasoning) }

  function Deltas(chunks: seq<Chunk>): seq<ToolDelta> {
    if chunks == [] then [] else Deltas(chunks[..|chunks| - 1]) + chunks[|chunks| - 1].deltas
  }

  lemma {:induction false} AbsorbAppend(calls: Pending, xs: seq<ToolDelta>, ys: seq<ToolDelta>)
    ensures AbsorbAll(calls, xs + ys) == AbsorbAll(AbsorbAll(calls, xs), ys)
  {
    if ys == [] {
      assert xs + ys == xs;
    } else {
      assert (xs + ys)[..|xs + ys| - 1] == xs + ys[..|ys| - 1];
      AbsorbAppend(calls, xs, ys[..|ys| - 1]);
    }
  }

  /** The loop variables are what the whole stream means. */
  lemma {:induction false} AssemblyMeans(chunks: seq<Chunk>, partial: bool)
    ensures var a := AbsorbedAll(START, chunks, partial);
      && a.text == AssembledText(Contents(chunks))
      && a.shown == (if partial then ShownText(Contents(chunks)) else "")
      && a.reasoning == Flatten(Thoughts(chunks))
      && a.calls == AbsorbAll(map[], Deltas(chunks))
  {
    if chunks == [] {
      assert Contents(chunks) == [] && Thoughts(chunks) == [];
    } else {
      var front, ch := chunks[..|chunks| - 1], chunks[|chunks| - 1];
      AssemblyMeans(front, partial);
      assert Contents(chunks)[..|chunks| - 1] == Contents(front);
      assert Thoughts(chunks)[..|chunks| - 1] == Thoughts(front);
      AbsorbAppend(map[], Deltas(front), ch.deltas);
      assert "" + "" == "";
    }
  }

  /** All images received, repeats included. */
  function AllImages(chunks: seq<Chunk>): seq<Image> {
    if chunks == [] then [] else AllImages(chunks[..|chunks| - 1]) + chunks[|chunks| - 1].images
  }

  lemma {:induction false} NewImagesAppend(seen: set<string>, xs: seq<Image>, ys: seq<Image>)
    ensures NewImages(seen, xs + ys) == NewImages(seen, xs) + NewImages(seen + Urls(NewImages(seen, xs)), ys)
    decreases |xs|
  {
    if xs == [] {
      assert xs + ys == ys && seen + Urls([]) == seen;
    } else {
      var i, rest := xs[0], xs[1..];
      assert (xs + ys)[0] == i && (xs + ys)[1..] == rest + ys;
      if i.url == "" || i.url in seen {
        NewImagesAppend(seen, rest, ys);
      } else {
        NewImagesAppend(seen + {i.url}, rest, ys);
        var n := NewImages(seen + {i.url}, rest);
        UrlsCons(i, n);
        assert seen + Urls([i] + n) == seen + {i.url} + Urls(n);
        Assoc([i], n, NewImages(seen + {i.url} + Urls(n), ys));
      }
    }
  }

  lemma UrlsCons(i: Image, n: seq<Image>)
    ensures Urls([i] + n) == {i.url} + Urls(n)
  {
    assert i in [i] + n && forall x :: x in [i] + n <==> x == i || x in n;
  }

  lemma {:induction false} NewImagesAreIncoming(seen: set<string>, xs: seq<Image>)
    ensures forall i :: i in NewImages(seen, xs) ==> i in xs
    decreases |xs|
  {
    if xs != [] { NewImagesAreIncoming(if xs[0].url == "" || xs[0].url in seen then seen else seen + {xs[0].url}, xs[1..]); }
  }

  /** One more image is kept, as it is and behind the others, if and only if it has a URL that is new. */
  lemma ImageKept(seen: set<string>, xs: seq<Image>, i: Image)
    ensures NewImages(seen, xs + [i]) ==
            NewImages(seen, xs) + if i.url != "" && i.url !in seen && (forall x :: x in xs ==> x.url != i.url) then [i] else []
  {
    NewImagesAppend(seen, xs, [i]);
    NewImagesDistinct(seen, xs);
    NewImagesAreIncoming(seen, xs);
    var n := NewImages(seen, xs);
    assert [i][1..] == [];
    if x :| x in xs && x.url == i.url {
      var k :| 0 <= k < |xs| && xs[k] == x;
      if i.url != "" && i.url !in seen {
        var j :| 0 <= j < |n| && n[j].url == xs[k].url;
        assert n[j] in n;
      }
    }
  }

  /** The assembled images: of everything received, the first with each URL. */
  lemma {:induction false} AssembledImages(chunks: seq<Chunk>, partial: bool)
    ensures AbsorbedAll(START, chunks, partial).images == NewImages({}, AllImages(chunks))
  {
    if chunks != [] {
      var front, ch := chunks[..|chunks| - 1], chunks[|chunks| - 1];
      AssembledImages(front, partial);
      var images := NewImages({}, AllImages(front));
      NewImagesAppend({}, AllImages(front), ch.images);
      assert {} + Urls(images) == Urls(images);
    }
  }

  lemma {:induction false} AssembledImagesDistinct(chunks: seq<Chunk>, partial: bool)
    ensures DistinctUrls(AbsorbedAll(START, chunks, partial).images)
  {
    if chunks != [] {
      var front, ch := chunks[..|chunks| - 1], chunks[|chunks| - 1];
      AssembledImagesDistinct(front, partial);
      var images := AbsorbedAll(START, front, partial).images;
      NewImagesDistinct(Urls(images), ch.images);
      DistinctAppend(images, NewImages(Urls(images), ch.images));
    }
  }

  lemma DistinctAppend(a: seq<Image>, b: seq<Image>)
    requires DistinctUrls(a) && DistinctUrls(b)
    requires forall i :: 0 <= i < |b| ==> b[i].url !in Urls(a)
    ensures DistinctUrls(a + b)
  {
    forall i, j | 0 <= i < j < |a + b| ensures (a + b)[i].url != (a + b)[j].url {
      if i < |a| <= j { assert a[i] in a && a[i].url in Urls(a); assert b[j - |a|].url !in Urls(a); }
    }
  }

  /***** runStream *****/

  /** The text part of the chunk body. */
  method ProcessText(wire: Wire, a: Assembly, ch: Chunk, partial: bool) returns (ok: bool, text: string, shown: string)
    modifies wire
    ensures text == a.text + Piece(a, ch) && shown == a.shown + ShownPiece(a, ch, partial)
    ensures wire.log == old(wire.log) + if ok then TextShown(a, ch, partial) else []
  {
    ok, text, shown := true, a.text, a.shown;
    if ch.content != "" {
      var content := Normalize(a.text, ch.content);
      if content != "" { text := text + content; }
      var emitPartial := partial && content != "";
      if emitPartial && TrimSpace(a.shown) == "" && TrimSpace(content) == "" { emitPartial := false; }
      TrimEmptyIffBlank(a.shown);
      TrimEmptyIffBlank(content);
      if emitPartial {
        shown := shown + content;
        ok := wire.Send(Partial(content));
      }
    }
    assert a.text + "" == a.text && a.shown + "" == a.shown;
  }

  lemma ThreeParts(log: seq<Event>, p: seq<Event>, q: seq<Event>, r: seq<Event>)
    ensures PartOf(log, log, p + q + r) && PartOf(log, log + p, p + q + r) && PartOf(log, log + p + q, p + q + r)
    ensures log + p + q + r == log + (p + q + r)
  {
  }

  /** The chunk body of `processEvent`. False when a send gave way to the context. */
  method ProcessChunk(wire: Wire, a: Assembly, ch: Chunk, partial: bool) returns (ok: bool, b: Assembly)
    modifies wire
    ensures ok ==> b == Absorbed(a, ch, partial) && wire.log == old(wire.log) + Shown(a, ch, partial)
    ensures !ok ==> PartOf(old(wire.log), wire.log, Shown(a, ch, partial))
  {
    b, ok := a, true;
    ThreeParts(wire.log, ThoughtShown(ch, partial), TextShown(a, ch, partial), ImagesShown(a, ch, partial));
    if ch.reasoning != "" {
      b := b.(reasoning := b.reasoning + ch.reasoning);
      if partial {
        ok := wire.Send(Thinking(ch.reasoning));
        if !ok { return; }
      }
    }
    assert a.reasoning + "" == a.reasoning;
    var text, shown;
    ok, text, shown := ProcessText(wire, a, ch, partial);
    if !ok { return; }
    var images := AppendNewImages(a.images, ch.images);
    if images != [] && partial {
      ok := wire.Send(Pictures(images));
      if !ok { return; }
    }
    var calls := AbsorbDeltas(a.calls, ch.deltas);
    b := b.(text := text, shown := shown, images := a.images + images, calls := calls);
  }

  lemma ChunkStep(a: Assembly, chunks: seq<Chunk>, k: nat, partial: bool)
    requires k < |chunks|
    ensures var b := AbsorbedAll(a, chunks[..k], partial);
      && AbsorbedAll(a, chunks[..k + 1], partial) == Absorbed(b, chunks[k], partial)
      && ShownAll(a, chunks[..k + 1], partial) == ShownAll(a, chunks[..k], partial) + Shown(b, chunks[k], partial)
      && ShownAll(a, chunks[..k + 1], partial) <= ShownAll(a, chunks, partial)
  {
    assert chunks[..k + 1][..k] == chunks[..k];
    ShownAllGrows(a, chunks, k + 1, partial);
  }

  /** One round of the chunk loop: what was shown so far, and then a part of what is due. */
  method ChunkRound(wire: Wire, ghost before: seq<Event>, a: Assembly, b: Assembly, chunks: seq<Chunk>, k: nat, partial: bool)
    returns (ok: bool, c: Assembly)
    requires k < |chunks| && b == AbsorbedAll(a, chunks[..k], partial)
    requires wire.log == before + ShownAll(a, chunks[..k], partial)
    modifies wire
    ensures ok ==> c == AbsorbedAll(a, chunks[..k + 1], partial) && wire.log == before + ShownAll(a, chunks[..k + 1], partial)
    ensures !ok ==> PartOf(before, wire.log, ShownAll(a, chunks, partial))
  {
    ChunkStep(a, chunks, k, partial);
    ghost var done, step, all := ShownAll(a, chunks[..k], partial), Shown(b, chunks[k], partial), ShownAll(a, chunks, partial);
    ok, c := ProcessChunk(wire, b, chunks[k], partial);
    Assoc(before, done, step);
    if !ok { PartGrows(before, done, wire.log, step, all); }
  }

  method ProcessChunks(wire: Wire, a: Assembly, chunks: seq<Chunk>, partial: bool) returns (ok: bool, b: Assembly)
    modifies wire
    ensures ok ==> b == AbsorbedAll(a, chunks, partial) && wire.log == old(wire.log) + ShownAll(a, chunks, partial)
    ensures !ok ==> PartOf(old(wire.log), wire.log, ShownAll(a, chunks, partial))
  {
    ok, b := true, a;
    for k := 0 to |chunks|
      invariant b == AbsorbedAll(a, chunks[..k], partial)
      invariant wire.log == old(wire.log) + ShownAll(a, chunks[..k], partial)
    {
      ok, b := ChunkRound(wire, old(wire.log), a, b, chunks, k, partial);
      if !ok { return; }
    }
    assert chunks[..|chunks|] == chunks;
  }

  /** `processEvent` once the event itself went out. */
  method ProcessRest(wire: Wire, ghost before: seq<Event>, a: Assembly, event: ServerEvent, partial: bool)
    returns (ok: bool, b: Assembly)
    requires wire.log == before + [Sent(StreamEvent)]
    modifies wire
    ensures ok ==> b == AbsorbedAll(a, ChunksOfOne(Ev(event)), partial) && wire.log == before + EventsOfOne(a, event, partial)
    ensures !ok ==> PartOf(before, wire.log, EventsOfOne(a, event, partial))
    ensures old(wire.log) <= wire.log
  {
    b := a;
    ghost var rest := RestOfOne(a, event, partial);
    Assoc(before, [Sent(StreamEvent)], rest);
    if event.chunks.None? {
      ok := wire.Report(BadEvent);
    } else {
      ok, b := ProcessChunks(wire, a, event.chunks.value, partial);
    }
    if !ok { PartGrows(before, [Sent(StreamEvent)], wire.log, rest, [Sent(StreamEvent)] + rest); }
  }

  /** `processEvent`. An event that does not parse is reported and the stream goes on. */
  method ProcessEvent(wire: Wire, a: Assembly, cost: Option<real>, event: ServerEvent, partial: bool)
    returns (ok: bool, b: Assembly, newCost: Option<real>, emitted: bool)
    modifies wire
    ensures ok ==> b == AbsorbedAll(a, ChunksOfOne(Ev(event)), partial)
    ensures ok ==> wire.log == old(wire.log) + EventsOfOne(a, event, partial)
    ensures !ok ==> PartOf(old(wire.log), wire.log, EventsOfOne(a, event, partial))
    ensures emitted <==> wire.log != old(wire.log)
    ensures newCost == if emitted && event.cost.Some? then event.cost else cost
    ensures ok ==> emitted
  {
    b, newCost := a, cost;
    ok := wire.Send(StreamEvent);
    emitted := ok;
    if !ok { return; }
    if event.cost.Some? { newCost := event.cost; }
    ok, b := ProcessRest(wire, old(wire.log), a, event, partial);
  }

  /** No failure and no cancellation among what the loop takes. */
  predicate Undisturbed(items: seq<Item>) { forall i :: 0 <= i < |items| ==> items[i].Ev? || items[i].NilError? }

  function CallsOf(a: Assembly, tag: Tag, readers: Readers, resolve: string -> string): Pending
    requires tag.open != "" && tag.close != ""
  {
    if a.calls == map[] then Synthesize(InlineFrom(Inners(CutAt(TrimSpace(a.reasoning), tag)), readers, 0), resolve)
    else a.calls
  }

  /** Structured calls, or else the calls written as text in the reasoning. */
  method FinishCalls(a: Assembly, tag: Tag, readers: Readers, resolve: string -> string) returns (calls: Pending)
    requires tag.open != "" && tag.close != ""
    ensures calls == CallsOf(a, tag, readers, resolve)
  {
    calls := a.calls;
    var reasoning := TrimSpace(a.reasoning);
    if |calls| == 0 && Index(reasoning, tag.open) != -1 {
      var synthetic := ExtractInlineToolCalls(reasoning, tag, readers);
      calls := SynthesizeCalls(synthetic, resolve);
    }
  }

  /** What a stream that ends without error returns. */
  function Outcome(items: seq<Item>, partial: bool, tag: Tag, readers: Readers, resolve: string -> string, emitted: bool): Reply
    requires tag.open != "" && tag.close != ""
  {
    var a := AssemblyOf(items, partial);
    Reply(TrimSpace(a.text), TrimSpace(a.reasoning), a.images, CallsOf(a, tag, readers, resolve), CostOf(items), None, emitted)
  }

  function Broken(cost: Option<real>, failure: Failure, emitted: bool): Reply {
    Reply("", "", [], map[], cost, Some(failure), emitted)
  }

  lemma ItemStep(items: seq<Item>, k: nat, partial: bool)
    requires k < |items|
    ensures var front, item := items[..k], items[k];
      && CostOf(items[..k + 1]) == (if item.Ev? && item.event.cost.Some? then item.event.cost else CostOf(front))
      && EventsOf(items[..k + 1], partial) ==
           EventsOf(front, partial) + (if item.Ev? then EventsOfOne(AssemblyOf(front, partial), item.event, partial) else [])
  {
    assert items[..k + 1][..k] == items[..k];
  }

  lemma ItemAbsorbed(items: seq<Item>, k: nat, partial: bool)
    requires k < |items|
    ensures AssemblyOf(items[..k + 1], partial) == AbsorbedAll(AssemblyOf(items[..k], partial), ChunksOfOne(items[k]), partial)
  {
    assert items[..k + 1][..k] == items[..k];
    AbsorbedAppend(START, ChunksOf(items[..k]), ChunksOfOne(items[k]), partial);
  }

  /** Where the stream loop stands after `k` items. */
  ghost predicate Reached(items: seq<Item>, k: nat, partial: bool, before: seq<Event>, now: seq<Event>,
                          a: Assembly, cost: Option<real>, emitted: bool)
  {
    && k <= |items|
    && Undisturbed(items[..k])
    && a == AssemblyOf(items[..k], partial)
    && cost == CostOf(items[..k])
    && now == before + EventsOf(items[..k], partial)
    && (emitted <==> now != before)
    && (cost.Some? ==> emitted)
  }

  lemma SkipNil(items: seq<Item>, k: nat, partial: bool)
    requires k < |items| && items[k].NilError? && Undisturbed(items[..k])
    ensures Undisturbed(items[..k + 1]) && CostOf(items[..k + 1]) == CostOf(items[..k])
    ensures EventsOf(items[..k + 1], partial) == EventsOf(items[..k], partial)
    ensures AssemblyOf(items[..k + 1], partial) == AssemblyOf(items[..k], partial)
  {
    ItemStep(items, k, partial);
    ItemAbsorbed(items, k, partial);
    UndisturbedStep(items, k);
    NothingAppended(EventsOf(items[..k], partial));
  }

  lemma NothingAppended<T>(x: seq<T>)
    ensures x + [] == x
  {
  }

  lemma UndisturbedStep(items: seq<Item>, k: nat)
    requires k < |items|
    ensures Undisturbed(items[..k + 1]) <==> Undisturbed(items[..k]) && (items[k].Ev? || items[k].NilError?)
  {
    assert items[..k + 1] == items[..k] + [items[k]];
  }

  /** A round of the stream loop that takes an event. */
  method TakeEvent(wire: Wire, ghost before: seq<Event>, items: seq<Item>, k: nat, partial: bool, a: Assembly,
                   cost: Option<real>, emitted: bool)
    returns (ok: bool, b: Assembly, newCost: Option<real>, sent: bool)
    requires k < |items| && items[k].Ev?
    requires Reached(items, k, partial, before, wire.log, a, cost, emitted)
    modifies wire
    ensures ok ==> Reached(items, k + 1, partial, before, wire.log, b, newCost, sent)
    ensures !ok ==> PartOf(before, wire.log, EventsOf(items, partial))
    ensures (sent <==> wire.log != before) && (newCost.Some? ==> sent)
  {
    ItemStep(items, k, partial);
    ItemAbsorbed(items, k, partial);
    EventsGrow(items, k + 1, partial);
    ghost var done, step := EventsOf(items[..k], partial), EventsOfOne(a, items[k].event, partial);
    ok, b, newCost, sent := ProcessEvent(wire, a, cost, items[k].event, partial);
    sent := emitted || sent;
    Assoc(before, done, step);
    UndisturbedStep(items, k);
    if !ok { PartGrows(before, done, wire.log, step, EventsOf(items, partial)); }
  }

  /** The transport fails at item `k`, after everything before it was sent. */
  ghost predicate FailsAt(items: seq<Item>, k: nat, partial: bool, before: seq<Event>, now: seq<Event>, r: Reply)
    requires k < |items|
  {
    items[k].Fault? && Undisturbed(items[..k]) && now == before + EventsOf(items[..k], partial) && r.cost == CostOf(items[..k])
  }

  /**
   * `runStream`. It returns what the stream means exactly when nothing disturbs it and every send
   * goes out. Otherwise only the cost and whether something was sent are left.
   */
  method RunStream(wire: Wire, items: seq<Item>, partial: bool, tag: Tag, readers: Readers, resolve: string -> string)
    returns (r: Reply)
    requires tag.open != "" && tag.close != ""
    modifies wire
    ensures r.error.None? ==> Undisturbed(items) && wire.log == old(wire.log) + EventsOf(items, partial)
    ensures r.error.None? ==> r == Outcome(items, partial, tag, readers, resolve, r.emitted)
    ensures r.error.Some? ==> PartOf(old(wire.log), wire.log, EventsOf(items, partial))
    ensures r.error.Some? ==> r == Broken(r.cost, r.error.value, r.emitted)
    ensures r.error.Some? ==> r.error.value.StreamFailed? || r.error.value.Cancelled?
    ensures r.error == Some(StreamFailed) ==> exists k :: 0 <= k < |items| && FailsAt(items, k, partial, old(wire.log), wire.log, r)
    ensures r.emitted <==> wire.log != old(wire.log)
    ensures r.cost.Some? ==> r.emitted
  {
    var a, cost, emitted := START, None, false;
    for k := 0 to |items|
      invariant Reached(items, k, partial, old(wire.log), wire.log, a, cost, emitted)
    {
      EventsGrow(items, k, partial);
      if items[k].Ev? {
        var ok;
        ok, a, cost, emitted := TakeEvent(wire, old(wire.log), items, k, partial, a, cost, emitted);
        if !ok { return Broken(cost, Cancelled, emitted); }
      } else if items[k].Fault? {
        r := Broken(cost, StreamFailed, emitted);
        assert FailsAt(items, k, partial, old(wire.log), wire.log, r);
        return;
      } else if items[k].Done? {
        return Broken(cost, Cancelled, emitted);
      } else {
        SkipNil(items, k, partial);
      }
    }
    assert items[..|items|] == items;
    var calls := FinishCalls(a, tag, readers, resolve);
    return Reply(TrimSpace(a.text), TrimSpace(a.reasoning), a.images, calls, cost, None, emitted);
  }

  /** What the reply of an undisturbed stream is, in terms of the chunks received. */
  lemma OutcomeMeans(items: seq<Item>, partial: bool, tag: Tag, readers: Readers, resolve: string -> string)
    requires tag.open != "" && tag.close != ""
    ensures var r, chunks := Outcome(items, partial, tag, readers, resolve, true), ChunksOf(items);
      && r.text == TrimSpace(AssembledText(Contents(chunks)))
      && r.reasoning == TrimSpace(Flatten(Thoughts(chunks)))
      && r.images == NewImages({}, AllImages(chunks)) && DistinctUrls(r.images)
      && (Deltas(chunks) != [] ==> r.calls == AbsorbAll(map[], Deltas(chunks)))
      && (Deltas(chunks) == [] ==> r.calls == Synthesize(InlineFrom(Inners(CutAt(r.reasoning, tag)), readers, 0), resolve))
  {
    AssemblyMeans(ChunksOf(items), partial);
    AssembledImages(ChunksOf(items), partial);
    AssembledImagesDistinct(ChunksOf(items), partial);
    var ds := Deltas(ChunksOf(items));
    if ds != [] { assert ds[|ds| - 1].index in AbsorbAll(map[], ds); }
  }

  /***** What a stream sends, in terms of what it received *****/

  /** What `told` finds in each event, put together. */
  function Gather<T>(events: seq<Event>, told: Event -> seq<T>): seq<T> {
    if events == [] then [] else Gather(events[..|events| - 1], told) + told(events[|events| - 1])
  }

  lemma {:induction false} GatherAppend<T>(xs: seq<Event>, ys: seq<Event>, told: Event -> seq<T>)
    ensures Gather(xs + ys, told) == Gather(xs, told) + Gather(ys, told)
  {
    if ys == [] {
      assert xs + ys == xs;
      NothingAppended(Gather(xs, told));
    } else {
      assert (xs + ys)[..|xs + ys| - 1] == xs + ys[..|ys| - 1];
      GatherAppend(xs, ys[..|ys| - 1], told);
    }
  }

  lemma GatherOne<T>(e: Event, told: Event -> seq<T>)
    ensures Gather([e], told) == told(e) && Gather([], told) == []
  {
    assert [e][..0] == [];
  }

  function ThoughtIn(e: Event): string { if e.Sent? && e.msg.Thinking? then e.msg.thought else "" }

  function TextIn(e: Event): string { if e.Sent? && e.msg.Partial? then e.msg.text else "" }

  function ImagesIn(e: Event): seq<Image> { if e.Sent? && e.msg.Pictures? then e.msg.images else [] }

  /** The event messages and the errors. */
  function MarkIn(e: Event): seq<Event> { if e == Sent(StreamEvent) || e.Failed? then [e] else [] }

  /** What is found in the parts of a message about one chunk. */
  lemma OneTells(e: Event)
    ensures Gather([e], ThoughtIn) == ThoughtIn(e) && Gather([e], TextIn) == TextIn(e)
    ensures Gather([e], ImagesIn) == ImagesIn(e) && Gather([e], MarkIn) == MarkIn(e)
  {
    GatherOne(e, ThoughtIn);
    GatherOne(e, TextIn);
    GatherOne(e, ImagesIn);
    GatherOne(e, MarkIn);
  }

  ghost predicate Tells(es: seq<Event>, thought: string, text: string, images: seq<Image>) {
    && Gather(es, ThoughtIn) == thought && Gather(es, TextIn) == text
    && Gather(es, ImagesIn) == images && Gather(es, MarkIn) == []
  }

  lemma NothingTold()
    ensures Tells([], "", "", [])
  {
  }

  lemma PartsTell(a: Assembly, ch: Chunk)
    ensures Tells(ThoughtShown(ch, true), ch.reasoning, "", [])
    ensures Tells(TextShown(a, ch, true), "", ShownPiece(a, ch, true), [])
    ensures Tells(ImagesShown(a, ch, true), "", "", NewImages(Urls(a.images), ch.images))
  {
    hide Gather, NewImages, ShownPiece;
    NothingTold();
    OneTells(Sent(Thinking(ch.reasoning)));
    OneTells(Sent(Partial(ShownPiece(a, ch, true))));
    OneTells(Sent(Pictures(NewImages(Urls(a.images), ch.images))));
  }

  lemma TellsAppend(x: seq<Event>, y: seq<Event>, t: string, t': string, p: string, p': string, i: seq<Image>, i': seq<Image>)
    requires Tells(x, t, p, i) && Tells(y, t', p', i')
    ensures Tells(x + y, t + t', p + p', i + i')
  {
    GatherAppend(x, y, ThoughtIn);
    GatherAppend(x, y, TextIn);
    GatherAppend(x, y, ImagesIn);
    GatherAppend(x, y, MarkIn);
  }

  /** What one chunk sends. */
  lemma ChunkTells(a: Assembly, ch: Chunk)
    ensures Tells(Shown(a, ch, true), ch.reasoning, ShownPiece(a, ch, true), NewImages(Urls(a.images), ch.images))
  {
    hide Tells, ThoughtShown, TextShown, ImagesShown, NewImages, ShownPiece;
    var t, p, i := ch.reasoning, ShownPiece(a, ch, true), NewImages(Urls(a.images), ch.images);
    PartsTell(a, ch);
    TellsAppend(ThoughtShown(ch, true), TextShown(a, ch, true), t, "", "", p, [], []);
    TellsAppend(ThoughtShown(ch, true) + TextShown(a, ch, true), ImagesShown(a, ch, true), t + "", "", "" + p, "", [] + [], i);
    assert t + "" + "" == t && "" + p + "" == p && [] + [] + i == i;
  }

  lemma {:induction false} ChunksTell(a: Assembly, chunks: seq<Chunk>) returns (t: string, p: string, i: seq<Image>)
    ensures Tells(ShownAll(a, chunks, true), t, p, i)
    ensures var b := AbsorbedAll(a, chunks, true);
      b.reasoning == a.reasoning + t && b.shown == a.shown + p && b.images == a.images + i
  {
    hide Tells, Shown, NewImages;
    if chunks == [] {
      t, p, i := "", "", [];
      NothingTold();
      assert a.reasoning + "" == a.reasoning && a.shown + "" == a.shown && a.images + [] == a.images;
    } else {
      var front, ch := chunks[..|chunks| - 1], chunks[|chunks| - 1];
      var t0, p0, i0 := ChunksTell(a, front);
      var b := AbsorbedAll(a, front, true);
      var t1, p1, i1 := ch.reasoning, ShownPiece(b, ch, true), NewImages(Urls(b.images), ch.images);
      ChunkTells(b, ch);
      TellsAppend(ShownAll(a, front, true), Shown(b, ch, true), t0, t1, p0, p1, i0, i1);
      t, p, i := t0 + t1, p0 + p1, i0 + i1;
      Assoc(a.reasoning, t0, t1);
      Assoc(a.shown, p0, p1);
      Assoc(a.images, i0, i1);
    }
  }

  /** One message per event received, and one error right after it if it does not parse. */
  function Marks(items: seq<Item>): seq<Event> {
    if items == [] then []
    else
      var last := items[|items| - 1];
      Marks(items[..|items| - 1]) +
      if !last.Ev? then [] else if last.event.chunks.Some? then [Sent(StreamEvent)] else [Sent(StreamEvent), Failed(BadEvent)]
  }

  /** Without partial messages a chunk sends nothing. */
  lemma {:induction false} ChunksAreQuiet(a: Assembly, chunks: seq<Chunk>)
    ensures ShownAll(a, chunks, false) == []
  {
    if chunks != [] { ChunksAreQuiet(a, chunks[..|chunks| - 1]); }
  }

  lemma {:induction false} QuietWithoutPartials(items: seq<Item>)
    ensures EventsOf(items, false) == Marks(items)
  {
    if items != [] {
      var front, last := items[..|items| - 1], items[|items| - 1];
      QuietWithoutPartials(front);
      if last.Ev? && last.event.chunks.Some? { ChunksAreQuiet(AssemblyOf(front, false), last.event.chunks.value); }
    }
  }

  /** What was sent is what was assembled, and the marks are those of the events. */
  ghost predicate TellsAll(es: seq<Event>, a: Assembly, marks: seq<Event>) {
    && Gather(es, ThoughtIn) == a.reasoning && Gather(es, TextIn) == a.shown
    && Gather(es, ImagesIn) == a.images && Gather(es, MarkIn) == marks
  }

  lemma MarkTells(es: seq<Event>, a: Assembly, marks: seq<Event>, e: Event)
    requires TellsAll(es, a, marks) && (e == Sent(StreamEvent) || e == Failed(BadEvent))
    ensures TellsAll(es + [e], a, marks + [e])
  {
    GatherAppend(es, [e], ThoughtIn);
    GatherAppend(es, [e], TextIn);
    GatherAppend(es, [e], ImagesIn);
    GatherAppend(es, [e], MarkIn);
    OneTells(e);
  }

  lemma RestTells(es: seq<Event>, a: Assembly, marks: seq<Event>, chunks: seq<Chunk>)
    requires TellsAll(es, a, marks)
    ensures TellsAll(es + ShownAll(a, chunks, true), AbsorbedAll(a, chunks, true), marks)
  {
    var t, p, i := ChunksTell(a, chunks);
    var more := ShownAll(a, chunks, true);
    GatherAppend(es, more, ThoughtIn);
    GatherAppend(es, more, TextIn);
    GatherAppend(es, more, ImagesIn);
    GatherAppend(es, more, MarkIn);
    NothingAppended(marks);
  }

  lemma EventTells(es: seq<Event>, a: Assembly, marks: seq<Event>, event: ServerEvent)
    requires TellsAll(es, a, marks)
    ensures TellsAll(es + EventsOfOne(a, event, true), AbsorbedAll(a, ChunksOfOne(Ev(event)), true),
                     marks + if event.chunks.Some? then [Sent(StreamEvent)] else [Sent(StreamEvent), Failed(BadEvent)])
  {
    hide TellsAll;
    MarkTells(es, a, marks, Sent(StreamEvent));
    Assoc(es, [Sent(StreamEvent)], RestOfOne(a, event, true));
    if event.chunks.Some? {
      RestTells(es + [Sent(StreamEvent)], a, marks + [Sent(StreamEvent)], event.chunks.value);
    } else {
      MarkTells(es + [Sent(StreamEvent)], a, marks + [Sent(StreamEvent)], Failed(BadEvent));
      Assoc(marks, [Sent(StreamEvent)], [Failed(BadEvent)]);
      assert [Sent(StreamEvent)] + [Failed(BadEvent)] == [Sent(StreamEvent), Failed(BadEvent)];
    }
  }

  lemma {:induction false} EventsTell(items: seq<Item>)
    ensures TellsAll(EventsOf(items, true), AssemblyOf(items, true), Marks(items))
  {
    hide EventsOfOne, AbsorbedAll, TellsAll;
    if items == [] {
      NothingYet();
    } else {
      var front, last := items[..|items| - 1], items[|items| - 1];
      EventsTell(front);
      AbsorbedAppend(START, ChunksOf(front), ChunksOfOne(last), true);
      if last.Ev? {
        EventTells(EventsOf(front, true), AssemblyOf(front, true), Marks(front), last.event);
      } else {
        NothingAppended(EventsOf(front, true));
        NothingAppended(ChunksOf(front));
        NothingAppended(Marks(front));
      }
    }
  }

  lemma NothingYet()
    ensures TellsAll(EventsOf([], true), AssemblyOf([], true), Marks([]))
  {
  }

  /** What the consumer saw piece by piece trims to the text that the turn returns. */
  lemma PartialsTrimToText(items: seq<Item>, tag: Tag, readers: Readers, resolve: string -> string)
    requires tag.open != "" && tag.close != ""
    ensures TrimSpace(Gather(EventsOf(items, true), TextIn)) == Outcome(items, true, tag, readers, resolve, true).text
  {
    EventsTell(items);
    AssemblyMeans(ChunksOf(items), true);
    var lead := ShownRefinesAssembled(Contents(ChunksOf(items)));
  }

  /**
   * With partial messages on, the thoughts sent are all the reasoning received and the images sent are
   * the images returned, none left out and none repeated. With partial messages off nothing of them is
   * sent. Either way there is one message per event, and one error per event that does not parse.
   */
  lemma StreamsTell(items: seq<Item>, tag: Tag, readers: Readers, resolve: string -> string)
    requires tag.open != "" && tag.close != ""
    ensures var es := EventsOf(items, true);
      && Gather(es, ThoughtIn) == Flatten(Thoughts(ChunksOf(items)))
      && Gather(es, ImagesIn) == Outcome(items, true, tag, readers, resolve, true).images
      && Gather(es, MarkIn) == Marks(items)
    ensures EventsOf(items, false) == Marks(items)
  {
    EventsTell(items);
    AssemblyMeans(ChunksOf(items), true);
    QuietWithoutPartials(items);
  }

  /** How the messages about one chunk are ordered: thought, text, images. */
  function Rank(e: Event): int {
    if e.Sent? && e.msg.StreamEvent? then 0 else if e.Sent? && e.msg.Thinking? then 1 else if e.Sent? && e.msg.Partial? then 2 else 3
  }

  /** An event of one chunk sends itself, then at most one thought, one text and some images, in this order. */
  lemma ChunksInOrder(a: Assembly, cost: Option<real>, ch: Chunk)
    ensures var es := EventsOfOne(a, ServerEvent(cost, Some([ch])), true);
      forall i, j :: 0 <= i < j < |es| ==> Rank(es[i]) < Rank(es[j])
  {
    hide NewImages, ShownPiece;
    assert [ch][..0] == [];
    assert ShownAll(a, [ch], true) == Shown(a, ch, true);
  }

  /***** Chunks and costs of a stream *****/

  /** The chunks of a stream are those of every event that parses, in order, and no others. */
  lemma {:induction false} ChunksAppend(xs: seq<Item>, ys: seq<Item>)
    ensures ChunksOf(xs + ys) == ChunksOf(xs) + ChunksOf(ys)
    ensures forall cost, chunks :: ChunksOf([Ev(ServerEvent(cost, Some(chunks)))]) == chunks
    ensures forall item: Item :: !item.Ev? || item.event.chunks.None? ==> ChunksOf([item]) == []
  {
    forall item: Item ensures ChunksOf([item]) == ChunksOfOne(item) { assert [item][..0] == []; }
    if ys == [] {
      assert xs + ys == xs;
      NothingAppended(ChunksOf(xs));
    } else {
      var front := ys[..|ys| - 1];
      assert (xs + ys)[..|xs + ys| - 1] == xs + front;
      ChunksAppend(xs, front);
    }
  }

  /** No item from place `k` on reports a cost. */
  ghost predicate FreeFrom(items: seq<Item>, k: nat) {
    forall j :: k <= j < |items| && items[j].Ev? ==> items[j].event.cost.None?
  }

  /** The cost of a stream is the one reported last, if any was. */
  lemma {:induction false} CostIsLast(items: seq<Item>, k: nat)
    requires k < |items| && items[k].Ev? && items[k].event.cost.Some? && FreeFrom(items, k + 1)
    ensures CostOf(items) == items[k].event.cost
  {
    if k < |items| - 1 { CostIsLast(items[..|items| - 1], k); }
  }

  lemma {:induction false} NoCostNoneReported(items: seq<Item>)
    requires FreeFrom(items, 0)
    ensures CostOf(items) == None
  {
    if items != [] { NoCostNoneReported(items[..|items| - 1]); }
  }
}
