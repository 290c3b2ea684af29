/**
 * A key times out under partial egress and its missing streams arrive late. The partial and its correction, merged,
 * are the join that would have been published, if nothing the projection shows arrives after the first late stream.
 * With one stream missing that is always so. With more, what the later ones show is never published: the correction
 * takes the key off the tracker.
 */
module LateArrival {
  import opened Base
  import opened Json
  import opened Projection
  import opened Protocol
  import opened Atomic
  import opened BloomRefinement
  import opened PerKey

  predicate Corrected(c: Setup) {
    c.Partials() && c.Corrects() && c.producer
  }

  function PartialOf(c: Setup, h: Hash, cells: Cells): Sent
    requires Decodes(c.decode, cells)
  {
    Sent(Partial, h, c.Doc(cells).value, "", h, cells)
  }

  function CorrectionOf(c: Setup, e: Event): Sent
    requires c.decode(e.payload).Some?
  {
    var cells := map[e.stream := e.payload];
    Sent(Late, e.hash, c.Doc(cells).value, e.raw, e.hash, cells)
  }

  /** What a run of late records leaves in the row. */
  function Gathered(es: seq<Event>): Cells {
    if es == [] then map[] else Gathered(es[..|es| - 1])[es[|es| - 1].stream := es[|es| - 1].payload]
  }

  // ---------- what is published ----------

  lemma PartialFires(c: Setup, w: World, h: Hash)
    requires Corrected(c) && h in w.rows && |w.rows[h].cells| < c.N() && Decodes(c.decode, w.rows[h].cells)
    ensures var v := Perform(c, w, Timeout(h, FINE.publish));
      h !in v.rows && h in v.tracker && v.out == w.out + [PartialOf(c, h, w.rows[h].cells)]
  {
  }

  lemma LateDecision(c: Setup, row: Row, e: Event)
    requires Corrected(c) && c.N() >= 2 && c.decode(e.payload).Some? && row == Row(e.raw, map[e.stream := e.payload])
    ensures Decide(c, row, true, e, Replies(FINE)) ==
      Effect(Some(CorrectionOf(c, e)), true, Some(false), false, None, true)
  {
  }

  lemma CorrectionEnacted(c: Setup, w: World, h: Hash, m: Sent)
    ensures var v := Enact(c, w, h, Effect(Some(m), true, Some(false), false, None, true));
      h !in v.rows && h !in v.tracker && v.out == w.out + [m]
  {
  }

  lemma FirstLate(c: Setup, w: World, e: Event)
    requires Corrected(c) && !c.bloom && c.N() >= 2 && e.hash !in w.rows && e.hash in w.tracker
      && c.decode(e.payload).Some?
    ensures var v := Perform(c, w, Record(e, FINE));
      e.hash !in v.rows && e.hash !in v.tracker && v.out == w.out + [CorrectionOf(c, e)]
  {
    var u := Upsert(w, e);
    assert CellsAt(w, e.hash)[e.stream := e.payload] == map[e.stream := e.payload];
    LateDecision(c, u.rows[e.hash], e);
    CorrectionEnacted(c, u, e.hash, CorrectionOf(c, e));
  }

  lemma NextLate(c: Setup, w: World, e: Event)
    requires !c.bloom && e.hash !in w.tracker && |CellsAt(w, e.hash)| + 1 < c.N()
    ensures Perform(c, w, Record(e, FINE)) == Upsert(w, e)
  {
    var cells := CellsAt(w, e.hash)[e.stream := e.payload];
    assert cells.Keys == CellsAt(w, e.hash).Keys + {e.stream};
    assert |Upsert(w, e).rows[e.hash].cells| < c.N();
    assert Decide(c, Upsert(w, e).rows[e.hash], false, e, Replies(FINE)) == Nothing(true);
  }

  predicate Gathering(w: World, h: Hash, cells: Cells, out: seq<Sent>) {
    h !in w.tracker && CellsAt(w, h) == cells && w.out == out
  }

  lemma {:induction false} GatheredCount(es: seq<Event>)
    ensures |Gathered(es)| <= |es|
  {
    if es != [] {
      var init, e := es[..|es| - 1], es[|es| - 1];
      GatheredCount(init);
      assert Gathered(es).Keys == Gathered(init).Keys + {e.stream};
    }
  }

  lemma GatheringOn(c: Setup, w: World, h: Hash, cells: Cells, e: Event, out: seq<Sent>)
    requires !c.bloom && e.hash == h && |cells| + 1 < c.N() && Gathering(w, h, cells, out)
    ensures Gathering(Perform(c, w, Record(e, FINE)), h, cells[e.stream := e.payload], out)
  {
    NextLate(c, w, e);
  }

  lemma GatheringSnoc(c: Setup, ops: seq<Op>, h: Hash, cells: Cells, e: Event, out: seq<Sent>)
    requires !c.bloom && e.hash == h && |cells| + 1 < c.N() && Gathering(Run(c, ops), h, cells, out)
    ensures Gathering(Run(c, ops + [Record(e, FINE)]), h, cells[e.stream := e.payload], out)
  {
    RunSnoc(c, ops, Record(e, FINE));
    GatheringOn(c, Run(c, ops), h, cells, e, out);
  }

  lemma {:induction false} RestUnpublished(c: Setup, ops: seq<Op>, h: Hash, es: seq<Event>, out: seq<Sent>)
    requires !c.bloom && |es| < c.N() && forall e | e in es :: e.hash == h
    requires Gathering(Run(c, ops), h, map[], out)
    ensures Gathering(Run(c, ops + Records(es)), h, Gathered(es), out)
  {
    if es == [] {
      assert ops + Records(es) == ops;
    } else {
      var init, e := es[..|es| - 1], es[|es| - 1];
      RecordsSnoc(es);
      assert ops + Records(es) == (ops + Records(init)) + [Record(e, FINE)];
      RestUnpublished(c, ops, h, init, out);
      GatheredCount(init);
      GatheringSnoc(c, ops + Records(init), h, Gathered(init), e, out);
    }
  }

  /** One key's operations: what came before, the timeout, the late records. */
  function Story(before: seq<Op>, h: Hash, late: seq<Event>): seq<Op> {
    before + [Timeout(h, FINE.publish)] + Records(late)
  }

  lemma TimeoutPublishes(c: Setup, before: seq<Op>, h: Hash, cells: Cells, out: seq<Sent>)
    requires Corrected(c) && h in Run(c, before).rows && Run(c, before).rows[h].cells == cells
      && Run(c, before).out == out
    requires |cells| < c.N() && Decodes(c.decode, cells)
    ensures var w := Run(c, before + [Timeout(h, FINE.publish)]);
      h !in w.rows && h in w.tracker && w.out == out + [PartialOf(c, h, cells)]
  {
    RunSnoc(c, before, Timeout(h, FINE.publish));
    PartialFires(c, Run(c, before), h);
  }

  lemma CorrectionPublishes(c: Setup, ops: seq<Op>, e: Event, out: seq<Sent>)
    requires Corrected(c) && !c.bloom && c.N() >= 2 && c.decode(e.payload).Some?
    requires e.hash !in Run(c, ops).rows && e.hash in Run(c, ops).tracker && Run(c, ops).out == out
    ensures Gathering(Run(c, ops + [Record(e, FINE)]), e.hash, map[], out + [CorrectionOf(c, e)])
  {
    RunSnoc(c, ops, Record(e, FINE));
    FirstLate(c, Run(c, ops), e);
  }

  lemma StoryParts(before: seq<Op>, h: Hash, late: seq<Event>)
    requires late != []
    ensures Story(before, h, late) == before + [Timeout(h, FINE.publish)] + [Record(late[0], FINE)] + Records(late[1..])
  {
  }

  predicate Holding(w: World, h: Hash, cells: Cells, out: seq<Sent>) {
    h in w.rows && w.rows[h].cells == cells && w.out == out
  }

  lemma FirstTwo(c: Setup, before: seq<Op>, h: Hash, cells: Cells, out: seq<Sent>, e: Event)
    requires Corrected(c) && !c.bloom && c.N() >= 2 && e.hash == h && c.decode(e.payload).Some?
    requires Holding(Run(c, before), h, cells, out) && |cells| < c.N() && Decodes(c.decode, cells)
    ensures Gathering(Run(c, before + [Timeout(h, FINE.publish)] + [Record(e, FINE)]), h, map[],
      out + [PartialOf(c, h, cells)] + [CorrectionOf(c, e)])
  {
    TimeoutPublishes(c, before, h, cells, out);
    CorrectionPublishes(c, before + [Timeout(h, FINE.publish)], e, out + [PartialOf(c, h, cells)]);
  }

  lemma RestOfStory(c: Setup, before: seq<Op>, h: Hash, late: seq<Event>, out: seq<Sent>)
    requires !c.bloom && late != [] && |late| <= c.N() && forall e | e in late :: e.hash == h
    requires Gathering(Run(c, before + [Timeout(h, FINE.publish)] + [Record(late[0], FINE)]), h, map[], out)
    ensures Gathering(Run(c, Story(before, h, late)), h, Gathered(late[1..]), out)
  {
    StoryParts(before, h, late);
    RestUnpublished(c, before + [Timeout(h, FINE.publish)] + [Record(late[0], FINE)], h, late[1..], out);
  }

  lemma OwnStory(c: Setup, before: seq<Op>, h: Hash, late: seq<Event>, cells: Cells, out: seq<Sent>)
    requires Corrected(c) && !c.bloom && late != [] && |late| <= c.N() && c.N() >= 2
    requires forall e | e in late :: e.hash == h && c.decode(e.payload).Some?
    requires Holding(Run(c, before), h, cells, out) && |cells| < c.N() && Decodes(c.decode, cells)
    ensures Gathering(Run(c, Story(before, h, late)), h, Gathered(late[1..]),
      out + [PartialOf(c, h, cells)] + [CorrectionOf(c, late[0])])
  {
    FirstTwo(c, before, h, cells, out, late[0]);
    RestOfStory(c, before, h, late, out + [PartialOf(c, h, cells)] + [CorrectionOf(c, late[0])]);
  }

  // ---------- what it says ----------

  /** A consumer's merge of two published documents: the members of the second over those of the first. */
  function MergeTexts(a: string, b: string): Option<string> {
    match (Unmarshal(a), Unmarshal(b))
    case (Some(Obj(m)), Some(Obj(n))) => Some(Marshal(Obj(m + n)))
    case _ => None
  }

  predicate ShowsNothing(data: Participants, proj: seq<JoinConfig.ProjectionField>) {
    forall i | 0 <= i < |proj| :: !Present(data, proj[i])
  }

  lemma {:induction false} EmptyDocumentIff(data: Participants, proj: seq<JoinConfig.ProjectionField>)
    ensures Project(data, proj) == map[] <==> ShowsNothing(data, proj)
  {
    if proj != [] {
      var init, last := proj[..|proj| - 1], proj[|proj| - 1];
      EmptyDocumentIff(data, init);
      if Present(data, last) { assert last.output in Project(data, proj); }
    }
  }

  lemma DecodedUnion(decode: Decoder, a: Cells, b: Cells)
    requires Decodes(decode, a) && Decodes(decode, b)
    ensures Decodes(decode, a + b) && Decoded(decode, a + b) == Decoded(decode, a) + Decoded(decode, b)
  {
  }

  lemma MergedText(a: Fields, b: Fields)
    ensures MergeTexts(Marshal(Obj(a)), Marshal(Obj(b))) == Some(Marshal(Obj(a + b)))
  {
    ReadBack(Obj(a));
    ReadBack(Obj(b));
  }

  lemma DisjointMergeSame(a: Fields, b: Fields)
    requires a.Keys !! b.Keys
    ensures a + b == a <==> b == map[]
  {
    assert (a + b).Keys == a.Keys + b.Keys;
    assert a + b == a ==> b.Keys == {};
  }

  /** The documents of two parts, merged, are the document of all three if and only if the third shows nothing. */
  lemma MergedIsWholeIff(c: Setup, a: Cells, b: Cells, rest: Cells)
    requires Decodes(c.decode, a) && Decodes(c.decode, b) && Decodes(c.decode, rest) && OutputsOwned(c.join.projection)
    requires a.Keys !! b.Keys && (a + b).Keys !! rest.Keys
    ensures c.Doc(a + b + rest).Some?
    ensures MergeTexts(c.Doc(a).value, c.Doc(b).value) == c.Doc(a + b + rest)
      <==> ShowsNothing(Decoded(c.decode, rest), c.join.projection)
  {
    var proj := c.join.projection;
    var x, y, z := Decoded(c.decode, a), Decoded(c.decode, b), Decoded(c.decode, rest);
    DecodedUnion(c.decode, a, b);
    DecodedUnion(c.decode, a + b, rest);
    MergeLaw(x, y, proj);
    MergeLaw(x + y, z, proj);
    MergedText(Project(x, proj), Project(y, proj));
    EmptyDocumentIff(z, proj);
    var whole, part := Project(x + y + z, proj), Project(x + y, proj);
    if Marshal(Obj(whole)) == Marshal(Obj(part)) { MarshalInjective(Obj(whole), Obj(part)); }
    DisjointMergeSame(part, Project(z, proj));
  }

  predicate Fresh(cells: Cells, late: seq<Event>) {
    && (forall e | e in late :: e.stream !in cells)
    && (forall i, j | 0 <= i < j < |late| :: late[i].stream != late[j].stream)
  }

  lemma {:induction false} GatheredIn(es: seq<Event>, s: string)
    ensures s in Gathered(es) ==> exists e :: e in es && e.stream == s && e.payload == Gathered(es)[s]
  {
    if es != [] && s in Gathered(es) {
      var init, e := es[..|es| - 1], es[|es| - 1];
      if e.stream == s { assert e in es; } else { GatheredIn(init, s); }
    }
  }

  lemma GatheredFresh(c: Setup, cells: Cells, late: seq<Event>)
    requires late != [] && Fresh(cells, late) && forall e | e in late :: c.decode(e.payload).Some?
    ensures var rest := Gathered(late[1..]);
      Decodes(c.decode, rest) && (cells + map[late[0].stream := late[0].payload]).Keys !! rest.Keys
  {
    var rest := Gathered(late[1..]);
    forall s | s in rest ensures c.decode(rest[s]).Some? && s !in cells && s != late[0].stream {
      GatheredIn(late[1..], s);
      var e :| e in late[1..] && e.stream == s && e.payload == rest[s];
      var i :| 0 <= i < |late| - 1 && late[1..][i] == e;
      assert late[i + 1] == e;
    }
  }

  lemma SharedStory(c: Setup, ops: seq<Op>, h: Hash, mine: seq<Op>, cells: Cells, out: seq<Sent>)
    requires (c.bloom ==> c.N() >= 2) && OpsOf(ops, h) == mine && Gathering(Run(Plain(c), mine), h, cells, out)
    ensures SentFor(Run(c, ops).out, h) == out && CellsAt(Run(c, ops), h) == cells
  {
    if c.bloom { RunAgrees(c, ops); } else { assert Plain(c) == c; }
    RunView(Plain(c), ops, h);
    assert View(Run(Plain(c), ops), h).out == SentFor(Run(Plain(c), ops).out, h);
  }

  lemma PlainMessages(c: Setup, h: Hash, cells: Cells, e: Event)
    requires Decodes(c.decode, cells) && c.decode(e.payload).Some?
    ensures PartialOf(Plain(c), h, cells) == PartialOf(c, h, cells) && CorrectionOf(Plain(c), e) == CorrectionOf(c, e)
  {
  }

  lemma PublishedAndHeld(c: Setup, ops: seq<Op>, before: seq<Op>, h: Hash, late: seq<Event>)
    requires Corrected(c) && late != [] && |late| <= c.N() && c.N() >= 2
    requires OpsOf(ops, h) == Story(before, h, late)
    requires forall e | e in late :: e.hash == h && c.decode(e.payload).Some?
    requires h in Run(Plain(c), before).rows
    requires var cells := CellsAt(Run(Plain(c), before), h); |cells| < c.N() && Decodes(c.decode, cells)
    ensures var cells := CellsAt(Run(Plain(c), before), h);
      && SentFor(Run(c, ops).out, h) ==
           Run(Plain(c), before).out + [PartialOf(c, h, cells)] + [CorrectionOf(c, late[0])]
      && CellsAt(Run(c, ops), h) == Gathered(late[1..])
  {
    var p, cells := Plain(c), CellsAt(Run(Plain(c), before), h);
    OwnStory(p, before, h, late, cells, Run(p, before).out);
    PlainMessages(c, h, cells, late[0]);
    SharedStory(c, ops, h, Story(before, h, late), Gathered(late[1..]),
      Run(p, before).out + [PartialOf(c, h, cells)] + [CorrectionOf(c, late[0])]);
  }

  /**
   * Over any run in which key `h`, holding `cells`, times out and the missing streams then arrive late: exactly one
   * partial and one correction are published for it, and merging them gives the inner join's document if and only
   * if the streams after the first late one have nothing the projection shows.
   */
  lemma CorrectionCompletesIff(c: Setup, ops: seq<Op>, before: seq<Op>, h: Hash, late: seq<Event>)
    requires Corrected(c) && OutputsOwned(c.join.projection) && c.N() >= 2
    requires OpsOf(ops, h) == Story(before, h, late) && late != []
    requires forall e | e in late :: e.hash == h && c.decode(e.payload).Some?
    requires h in Run(Plain(c), before).rows
    requires var cells := CellsAt(Run(Plain(c), before), h);
      Decodes(c.decode, cells) && |cells| + |late| == c.N() && Fresh(cells, late)
    ensures var cells := CellsAt(Run(Plain(c), before), h);
      var partial, late1, rest := PartialOf(c, h, cells), CorrectionOf(c, late[0]), Gathered(late[1..]);
      && SentFor(Run(c, ops).out, h) == Run(Plain(c), before).out + [partial] + [late1]
      && CellsAt(Run(c, ops), h) == rest && Decodes(c.decode, rest)
      && (MergeTexts(partial.text, late1.text) == c.Doc(cells + map[late[0].stream := late[0].payload] + rest)
          <==> ShowsNothing(Decoded(c.decode, rest), c.join.projection))
  {
    var p, cells := Plain(c), CellsAt(Run(Plain(c), before), h);
    PublishedAndHeld(c, ops, before, h, late);
    GatheredFresh(c, cells, late);
    assert Decodes(c.decode, map[late[0].stream := late[0].payload]);
    MergedIsWholeIff(c, cells, map[late[0].stream := late[0].payload], Gathered(late[1..]));
  }

  lemma OneMore(c: Setup, cells: Cells, e: Event)
    requires e.stream !in cells
    ensures var late, none: Cells := map[e.stream := e.payload], map[];
      && cells + late + none == cells[e.stream := e.payload]
      && Decodes(c.decode, none) && Decoded(c.decode, none) == map[]
      && cells.Keys !! late.Keys && (cells + late).Keys !! none.Keys
  {
  }

  lemma OneMissing(c: Setup, cells: Cells, e: Event)
    requires OutputsOwned(c.join.projection) && Decodes(c.decode, cells) && c.decode(e.payload).Some?
      && e.stream !in cells
    ensures MergeTexts(c.Doc(cells).value, CorrectionOf(c, e).text) == c.Doc(cells[e.stream := e.payload])
  {
    OneMore(c, cells, e);
    MergedIsWholeIff(c, cells, map[e.stream := e.payload], map[]);
  }

  /** With one stream missing, partial plus correction is always the join. */
  lemma CorrectionCompletes(c: Setup, ops: seq<Op>, before: seq<Op>, h: Hash, e: Event)
    requires Corrected(c) && OutputsOwned(c.join.projection) && c.N() >= 2
    requires OpsOf(ops, h) == Story(before, h, [e]) && e.hash == h && c.decode(e.payload).Some?
    requires h in Run(Plain(c), before).rows
    requires var cells := CellsAt(Run(Plain(c), before), h);
      Decodes(c.decode, cells) && |cells| == c.N() - 1 && e.stream !in cells
    ensures var cells := CellsAt(Run(Plain(c), before), h);
      var partial, correction := PartialOf(c, h, cells), CorrectionOf(c, e);
      && SentFor(Run(c, ops).out, h) == Run(Plain(c), before).out + [partial] + [correction]
      && MergeTexts(partial.text, correction.text) == c.Doc(cells[e.stream := e.payload])
  {
    var cells := CellsAt(Run(Plain(c), before), h);
    PublishedAndHeld(c, ops, before, h, [e]);
    OneMissing(c, cells, e);
  }

  // ---------- the smallest instance ----------

  lemma {:induction false} AllOwn(ops: seq<Op>, h: Hash)
    requires forall op | op in ops :: KeyOf(op) == h
    ensures OpsOf(ops, h) == ops
  {
    if ops != [] {
      AllOwn(ops[..|ops| - 1], h);
      assert ops == ops[..|ops| - 1] + [ops[|ops| - 1]];
    }
  }

  lemma OneArrived(c: Setup, a: Event)
    requires !c.bloom && c.N() >= 2
    ensures Run(c, [Record(a, FINE)]) == Upsert(EMPTY_WORLD, a)
    ensures CellsAt(Upsert(EMPTY_WORLD, a), a.hash) == map[a.stream := a.payload]
  {
    RunOne(c, Record(a, FINE));
    NextLate(c, EMPTY_WORLD, a);
  }

  lemma HeldFirst(c: Setup, ops: seq<Op>, before: seq<Op>, a: Event, b: Event)
    requires Corrected(c) && c.N() == 2 && OpsOf(ops, a.hash) == Story(before, a.hash, [b]) && b.hash == a.hash
    requires c.decode(a.payload).Some? && c.decode(b.payload).Some?
    requires Run(Plain(c), before) == Upsert(EMPTY_WORLD, a)
    ensures SentFor(Run(c, ops).out, a.hash) ==
      [PartialOf(c, a.hash, map[a.stream := a.payload])] + [CorrectionOf(c, b)]
  {
    assert CellsAt(Upsert(EMPTY_WORLD, a), a.hash) == map[a.stream := a.payload];
    PublishedAndHeld(c, ops, before, a.hash, [b]);
  }

  /** Two streams: one arrives, its key times out, the other arrives. Two messages, which merge into the join. */
  lemma TwoStreams(c: Setup, a: Event, b: Event)
    requires Corrected(c) && OutputsOwned(c.join.projection) && c.N() == 2
    requires a.hash == b.hash && a.stream != b.stream && c.decode(a.payload).Some? && c.decode(b.payload).Some?
    ensures var first := map[a.stream := a.payload];
      var ops := Story([Record(a, FINE)], a.hash, [b]);
      && SentFor(Run(c, ops).out, a.hash) == [PartialOf(c, a.hash, first)] + [CorrectionOf(c, b)]
      && MergeTexts(PartialOf(c, a.hash, first).text, CorrectionOf(c, b).text) == c.Doc(first[b.stream := b.payload])
  {
    var ops, first := Story([Record(a, FINE)], a.hash, [b]), map[a.stream := a.payload];
    assert Records([b]) == [Record(b, FINE)];
    AllOwn(ops, a.hash);
    OneArrived(Plain(c), a);
    HeldFirst(c, ops, [Record(a, FINE)], a, b);
    OneMissing(c, first, b);
  }
}
