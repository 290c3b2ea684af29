/**
 * The Bloom filter's write-only path against the plain path. Records of a key are handled one at a time, produces
 * may fail, rows may expire, timeouts fire and delayed joins are flushed at the same moments on both sides. The
 * two processors then publish the same messages in the same order and keep the same rows, tracker and delay queue,
 * if and only if the join has at least two streams.
 */
module BloomRefinement {
  import opened Base
  import opened Protocol
  import opened Atomic

  function Run(c: Setup, ops: seq<Op>): World {
    if ops == [] then EMPTY_WORLD else Perform(c, Run(c, ops[..|ops| - 1]), ops[|ops| - 1])
  }

  function Plain(c: Setup): Setup {
    c.(bloom := false)
  }

  /** Everything but the filter itself and the timeout set, which only first arrivals feed. */
  predicate Same(w: World, v: World) {
    w.rows == v.rows && w.tracker == v.tracker && w.queue == v.queue && w.out == v.out
  }

  /** The invariant behind the shortcut: a key with a row or a partial has been added to the filter. */
  predicate Known(w: World) {
    (forall h | h in w.rows :: h in w.bloom) && (forall h | h in w.tracker :: h in w.bloom)
  }

  lemma DecisionsAgree(c: Setup, row: Row, tracked: bool, e: Event, f: Site -> Reply)
    ensures Decide(Plain(c), row, tracked, e, f) == Decide(c, row, tracked, e, f)
  {
    assert Plain(c).Doc(row.cells) == c.Doc(row.cells);
  }

  lemma TimingsAgree(c: Setup, row: Option<Row>, h: Hash, produce: Reply)
    ensures Timing(Plain(c), row, h, produce) == Timing(c, row, h, produce)
  {
    if row.Some? { assert Plain(c).Doc(row.value.cells) == c.Doc(row.value.cells); }
  }

  /** The same effect on both sides; only keys already in the filter are put on the tracker. */
  lemma EnactAgrees(c: Setup, w: World, v: World, h: Hash, x: Effect)
    requires Same(w, v) && Known(w) && (h in w.bloom || x.tracked != Some(true))
    ensures Same(Enact(c, w, h, x), Enact(Plain(c), v, h, x)) && Known(Enact(c, w, h, x))
  {
  }

  /** A first arrival the filter has not seen finds no row and no partial: reading back would have found one cell. */
  lemma FirstArrivalAgrees(c: Setup, w: World, v: World, e: Event, f: Site -> Reply)
    requires Same(w, v) && Known(w) && c.N() >= 2 && e.hash !in w.bloom
    ensures AfterWrite(Plain(c), Upsert(v, e), e, f) == (Upsert(v, e), true)
    ensures Same(FirstArrival(c, w, e, f), Upsert(v, e)) && Known(FirstArrival(c, w, e, f))
  {
    assert CellsAt(v, e.hash)[e.stream := e.payload] == map[e.stream := e.payload];
    assert Decide(Plain(c), Upsert(v, e).rows[e.hash], false, e, f) == Nothing(true);
  }

  lemma HandledAgrees(c: Setup, w: World, v: World, e: Event, f: Site -> Reply)
    requires Same(w, v) && Known(w) && c.bloom && c.N() >= 2
    ensures Same(Handled(c, w, e, f).0, Handled(Plain(c), v, e, f).0)
    ensures Handled(c, w, e, f).1 == Handled(Plain(c), v, e, f).1
    ensures Known(Handled(c, w, e, f).0)
  {
    if e.hash !in w.bloom {
      FirstArrivalAgrees(c, w, v, e, f);
    } else {
      var row, tracked := Upsert(w, e).rows[e.hash], e.hash in w.tracker;
      DecisionsAgree(c, row, tracked, e, f);
      EnactAgrees(c, Upsert(w, e), Upsert(v, e), e.hash, Decide(c, row, tracked, e, f));
    }
  }

  /** One record: the same messages, the same rows, and the same error, if any. */
  lemma RecordAgrees(c: Setup, w: World, v: World, e: Event, a: Answers)
    requires Same(w, v) && Known(w) && c.bloom && c.N() >= 2
    ensures Same(Perform(c, w, Record(e, a)), Perform(Plain(c), v, Record(e, a))) && Known(Perform(c, w, Record(e, a)))
    ensures Handled(c, w, e, Replies(a)).1 == Handled(Plain(c), v, e, Replies(a)).1
  {
    HandledAgrees(c, w, v, e, Replies(a));
  }

  lemma FiredAgrees(c: Setup, w: World, v: World, h: Hash, produce: Reply)
    requires Same(w, v) && Known(w)
    ensures Same(Fired(c, w, h, produce), Fired(Plain(c), v, h, produce))
    ensures Known(Fired(c, w, h, produce))
  {
    TimingsAgree(c, RowAt(w, h), h, produce);
    EnactAgrees(c, w, v, h, Timing(c, RowAt(w, h), h, produce));
  }

  lemma PerformAgrees(c: Setup, w: World, v: World, op: Op)
    requires Same(w, v) && Known(w) && c.bloom && c.N() >= 2
    ensures Same(Perform(c, w, op), Perform(Plain(c), v, op)) && Known(Perform(c, w, op))
  {
    match op {
      case Record(e, a) => RecordAgrees(c, w, v, e, a);
      case Timeout(h, produce) => FiredAgrees(c, w, v, h, produce);
      case _ =>
    }
  }

  lemma {:induction false} RunAgrees(c: Setup, ops: seq<Op>)
    requires c.bloom && c.N() >= 2
    ensures Same(Run(c, ops), Run(Plain(c), ops)) && Known(Run(c, ops))
  {
    if ops != [] {
      var init := ops[..|ops| - 1];
      RunAgrees(c, init);
      PerformAgrees(c, Run(c, init), Run(Plain(c), init), ops[|ops| - 1]);
    }
  }

  ghost predicate Refines(c: Setup) {
    forall ops :: Same(Run(c, ops), Run(Plain(c), ops))
  }

  lemma RunOne(c: Setup, op: Op)
    ensures Run(c, [op]) == Perform(c, EMPTY_WORLD, op)
  {
    assert [op][..0] == [];
  }

  lemma OneStreamCompletes(c: Setup, e: Event, f: Site -> Reply)
    requires c.N() == 1 && c.decode(e.payload).Some? && f(AtPublish).Fine()
    requires c.bloom
    ensures !Same(Handled(c, EMPTY_WORLD, e, f).0, Handled(Plain(c), EMPTY_WORLD, e, f).0)
  {
    var row := Upsert(EMPTY_WORLD, e).rows[e.hash];
    assert row.cells == map[e.stream := e.payload];
    assert Plain(c).Doc(row.cells).Some?;
    var x := Decide(Plain(c), row, false, e, f);
    assert x.deleted || x.queued.Some?;
    var v := Handled(Plain(c), EMPTY_WORLD, e, f).0;
    assert e.hash !in v.rows || v.queue != [];
  }

  /** A one-stream join is complete at its first arrival, which the filter's shortcut does not notice. */
  lemma OneStreamDiffers(c: Setup, e: Event)
    requires c.bloom && c.N() == 1 && c.decode(e.payload).Some?
    ensures !Refines(c)
  {
    var fine := Reply(Done, {}, 0);
    var a := Answers(fine, fine, {}, 0, 0);
    var ops := [Record(e, a)];
    OneStreamCompletes(c, e, Replies(a));
    RunOne(c, ops[0]);
    RunOne(Plain(c), ops[0]);
    assert !Same(Run(c, ops), Run(Plain(c), ops));
  }

  /** The shortcut is invisible exactly for joins of two streams and more. */
  lemma RefinesIff(c: Setup, e: Event)
    requires c.bloom && c.N() >= 1 && c.decode(e.payload).Some?
    ensures Refines(c) <==> c.N() >= 2
  {
    if c.N() >= 2 {
      forall ops ensures Same(Run(c, ops), Run(Plain(c), ops)) { RunAgrees(c, ops); }
    } else {
      OneStreamDiffers(c, e);
    }
  }
}
