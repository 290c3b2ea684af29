/**
 * What consuming a partition guarantees, over all runs of Redelivery: once the log is committed, the join of a key all
 * of whose records were handled is published, or waits out its settle delay, unless one of its cells expired, a timeout
 * came first, or its join was dropped; and all joins of a key are the same document.
 */
module CrashSafety {
  import opened Base
  import opened Json
  import opened JoinConfig
  import opened Projection
  import opened Protocol
  import opened Redelivery

  // ---------- what the filter knows ----------

  predicate BloomKnows(c: Setup, w: World, k: Hash) {
    c.bloom ==> k in w.bloom
  }

  /** The filter knows the key of every join. */
  predicate AllKnown(c: Setup, w: World) {
    && (forall i | i in w.queue :: BloomKnows(c, w, i.hash))
    && (forall m | m in w.out && IsJoin(m) :: BloomKnows(c, w, m.hash))
  }

  /** What holds of any handler, whatever was passed over. */
  predicate Firm(c: Setup, w: World, pc: Pc) {
    && (pc.Write? || pc.Read? || pc.Contains? || pc.Publish? || pc.Enqueue? || pc.Drop? ==> BloomKnows(c, w, pc.e.hash))
    && (pc.Drop? ==> Published(w.out, pc.e.hash))
  }

  /** And of any flusher. */
  predicate FirmFlusher(c: Setup, w: World, dropped: set<Hash>, f: Fpc) {
    && (forall i | i in InHands(f) :: BloomKnows(c, w, i.hash))
    && (f.Clear? ==> Published(w.out, f.item.hash))
    && (f.Dequeue? ==> c.durable && (Published(w.out, f.item.hash) || f.item.hash in dropped))
  }

  predicate FirmFlushers(c: Setup, w: World, dropped: set<Hash>, flushers: map<nat, Fpc>) {
    forall f | f in flushers :: FirmFlusher(c, w, dropped, flushers[f])
  }

  predicate Steady(c: Setup, p: Partition) {
    && AllKnown(c, p.w) && FirmFlushers(c, p.w, p.dropped, p.flushers)
    && (p.pc.Some? ==> Firm(c, p.w, p.pc.value))
  }

  /** What no call takes back. */
  ghost predicate Ahead(w: World, v: World) {
    w.bloom <= v.bloom && forall h :: Published(w.out, h) ==> Published(v.out, h)
  }

  lemma CallAhead(c: Setup, w: World, pc: Pc, r: Reply)
    ensures Ahead(w, HandlerStep(c, w, pc, r).0)
  {
    forall h | Published(w.out, h) ensures Published(HandlerStep(c, w, pc, r).0.out, h) {
      CallPublishes(c, w, pc, r, h);
    }
  }

  lemma ManagerAhead(c: Setup, w: World, m: Mpc, r: Reply)
    ensures Ahead(w, ManagerStep(c, w, m, r).0)
  {
    forall h | Published(w.out, h) ensures Published(ManagerStep(c, w, m, r).0.out, h) {
      ManagerPublishes(c, w, m, r, h);
    }
  }

  lemma FlusherAhead(c: Setup, w: World, f: Fpc, r: Reply)
    ensures Ahead(w, FlusherStep(c, w, f, r).0)
  {
    forall h | Published(w.out, h) ensures Published(FlusherStep(c, w, f, r).0.out, h) {
      FlusherPublishes(c, w, f, r, h);
    }
  }

  lemma FlushersStay(c: Setup, w: World, v: World, dropped: set<Hash>, more: set<Hash>, flushers: map<nat, Fpc>)
    requires FirmFlushers(c, w, dropped, flushers) && Ahead(w, v) && dropped <= more
    ensures FirmFlushers(c, v, more, flushers)
  {
    forall f | f in flushers ensures FirmFlusher(c, v, more, flushers[f]) {
      assert FirmFlusher(c, w, dropped, flushers[f]);
    }
  }

  /** Moves that neither make calls for a join nor hand one on. */
  lemma SteadyOn(c: Setup, p: Partition, q: Partition)
    requires Steady(c, p) && Ahead(p.w, q.w) && AllKnown(c, q.w) && p.dropped <= q.dropped
    requires q.pc == None || q.pc == p.pc
    requires forall f | f in q.flushers :: f in p.flushers && q.flushers[f] == p.flushers[f]
    ensures Steady(c, q)
  {
    FlushersStay(c, p.w, q.w, p.dropped, q.dropped, p.flushers);
    forall f | f in q.flushers ensures FirmFlusher(c, q.w, q.dropped, q.flushers[f]) {
      assert FirmFlusher(c, q.w, q.dropped, p.flushers[f]);
    }
  }

  lemma CallFirm(c: Setup, w: World, pc: Pc, r: Reply)
    requires c.producer && Firm(c, w, pc)
    ensures var (v, next) := HandlerStep(c, w, pc, r); Firm(c, v, next)
  {
    CallPublishes(c, w, pc, r, pc.e.hash);
  }

  lemma CallKnown(c: Setup, w: World, pc: Pc, r: Reply)
    requires AllKnown(c, w) && Firm(c, w, pc)
    ensures AllKnown(c, HandlerStep(c, w, pc, r).0)
  {
  }

  lemma CallSteady(c: Setup, p: Partition, r: Reply)
    requires c.producer && Steady(c, p) && p.pc.Some?
    ensures Steady(c, Called(c, p, p.pc.value, r))
  {
    var q := Called(c, p, p.pc.value, r);
    CallAhead(c, p.w, p.pc.value, r);
    CallFirm(c, p.w, p.pc.value, r);
    CallKnown(c, p.w, p.pc.value, r);
    FlushersStay(c, p.w, q.w, p.dropped, q.dropped, p.flushers);
  }

  /** What becomes of the item at hand. */
  lemma FlusherFirm(c: Setup, w: World, dropped: set<Hash>, f: Fpc, r: Reply)
    requires c.producer && AllKnown(c, w) && FirmFlusher(c, w, dropped, f)
    ensures var (v, g) := FlusherStep(c, w, f, r); AllKnown(c, v) && FirmFlusher(c, v, dropped + Unsent(f, r), g)
  {
    if !f.Quiet? {
      InHandsNext(c, f.item, f.rest);
      FlusherPublishes(c, w, f, r, f.item.hash);
      assert f.Flush? ==> f.item in InHands(f);
      assert forall i | i in f.rest :: i in InHands(f);
    }
  }

  lemma AttemptSteady(c: Setup, p: Partition, f: nat, r: Reply)
    requires c.producer && Steady(c, p)
    ensures Steady(c, Attempted(c, p, f, r))
  {
    var q := Attempted(c, p, f, r);
    FlusherAhead(c, p.w, FlusherAt(p, f), r);
    FlusherFirm(c, p.w, p.dropped, FlusherAt(p, f), r);
    FlushersStay(c, p.w, q.w, p.dropped, q.dropped, p.flushers);
  }

  lemma PollQueueSteady(c: Setup, p: Partition, f: nat, items: seq<Item>, now: int)
    requires Steady(c, p)
    ensures Steady(c, Polled(c, p, f, items, now))
  {
    var none := Item([], "", [], 0, map[]);
    InHandsNext(c, none, items);
    InHandsNext(c, none, Provenance.Due(p.w.queue, now));
  }

  lemma RestartSteady(c: Setup, p: Partition, n: nat)
    requires Steady(c, p)
    ensures Steady(c, Restart(c, p.(committed := n)))
  {
    SteadyOn(c, p, Restart(c, p.(committed := n)));
  }

  lemma CommitSteady(c: Setup, log: Log, p: Partition, commit: Outcome, masked: Option<nat>)
    requires Steady(c, p)
    ensures Steady(c, Commit(c, log, p, commit, masked))
  {
    if commit != Done && masked.None? {
      RestartSteady(c, p, Committed(p, commit).committed);
      assert p.(committed := Committed(p, commit).committed) == Committed(p, commit);
    } else {
      SteadyOn(c, p, Commit(c, log, p, commit, masked));
    }
  }

  lemma UnroutedSteady(c: Setup, log: Log, p: Partition, commit: Outcome, hidden: bool, to: nat)
    requires Steady(c, p)
    ensures Steady(c, Step(c, log, p, Unrouted(commit, hidden, to)))
  {
    if commit == Done || hidden {
      SteadyOn(c, p, Leave(log, Committed(p, commit), to));
    } else {
      CommitSteady(c, log, p, commit, None);
    }
  }

  lemma PlaceSteady(c: Setup, log: Log, p: Partition, move: Move)
    requires Steady(c, p) && (move.Finish? || move.Elsewhere? || move.Unrouted? || move.Crash?)
    ensures Steady(c, Step(c, log, p, move))
  {
    match move {
      case Finish(commit, masked) =>
        SteadyOn(c, p, Skip(p));
        CommitSteady(c, log, p, commit, masked);
      case Elsewhere(commit, masked) => CommitSteady(c, log, p, commit, masked);
      case Unrouted(commit, hidden, to) => UnroutedSteady(c, log, p, commit, hidden, to);
      case Crash =>
        RestartSteady(c, p, p.committed);
        assert p.(committed := p.committed) == p;
      case _ =>
    }
  }

  lemma FetchSteady(c: Setup, log: Log, p: Partition)
    requires Steady(c, p)
    ensures Steady(c, Step(c, log, p, Fetch))
  {
    var q := Step(c, log, p, Fetch);
    if q.pc.None? { SteadyOn(c, p, q); }
  }

  lemma ManageSteady(c: Setup, p: Partition, m: nat, r: Reply)
    requires Steady(c, p)
    ensures Steady(c, Managed(c, p, m, r))
  {
    ManagerAhead(c, p.w, ManagerAt(p, m), r);
    SteadyOn(c, p, Managed(c, p, m, r));
  }

  lemma AsideSteady(c: Setup, log: Log, p: Partition, move: Move)
    requires Steady(c, p) && (move.Fade? || move.Poll? || move.Halt? || move.Quit?)
    ensures Steady(c, Step(c, log, p, move))
  {
    SteadyOn(c, p, Step(c, log, p, move));
  }

  lemma StepSteady(c: Setup, log: Log, p: Partition, move: Move)
    requires GoodSetup(c) && Steady(c, p)
    ensures Steady(c, Step(c, log, p, move))
  {
    match move {
      case Fetch => FetchSteady(c, log, p);
      case Call(r) => if p.pc.Some? { CallSteady(c, p, r); }
      case Manage(m, r) => ManageSteady(c, p, m, r);
      case PollQueue(f, items, now) => PollQueueSteady(c, p, f, items, now);
      case RunFlush(f, r) => AttemptSteady(c, p, f, r);
      case _ => if move.Fade? || move.Poll? || move.Halt? || move.Quit? { AsideSteady(c, log, p, move); }
                else { PlaceSteady(c, log, p, move); }
    }
  }

  /** The filter knows every key whose join is published or waiting. */
  lemma JoinedKnown(c: Setup, p: Partition, k: Hash)
    requires Steady(c, p) && Joined(c, p, k)
    ensures BloomKnows(c, p.w, k)
  {
    if k in Waiting(c, p) && k !in Hashes(p.w.queue) {
      var f, i :| f in p.flushers && i in InHands(p.flushers[f]) && i.hash == k;
      assert FirmFlusher(c, p.w, p.dropped, p.flushers[f]);
    }
  }

  // ---------- nothing handled is forgotten ----------

  /** Every record of `k` before offset `n` has its cell in the row, and the Bloom filter knows the key. */
  predicate Held(c: Setup, log: Log, w: World, k: Hash, n: nat) {
    forall i | 0 <= i < n && Mine(log, k, i) ::
      && log[i].value.stream in CellsAt(w, k)
      && BloomKnows(c, w, k)
  }

  predicate Settled(c: Setup, log: Log, p: Partition, k: Hash, n: nat) {
    Joined(c, p, k) || (Held(c, log, p.w, k, n) && !AllBelow(c, log, k, n))
  }

  predicate JoinedOrHas(c: Setup, p: Partition, k: Hash, stream: string) {
    Joined(c, p, k) || stream in CellsAt(p.w, k)
  }

  /** What holds while the handler of a record of `k` is about to make a call. */
  predicate Underway(c: Setup, log: Log, p: Partition, k: Hash)
    requires p.pc.Some?
  {
    match p.pc.value
    case Exists(_) => true
    case WriteOnly(_) => NoneBelow(log, k, p.cursor)
    case Add(e) => NoneBelow(log, k, p.cursor) && JoinedOrHas(c, p, k, e.stream)
    case Schedule(e) => NoneBelow(log, k, p.cursor) && JoinedOrHas(c, p, k, e.stream) && BloomKnows(c, p.w, k)
    case Read(e) => JoinedOrHas(c, p, k, e.stream)
    case Contains(_, _) => Settled(c, log, p, k, p.cursor + 1)
    case Ended(_, ok) => ok ==> Settled(c, log, p, k, p.cursor + 1)
    case _ => true
  }

  predicate KeptAt(c: Setup, log: Log, p: Partition, k: Hash, n: nat) {
    n <= p.cursor && CleanBelow(log, p, k, n) ==> Settled(c, log, p, k, n)
  }

  ghost predicate Kept(c: Setup, log: Log, p: Partition, k: Hash) {
    && (forall n: nat :: KeptAt(c, log, p, k, n))
    && (p.pc.Some? && p.pc.value.e.hash == k && CleanBelow(log, p, k, p.cursor) ==> Underway(c, log, p, k))
  }

  lemma {:induction false} CoverCount(streams: seq<string>, cells: Cells)
    requires forall i, j | 0 <= i < j < |streams| :: streams[i] != streams[j]
    requires forall s | s in streams :: s in cells
    ensures |cells| >= |streams|
  {
    if streams != [] {
      var last := streams[|streams| - 1];
      var others := cells - {last};
      assert cells.Keys == others.Keys + {last};
      CoverCount(streams[..|streams| - 1], others);
    }
  }

  /** A row that holds every record so far and is not full shows that some stream has not arrived. */
  lemma IncompleteRow(c: Setup, log: Log, w: World, k: Hash, n: nat)
    requires GoodSetup(c) && Held(c, log, w, k, n) && |CellsAt(w, k)| < c.N()
    ensures !AllBelow(c, log, k, n)
  {
    if AllBelow(c, log, k, n) {
      forall s | s in c.join.streamIDs ensures s in CellsAt(w, k) {
        assert Arrived(log, k, s, n);
      }
      CoverCount(c.join.streamIDs, CellsAt(w, k));
      assert false;
    }
  }

  /** With two streams at least, one record does not complete a key. */
  lemma FirstIsNotAll(c: Setup, log: Log, k: Hash, n: nat)
    requires GoodSetup(c) && NoneBelow(log, k, n)
    ensures !AllBelow(c, log, k, n + 1)
  {
    var s, t := c.join.streamIDs[0], c.join.streamIDs[1];
    assert s != t;
    assert !(Arrived(log, k, s, n + 1) && Arrived(log, k, t, n + 1));
  }

  lemma DocumentNotEmpty(c: Setup, log: Log, h: Hash, cells: Cells)
    requires GoodLog(c, log) && FromLog(log, h, cells)
    ensures c.Doc(cells).Some? && |c.Doc(cells).value| > 0
  {
    forall s | s in cells ensures c.decode(cells[s]).Some? {
      assert InLog(log, h, s, cells[s]);
    }
    WriteStart(Obj(Project(Decoded(c.decode, cells), c.join.projection)), "");
  }

  // ---------- one call of the key's own handler ----------

  /** Replies that leave the world alone leave what is settled. */
  lemma SettledSame(c: Setup, log: Log, p: Partition, q: Partition, k: Hash, n: nat)
    requires q.w == p.w && q.flushers == p.flushers && Settled(c, log, p, k, n)
    ensures Settled(c, log, q, k, n)
  {
    assert Waiting(c, q) == Waiting(c, p);
  }

  /** The read-back either finds the row full, and its join goes out next, or a stream is missing. */
  lemma ReadSettles(c: Setup, log: Log, p: Partition, e: Event)
    requires GoodSetup(c) && Mine(log, e.hash, p.cursor) && log[p.cursor].value == e && BloomKnows(c, p.w, e.hash)
    requires Settled(c, log, p, e.hash, p.cursor) && JoinedOrHas(c, p, e.hash, e.stream)
    ensures |CellsAt(p.w, e.hash)| < c.N() ==> Settled(c, log, p, e.hash, p.cursor + 1)
  {
    if !Joined(c, p, e.hash) {
      assert Held(c, log, p.w, e.hash, p.cursor + 1);
      if |CellsAt(p.w, e.hash)| < c.N() { IncompleteRow(c, log, p.w, e.hash, p.cursor + 1); }
    }
  }

  lemma AfterReadIs(c: Setup, log: Log, e: Event, row: Option<Row>)
    requires GoodSetup(c) && GoodLog(c, log) && (row.Some? ==> FromLog(log, e.hash, row.value.cells))
    ensures var next := AfterRead(c, e, row);
      if row.None? || |row.value.cells| < c.N() then next.Contains? || next == Ended(e, true)
      else next.Publish? || next.Enqueue?
  {
    if row.Some? { DocumentNotEmpty(c, log, e.hash, row.value.cells); }
  }

  lemma ReadCalled(c: Setup, p: Partition, e: Event, r: Reply)
    ensures Called(c, p, Read(e), r) ==
      p.(pc := Some(if r.Fine() then AfterRead(c, e, RowAt(p.w, e.hash)) else Ended(e, false)))
  {
  }

  lemma ReadUnderway(c: Setup, log: Log, p: Partition, e: Event, r: Reply)
    requires GoodSetup(c) && GoodLog(c, log) && (e.hash in p.w.rows ==> FromLog(log, e.hash, p.w.rows[e.hash].cells))
    requires Mine(log, e.hash, p.cursor) && log[p.cursor].value == e && BloomKnows(c, p.w, e.hash)
    requires Settled(c, log, p, e.hash, p.cursor) && JoinedOrHas(c, p, e.hash, e.stream)
    ensures Underway(c, log, Called(c, p, Read(e), r), e.hash)
  {
    ReadCalled(c, p, e, r);
    AfterReadIs(c, log, e, RowAt(p.w, e.hash));
    var next := if r.Fine() then AfterRead(c, e, RowAt(p.w, e.hash)) else Ended(e, false);
    var q := p.(pc := Some(next));
    if |CellsAt(p.w, e.hash)| < c.N() {
      ReadSettles(c, log, p, e);
      SettledSame(c, log, p, q, e.hash, p.cursor + 1);
      assert Underway(c, log, q, e.hash);
    } else {
      assert next.Publish? || next.Enqueue? || next == Ended(e, false);
    }
  }

  lemma FirstUnderway(c: Setup, log: Log, p: Partition, pc: Pc, r: Reply)
    requires GoodSetup(c) && Mine(log, pc.e.hash, p.cursor) && log[p.cursor].value == pc.e && p.pc == Some(pc)
    requires pc.WriteOnly? || pc.Add? || pc.Schedule?
    requires Underway(c, log, p, pc.e.hash)
    ensures Underway(c, log, Called(c, p, pc, r), pc.e.hash)
  {
    FirstIsNotAll(c, log, pc.e.hash, p.cursor);
    CallPublishes(c, p.w, pc, r, pc.e.hash);
  }

  lemma ExistsUnderway(c: Setup, log: Log, p: Partition, e: Event, r: Reply)
    requires Steady(c, p) && c.bloom && Settled(c, log, p, e.hash, p.cursor)
    ensures Underway(c, log, Called(c, p, Exists(e), r), e.hash)
  {
    if Joined(c, p, e.hash) { JoinedKnown(c, p, e.hash); }
  }

  /** After the last call of a handler the join is published or waits. */
  lemma LastUnderway(c: Setup, log: Log, p: Partition, pc: Pc, r: Reply)
    requires c.producer && Firm(c, p.w, pc) && pc.e.hash !in Called(c, p, pc, r).dropped
    requires pc.Publish? || pc.Enqueue? || pc.Drop?
    ensures Underway(c, log, Called(c, p, pc, r), pc.e.hash)
  {
    CallPublishes(c, p.w, pc, r, pc.e.hash);
    if pc.Enqueue? { EnqueuedHashes(c, p.w.queue, JoinItem(c, pc.e, pc.cells, pc.text, r.at)); }
  }

  lemma OtherUnderway(c: Setup, log: Log, p: Partition, pc: Pc, r: Reply)
    requires SoundPc(c, log, pc) && p.pc == Some(pc) && pc.e.hash !in p.w.tracker
    requires pc.Write? || pc.Contains? || pc.Ended?
    requires Underway(c, log, p, pc.e.hash)
    ensures Underway(c, log, Called(c, p, pc, r), pc.e.hash)
  {
    var q := Called(c, p, pc, r);
    assert pc.Contains? || pc.Ended? ==> q.w == p.w && Waiting(c, q) == Waiting(c, p);
  }

  lemma OwnCall(c: Setup, log: Log, p: Partition, k: Hash, r: Reply)
    requires GoodSetup(c) && GoodLog(c, log) && Sound(c, log, p) && Steady(c, p) && Kept(c, log, p, k)
    requires p.pc.Some? && p.pc.value.e.hash == k && CleanBelow(log, Called(c, p, p.pc.value, r), k, p.cursor)
    ensures Underway(c, log, Called(c, p, p.pc.value, r), k)
  {
    var pc := p.pc.value;
    assert CleanBelow(log, p, k, p.cursor) && KeptAt(c, log, p, k, p.cursor);
    if pc.Exists? { ExistsUnderway(c, log, p, pc.e, r); }
    else if pc.Read? { ReadUnderway(c, log, p, pc.e, r); }
    else if pc.WriteOnly? || pc.Add? || pc.Schedule? { FirstUnderway(c, log, p, pc, r); }
    else if pc.Publish? || pc.Enqueue? || pc.Drop? { LastUnderway(c, log, p, pc, r); }
    else { OtherUnderway(c, log, p, pc, r); }
  }

  // ---------- what every move does for a key that is spared ----------

  /** Joins stay, keys stay known, and the cells of a key stay until it is joined. */
  predicate Grows(c: Setup, p: Partition, q: Partition, k: Hash) {
    && (Joined(c, p, k) ==> Joined(c, q, k))
    && p.w.bloom <= q.w.bloom
    && (Joined(c, q, k) || CellsAt(p.w, k).Keys <= CellsAt(q.w, k).Keys)
  }

  lemma SettledStays(c: Setup, log: Log, p: Partition, q: Partition, k: Hash, n: nat)
    requires Grows(c, p, q, k) && Settled(c, log, p, k, n)
    ensures Settled(c, log, q, k, n)
  {
  }

  lemma KeptStays(c: Setup, log: Log, p: Partition, q: Partition, k: Hash)
    requires (forall n: nat :: KeptAt(c, log, p, k, n)) && q.cursor <= p.cursor
    requires Spared(q, k) ==> Spared(p, k) && Grows(c, p, q, k)
    requires forall i | i in p.passed && i < q.cursor :: i in q.passed
    ensures forall n: nat :: KeptAt(c, log, q, k, n)
  {
    forall n: nat ensures KeptAt(c, log, q, k, n) {
      assert KeptAt(c, log, p, k, n);
      if n <= q.cursor && CleanBelow(log, q, k, n) {
        assert CleanBelow(log, p, k, n);
        SettledStays(c, log, p, q, k, n);
      }
    }
  }

  /** Other moves than the consumer's. */
  lemma GrowsKept(c: Setup, log: Log, p: Partition, q: Partition, k: Hash)
    requires Kept(c, log, p, k) && q.pc == p.pc && q.cursor == p.cursor && q.passed == p.passed
    requires Spared(q, k) ==> Spared(p, k) && Grows(c, p, q, k)
    ensures Kept(c, log, q, k)
  {
    KeptStays(c, log, p, q, k);
  }

  lemma CallGrows(c: Setup, p: Partition, pc: Pc, r: Reply, k: Hash)
    requires Firm(c, p.w, pc) && (pc.e.hash == k ==> !Belated(pc))
    ensures Grows(c, p, Called(c, p, pc, r), k)
  {
    CallPublishes(c, p.w, pc, r, k);
    if pc.Enqueue? { EnqueuedHashes(c, p.w.queue, JoinItem(c, pc.e, pc.cells, pc.text, r.at)); }
  }

  lemma CallRunsOn(c: Setup, w: World, pc: Pc, r: Reply)
    ensures HandlerStep(c, w, pc, r).1.e == pc.e
  {
  }

  lemma CallKept(c: Setup, log: Log, p: Partition, k: Hash, r: Reply)
    requires GoodSetup(c) && GoodLog(c, log) && Sound(c, log, p) && Steady(c, p) && Kept(c, log, p, k) && p.pc.Some?
    ensures Kept(c, log, Called(c, p, p.pc.value, r), k)
  {
    var pc, q := p.pc.value, Called(c, p, p.pc.value, r);
    if Spared(q, k) { CallGrows(c, p, pc, r, k); }
    KeptStays(c, log, p, q, k);
    if pc.e.hash == k && CleanBelow(log, q, k, q.cursor) { OwnCall(c, log, p, k, r); }
    CallRunsOn(c, p.w, pc, r);
  }

  lemma FadeGrows(c: Setup, p: Partition, q: Partition, h: Hash, streams: set<string>, k: Hash)
    requires q.w == Expire(p.w, h, streams) && q.flushers == p.flushers
    requires h == k ==> CellsAt(p.w, h).Keys * streams == {}
    ensures Grows(c, p, q, k)
  {
    if h == k {
      var cells := CellsAt(p.w, h);
      forall s | s in cells ensures s !in streams { assert s in streams ==> s in cells.Keys * streams; }
      assert cells - streams == cells;
    }
  }

  /** A manager leaves a key's row alone, or taints the key. */
  lemma ManageGrows(c: Setup, p: Partition, m: nat, r: Reply, k: Hash)
    requires k !in Managed(c, p, m, r).timed
    ensures Grows(c, p, Managed(c, p, m, r), k)
  {
    ManagerPublishes(c, p.w, ManagerAt(p, m), r, k);
  }

  lemma HandsGrow(c: Setup, p: Partition, q: Partition, k: Hash)
    requires forall f, i | f in p.flushers && i in InHands(p.flushers[f]) && i.hash == k ::
      Published(q.w.out, k) || exists g :: g in q.flushers && i in InHands(q.flushers[g])
    requires k in Hashes(p.w.queue) ==> Joined(c, q, k)
    requires Published(p.w.out, k) ==> Published(q.w.out, k)
    ensures Joined(c, p, k) ==> Joined(c, q, k)
  {
    if !c.durable && k in Waiting(c, p) && k !in Hashes(p.w.queue) {
      var f, i :| f in p.flushers && i in InHands(p.flushers[f]) && i.hash == k;
      if !Published(q.w.out, k) { var g :| g in q.flushers && i in InHands(q.flushers[g]); }
    }
  }

  /** Whoever has an item in hands keeps it until it is published. */
  lemma AttemptHands(c: Setup, p: Partition, f: nat, r: Reply, k: Hash, g: nat, i: Item)
    requires c.producer && k !in Attempted(c, p, f, r).dropped
    requires g in p.flushers && i in InHands(p.flushers[g]) && i.hash == k
    ensures var q := Attempted(c, p, f, r);
      Published(q.w.out, k) || (g in q.flushers && i in InHands(q.flushers[g]))
  {
    if g == f {
      var at := FlusherAt(p, f);
      InHandsNext(c, at.item, at.rest);
      FlusherPublishes(c, p.w, at, r, k);
    }
  }

  lemma AttemptQueue(c: Setup, p: Partition, f: nat, r: Reply, k: Hash)
    requires c.producer && Steady(c, p) && k !in Attempted(c, p, f, r).dropped
    ensures var q := Attempted(c, p, f, r);
      k in Hashes(p.w.queue) ==> Published(q.w.out, k) || k in Hashes(q.w.queue)
  {
    var at := FlusherAt(p, f);
    if at.Dequeue? && k in Hashes(p.w.queue) {
      assert FirmFlusher(c, p.w, p.dropped, at);
      var i :| i in p.w.queue && i.hash == k;
      WithoutOthers(p.w.queue, at.item);
      FlusherPublishes(c, p.w, at, r, k);
    }
  }

  lemma AttemptGrows(c: Setup, p: Partition, f: nat, r: Reply, k: Hash)
    requires c.producer && Steady(c, p) && k !in Attempted(c, p, f, r).dropped
    ensures Grows(c, p, Attempted(c, p, f, r), k)
  {
    var q, at := Attempted(c, p, f, r), FlusherAt(p, f);
    FlusherPublishes(c, p.w, at, r, k);
    AttemptQueue(c, p, f, r, k);
    forall g, i | g in p.flushers && i in InHands(p.flushers[g]) && i.hash == k
      ensures Published(q.w.out, k) || (g in q.flushers && i in InHands(q.flushers[g]))
    {
      AttemptHands(c, p, f, r, k, g, i);
    }
    HandsGrow(c, p, q, k);
    if at.Clear? { assert FirmFlusher(c, p.w, p.dropped, at); }
  }

  lemma PolledMemory(c: Setup, p: Partition, f: nat, now: int, k: Hash)
    requires !c.durable && FlusherAt(p, f) == Quiet && k in Hashes(p.w.queue)
    ensures k in Waiting(c, Polled(c, p, f, [], now))
  {
    var q := Polled(c, p, f, [], now);
    var i :| i in p.w.queue && i.hash == k;
    DueOrLater(p.w.queue, now);
    InHandsNext(c, i, Provenance.Due(p.w.queue, now));
    assert i in Provenance.Due(p.w.queue, now) ==> f in q.flushers && i in InHands(q.flushers[f]);
  }

  lemma PollQueueGrows(c: Setup, p: Partition, f: nat, items: seq<Item>, now: int, k: Hash)
    ensures Grows(c, p, Polled(c, p, f, items, now), k)
  {
    var q := Polled(c, p, f, items, now);
    if FlusherAt(p, f) == Quiet && !c.durable {
      if k in Hashes(p.w.queue) { PolledMemory(c, p, f, now, k); }
      forall g, i | g in p.flushers && i in InHands(p.flushers[g]) && i.hash == k
        ensures g in q.flushers && i in InHands(q.flushers[g])
      {
        assert g != f;
      }
      HandsGrow(c, p, q, k);
    }
  }

  lemma QuitGrows(c: Setup, p: Partition, f: nat, k: Hash)
    requires k !in Quitted(c, p, f).dropped
    ensures Grows(c, p, Quitted(c, p, f), k)
  {
    if !c.durable {
      var q := Quitted(c, p, f);
      forall g, i | g in p.flushers && i in InHands(p.flushers[g]) && i.hash == k
        ensures g in q.flushers && i in InHands(q.flushers[g])
      {
        assert g != f;
      }
      HandsGrow(c, p, q, k);
    }
  }

  lemma BesideKept(c: Setup, log: Log, p: Partition, k: Hash, move: Move)
    requires GoodSetup(c) && Steady(c, p) && Kept(c, log, p, k)
    requires move.Poll? || move.Manage? || move.Halt? || move.PollQueue? || move.RunFlush? || move.Quit? || move.Fade?
    ensures Kept(c, log, Step(c, log, p, move), k)
  {
    var q := Step(c, log, p, move);
    if Spared(q, k) {
      match move {
        case Fade(h, streams) => FadeGrows(c, p, q, h, streams, k);
        case Manage(m, r) => ManageGrows(c, p, m, r, k);
        case PollQueue(f, items, now) => PollQueueGrows(c, p, f, items, now, k);
        case RunFlush(f, r) => AttemptGrows(c, p, f, r, k);
        case Quit(f) => QuitGrows(c, p, f, k);
        case _ =>
      }
    }
    GrowsKept(c, log, p, q, k);
  }

  // ---------- the consumer's other moves ----------

  lemma SettledPastOthers(c: Setup, log: Log, p: Partition, k: Hash, n: nat)
    requires Settled(c, log, p, k, n) && !Mine(log, k, n)
    ensures Settled(c, log, p, k, n + 1)
  {
    if AllBelow(c, log, k, n + 1) {
      forall s | s in c.join.streamIDs ensures Arrived(log, k, s, n) {
        assert Arrived(log, k, s, n + 1);
        var i :| 0 <= i < n + 1 && Mine(log, k, i) && log[i].value.stream == s;
        assert i < n;
      }
    }
  }

  lemma {:induction false} SettledPastRange(c: Setup, log: Log, p: Partition, k: Hash, n: nat, m: nat)
    requires Settled(c, log, p, k, n) && n <= m && forall i | n <= i < m :: !Mine(log, k, i)
    ensures Settled(c, log, p, k, m)
    decreases m
  {
    if n < m {
      SettledPastRange(c, log, p, k, n, m - 1);
      SettledPastOthers(c, log, p, k, m - 1);
    }
  }

  /** The record at the cursor is behind us: handled without error, passed over, or none of the key's. */
  predicate Behind(c: Setup, log: Log, p: Partition, k: Hash) {
    CleanBelow(log, p, k, p.cursor) ==> Mine(log, k, p.cursor) ==> Settled(c, log, p, k, p.cursor + 1)
  }

  /** The same world, and the same taints, at another offset. */
  predicate SameWorld(p: Partition, q: Partition) {
    q.w == p.w && q.flushers == p.flushers && q.faded == p.faded && q.timed == p.timed && q.dropped == p.dropped
  }

  /** Going on to `end`, with everything between the record at the cursor and `end` passed over. */
  lemma OnwardKept(c: Setup, log: Log, p: Partition, k: Hash, q: Partition)
    requires Kept(c, log, p, k) && SameWorld(p, q) && q.pc == None && p.cursor < q.cursor
    requires p.passed <= q.passed && forall i | p.cursor < i < q.cursor :: i in q.passed
    requires p.cursor in q.passed || Behind(c, log, p, k)
    ensures Kept(c, log, q, k)
  {
    forall n: nat ensures KeptAt(c, log, q, k, n) {
      assert KeptAt(c, log, p, k, n) && KeptAt(c, log, p, k, p.cursor);
      if n <= q.cursor && CleanBelow(log, q, k, n) {
        assert n <= p.cursor ==> CleanBelow(log, p, k, n);
        if n > p.cursor {
          assert CleanBelow(log, p, k, p.cursor);
          if !Mine(log, k, p.cursor) { SettledPastOthers(c, log, p, k, p.cursor); }
          SettledPastRange(c, log, p, k, p.cursor + 1, n);
        }
        assert Settled(c, log, p, k, n) && Waiting(c, q) == Waiting(c, p);
      }
    }
  }

  lemma RestartGrows(c: Setup, p: Partition, k: Hash)
    requires k !in Restart(c, p).dropped
    ensures Grows(c, p, Restart(c, p), k)
  {
  }

  lemma RestartKept(c: Setup, log: Log, p: Partition, k: Hash, n: nat)
    requires Kept(c, log, p, k) && n <= p.cursor
    ensures Kept(c, log, Restart(c, p.(committed := n)), k)
  {
    var q := Restart(c, p.(committed := n));
    if Spared(q, k) {
      RestartGrows(c, p.(committed := n), k);
      assert Waiting(c, p.(committed := n)) == Waiting(c, p);
    }
    KeptStays(c, log, p, q, k);
  }

  lemma RestartedKept(c: Setup, log: Log, p: Partition, k: Hash, commit: Outcome)
    requires Sound(c, log, p) && Kept(c, log, p, k) && p.cursor < |log| && Behind(c, log, p, k)
    ensures Kept(c, log, Restart(c, Committed(p, commit)), k)
  {
    if commit == Refused {
      RestartKept(c, log, p, k, p.committed);
      assert p.(committed := p.committed) == p;
    } else {
      var q := p.(pc := None, cursor := p.cursor + 1);
      OnwardKept(c, log, p, k, q);
      RestartKept(c, log, q, k, p.cursor + 1);
      assert Restart(c, q.(committed := p.cursor + 1)) == Restart(c, Committed(p, commit));
    }
  }

  lemma CommitKept(c: Setup, log: Log, p: Partition, k: Hash, commit: Outcome, masked: Option<nat>)
    requires Sound(c, log, p) && Kept(c, log, p, k) && p.cursor < |log| && Behind(c, log, p, k)
    ensures Kept(c, log, Commit(c, log, p, commit, masked), k)
  {
    if commit == Done || masked.Some? {
      OnwardKept(c, log, p, k, Commit(c, log, p, commit, masked));
    } else {
      RestartedKept(c, log, p, k, commit);
    }
  }

  lemma FetchKept(c: Setup, log: Log, p: Partition, k: Hash)
    requires Kept(c, log, p, k) && p.cursor < |log| && log[p.cursor].Some?
    ensures Kept(c, log, p.(pc := Some(Start(c, log[p.cursor].value))), k)
  {
    var q := p.(pc := Some(Start(c, log[p.cursor].value)));
    assert Waiting(c, q) == Waiting(c, p);
    KeptStays(c, log, p, q, k);
  }

  lemma UnroutedKept(c: Setup, log: Log, p: Partition, k: Hash, commit: Outcome, hidden: bool, to: nat)
    requires Sound(c, log, p) && Kept(c, log, p, k)
    ensures Kept(c, log, Step(c, log, p, Unrouted(commit, hidden, to)), k)
  {
    if p.pc.None? && p.cursor < |log| && log[p.cursor].None? {
      if commit == Done || hidden { OnwardKept(c, log, p, k, Leave(log, Committed(p, commit), to)); }
      else { RestartedKept(c, log, p, k, commit); }
    }
  }

  lemma FinishKept(c: Setup, log: Log, p: Partition, k: Hash, commit: Outcome, masked: Option<nat>)
    requires Sound(c, log, p) && Kept(c, log, p, k)
    ensures Kept(c, log, Step(c, log, p, Finish(commit, masked)), k)
  {
    if p.pc.Some? && p.pc.value.Ended? {
      if p.pc.value.ok { CommitKept(c, log, p, k, commit, masked); } else { OnwardKept(c, log, p, k, Skip(p)); }
    }
  }

  lemma MoveKept(c: Setup, log: Log, p: Partition, k: Hash, move: Move)
    requires GoodSetup(c) && Sound(c, log, p) && Steady(c, p) && Kept(c, log, p, k) && !move.Call?
    ensures Kept(c, log, Step(c, log, p, move), k)
  {
    match move {
      case Fetch =>
        if p.pc.None? && p.cursor < |log| {
          if log[p.cursor].None? { OnwardKept(c, log, p, k, Skip(p)); } else { FetchKept(c, log, p, k); }
        }
      case Finish(commit, masked) => FinishKept(c, log, p, k, commit, masked);
      case Elsewhere(commit, masked) =>
        if p.pc.None? && p.cursor < |log| && log[p.cursor].None? { CommitKept(c, log, p, k, commit, masked); }
      case Unrouted(commit, hidden, to) => UnroutedKept(c, log, p, k, commit, hidden, to);
      case Crash =>
        RestartKept(c, log, p, k, p.committed);
        assert p.(committed := p.committed) == p;
      case _ => BesideKept(c, log, p, k, move);
    }
  }

  lemma NothingYet(c: Setup, log: Log, k: Hash)
    requires GoodSetup(c)
    ensures Sound(c, log, FRESH) && Steady(c, FRESH) && Kept(c, log, FRESH, k) && !Joined(c, FRESH, k)
  {
    assert c.join.streamIDs[0] in c.join.streamIDs;
    assert !AllBelow(c, log, k, 0) by { assert !Arrived(log, k, c.join.streamIDs[0], 0); }
    assert Settled(c, log, FRESH, k, 0);
  }

  lemma {:induction false} RunGood(c: Setup, log: Log, moves: seq<Move>, k: Hash)
    requires GoodSetup(c) && GoodLog(c, log)
    ensures var p := Run(c, log, moves); Sound(c, log, p) && Steady(c, p) && Kept(c, log, p, k)
  {
    if moves == [] {
      NothingYet(c, log, k);
    } else {
      var init, move := moves[..|moves| - 1], moves[|moves| - 1];
      RunGood(c, log, init, k);
      var p := Run(c, log, init);
      StepSound(c, log, p, move);
      StepSteady(c, log, p, move);
      if move.Call? {
        if p.pc.Some? { CallKept(c, log, p, k, move.r); }
      } else {
        MoveKept(c, log, p, k, move);
      }
    }
  }

  // ---------- the results ----------

  /**
   * A key complete in the log, none of whose records was passed over, none of whose cells expired, which no manager
   * tracked or took cells of and no join of which was dropped, is published once the log is committed, or its join
   * waits.
   */
  lemma CommittedMeansJoined(c: Setup, log: Log, moves: seq<Move>, k: Hash)
    requires GoodSetup(c) && GoodLog(c, log) && AllBelow(c, log, k, |log|)
    requires var p := Run(c, log, moves); p.committed == |log| && CleanBelow(log, p, k, |log|)
    ensures Joined(c, Run(c, log, moves), k)
  {
    RunGood(c, log, moves, k);
    assert KeptAt(c, log, Run(c, log, moves), k, |log|);
  }

  /** Nothing waits without a settle delay: the join is published. */
  lemma CommittedMeansPublished(c: Setup, log: Log, moves: seq<Move>, k: Hash)
    requires GoodSetup(c) && GoodLog(c, log) && AllBelow(c, log, k, |log|)
    requires var p := Run(c, log, moves);
      p.committed == |log| && CleanBelow(log, p, k, |log|) && (c.Delays() ==> k !in Waiting(c, p))
    ensures Published(Run(c, log, moves).w.out, k)
  {
    CommittedMeansJoined(c, log, moves, k);
    RunSound(c, log, moves);
    if !c.Delays() { assert Waiting(c, Run(c, log, moves)) == {}; }
  }

  lemma FullCells(c: Setup, log: Log, k: Hash, cells: Cells, text: string)
    requires GoodSetup(c) && GoodLog(c, log) && IsFull(c, log, k, cells, text)
    ensures cells.Keys == c.join.Streams()
  {
    forall s | s in cells ensures s in c.join.streamIDs { assert InLog(log, k, s, cells[s]); }
    CompleteMeansAllStreamsIff(c.join);
    assert |cells.Keys| >= c.N();
  }

  /** Every join of a key, however often redelivery repeats it, covers all streams and is the same document. */
  lemma PublicationsAgree(c: Setup, log: Log, moves: seq<Move>, a: Sent, b: Sent)
    requires GoodSetup(c) && GoodLog(c, log)
    requires a in Run(c, log, moves).w.out && b in Run(c, log, moves).w.out && a.hash == b.hash
    requires IsJoin(a) && IsJoin(b)
    ensures a.kind == b.kind && a.cells == b.cells && a.text == b.text
    ensures a.cells.Keys == c.join.Streams()
  {
    RunSound(c, log, moves);
    assert SoundMessage(c, log, a) && SoundMessage(c, log, b);
    FullCells(c, log, a.hash, a.cells, a.text);
    FullCells(c, log, b.hash, b.cells, b.text);
    forall s | s in a.cells ensures a.cells[s] == b.cells[s] {
      assert InLog(log, a.hash, s, a.cells[s]) && InLog(log, a.hash, s, b.cells[s]);
    }
  }
}
