/**
 * When a join is not guaranteed: runs of Redelivery that commit the log and lose the join of a complete key, behind a
 * record passed over, an expired cell, a timeout that came first, or a join dropped. With CrashSafety they make the
 * exact condition under which a join is guaranteed.
 */
module LostJoins {
  import opened Base
  import opened JoinConfig
  import opened Projection
  import opened Protocol
  import opened Atomic
  import opened Redelivery
  import opened CrashSafety

  // ---------- a join lost ----------

  const DONE := Reply(Done, {}, 0)

  /** Stream `s` of key `k` is missing from the row, and the key has no join. */
  predicate Lacking(w: World, k: Hash, s: string) {
    s !in CellsAt(w, k) && !Published(w.out, k) && k !in Hashes(w.queue)
  }

  predicate PcLacking(pc: Pc, k: Hash, s: string) {
    pc.e.hash == k ==> pc.e.stream != s && !pc.Publish? && !pc.Enqueue? && !pc.Drop?
  }

  lemma ShortRow(c: Setup, log: Log, k: Hash, cells: Cells, s: string)
    requires GoodSetup(c) && GoodLog(c, log) && FromLog(log, k, cells) && s in c.join.streamIDs && s !in cells
    ensures |cells| < c.N()
  {
    forall t | t in cells ensures t in c.join.Streams() - {s} { assert InLog(log, k, t, cells[t]); }
    assert c.join.Streams() == Elements(c.join.streamIDs);
    ElementsCount(c.join.streamIDs);
    SubsetCount(cells.Keys, c.join.Streams() - {s});
  }

  lemma ReadLacks(c: Setup, log: Log, w: World, e: Event, k: Hash, s: string)
    requires GoodSetup(c) && GoodLog(c, log) && SoundWorld(c, log, w) && s in c.join.streamIDs
    requires Lacking(w, k, s) && PcLacking(Read(e), k, s)
    ensures PcLacking(AfterRead(c, e, RowAt(w, e.hash)), k, s)
  {
    if e.hash == k && k in w.rows { ShortRow(c, log, k, w.rows[k].cells, s); }
  }

  /** A call made for another key changes nothing of this one's. */
  lemma OtherKeyWorld(c: Setup, w: World, pc: Pc, r: Reply, k: Hash)
    requires pc.e.hash != k
    ensures var v := HandlerStep(c, w, pc, r).0;
      CellsAt(v, k) == CellsAt(w, k) && (k in Hashes(v.queue) <==> k in Hashes(w.queue))
  {
    if pc.Enqueue? { EnqueuedHashes(c, w.queue, JoinItem(c, pc.e, pc.cells, pc.text, r.at)); }
  }

  lemma OwnLacks(c: Setup, log: Log, w: World, pc: Pc, r: Reply, k: Hash, s: string)
    requires GoodSetup(c) && GoodLog(c, log) && SoundWorld(c, log, w) && SoundPc(c, log, pc) && s in c.join.streamIDs
    requires Lacking(w, k, s) && PcLacking(pc, k, s) && pc.e.hash == k
    ensures var (v, n) := HandlerStep(c, w, pc, r);
      s !in CellsAt(v, k) && k !in Hashes(v.queue) && PcLacking(n, k, s)
  {
    if pc.Read? { ReadLacks(c, log, w, pc.e, k, s); }
  }

  lemma CallLacks(c: Setup, log: Log, w: World, pc: Pc, r: Reply, k: Hash, s: string)
    requires GoodSetup(c) && GoodLog(c, log) && SoundWorld(c, log, w) && SoundPc(c, log, pc) && s in c.join.streamIDs
    requires Lacking(w, k, s) && PcLacking(pc, k, s)
    ensures var (v, n) := HandlerStep(c, w, pc, r); Lacking(v, k, s) && PcLacking(n, k, s)
  {
    CallPublishes(c, w, pc, r, k);
    if pc.e.hash != k {
      OtherKeyWorld(c, w, pc, r, k);
      CallRunsOn(c, w, pc, r);
    } else {
      OwnLacks(c, log, w, pc, r, k, s);
    }
  }

  lemma ReadGoesOn(c: Setup, log: Log, w: World, e: Event)
    requires GoodSetup(c) && GoodLog(c, log) && SoundWorld(c, log, w)
    ensures var pc := AfterRead(c, e, RowAt(w, e.hash)); pc.Ended? ==> pc.ok
  {
    if e.hash in w.rows { DocumentNotEmpty(c, log, e.hash, w.rows[e.hash].cells); }
  }

  /** With no call failing, a handler that ends has not failed. */
  lemma CallGoesOn(c: Setup, log: Log, w: World, pc: Pc, r: Reply)
    requires GoodSetup(c) && GoodLog(c, log) && SoundWorld(c, log, w) && SoundPc(c, log, pc) && r.Fine()
    requires pc.Ended? ==> pc.ok
    ensures var n := HandlerStep(c, w, pc, r).1; n.Ended? ==> n.ok
  {
    if pc.Read? { ReadGoesOn(c, log, w, pc.e); }
    if pc.Contains? { DocumentNotEmpty(c, log, pc.e.hash, pc.row.cells); }
  }

  predicate SmoothMove(m: Move) {
    match m
    case Call(r) => r.Fine()
    case Crash => false
    case Fade(_, _) => false
    case Poll(_, _) => false
    case Manage(_, _) => false
    case Halt(_) => false
    case RunFlush(_, r) => r.Fine()
    case Quit(_) => false
    case _ => true
  }

  /** No call fails, nothing is killed, no cell expires and no timeout is polled; commits may fail. */
  predicate Smooth(moves: seq<Move>) {
    forall m | m in moves :: SmoothMove(m)
  }

  predicate Unbroken(p: Partition) {
    p.pc.Some? && p.pc.value.Ended? ==> p.pc.value.ok
  }

  /** Before the first record of the key, the filter does not know it. */
  predicate Unknown(log: Log, w: World, k: Hash, n: nat) {
    NoneBelow(log, k, n) ==> k !in w.bloom
  }

  /** No flusher has been at work. */
  predicate Unflushed(p: Partition) {
    p.flushers == map[] && forall m | m in p.w.out :: m.kind != Delayed
  }

  /** A handler is at work, and the key still lacks the stream. */
  predicate Working(c: Setup, log: Log, p: Partition, k: Hash, s: string) {
    && Sound(c, log, p) && Unbroken(p) && p.pc.Some? && Lacking(p.w, k, s) && PcLacking(p.pc.value, k, s)
    && Unknown(log, p.w, k, p.cursor + 1) && Unflushed(p)
  }

  lemma CallUnknown(c: Setup, log: Log, w: World, pc: Pc, k: Hash, n: nat)
    requires n < |log| && log[n] == Some(pc.e) && Unknown(log, w, k, n + 1)
    ensures Unknown(log, HandlerStep(c, w, pc, DONE).0, k, n + 1)
  {
    if pc.e.hash == k { assert Mine(log, k, n); }
  }

  predicate SamePlace(p: Partition, q: Partition) {
    && q.cursor == p.cursor && q.committed == p.committed && q.passed == p.passed
    && q.faded == p.faded && q.timed == p.timed && q.dropped == p.dropped
  }

  lemma CallStays(c: Setup, p: Partition, pc: Pc)
    requires Unflushed(p)
    ensures var q := Called(c, p, pc, DONE); SamePlace(p, q) && Unflushed(q)
  {
  }

  lemma CallWorks(c: Setup, log: Log, w: World, pc: Pc, k: Hash, s: string)
    requires GoodSetup(c) && GoodLog(c, log) && SoundWorld(c, log, w) && SoundPc(c, log, pc) && s in c.join.streamIDs
    requires Lacking(w, k, s) && PcLacking(pc, k, s) && (pc.Ended? ==> pc.ok)
    ensures var (v, next) := HandlerStep(c, w, pc, DONE);
      Lacking(v, k, s) && PcLacking(next, k, s) && (next.Ended? ==> next.ok)
  {
    CallLacks(c, log, w, pc, DONE, k, s);
    CallGoesOn(c, log, w, pc, DONE);
  }

  lemma WorkGoesOn(c: Setup, log: Log, p: Partition, k: Hash, s: string)
    requires GoodSetup(c) && GoodLog(c, log) && s in c.join.streamIDs && Working(c, log, p, k, s) && !p.pc.value.Ended?
    ensures var q := Step(c, log, p, Call(DONE));
      Working(c, log, q, k, s) && SamePlace(p, q) && CallsLeft(q.pc.value) < CallsLeft(p.pc.value)
  {
    var pc, q := p.pc.value, Called(c, p, p.pc.value, DONE);
    CallSound(c, log, p, DONE);
    CallStays(c, p, pc);
    CallWorks(c, log, p.w, pc, k, s);
    CallUnknown(c, log, p.w, pc, k, p.cursor);
    CallsRunOut(c, p.w, pc, DONE);
    assert q.w == HandlerStep(c, p.w, pc, DONE).0 && q.pc == Some(HandlerStep(c, p.w, pc, DONE).1);
  }

  // ---------- moves from a given point ----------

  function From(c: Setup, log: Log, p: Partition, moves: seq<Move>): Partition {
    if moves == [] then p else Step(c, log, From(c, log, p, moves[..|moves| - 1]), moves[|moves| - 1])
  }

  lemma {:induction false} RunFrom(c: Setup, log: Log, moves: seq<Move>)
    ensures Run(c, log, moves) == From(c, log, FRESH, moves)
  {
    if moves != [] { RunFrom(c, log, moves[..|moves| - 1]); }
  }

  lemma {:induction false} FromThen(c: Setup, log: Log, p: Partition, a: seq<Move>, b: seq<Move>)
    ensures From(c, log, p, a + b) == From(c, log, From(c, log, p, a), b)
  {
    if b == [] {
      assert a + b == a;
    } else {
      FromThen(c, log, p, a, b[..|b| - 1]);
      assert (a + b)[..|a + b| - 1] == a + b[..|b| - 1];
    }
  }

  /** Some moves, smooth ones if so required, lead from `p` to `q`. */
  ghost predicate Leads(c: Setup, log: Log, p: Partition, q: Partition, smooth: bool) {
    exists moves :: From(c, log, p, moves) == q && (smooth ==> Smooth(moves))
  }

  lemma LeadsNowhere(c: Setup, log: Log, p: Partition, smooth: bool)
    ensures Leads(c, log, p, p, smooth)
  {
    assert From(c, log, p, []) == p;
  }

  lemma LeadsStep(c: Setup, log: Log, p: Partition, move: Move, smooth: bool)
    requires smooth ==> SmoothMove(move)
    ensures Leads(c, log, p, Step(c, log, p, move), smooth)
  {
    assert [move][..0] == [];
    assert From(c, log, p, [move]) == Step(c, log, p, move);
  }

  lemma LeadsThen(c: Setup, log: Log, p: Partition, q: Partition, r: Partition, smooth: bool)
    requires Leads(c, log, p, q, smooth) && Leads(c, log, q, r, smooth)
    ensures Leads(c, log, p, r, smooth)
  {
    var a :| From(c, log, p, a) == q && (smooth ==> Smooth(a));
    var b :| From(c, log, q, b) == r && (smooth ==> Smooth(b));
    FromThen(c, log, p, a, b);
  }

  /** A handler at work runs to its end. */
  lemma {:induction false} HandlerEnds(c: Setup, log: Log, p: Partition, k: Hash, s: string) returns (q: Partition)
    requires GoodSetup(c) && GoodLog(c, log) && s in c.join.streamIDs && Working(c, log, p, k, s)
    ensures Leads(c, log, p, q, true) && Working(c, log, q, k, s) && SamePlace(p, q) && q.pc.value.Ended?
    decreases CallsLeft(p.pc.value)
  {
    if p.pc.value.Ended? {
      q := p;
      LeadsNowhere(c, log, p, true);
    } else {
      var u := Step(c, log, p, Call(DONE));
      WorkGoesOn(c, log, p, k, s);
      LeadsStep(c, log, p, Call(DONE), true);
      q := HandlerEnds(c, log, u, k, s);
      LeadsThen(c, log, p, u, q, true);
    }
  }

  /** Between records, with the key still lacking the stream. */
  predicate At(c: Setup, log: Log, p: Partition, k: Hash, s: string) {
    Sound(c, log, p) && p.pc == None && Lacking(p.w, k, s) && Unknown(log, p.w, k, p.cursor) && Unflushed(p)
  }

  lemma AtNotJoined(c: Setup, log: Log, p: Partition, k: Hash, s: string)
    requires At(c, log, p, k, s)
    ensures !Joined(c, p, k)
  {
    assert Waiting(c, p) == Hashes(p.w.queue);
  }

  /** The record at offset `n` does not bring the stream. */
  predicate NotOf(log: Log, n: nat, k: Hash, s: string) {
    n < |log| && (log[n].Some? && log[n].value.hash == k ==> log[n].value.stream != s)
  }

  lemma FetchWorks(c: Setup, log: Log, p: Partition, k: Hash, s: string)
    requires At(c, log, p, k, s) && NotOf(log, p.cursor, k, s) && log[p.cursor].Some?
    ensures var q := Step(c, log, p, Fetch); Working(c, log, q, k, s) && SamePlace(p, q)
  {
  }

  lemma CommitAt(c: Setup, log: Log, p: Partition, q: Partition, k: Hash, s: string,
      commit: Outcome, masked: Option<nat>)
    requires Working(c, log, q, k, s) && SamePlace(p, q) && q.pc.value.Ended? && (commit == Done || masked.Some?)
    ensures var n := Step(c, log, q, Finish(commit, masked));
      At(c, log, n, k, s) && SamePlace(n, Commit(c, log, p, commit, masked))
  {
    CommitSound(c, log, q, commit, masked);
  }

  lemma ElsewhereAt(c: Setup, log: Log, p: Partition, k: Hash, s: string, commit: Outcome, masked: Option<nat>)
    requires At(c, log, p, k, s) && p.cursor < |log| && log[p.cursor].None? && (commit == Done || masked.Some?)
    ensures var q := Step(c, log, p, Elsewhere(commit, masked));
      At(c, log, q, k, s) && SamePlace(q, Commit(c, log, p, commit, masked))
  {
    CommitSound(c, log, p, commit, masked);
  }

  /** The record at the cursor is one of ours, and is handled without error. */
  lemma Work(c: Setup, log: Log, p: Partition, k: Hash, s: string) returns (q: Partition)
    requires GoodSetup(c) && GoodLog(c, log) && s in c.join.streamIDs
    requires At(c, log, p, k, s) && NotOf(log, p.cursor, k, s) && log[p.cursor].Some?
    ensures Leads(c, log, p, q, true) && Working(c, log, q, k, s) && SamePlace(p, q) && q.pc.value.Ended?
  {
    var u := Step(c, log, p, Fetch);
    FetchWorks(c, log, p, k, s);
    LeadsStep(c, log, p, Fetch, true);
    q := HandlerEnds(c, log, u, k, s);
    LeadsThen(c, log, p, u, q, true);
  }

  /** The record at the cursor is handled without error, here or elsewhere, and its commit fares as given. */
  lemma Handle(c: Setup, log: Log, p: Partition, k: Hash, s: string, commit: Outcome, masked: Option<nat>)
    returns (q: Partition)
    requires GoodSetup(c) && GoodLog(c, log) && s in c.join.streamIDs
    requires At(c, log, p, k, s) && NotOf(log, p.cursor, k, s) && (commit == Done || masked.Some?)
    ensures Leads(c, log, p, q, true) && At(c, log, q, k, s) && SamePlace(q, Commit(c, log, p, commit, masked))
  {
    if log[p.cursor].None? {
      q := Step(c, log, p, Elsewhere(commit, masked));
      ElsewhereAt(c, log, p, k, s, commit, masked);
      LeadsStep(c, log, p, Elsewhere(commit, masked), true);
    } else {
      var v := Work(c, log, p, k, s);
      q := Step(c, log, v, Finish(commit, masked));
      CommitAt(c, log, p, v, k, s, commit, masked);
      LeadsStep(c, log, v, Finish(commit, masked), true);
      LeadsThen(c, log, p, v, q, true);
    }
  }

  lemma SkipAt(c: Setup, log: Log, p: Partition, k: Hash, s: string)
    requires At(c, log, p, k, s) && p.cursor < |log|
    ensures At(c, log, Skip(p), k, s)
  {
  }

  lemma FirstCallRefused(c: Setup, log: Log, p: Partition, q: Partition, r: Partition)
    requires p.pc == None && p.cursor < |log| && log[p.cursor].Some?
    requires q == Step(c, log, p, Fetch) && r == Step(c, log, q, Call(Reply(Refused, {}, 0)))
    ensures Step(c, log, r, Finish(Done, None)) == Skip(p)
  {
  }

  /** The record at the cursor is passed over: its first call is refused, or it has no usable payload. */
  lemma PassOver(c: Setup, log: Log, p: Partition, k: Hash, s: string)
    requires At(c, log, p, k, s) && p.cursor < |log|
    ensures Leads(c, log, p, Skip(p), false) && At(c, log, Skip(p), k, s)
  {
    SkipAt(c, log, p, k, s);
    LeadsStep(c, log, p, Fetch, false);
    if log[p.cursor].Some? {
      var refused := Call(Reply(Refused, {}, 0));
      var q := Step(c, log, p, Fetch);
      var r := Step(c, log, q, refused);
      FirstCallRefused(c, log, p, q, r);
      LeadsStep(c, log, q, refused, false);
      LeadsThen(c, log, p, q, r, false);
      LeadsStep(c, log, r, Finish(Done, None), false);
      LeadsThen(c, log, p, r, Skip(p), false);
    }
  }

  lemma LeadsAnyhow(c: Setup, log: Log, p: Partition, q: Partition)
    requires Leads(c, log, p, q, true)
    ensures Leads(c, log, p, q, false)
  {
  }

  /** One record further: passed over if it is in `over`, handled and committed otherwise. */
  lemma Advance(c: Setup, log: Log, p: Partition, k: Hash, s: string, over: set<nat>) returns (q: Partition)
    requires GoodSetup(c) && GoodLog(c, log) && s in c.join.streamIDs && At(c, log, p, k, s) && p.cursor < |log|
    requires p.cursor !in over ==> NotOf(log, p.cursor, k, s)
    ensures Leads(c, log, p, q, over == {}) && At(c, log, q, k, s) && q.cursor == p.cursor + 1
    ensures q.passed == p.passed + over * {p.cursor} && q.faded == p.faded && q.timed == p.timed
    ensures q.dropped == p.dropped
    ensures p.cursor !in over ==> q.committed == p.cursor + 1
  {
    if p.cursor in over {
      q := Skip(p);
      PassOver(c, log, p, k, s);
    } else {
      q := Handle(c, log, p, k, s, Done, None);
      LeadsAnyhow(c, log, p, q);
    }
  }

  /** From `p` to `q` just the records in `over` are passed over, and the last record handled is committed. */
  predicate Marched(p: Partition, q: Partition, over: set<nat>) {
    && p.cursor <= q.cursor && q.passed == p.passed + over * Range(p.cursor, q.cursor)
    && q.faded == p.faded && q.timed == p.timed && q.dropped == p.dropped
    && (if q.cursor > p.cursor then q.cursor - 1 !in over ==> q.committed == q.cursor else q == p)
  }

  lemma MarchedOn(p: Partition, u: Partition, q: Partition, over: set<nat>)
    requires Marched(p, u, over) && q.cursor == u.cursor + 1 && q.passed == u.passed + over * {u.cursor}
    requires q.faded == u.faded && q.timed == u.timed && q.dropped == u.dropped
    requires u.cursor !in over ==> q.committed == u.cursor + 1
    ensures Marched(p, q, over)
  {
    assert Range(p.cursor, q.cursor) == Range(p.cursor, u.cursor) + {u.cursor};
  }

  lemma MarchedNowhere(p: Partition, over: set<nat>)
    ensures Marched(p, p, over)
  {
    assert Range(p.cursor, p.cursor) == {};
  }

  predicate BroughtOnlyIn(log: Log, over: set<nat>, lo: nat, hi: nat, k: Hash, s: string) {
    forall i | lo <= i < hi && i !in over :: NotOf(log, i, k, s)
  }

  lemma MarchStep(c: Setup, log: Log, p: Partition, u: Partition, k: Hash, s: string, over: set<nat>)
    returns (q: Partition)
    requires GoodSetup(c) && GoodLog(c, log) && s in c.join.streamIDs && At(c, log, u, k, s) && u.cursor < |log|
    requires u.cursor !in over ==> NotOf(log, u.cursor, k, s)
    requires Leads(c, log, p, u, over == {}) && Marched(p, u, over)
    ensures Leads(c, log, p, q, over == {}) && At(c, log, q, k, s) && q.cursor == u.cursor + 1 && Marched(p, q, over)
  {
    q := Advance(c, log, u, k, s, over);
    LeadsThen(c, log, p, u, q, over == {});
    MarchedOn(p, u, q, over);
  }

  /**
   * On to offset `n`, passing over the records in `over` and handling the others: the key still lacks the stream if
   * the record that brings it is among those passed over.
   */
  lemma {:induction false} March(c: Setup, log: Log, p: Partition, k: Hash, s: string, over: set<nat>, n: nat)
    returns (q: Partition)
    requires GoodSetup(c) && GoodLog(c, log) && s in c.join.streamIDs && At(c, log, p, k, s) && p.cursor <= n <= |log|
    requires BroughtOnlyIn(log, over, p.cursor, n, k, s)
    ensures Leads(c, log, p, q, over == {}) && At(c, log, q, k, s) && q.cursor == n && Marched(p, q, over)
    decreases n
  {
    if n == p.cursor {
      q := p;
      LeadsNowhere(c, log, p, over == {});
      MarchedNowhere(p, over);
    } else {
      var u := March(c, log, p, k, s, over, n - 1);
      assert u.cursor !in over ==> NotOf(log, u.cursor, k, s);
      q := MarchStep(c, log, p, u, k, s, over);
    }
  }

  // ---------- what may happen to a key ----------

  /** What may happen to a key: its cells expire, its timeout comes before its join, or its settling join is dropped. */
  datatype Hazard = Hazard(fade: bool, time: bool, drop: bool)

  predicate Fitting(p: Partition, log: Log, k: Hash, passed: set<nat>, may: Hazard) {
    && p.committed == |log| && p.passed == passed
    && (k in p.faded ==> may.fade) && (k in p.timed ==> may.time) && (k in p.dropped ==> may.drop)
  }

  /**
   * However the log comes to be committed with just these offsets passed over, and with only those things happening to
   * the key that may, its join is published or waits.
   */
  ghost predicate Guaranteed(c: Setup, log: Log, k: Hash, passed: set<nat>, may: Hazard) {
    forall moves | Fitting(Run(c, log, moves), log, k, passed, may) :: Joined(c, Run(c, log, moves), k)
  }

  lemma OnlyOne(c: Setup, log: Log, k: Hash, i: nat, j: nat)
    requires GoodLog(c, log) && Mine(log, k, i) && j < |log| && i != j
    ensures NotOf(log, j, k, log[i].value.stream)
  {
  }

  lemma StartsAt(c: Setup, log: Log, k: Hash, s: string)
    requires GoodSetup(c)
    ensures At(c, log, FRESH, k, s)
  {
    NothingYet(c, log, k);
  }

  /** The log is committed, passing over just these offsets, and the key has no join. */
  predicate Loses(c: Setup, log: Log, q: Partition, k: Hash, passed: set<nat>) {
    q.committed == |log| && q.passed == passed && !Joined(c, q, k)
  }

  /** A key one of whose records is passed over is lost by some run that passes over just the same offsets. */
  lemma SkippedRecordLosesJoin(c: Setup, log: Log, k: Hash, passed: set<nat>, i: nat) returns (moves: seq<Move>)
    requires GoodSetup(c) && GoodLog(c, log) && i in passed && Mine(log, k, i)
    requires forall j | j in passed :: j + 1 < |log|
    ensures var p := Run(c, log, moves);
      Loses(c, log, p, k, passed) && p.faded == p.timed == p.dropped == {}
  {
    var s := log[i].value.stream;
    StartsAt(c, log, k, s);
    forall j | 0 <= j < |log| && j !in passed ensures NotOf(log, j, k, s) { OnlyOne(c, log, k, i, j); }
    var q := March(c, log, FRESH, k, s, passed, |log|);
    assert passed * Range(0, |log|) == passed;
    moves :| From(c, log, FRESH, moves) == q;
    RunFrom(c, log, moves);
    AtNotJoined(c, log, q, k, s);
  }

  /** The first record of a key. */
  lemma FirstMine(log: Log, k: Hash, i: nat) returns (first: nat)
    requires Mine(log, k, i)
    ensures Mine(log, k, first) && NoneBelow(log, k, first)
  {
    first := i;
    if !NoneBelow(log, k, i) {
      var j :| 0 <= j < i && Mine(log, k, j);
      first := FirstMine(log, k, j);
    }
  }

  /** The first record of a complete key, and the stream of a later one. */
  lemma TwoRecords(c: Setup, log: Log, k: Hash) returns (i: nat, later: string)
    requires GoodSetup(c) && GoodLog(c, log) && AllBelow(c, log, k, |log|)
    ensures Mine(log, k, i) && NoneBelow(log, k, i) && later in c.join.streamIDs && later != log[i].value.stream
    ensures i + 1 < |log|
  {
    var a, b := c.join.streamIDs[0], c.join.streamIDs[1];
    assert Arrived(log, k, a, |log|) && Arrived(log, k, b, |log|);
    var j :| 0 <= j < |log| && Mine(log, k, j) && log[j].value.stream == a;
    i := FirstMine(log, k, j);
    later := if log[i].value.stream == a then b else a;
    var o :| 0 <= o < |log| && Mine(log, k, o) && log[o].value.stream == later;
    assert o > i;
  }

  /** The cell of this stream expires between two records. */
  lemma FadesAt(c: Setup, log: Log, p: Partition, k: Hash, s: string, t: string)
    requires At(c, log, p, k, t)
    ensures var q := Step(c, log, p, Fade(k, {s}));
      && At(c, log, q, k, s) && q.cursor == p.cursor && q.passed == p.passed
      && q.timed == p.timed && q.dropped == p.dropped
    ensures Leads(c, log, p, Step(c, log, p, Fade(k, {s})), false)
  {
    FadeSound(c, log, p.w, k, {s});
    LeadsStep(c, log, p, Fade(k, {s}), false);
  }

  lemma ToTheEnd(c: Setup, log: Log, k: Hash, s: string, p: Partition, passed: set<nat>) returns (moves: seq<Move>)
    requires GoodSetup(c) && GoodLog(c, log) && s in c.join.streamIDs && At(c, log, p, k, s) && p.cursor < |log|
    requires Leads(c, log, FRESH, p, false) && p.passed == passed * Range(0, p.cursor)
    requires forall j | j in passed :: j + 1 < |log|
    requires BroughtOnlyIn(log, passed, p.cursor, |log|, k, s)
    ensures var q := Run(c, log, moves); Loses(c, log, q, k, passed)
    ensures var q := Run(c, log, moves); q.faded == p.faded && q.timed == p.timed && q.dropped == p.dropped
  {
    var q := March(c, log, p, k, s, passed, |log|);
    if passed == {} { LeadsAnyhow(c, log, p, q); }
    LeadsThen(c, log, FRESH, p, q, false);
    assert q.passed == passed;
    moves :| From(c, log, FRESH, moves) == q;
    RunFrom(c, log, moves);
    AtNotJoined(c, log, q, k, s);
  }

  /** The first record of a complete key is handled, and not yet followed by that of a later stream `t`. */
  lemma FirstHandled(c: Setup, log: Log, k: Hash, passed: set<nat>, i: nat, t: string) returns (p: Partition)
    requires GoodSetup(c) && GoodLog(c, log) && t in c.join.streamIDs && i + 1 < |log|
    requires Mine(log, k, i) && NoneBelow(log, k, i) && log[i].value.stream != t && i !in passed
    ensures Leads(c, log, FRESH, p, false) && At(c, log, p, k, t) && p.cursor == i + 1
    ensures p.passed == passed * Range(0, i + 1) && p.faded == p.timed == p.dropped == {}
  {
    StartsAt(c, log, k, t);
    forall j | 0 <= j < i + 1 ensures NotOf(log, j, k, t) { assert j < i ==> !Mine(log, k, j); }
    p := March(c, log, FRESH, k, t, passed, i + 1);
    if passed == {} { LeadsAnyhow(c, log, FRESH, p); }
  }

  /** A complete key whose cells may expire is lost by some run that passes over none of its records. */
  lemma FadedCellLosesJoin(c: Setup, log: Log, k: Hash, passed: set<nat>) returns (moves: seq<Move>)
    requires GoodSetup(c) && GoodLog(c, log) && AllBelow(c, log, k, |log|)
    requires forall i | i in passed :: i + 1 < |log| && !Mine(log, k, i)
    ensures var p := Run(c, log, moves); Loses(c, log, p, k, passed) && p.timed == p.dropped == {}
  {
    var i, t := TwoRecords(c, log, k);
    var s := log[i].value.stream;
    var p := FirstHandled(c, log, k, passed, i, t);
    FadesAt(c, log, p, k, s, t);
    var q := Step(c, log, p, Fade(k, {s}));
    LeadsThen(c, log, FRESH, p, q, false);
    forall j | i < j < |log| ensures NotOf(log, j, k, s) { OnlyOne(c, log, k, i, j); }
    moves := ToTheEnd(c, log, k, s, q, passed);
  }

  // ---------- a timeout that comes first ----------

  lemma {:induction false} FromSound(c: Setup, log: Log, p: Partition, moves: seq<Move>)
    requires GoodSetup(c) && Sound(c, log, p)
    ensures Sound(c, log, From(c, log, p, moves))
  {
    if moves != [] {
      FromSound(c, log, p, moves[..|moves| - 1]);
      StepSound(c, log, From(c, log, p, moves[..|moves| - 1]), moves[|moves| - 1]);
    }
  }

  lemma LeadsOn(c: Setup, log: Log, p: Partition, q: Partition, move: Move)
    requires Leads(c, log, p, q, false)
    ensures Leads(c, log, p, Step(c, log, q, move), false)
  {
    LeadsStep(c, log, q, move, false);
    LeadsThen(c, log, p, q, Step(c, log, q, move), false);
  }

  /** The world in which the record of an unknown key was written, and its key scheduled. */
  function FirstWorld(c: Setup, w: World, e: Event): World {
    Upsert(w, e).(bloom := w.bloom + {e.hash} + {}, timeouts := w.timeouts[e.hash := Deadline(c, 0)])
  }

  /** The calls of a handler whose key the filter does not know. */
  lemma FirstCalls(c: Setup, log: Log, p: Partition, e: Event) returns (q: Partition)
    requires Times(c) && p.pc == Some(Exists(e)) && e.hash !in p.w.bloom
    ensures Leads(c, log, p, q, false)
    ensures q == p.(w := FirstWorld(c, p.w, e), pc := Some(Ended(e, true)))
  {
    var a := Step(c, log, p, Call(DONE));
    LeadsStep(c, log, p, Call(DONE), false);
    var b := Step(c, log, a, Call(DONE));
    LeadsOn(c, log, p, a, Call(DONE));
    var d := Step(c, log, b, Call(DONE));
    LeadsOn(c, log, p, b, Call(DONE));
    q := Step(c, log, d, Call(DONE));
    LeadsOn(c, log, p, d, Call(DONE));
  }

  lemma FirstMoves(c: Setup, log: Log, p: Partition, e: Event) returns (q: Partition)
    requires Times(c) && p.pc == None && p.cursor < |log| && log[p.cursor] == Some(e) && e.hash !in p.w.bloom
    ensures Leads(c, log, p, q, false)
    ensures q == p.(w := FirstWorld(c, p.w, e), cursor := p.cursor + 1, committed := p.cursor + 1)
  {
    var fetched := Step(c, log, p, Fetch);
    LeadsStep(c, log, p, Fetch, false);
    var u := FirstCalls(c, log, fetched, e);
    LeadsThen(c, log, p, fetched, u, false);
    q := Step(c, log, u, Finish(Done, None));
    LeadsOn(c, log, p, u, Finish(Done, None));
  }

  lemma FirstLacks(c: Setup, w: World, e: Event, t: string)
    requires Lacking(w, e.hash, t) && e.stream != t
    ensures Lacking(FirstWorld(c, w, e), e.hash, t) && e.stream in CellsAt(FirstWorld(c, w, e), e.hash)
  {
  }

  /** The key's first record is handled: its key is then scheduled for a timeout. */
  lemma FirstScheduled(c: Setup, log: Log, p: Partition, k: Hash, t: string) returns (q: Partition)
    requires GoodSetup(c) && Times(c) && At(c, log, p, k, t)
    requires Mine(log, k, p.cursor) && NoneBelow(log, k, p.cursor) && log[p.cursor].value.stream != t
    ensures Leads(c, log, p, q, false) && At(c, log, q, k, t) && k in q.w.timeouts && CellsAt(q.w, k) != map[]
    ensures q.cursor == p.cursor + 1 && q.passed == p.passed && q.faded == p.faded && q.timed == p.timed
    ensures q.dropped == p.dropped
  {
    q := FirstMoves(c, log, p, log[p.cursor].value);
    var moves :| From(c, log, p, moves) == q;
    FromSound(c, log, p, moves);
    FirstLacks(c, p.w, log[p.cursor].value, t);
    assert !NoneBelow(log, k, q.cursor) by { assert Mine(log, k, p.cursor); }
  }

  /** How many calls a manager that goes through with the timeout of a key is away from deleting its row. */
  function ToDrop(m: Mpc): nat {
    match m
    case PublishPartial(_, _, _, _) => 2
    case Track(_, _) => 1
    case _ => 0
  }

  /** A manager goes through with the timeout of the key, which lacks a stream. */
  predicate Timing(c: Setup, log: Log, p: Partition, k: Hash, t: string) {
    && At(c, log, p, k, t) && CellsAt(p.w, k) != map[]
    && match ManagerAt(p, 0)
       case PublishPartial(h, _, _, _) => h == k
       case Track(h, _) => h == k
       case DropRow(h, _) => h == k
       case _ => false
  }

  /** Another move than the consumer's. */
  predicate Beside(p: Partition, q: Partition) {
    && q.cursor == p.cursor && q.committed == p.committed && q.passed == p.passed && q.faded == p.faded
    && q.dropped == p.dropped
  }

  lemma ManagerLacks(c: Setup, w: World, m: Mpc, r: Reply, k: Hash, t: string)
    requires Lacking(w, k, t)
    ensures var v := ManagerStep(c, w, m, r).0; Lacking(v, k, t) && v.bloom == w.bloom
  {
    ManagerPublishes(c, w, m, r, k);
  }

  lemma ManageUnflushed(c: Setup, p: Partition, m: nat, r: Reply)
    requires Unflushed(p)
    ensures Unflushed(Managed(c, p, m, r))
  {
  }

  lemma ManageAt(c: Setup, log: Log, p: Partition, k: Hash, t: string, r: Reply)
    requires At(c, log, p, k, t)
    ensures At(c, log, Managed(c, p, 0, r), k, t) && Beside(p, Managed(c, p, 0, r))
  {
    var q := Managed(c, p, 0, r);
    ManageSound(c, log, p, 0, r);
    ManagerLacks(c, p.w, ManagerAt(p, 0), r, k, t);
    ManageUnflushed(c, p, 0, r);
    assert Unknown(log, q.w, k, q.cursor);
  }

  /** A poll finds the key due. */
  lemma PollFinds(c: Setup, log: Log, p: Partition, k: Hash, t: string) returns (q: Partition)
    requires At(c, log, p, k, t) && k in p.w.timeouts
    ensures Leads(c, log, p, q, false) && At(c, log, q, k, t) && Beside(p, q) && q.w == p.w
    ensures ManagerAt(q, 0) == Get(k, [])
  {
    var halted := Step(c, log, p, Halt(0));
    LeadsStep(c, log, p, Halt(0), false);
    q := Step(c, log, halted, Poll(0, [k]));
    LeadsOn(c, log, p, halted, Poll(0, [k]));
    PollSound(c, log, halted, 0, [k]);
  }

  /** A row that lacks a stream is not left alone. */
  lemma GoesThrough(c: Setup, log: Log, w: World, k: Hash, t: string)
    requires GoodSetup(c) && GoodLog(c, log) && SoundWorld(c, log, w) && t in c.join.streamIDs
    requires t !in CellsAt(w, k) && CellsAt(w, k) != map[]
    ensures var m := ManagerStep(c, w, Get(k, []), DONE).1;
      m.h == k && (m.PublishPartial? || m.Track? || m.DropRow?)
  {
    ShortRow(c, log, k, w.rows[k].cells, t);
    DocumentNotEmpty(c, log, k, w.rows[k].cells);
  }

  lemma ReadsShort(c: Setup, log: Log, p: Partition, k: Hash, t: string) returns (q: Partition)
    requires GoodSetup(c) && GoodLog(c, log) && t in c.join.streamIDs
    requires At(c, log, p, k, t) && ManagerAt(p, 0) == Get(k, []) && CellsAt(p.w, k) != map[]
    ensures Leads(c, log, p, q, false) && Timing(c, log, q, k, t) && Beside(p, q)
  {
    q := Step(c, log, p, Manage(0, DONE));
    LeadsStep(c, log, p, Manage(0, DONE), false);
    ManageAt(c, log, p, k, t, DONE);
    GoesThrough(c, log, p.w, k, t);
  }

  lemma DropsAll(c: Setup, log: Log, p: Partition, k: Hash, t: string, s: string)
    requires Timing(c, log, p, k, t) && ManagerAt(p, 0).DropRow?
    ensures var q := Managed(c, p, 0, DONE); At(c, log, q, k, s) && Beside(p, q)
  {
    ManageAt(c, log, p, k, t, DONE);
  }

  /** And deletes it. */
  lemma {:induction false} TimedOut(c: Setup, log: Log, p: Partition, k: Hash, t: string, s: string)
    returns (q: Partition)
    requires Timing(c, log, p, k, t)
    ensures Leads(c, log, p, q, false) && At(c, log, q, k, s) && Beside(p, q)
    decreases ToDrop(ManagerAt(p, 0))
  {
    var u := Step(c, log, p, Manage(0, DONE));
    LeadsStep(c, log, p, Manage(0, DONE), false);
    if ManagerAt(p, 0).DropRow? {
      q := u;
      DropsAll(c, log, p, k, t, s);
    } else {
      ManageAt(c, log, p, k, t, DONE);
      q := TimedOut(c, log, u, k, t, s);
      LeadsThen(c, log, p, u, q, false);
    }
  }

  /** The key's first record has been handled; the timeout of its key goes through. */
  lemma TimeoutFollows(c: Setup, log: Log, p: Partition, k: Hash, t: string, s: string) returns (q: Partition)
    requires GoodSetup(c) && GoodLog(c, log) && t in c.join.streamIDs
    requires At(c, log, p, k, t) && k in p.w.timeouts && CellsAt(p.w, k) != map[]
    ensures Leads(c, log, p, q, false) && At(c, log, q, k, s) && Beside(p, q)
  {
    var u := PollFinds(c, log, p, k, t);
    var v := ReadsShort(c, log, u, k, t);
    LeadsThen(c, log, p, u, v, false);
    q := TimedOut(c, log, v, k, t, s);
    LeadsThen(c, log, p, v, q, false);
  }

  lemma UpTo(c: Setup, log: Log, k: Hash, passed: set<nat>, i: nat, t: string) returns (p: Partition)
    requires GoodSetup(c) && GoodLog(c, log) && t in c.join.streamIDs && i < |log| && NoneBelow(log, k, i)
    ensures Leads(c, log, FRESH, p, false) && At(c, log, p, k, t) && p.cursor == i
    ensures p.passed == passed * Range(0, i) && p.faded == p.dropped == {}
  {
    StartsAt(c, log, k, t);
    forall j | 0 <= j < i ensures NotOf(log, j, k, t) { assert !Mine(log, k, j); }
    p := March(c, log, FRESH, k, t, passed, i);
    if passed == {} { LeadsAnyhow(c, log, FRESH, p); }
  }

  /** The first record of the key is handled, and then its timeout. */
  lemma FirstTimedOut(c: Setup, log: Log, k: Hash, passed: set<nat>, i: nat, t: string) returns (q: Partition)
    requires GoodSetup(c) && GoodLog(c, log) && Times(c) && t in c.join.streamIDs && i + 1 < |log|
    requires Mine(log, k, i) && NoneBelow(log, k, i) && log[i].value.stream != t && i !in passed
    ensures Leads(c, log, FRESH, q, false) && At(c, log, q, k, log[i].value.stream) && q.cursor == i + 1
    ensures q.passed == passed * Range(0, i + 1) && q.faded == q.dropped == {}
  {
    var p := UpTo(c, log, k, passed, i, t);
    var u := FirstScheduled(c, log, p, k, t);
    LeadsThen(c, log, FRESH, p, u, false);
    q := TimeoutFollows(c, log, u, k, t, log[i].value.stream);
    LeadsThen(c, log, FRESH, u, q, false);
    assert Range(0, i + 1) == Range(0, i) + {i};
  }

  /**
   * Where keys are scheduled for a timeout, a complete key is lost by some run in which the timeout comes between two
   * of its records, although no call fails but those of the records passed over.
   */
  lemma TimedOutKeyLosesJoin(c: Setup, log: Log, k: Hash, passed: set<nat>) returns (moves: seq<Move>)
    requires GoodSetup(c) && GoodLog(c, log) && Times(c) && AllBelow(c, log, k, |log|)
    requires forall i | i in passed :: i + 1 < |log| && !Mine(log, k, i)
    ensures var p := Run(c, log, moves); Loses(c, log, p, k, passed) && p.faded == p.dropped == {}
  {
    var i, t := TwoRecords(c, log, k);
    var s := log[i].value.stream;
    var q := FirstTimedOut(c, log, k, passed, i, t);
    forall j | i < j < |log| ensures NotOf(log, j, k, s) { OnlyOne(c, log, k, i, j); }
    moves := ToTheEnd(c, log, k, s, q, passed);
  }

  // ---------- a join dropped ----------

  /** Longer than every key of the log. */
  lemma {:induction false} LongestKey(log: Log) returns (n: nat)
    ensures forall i | 0 <= i < |log| && log[i].Some? :: |log[i].value.hash| < n
  {
    n := 0;
    if log != [] {
      n := LongestKey(log[..|log| - 1]);
      var last := log[|log| - 1];
      if last.Some? && |last.value.hash| >= n { n := |last.value.hash| + 1; }
    }
  }

  /** All records up to `n` that are not to be passed over are handled, and no flusher is at work. */
  lemma HandleUpTo(c: Setup, log: Log, passed: set<nat>, n: nat) returns (k: Hash, q: Partition)
    requires GoodSetup(c) && GoodLog(c, log) && n <= |log|
    ensures forall i | 0 <= i < |log| && log[i].Some? :: log[i].value.hash != k
    ensures Leads(c, log, FRESH, q, passed == {}) && At(c, log, q, k, c.join.streamIDs[0]) && q.cursor == n
    ensures Marched(FRESH, q, passed)
  {
    var size := LongestKey(log);
    k := seq(size, _ => 0);
    StartsAt(c, log, k, c.join.streamIDs[0]);
    q := March(c, log, FRESH, k, c.join.streamIDs[0], passed, n);
  }

  /** With a settle delay handlers publish nothing. */
  lemma NotYetPublished(c: Setup, log: Log, p: Partition, k: Hash)
    requires c.Delays() && Sound(c, log, p) && Unflushed(p)
    ensures !Published(p.w.out, k)
  {
    forall m | m in p.w.out ensures !IsJoin(m) { assert SoundMessage(c, log, m); }
  }

  /** A process that ends leaves no join behind that was in its memory only. */
  lemma EndsEmpty(c: Setup, log: Log, p: Partition)
    requires c.Delays() && !c.durable && Sound(c, log, p) && Unflushed(p)
    ensures forall h :: !Joined(c, Restart(c, Committed(p, LostReply)), h)
  {
    var q := Restart(c, Committed(p, LostReply));
    forall h ensures !Joined(c, q, h) { NotYetPublished(c, log, p, h); }
  }

  /** The record at the cursor is the last; it is handled, its commit takes effect but fails, and the process ends. */
  lemma EndsAtLast(c: Setup, log: Log, p: Partition, k: Hash, s: string) returns (q: Partition)
    requires GoodSetup(c) && GoodLog(c, log) && s in c.join.streamIDs && c.Delays() && !c.durable
    requires At(c, log, p, k, s) && NotOf(log, p.cursor, k, s) && p.cursor + 1 == |log|
    ensures Leads(c, log, p, q, true) && q.committed == |log| && q.passed == p.passed
    ensures q.faded == p.faded && q.timed == p.timed && forall h :: !Joined(c, q, h)
  {
    if log[p.cursor].None? {
      q := Step(c, log, p, Elsewhere(LostReply, None));
      LeadsStep(c, log, p, Elsewhere(LostReply, None), true);
      EndsEmpty(c, log, p);
    } else {
      var v := Work(c, log, p, k, s);
      q := Step(c, log, v, Finish(LostReply, None));
      LeadsStep(c, log, v, Finish(LostReply, None), true);
      LeadsThen(c, log, p, v, q, true);
      EndsEmpty(c, log, v);
    }
  }

  /** What settles in memory is lost when the process ends behind the last record. */
  lemma MemoryLosesJoin(c: Setup, log: Log, k: Hash, passed: set<nat>) returns (moves: seq<Move>)
    requires GoodSetup(c) && GoodLog(c, log) && c.Delays() && !c.durable && log != []
    requires forall i | i in passed :: i + 1 < |log|
    ensures var p := Run(c, log, moves); Loses(c, log, p, k, passed) && p.faded == p.timed == {}
    ensures passed == {} ==> Smooth(moves)
  {
    var other, p := HandleUpTo(c, log, passed, |log| - 1);
    var q := EndsAtLast(c, log, p, other, c.join.streamIDs[0]);
    if passed != {} { LeadsAnyhow(c, log, p, q); }
    LeadsThen(c, log, FRESH, p, q, passed == {});
    moves :| From(c, log, FRESH, moves) == q && (passed == {} ==> Smooth(moves));
    RunFrom(c, log, moves);
    assert passed * Range(0, |log| - 1) == passed;
  }

  lemma {:induction false} WithoutShorter(queue: seq<Item>, item: Item)
    ensures |Without(queue, item)| <= |queue|
    ensures item in queue ==> |Without(queue, item)| < |queue|
  {
    if queue != [] { WithoutShorter(queue[1..], item); }
  }

  const REFUSED := Reply(Refused, {}, 0)

  /** A flusher attempts one item of the durable queue, which the topic refuses. */
  lemma RefuseOne(c: Setup, log: Log, p: Partition, item: Item) returns (q: Partition)
    requires c.durable && c.producer && item in p.w.queue && FlusherAt(p, 0) == Quiet
    ensures Leads(c, log, p, q, false) && FlusherAt(q, 0) == Quiet
    ensures q.w == p.w.(queue := Without(p.w.queue, item))
    ensures q.committed == p.committed && q.passed == p.passed && q.faded == p.faded && q.timed == p.timed
  {
    var a := Step(c, log, p, PollQueue(0, [item], 0));
    LeadsStep(c, log, p, PollQueue(0, [item], 0), false);
    assert a.w == p.w && FlusherAt(a, 0) == Flush(item, []);
    var b := Step(c, log, a, RunFlush(0, REFUSED));
    LeadsOn(c, log, p, a, RunFlush(0, REFUSED));
    assert b.w == p.w && FlusherAt(b, 0) == Dequeue(item, []);
    q := Step(c, log, b, RunFlush(0, DONE));
    LeadsOn(c, log, p, b, RunFlush(0, DONE));
  }

  /** The topic refuses every item of the key. */
  lemma {:induction false} RefuseAll(c: Setup, log: Log, p: Partition, k: Hash) returns (q: Partition)
    requires c.durable && c.producer && FlusherAt(p, 0) == Quiet
    ensures Leads(c, log, p, q, false) && q.w.out == p.w.out && k !in Hashes(q.w.queue)
    ensures q.committed == p.committed && q.passed == p.passed && q.faded == p.faded && q.timed == p.timed
    decreases |p.w.queue|
  {
    q := p;
    if k in Hashes(p.w.queue) {
      var item :| item in p.w.queue && item.hash == k;
      var u := RefuseOne(c, log, p, item);
      WithoutShorter(p.w.queue, item);
      q := RefuseAll(c, log, u, k);
      LeadsThen(c, log, p, u, q, false);
    } else {
      LeadsNowhere(c, log, p, false);
    }
  }

  /** What settles in Redis is lost when the topic refuses it. */
  lemma DurableLosesJoin(c: Setup, log: Log, k: Hash, passed: set<nat>) returns (moves: seq<Move>)
    requires GoodSetup(c) && GoodLog(c, log) && c.Delays() && c.durable && log != []
    requires forall i | i in passed :: i + 1 < |log|
    ensures var p := Run(c, log, moves); Loses(c, log, p, k, passed) && p.faded == p.timed == {}
  {
    var other, p := HandleUpTo(c, log, passed, |log|);
    if passed == {} { LeadsAnyhow(c, log, FRESH, p); }
    NotYetPublished(c, log, p, k);
    var q := RefuseAll(c, log, p, k);
    LeadsThen(c, log, FRESH, p, q, false);
    moves :| From(c, log, FRESH, moves) == q;
    RunFrom(c, log, moves);
    assert passed * Range(0, |log|) == passed;
  }

  // ---------- exactly when a join is guaranteed ----------

  /** Nothing that may happen can lose the key. */
  predicate Safe(c: Setup, log: Log, k: Hash, passed: set<nat>, may: Hazard) {
    && !may.fade && !(may.time && Times(c)) && !(may.drop && c.Delays())
    && forall i | i in passed :: !Mine(log, k, i)
  }

  lemma UnsafeLoses(c: Setup, log: Log, k: Hash, passed: set<nat>, may: Hazard) returns (moves: seq<Move>)
    requires GoodSetup(c) && GoodLog(c, log) && AllBelow(c, log, k, |log|) && !Safe(c, log, k, passed, may)
    requires forall i | i in passed :: i + 1 < |log|
    ensures var p := Run(c, log, moves); Fitting(p, log, k, passed, may) && !Joined(c, p, k)
  {
    if i :| i in passed && Mine(log, k, i) {
      moves := SkippedRecordLosesJoin(c, log, k, passed, i);
    } else if may.fade {
      moves := FadedCellLosesJoin(c, log, k, passed);
    } else if may.time && Times(c) {
      moves := TimedOutKeyLosesJoin(c, log, k, passed);
    } else {
      assert Arrived(log, k, c.join.streamIDs[0], |log|);
      if c.durable { moves := DurableLosesJoin(c, log, k, passed); }
      else { moves := MemoryLosesJoin(c, log, k, passed); }
    }
  }

  /** Where no key is scheduled none is timed out, and where no join settles none is dropped. */
  lemma SpareAll(c: Setup, log: Log, moves: seq<Move>, k: Hash, passed: set<nat>, may: Hazard)
    requires GoodSetup(c) && GoodLog(c, log) && Safe(c, log, k, passed, may)
    requires Fitting(Run(c, log, moves), log, k, passed, may)
    ensures CleanBelow(log, Run(c, log, moves), k, |log|)
  {
    RunSound(c, log, moves);
  }

  /**
   * Once the log is committed, the join of a complete key is guaranteed to be published or waiting if and only if none
   * of its records was passed over, none of its cells may expire, no timeout may come before the join, or none is ever
   * scheduled, and the join may not be dropped, or never settles. (The last record of a committed log is never passed
   * over.)
   */
  lemma JoinGuaranteedIff(c: Setup, log: Log, k: Hash, passed: set<nat>, may: Hazard)
    requires GoodSetup(c) && GoodLog(c, log) && AllBelow(c, log, k, |log|)
    requires forall i | i in passed :: i + 1 < |log|
    ensures Guaranteed(c, log, k, passed, may) <==>
      && !may.fade && !(may.time && Times(c)) && !(may.drop && c.Delays())
      && forall i | i in passed :: !Mine(log, k, i)
  {
    if !Safe(c, log, k, passed, may) {
      var moves := UnsafeLoses(c, log, k, passed, may);
    } else {
      forall moves | Fitting(Run(c, log, moves), log, k, passed, may)
        ensures Joined(c, Run(c, log, moves), k)
      {
        SpareAll(c, log, moves, k, passed, may);
        CommittedMeansJoined(c, log, moves, k);
      }
    }
  }

  // ---------- when only commits fail ----------

  /** However the log comes to be committed with no call failing and nothing killed, the key is published or waits. */
  ghost predicate SmoothlyGuaranteed(c: Setup, log: Log, k: Hash) {
    forall moves | Smooth(moves) && Run(c, log, moves).committed == |log| :: Joined(c, Run(c, log, moves), k)
  }

  /** The first record is passed over only if it is no event; nothing has happened to any key. */
  predicate FirstSafe(log: Log, p: Partition) {
    Unbroken(p) && (0 in p.passed ==> log != [] && log[0].None?) && p.faded == p.timed == p.dropped == {}
  }

  /** What settles outlives the process. */
  predicate Lasts(c: Setup) {
    c.Delays() ==> c.durable
  }

  lemma NothingDropped(c: Setup, log: Log, p: Partition)
    requires Lasts(c) && Sound(c, log, p)
    ensures c.durable || Waiting(c, p) == {}
  {
  }

  lemma SmoothCommit(c: Setup, log: Log, p: Partition, commit: Outcome, masked: Option<nat>)
    requires Lasts(c) && Sound(c, log, p) && FirstSafe(log, p) && p.cursor < |log|
    ensures FirstSafe(log, Commit(c, log, p, commit, masked))
  {
    NothingDropped(c, log, p);
    assert Waiting(c, Committed(p, commit)) == Waiting(c, p);
  }

  lemma SmoothUnrouted(c: Setup, log: Log, p: Partition, commit: Outcome, hidden: bool, to: nat)
    requires Lasts(c) && Sound(c, log, p) && FirstSafe(log, p)
    ensures FirstSafe(log, Step(c, log, p, Unrouted(commit, hidden, to)))
  {
    NothingDropped(c, log, p);
    assert Waiting(c, Committed(p, commit)) == Waiting(c, p);
  }

  lemma SmoothCall(c: Setup, log: Log, p: Partition, r: Reply)
    requires GoodSetup(c) && GoodLog(c, log) && Sound(c, log, p) && FirstSafe(log, p) && r.Fine() && p.pc.Some?
    ensures FirstSafe(log, Called(c, p, p.pc.value, r))
  {
    CallGoesOn(c, log, p.w, p.pc.value, r);
  }

  lemma SmoothStep(c: Setup, log: Log, p: Partition, move: Move)
    requires GoodSetup(c) && GoodLog(c, log) && Lasts(c) && Sound(c, log, p) && FirstSafe(log, p)
    requires SmoothMove(move)
    ensures FirstSafe(log, Step(c, log, p, move))
  {
    match move {
      case Call(r) => if p.pc.Some? { SmoothCall(c, log, p, r); }
      case Finish(commit, masked) => if p.pc.Some? && p.pc.value.Ended? { SmoothCommit(c, log, p, commit, masked); }
      case Elsewhere(commit, masked) => if p.cursor < |log| { SmoothCommit(c, log, p, commit, masked); }
      case Unrouted(commit, hidden, to) => SmoothUnrouted(c, log, p, commit, hidden, to);
      case _ =>
    }
  }

  lemma {:induction false} SmoothRun(c: Setup, log: Log, moves: seq<Move>)
    requires GoodSetup(c) && GoodLog(c, log) && Lasts(c) && Smooth(moves)
    ensures Sound(c, log, Run(c, log, moves)) && FirstSafe(log, Run(c, log, moves))
  {
    if moves == [] {
      NothingYet(c, log, []);
    } else {
      var init, move := moves[..|moves| - 1], moves[|moves| - 1];
      assert move in moves;
      SmoothRun(c, log, init);
      SmoothStep(c, log, Run(c, log, init), move);
      StepSound(c, log, Run(c, log, init), move);
    }
  }

  /** The commit before record `i` fails and its error is lost; the batch is left behind `i`. */
  lemma TailAbandoned(c: Setup, log: Log, k: Hash, s: string, i: nat) returns (q: Partition)
    requires GoodSetup(c) && GoodLog(c, log) && s in c.join.streamIDs && 0 < i < |log| - 1
    requires BroughtOnlyIn(log, {}, 0, i, k, s)
    ensures Leads(c, log, FRESH, q, true) && At(c, log, q, k, s) && q.cursor == i + 1 && q.passed == {i}
  {
    StartsAt(c, log, k, s);
    var p := March(c, log, FRESH, k, s, {}, i - 1);
    assert NotOf(log, i - 1, k, s);
    q := Handle(c, log, p, k, s, Refused, Some(i + 1));
    LeadsThen(c, log, FRESH, p, q, true);
    assert Range(i, i + 1) == {i};
  }

  lemma MarchToEnd(c: Setup, log: Log, k: Hash, s: string, q: Partition) returns (r: Partition)
    requires GoodSetup(c) && GoodLog(c, log) && s in c.join.streamIDs && At(c, log, q, k, s) && q.cursor < |log|
    requires Leads(c, log, FRESH, q, true) && BroughtOnlyIn(log, {}, q.cursor, |log|, k, s)
    ensures Leads(c, log, FRESH, r, true) && At(c, log, r, k, s) && r.passed == q.passed && r.committed == |log|
  {
    r := March(c, log, q, k, s, {}, |log|);
    LeadsThen(c, log, FRESH, q, r, true);
  }

  lemma MovesTo(c: Setup, log: Log, r: Partition) returns (moves: seq<Move>)
    requires Leads(c, log, FRESH, r, true)
    ensures Smooth(moves) && Run(c, log, moves) == r
  {
    moves :| From(c, log, FRESH, moves) == r && Smooth(moves);
    RunFrom(c, log, moves);
  }

  /**
   * A record strictly inside the log is lost without any crash or failing call: the commit before it fails, a later
   * partition's success hides the error, and the rest of the batch is abandoned.
   */
  lemma AbandonedRecordLosesJoin(c: Setup, log: Log, k: Hash, i: nat) returns (moves: seq<Move>)
    requires GoodSetup(c) && GoodLog(c, log) && Mine(log, k, i) && 0 < i < |log| - 1
    ensures Smooth(moves)
    ensures var p := Run(c, log, moves); Loses(c, log, p, k, {i})
  {
    var s := log[i].value.stream;
    forall j | 0 <= j < |log| && j != i ensures NotOf(log, j, k, s) { OnlyOne(c, log, k, i, j); }
    var q := TailAbandoned(c, log, k, s, i);
    var r := MarchToEnd(c, log, k, s, q);
    AtNotJoined(c, log, r, k, s);
    moves := MovesTo(c, log, r);
  }

  lemma SmoothlyLost(c: Setup, log: Log, k: Hash) returns (moves: seq<Move>)
    requires GoodSetup(c) && GoodLog(c, log) && AllBelow(c, log, k, |log|)
    requires !Lasts(c) || exists i :: 0 < i < |log| - 1 && Mine(log, k, i)
    ensures Smooth(moves) && Run(c, log, moves).committed == |log| && !Joined(c, Run(c, log, moves), k)
  {
    if i :| 0 < i < |log| - 1 && Mine(log, k, i) {
      moves := AbandonedRecordLosesJoin(c, log, k, i);
    } else {
      assert Arrived(log, k, c.join.streamIDs[0], |log|);
      moves := MemoryLosesJoin(c, log, k, {});
    }
  }

  lemma SmoothlyJoined(c: Setup, log: Log, k: Hash, moves: seq<Move>)
    requires GoodSetup(c) && GoodLog(c, log) && AllBelow(c, log, k, |log|) && Lasts(c)
    requires forall i | 0 < i < |log| - 1 :: !Mine(log, k, i)
    requires Smooth(moves) && Run(c, log, moves).committed == |log|
    ensures Joined(c, Run(c, log, moves), k)
  {
    SmoothRun(c, log, moves);
    var p := Run(c, log, moves);
    forall i | i in p.passed && i < |log| ensures !Mine(log, k, i) {
      assert i != |log| - 1;
    }
    CommittedMeansJoined(c, log, moves, k);
  }

  /**
   * When no call fails and nothing is killed, but commits may fail, the join of a complete key is guaranteed if and
   * only if none of its records lies strictly inside the log, and what settles, if anything does, outlives the process.
   */
  lemma SmoothlyGuaranteedIff(c: Setup, log: Log, k: Hash)
    requires GoodSetup(c) && GoodLog(c, log) && AllBelow(c, log, k, |log|)
    ensures SmoothlyGuaranteed(c, log, k) <==>
      (c.Delays() ==> c.durable) && forall i | 0 < i < |log| - 1 :: !Mine(log, k, i)
  {
    if !Lasts(c) || exists i :: 0 < i < |log| - 1 && Mine(log, k, i) {
      var moves := SmoothlyLost(c, log, k);
    } else {
      forall moves | Smooth(moves) && Run(c, log, moves).committed == |log|
        ensures Joined(c, Run(c, log, moves), k)
      {
        SmoothlyJoined(c, log, k, moves);
      }
    }
  }
}
