/**
 * Handlers of different streams racing for one key. Some participants may already be in the row; the handlers of
 * all the others interleave call by call, in any order, with no call failing. When all have finished, the full
 * join was published if and only if some handler read the row back after the last write, and that is so whenever
 * the Bloom filter sent nobody down the write-only path. Every publication is the projection of all N
 * participants, there are at most as many as handlers, and after one the row is gone.
 */
module Race {
  import opened Base
  import opened Json
  import opened Projection
  import opened Protocol

  /**
   * `wrote` and `sent` remember which handlers have written and published; `sawAll`, that one of them read the
   * row back after all had written. They follow the schedule only.
   */
  datatype Contest = Contest(w: World, pcs: seq<Pc>, wrote: set<nat>, sent: set<nat>, sawAll: bool)

  const DONE := Reply(Done, {}, 0)

  predicate Writes(pc: Pc) { pc.Write? || pc.WriteOnly? }

  predicate AllWrote(s: Contest) {
    forall i | 0 <= i < |s.pcs| :: i in s.wrote
  }

  /** Handler `i` makes its next call. */
  function Step(c: Setup, s: Contest, i: nat): Contest {
    if i >= |s.pcs| then s else
    var (w, pc) := HandlerStep(c, s.w, s.pcs[i], DONE);
    Contest(w, s.pcs[i := pc],
      if Writes(s.pcs[i]) then s.wrote + {i} else s.wrote,
      if s.pcs[i].Publish? then s.sent + {i} else s.sent,
      s.sawAll || (s.pcs[i].Read? && AllWrote(s)))
  }

  function Run(c: Setup, s: Contest, schedule: seq<nat>): Contest {
    if schedule == [] then s else Step(c, Run(c, s, schedule[..|schedule| - 1]), schedule[|schedule| - 1])
  }

  predicate AllEnded(s: Contest) {
    forall i | 0 <= i < |s.pcs| :: s.pcs[i].Ended?
  }

  /** The cells `given`, and those of the events whose handlers are in `wrote`. */
  function Written(given: Cells, events: seq<Event>, wrote: set<nat>): Cells {
    if events == [] then given else
    var n := |events| - 1;
    var before := Written(given, events[..n], wrote);
    if n in wrote then before[events[n].stream := events[n].payload] else before
  }

  function Full(given: Cells, events: seq<Event>): Cells {
    if events == [] then given else
    var n := |events| - 1;
    Full(given, events[..n])[events[n].stream := events[n].payload]
  }

  /** The participants of a contest: `given` are in the row, the events bring the missing streams, one each. */
  predicate Setting(c: Setup, given: Cells, events: seq<Event>, k: Hash) {
    && c.producer && !c.Delays() && events != []
    && (forall i | 0 <= i < |events| :: events[i].hash == k && events[i].stream !in given)
    && (forall i, j | 0 <= i < j < |events| :: events[i].stream != events[j].stream)
    && |given| + |events| == c.N()
    && Decodes(c.decode, Full(given, events))
  }

  /** Nobody has made a call yet. */
  predicate Ready(c: Setup, given: Cells, events: seq<Event>, k: Hash, s: Contest) {
    && CellsAt(s.w, k) == given && s.w.tracker == {} && s.w.out == []
    && |s.pcs| == |events| && (forall i | 0 <= i < |events| :: s.pcs[i] == Start(c, events[i]))
    && s.wrote == {} && s.sent == {} && !s.sawAll
  }

  lemma {:induction false} WrittenKeys(given: Cells, events: seq<Event>, wrote: set<nat>, s: string)
    ensures s in Written(given, events, wrote) <==>
      s in given || exists i :: 0 <= i < |events| && i in wrote && events[i].stream == s
  {
    if events != [] {
      var n := |events| - 1;
      WrittenKeys(given, events[..n], wrote, s);
    }
  }

  lemma {:induction false} WrittenCount(given: Cells, events: seq<Event>, wrote: set<nat>)
    requires forall i | 0 <= i < |events| :: events[i].stream !in given
    requires forall i, j | 0 <= i < j < |events| :: events[i].stream != events[j].stream
    ensures |Written(given, events, wrote)| <= |given| + |events|
    ensures |Written(given, events, wrote)| == |given| + |events| <==> forall i | 0 <= i < |events| :: i in wrote
  {
    if events != [] {
      var n := |events| - 1;
      var before := Written(given, events[..n], wrote);
      WrittenCount(given, events[..n], wrote);
      WrittenKeys(given, events[..n], wrote, events[n].stream);
      assert events[n].stream !in before;
      assert n in wrote ==> Written(given, events, wrote).Keys == before.Keys + {events[n].stream};
    }
  }

  lemma {:induction false} WrittenByAll(given: Cells, events: seq<Event>, wrote: set<nat>)
    requires forall i | 0 <= i < |events| :: i in wrote
    ensures Written(given, events, wrote) == Full(given, events)
  {
    if events != [] { WrittenByAll(given, events[..|events| - 1], wrote); }
  }

  lemma {:induction false} WrittenMore(given: Cells, events: seq<Event>, wrote: set<nat>, i: nat)
    requires forall j, l | 0 <= j < l < |events| :: events[j].stream != events[l].stream
    ensures i < |events| ==>
      Written(given, events, wrote + {i}) == Written(given, events, wrote)[events[i].stream := events[i].payload]
    ensures i >= |events| ==> Written(given, events, wrote + {i}) == Written(given, events, wrote)
  {
    if events != [] {
      WrittenMore(given, events[..|events| - 1], wrote, i);
    }
  }

  lemma {:induction false} WrittenNone(given: Cells, events: seq<Event>)
    ensures Written(given, events, {}) == given
  {
    if events != [] { WrittenNone(given, events[..|events| - 1]); }
  }

  // ---------- the invariant ----------

  /** A message of this contest: the join of everything, under the Kafka key of one of the records. */
  predicate FullJoin(c: Setup, full: Cells, events: seq<Event>, k: Hash, m: Sent) {
    && m.kind == Main && m.hash == k && m.cells == full && c.Doc(full) == Some(m.text)
    && exists i :: 0 <= i < |events| && events[i].msgKey == m.key
  }

  /** Where one handler is, given whether it has written, has published, and the full row has been seen. */
  predicate PcGood(c: Setup, full: Cells, e: Event, pc: Pc, wrote: bool, sent: bool, sawAll: bool) {
    && pc.e == e
    && (pc.Exists? || Writes(pc) <==> !wrote)
    && (sent ==> pc.Drop? || pc.Ended?)
    && (pc.Drop? ==> sent)
    && (pc.Contains? ==> |pc.row.cells| < c.N())
    && (pc.Publish? ==> sawAll && pc.cells == full && c.Doc(full) == Some(pc.text))
    && !pc.Correct? && !pc.Forget? && !pc.DropLate? && !pc.Enqueue?
    && (pc.Ended? ==> pc.ok)
  }

  predicate PcsGood(c: Setup, given: Cells, events: seq<Event>, s: Contest) {
    && |s.pcs| == |events|
    && forall i | 0 <= i < |s.pcs| ::
         PcGood(c, Full(given, events), events[i], s.pcs[i], i in s.wrote, i in s.sent, s.sawAll)
  }

  predicate RowGood(given: Cells, events: seq<Event>, k: Hash, s: Contest) {
    && (!AllWrote(s) ==> CellsAt(s.w, k) == Written(given, events, s.wrote))
    && (AllWrote(s) && s.w.out == [] ==> CellsAt(s.w, k) == Full(given, events))
    && (k in s.w.rows && AllWrote(s) ==> CellsAt(s.w, k) == Full(given, events))
    && (s.sawAll ==> AllWrote(s))
  }

  predicate OutGood(c: Setup, given: Cells, events: seq<Event>, k: Hash, s: Contest) {
    && s.w.tracker == {}
    && (forall m | m in s.w.out :: FullJoin(c, Full(given, events), events, k, m))
    && |s.w.out| == |s.sent| && (forall i | i in s.sent :: i < |s.pcs|)
    && (s.w.out != [] ==> s.sawAll)
  }

  predicate SomeoneAt(s: Contest, publishing: bool) {
    exists i :: 0 <= i < |s.pcs| && (if publishing then s.pcs[i].Publish? else s.pcs[i].Drop?)
  }

  /** Once the complete row was read back, its publication is on the way or done; once done, so is the deletion. */
  predicate Progress(k: Hash, s: Contest) {
    && (s.sawAll && s.w.out == [] ==> SomeoneAt(s, true))
    && (s.w.out != [] && k in s.w.rows ==> SomeoneAt(s, false))
  }

  predicate Inv(c: Setup, given: Cells, events: seq<Event>, k: Hash, s: Contest) {
    PcsGood(c, given, events, s) && RowGood(given, events, k, s) && OutGood(c, given, events, k, s) && Progress(k, s)
  }

  lemma FullRow(c: Setup, given: Cells, events: seq<Event>, k: Hash)
    requires Setting(c, given, events, k)
    ensures |Full(given, events)| == c.N()
    ensures c.Doc(Full(given, events)).Some? && |c.Doc(Full(given, events)).value| > 0
  {
    var all := set i {:trigger i in {i}} | 0 <= i < |events|;
    WrittenCount(given, events, all);
    WrittenByAll(given, events, all);
    WriteStart(Obj(Project(Decoded(c.decode, Full(given, events)), c.join.projection)), "");
  }

  /** A handler that was neither publishing nor deleting leaves those who are in place. */
  lemma OthersStay(s: Contest, s': Contest, i: nat, publishing: bool)
    requires i < |s.pcs| && |s'.pcs| == |s.pcs| && s'.pcs == s.pcs[i := s'.pcs[i]]
    requires if publishing then !s.pcs[i].Publish? else !s.pcs[i].Drop?
    requires SomeoneAt(s, publishing)
    ensures SomeoneAt(s', publishing)
  {
    var j :| 0 <= j < |s.pcs| && (if publishing then s.pcs[j].Publish? else s.pcs[j].Drop?);
    assert s'.pcs[j] == s.pcs[j];
  }

  lemma PcsKept(c: Setup, given: Cells, events: seq<Event>, s: Contest, s': Contest, i: nat)
    requires PcsGood(c, given, events, s) && i < |s.pcs|
    requires |s'.pcs| == |s.pcs| && s'.pcs == s.pcs[i := s'.pcs[i]]
    requires s.wrote <= s'.wrote <= s.wrote + {i} && s.sent <= s'.sent <= s.sent + {i} && (s.sawAll ==> s'.sawAll)
    requires PcGood(c, Full(given, events), events[i], s'.pcs[i], i in s'.wrote, i in s'.sent, s'.sawAll)
    ensures PcsGood(c, given, events, s')
  {
    forall j | 0 <= j < |s'.pcs|
      ensures PcGood(c, Full(given, events), events[j], s'.pcs[j], j in s'.wrote, j in s'.sent, s'.sawAll)
    {
      if j != i { assert PcGood(c, Full(given, events), events[j], s.pcs[j], j in s.wrote, j in s.sent, s.sawAll); }
    }
  }

  /** Handler `i` moved from `s` to `s'`, changing the marks as its call says. */
  predicate Moved(s: Contest, s': Contest, i: nat) {
    && i < |s.pcs| && |s'.pcs| == |s.pcs| && s'.pcs == s.pcs[i := s'.pcs[i]]
    && s'.wrote == (if Writes(s.pcs[i]) then s.wrote + {i} else s.wrote)
    && s'.sent == (if s.pcs[i].Publish? then s.sent + {i} else s.sent)
    && s'.sawAll == (s.sawAll || (s.pcs[i].Read? && AllWrote(s)))
  }

  lemma WriteKeepsRow(c: Setup, given: Cells, events: seq<Event>, k: Hash, s: Contest, s': Contest, i: nat)
    requires Setting(c, given, events, k) && RowGood(given, events, k, s) && !AllWrote(s) && |s.pcs| == |events|
    requires i < |s.pcs| && |s'.pcs| == |s.pcs| && s'.wrote == s.wrote + {i} && s'.w == Upsert(s.w, events[i])
    requires s'.sawAll == s.sawAll
    ensures RowGood(given, events, k, s')
  {
    WrittenMore(given, events, s.wrote, i);
    if AllWrote(s') { WrittenByAll(given, events, s'.wrote); }
    assert CellsAt(s'.w, k) == Written(given, events, s'.wrote);
  }

  lemma NothingYet(c: Setup, given: Cells, events: seq<Event>, k: Hash, s: Contest, s': Contest)
    requires OutGood(c, given, events, k, s) && s.w.out == [] && s'.w.out == [] && s'.w.tracker == s.w.tracker
    requires s'.sent == s.sent && !s'.sawAll
    ensures OutGood(c, given, events, k, s') && Progress(k, s')
  {
    assert s.sent == {};
  }

  lemma WriteKeeps(c: Setup, given: Cells, events: seq<Event>, k: Hash, s: Contest, s': Contest, i: nat)
    requires Setting(c, given, events, k) && Inv(c, given, events, k, s) && Moved(s, s', i) && Writes(s.pcs[i])
    requires s'.w == Upsert(s.w, events[i])
    requires s'.pcs[i] == Read(events[i]) || s'.pcs[i] == Add(events[i])
    ensures Inv(c, given, events, k, s')
  {
    assert PcGood(c, Full(given, events), events[i], s.pcs[i], i in s.wrote, i in s.sent, s.sawAll);
    assert i !in s.wrote && !AllWrote(s);
    assert !s.sawAll && s.w.out == [];
    assert PcGood(c, Full(given, events), events[i], s'.pcs[i], i in s'.wrote, i in s'.sent, s'.sawAll);
    WriteKeepsRow(c, given, events, k, s, s', i);
    NothingYet(c, given, events, k, s, s');
    PcsKept(c, given, events, s, s', i);
  }

  lemma WriteStep(c: Setup, given: Cells, events: seq<Event>, k: Hash, s: Contest, i: nat)
    requires Setting(c, given, events, k) && Inv(c, given, events, k, s) && i < |s.pcs| && Writes(s.pcs[i])
    ensures Inv(c, given, events, k, Step(c, s, i))
  {
    assert PcGood(c, Full(given, events), events[i], s.pcs[i], i in s.wrote, i in s.sent, s.sawAll);
    WriteKeeps(c, given, events, k, s, Step(c, s, i), i);
  }

  /** What reading back gives: the full row to publish, a row with a stream missing, or none after a deletion. */
  lemma ReadTurn(c: Setup, full: Cells, e: Event, w: World, sawAll: bool)
    requires c.producer && !c.Delays() && (e.hash in w.rows ==>
      |w.rows[e.hash].cells| < c.N() || w.rows[e.hash].cells == full)
    requires |full| == c.N() && c.Doc(full).Some? && |c.Doc(full).value| > 0
    requires e.hash in w.rows && w.rows[e.hash].cells == full ==> sawAll
    ensures var pc := AfterRead(c, e, RowAt(w, e.hash));
      && (e.hash in w.rows && w.rows[e.hash].cells == full ==> pc.Publish?)
      && PcGood(c, full, e, pc, true, false, sawAll)
  {
  }

  lemma ReadKeepsRow(c: Setup, given: Cells, events: seq<Event>, k: Hash, s: Contest, s': Contest)
    requires RowGood(given, events, k, s) && OutGood(c, given, events, k, s)
    requires |s'.pcs| == |s.pcs| && s'.w == s.w && s'.wrote == s.wrote && s'.sent == s.sent
    requires s'.sawAll ==> s.sawAll || AllWrote(s)
    requires s.sawAll ==> s'.sawAll
    ensures RowGood(given, events, k, s') && OutGood(c, given, events, k, s')
  {
    assert AllWrote(s') <==> AllWrote(s);
  }

  lemma ReadKeepsProgress(given: Cells, events: seq<Event>, k: Hash, s: Contest, s': Contest, i: nat)
    requires events != [] && RowGood(given, events, k, s) && Progress(k, s) && Moved(s, s', i) && s.pcs[i].Read?
    requires s'.w == s.w && (AllWrote(s) && k in s.w.rows ==> s'.pcs[i].Publish?)
    ensures Progress(k, s')
  {
    if s'.sawAll && s.w.out == [] {
      assert Full(given, events) != map[] by { var n := |events| - 1; assert events[n].stream in Full(given, events); }
      assert s'.pcs[i].Publish?;
    }
    if s.w.out != [] && k in s.w.rows { OthersStay(s, s', i, false); }
  }

  lemma ReadKeeps(c: Setup, given: Cells, events: seq<Event>, k: Hash, s: Contest, s': Contest, i: nat)
    requires events != [] && Inv(c, given, events, k, s) && Moved(s, s', i) && s.pcs[i].Read? && s'.w == s.w
    requires AllWrote(s) && k in s.w.rows ==> s'.pcs[i].Publish?
    requires PcGood(c, Full(given, events), events[i], s'.pcs[i], true, false, s'.sawAll)
    requires i in s.wrote && i !in s.sent
    ensures Inv(c, given, events, k, s')
  {
    PcsKept(c, given, events, s, s', i);
    ReadKeepsRow(c, given, events, k, s, s');
    ReadKeepsProgress(given, events, k, s, s', i);
  }

  lemma ReadStep(c: Setup, given: Cells, events: seq<Event>, k: Hash, s: Contest, i: nat)
    requires Setting(c, given, events, k) && Inv(c, given, events, k, s) && i < |s.pcs| && s.pcs[i].Read?
    ensures Inv(c, given, events, k, Step(c, s, i))
  {
    var full := Full(given, events);
    assert PcGood(c, full, events[i], s.pcs[i], i in s.wrote, i in s.sent, s.sawAll);
    FullRow(c, given, events, k);
    WrittenCount(given, events, s.wrote);
    ReadTurn(c, full, events[i], s.w, s.sawAll || AllWrote(s));
    ReadKeeps(c, given, events, k, s, Step(c, s, i), i);
  }

  lemma PublishKeeps(c: Setup, given: Cells, events: seq<Event>, k: Hash, s: Contest, s': Contest, i: nat, m: Sent)
    requires Setting(c, given, events, k) && Inv(c, given, events, k, s) && Moved(s, s', i) && s.pcs[i].Publish?
    requires s'.pcs[i] == Drop(s.pcs[i].e) && s'.w == Produce(s.w, m) && FullJoin(c, Full(given, events), events, k, m)
    ensures Inv(c, given, events, k, s')
  {
    assert PcGood(c, Full(given, events), events[i], s.pcs[i], i in s.wrote, i in s.sent, s.sawAll);
    PcsKept(c, given, events, s, s', i);
  }

  lemma PublishStep(c: Setup, given: Cells, events: seq<Event>, k: Hash, s: Contest, i: nat)
    requires Setting(c, given, events, k) && Inv(c, given, events, k, s) && i < |s.pcs| && s.pcs[i].Publish?
    ensures Inv(c, given, events, k, Step(c, s, i))
  {
    var pc := s.pcs[i];
    assert PcGood(c, Full(given, events), events[i], pc, i in s.wrote, i in s.sent, s.sawAll);
    PublishKeeps(c, given, events, k, s, Step(c, s, i), i, Sent(Main, pc.e.msgKey, pc.text, "", k, pc.cells));
  }

  lemma QuietKeeps(c: Setup, given: Cells, events: seq<Event>, k: Hash, s: Contest, s': Contest, i: nat)
    requires Setting(c, given, events, k) && Inv(c, given, events, k, s) && Moved(s, s', i)
    requires !Writes(s.pcs[i]) && !s.pcs[i].Read? && !s.pcs[i].Publish?
    requires s'.w.rows == (if s.pcs[i].Drop? then s.w.rows - {k} else s.w.rows)
    requires s'.w.out == s.w.out && s'.w.tracker == s.w.tracker
    requires PcGood(c, Full(given, events), events[i], s'.pcs[i], i in s.wrote, i in s.sent, s.sawAll)
    ensures Inv(c, given, events, k, s')
  {
    assert PcGood(c, Full(given, events), events[i], s.pcs[i], i in s.wrote, i in s.sent, s.sawAll);
    PcsKept(c, given, events, s, s', i);
    if s.sawAll && s.w.out == [] { OthersStay(s, s', i, true); }
    if s.pcs[i].Drop? {
      assert s.sent != {};
    } else if s.w.out != [] && k in s.w.rows {
      OthersStay(s, s', i, false);
    }
  }

  /** The remaining calls: the Bloom filter's two, the timeout's, the tracker's, and the deletion. */
  lemma QuietTurn(c: Setup, full: Cells, e: Event, w: World, pc: Pc, wrote: bool, sent: bool, sawAll: bool)
    requires PcGood(c, full, e, pc, wrote, sent, sawAll) && w.tracker == {}
    requires !Writes(pc) && !pc.Read? && !pc.Publish?
    ensures var (w', pc') := HandlerStep(c, w, pc, DONE);
      && w'.rows == (if pc.Drop? then w.rows - {e.hash} else w.rows) && w'.out == w.out && w'.tracker == {}
      && PcGood(c, full, e, pc', wrote, sent, sawAll)
  {
  }

  lemma QuietStep(c: Setup, given: Cells, events: seq<Event>, k: Hash, s: Contest, i: nat)
    requires Setting(c, given, events, k) && Inv(c, given, events, k, s) && i < |s.pcs|
    requires !Writes(s.pcs[i]) && !s.pcs[i].Read? && !s.pcs[i].Publish?
    ensures Inv(c, given, events, k, Step(c, s, i))
  {
    assert PcGood(c, Full(given, events), events[i], s.pcs[i], i in s.wrote, i in s.sent, s.sawAll);
    QuietTurn(c, Full(given, events), events[i], s.w, s.pcs[i], i in s.wrote, i in s.sent, s.sawAll);
    QuietKeeps(c, given, events, k, s, Step(c, s, i), i);
  }

  lemma StepKeeps(c: Setup, given: Cells, events: seq<Event>, k: Hash, s: Contest, i: nat)
    requires Setting(c, given, events, k) && Inv(c, given, events, k, s)
    ensures Inv(c, given, events, k, Step(c, s, i))
  {
    if i < |s.pcs| {
      if Writes(s.pcs[i]) { WriteStep(c, given, events, k, s, i); }
      else if s.pcs[i].Read? { ReadStep(c, given, events, k, s, i); }
      else if s.pcs[i].Publish? { PublishStep(c, given, events, k, s, i); }
      else { QuietStep(c, given, events, k, s, i); }
    }
  }

  lemma {:induction false} RunKeeps(c: Setup, given: Cells, events: seq<Event>, k: Hash, s: Contest, schedule: seq<nat>)
    requires Setting(c, given, events, k) && Inv(c, given, events, k, s)
    ensures Inv(c, given, events, k, Run(c, s, schedule))
  {
    if schedule != [] {
      var init := schedule[..|schedule| - 1];
      RunKeeps(c, given, events, k, s, init);
      StepKeeps(c, given, events, k, Run(c, s, init), schedule[|schedule| - 1]);
    }
  }

  lemma ReadyInv(c: Setup, given: Cells, events: seq<Event>, k: Hash, s: Contest)
    requires Setting(c, given, events, k) && Ready(c, given, events, k, s)
    ensures Inv(c, given, events, k, s)
  {
    WrittenNone(given, events);
    assert 0 !in s.wrote;
  }

  // ---------- without a write-only handler, the last writer sees everything ----------

  /** Every handler consulting the Bloom filter will be told "maybe", so no handler skips its read-back. */
  predicate NoMiss(c: Setup, k: Hash, s: Contest) {
    && (c.bloom ==> k in s.w.bloom)
    && forall i | 0 <= i < |s.pcs| ::
      s.pcs[i].e.hash == k && !s.pcs[i].WriteOnly? && !s.pcs[i].Add? && !s.pcs[i].Schedule?
  }

  predicate LastReaderPending(s: Contest) {
    && (AllWrote(s) ==> s.sawAll || exists i :: 0 <= i < |s.pcs| && s.pcs[i].Read?)
    && forall i | 0 <= i < |s.pcs| :: (s.pcs[i].Exists? || Writes(s.pcs[i]) <==> i !in s.wrote)
  }

  lemma CallerTurn(c: Setup, w: World, pc: Pc)
    requires !pc.WriteOnly? && !pc.Add? && (pc.Exists? ==> pc.e.hash in w.bloom)
    ensures var (w', pc') := HandlerStep(c, w, pc, DONE);
      && pc'.e == pc.e && w'.bloom == w.bloom && !pc'.Exists? && !pc'.WriteOnly? && !pc'.Add? && !pc'.Schedule?
      && (pc.Exists? <==> pc'.Write?) && (pc.Write? <==> pc'.Read?)
  {
  }

  lemma NoMissStep(c: Setup, k: Hash, s: Contest, i: nat)
    requires NoMiss(c, k, s) && LastReaderPending(s)
    requires forall j | 0 <= j < |s.pcs| && s.pcs[j].Exists? :: c.bloom
    ensures NoMiss(c, k, Step(c, s, i)) && LastReaderPending(Step(c, s, i))
    ensures forall j | 0 <= j < |s.pcs| && Step(c, s, i).pcs[j].Exists? :: c.bloom
  {
    if i < |s.pcs| {
      var s' := Step(c, s, i);
      CallerTurn(c, s.w, s.pcs[i]);
      if AllWrote(s) && !s.sawAll {
        var j :| 0 <= j < |s.pcs| && s.pcs[j].Read?;
        if j != i { assert s'.pcs[j].Read?; }
      } else if AllWrote(s') && !s'.sawAll {
        assert s'.pcs[i].Read?;
      }
    }
  }

  lemma {:induction false} NoMissRun(c: Setup, given: Cells, events: seq<Event>, k: Hash, s: Contest,
      schedule: seq<nat>)
    requires Setting(c, given, events, k) && Ready(c, given, events, k, s) && (c.bloom ==> k in s.w.bloom)
    ensures var s' := Run(c, s, schedule);
      && NoMiss(c, k, s') && LastReaderPending(s') && |s'.pcs| == |s.pcs|
      && (forall j | 0 <= j < |s'.pcs| && s'.pcs[j].Exists? :: c.bloom)
  {
    if schedule == [] {
      assert 0 !in s.wrote;
    } else {
      NoMissRun(c, given, events, k, s, schedule[..|schedule| - 1]);
      NoMissStep(c, k, Run(c, s, schedule[..|schedule| - 1]), schedule[|schedule| - 1]);
    }
  }

  // ---------- the results ----------

  lemma {:induction false} BelowCount(s: set<nat>, n: nat)
    requires forall i | i in s :: i < n
    ensures |s| <= n
  {
    if n == 0 {
      assert s == {};
    } else {
      BelowCount(s - {n - 1}, n - 1);
    }
  }

  lemma EndedMeansWritten(c: Setup, given: Cells, events: seq<Event>, k: Hash, f: Contest)
    requires Inv(c, given, events, k, f) && AllEnded(f)
    ensures AllWrote(f)
  {
    forall i | 0 <= i < |f.pcs| ensures i in f.wrote {
      assert PcGood(c, Full(given, events), events[i], f.pcs[i], i in f.wrote, i in f.sent, f.sawAll);
    }
  }

  /**
   * However the handlers interleave: when all have finished, the join was published if and only if some handler
   * read the row back after all had written; it was published at most once per handler, always as the projection
   * of all N participants, and the row is gone exactly if it was published.
   */
  lemma PublishedIffSeen(c: Setup, given: Cells, events: seq<Event>, k: Hash, s: Contest, schedule: seq<nat>)
    requires Setting(c, given, events, k) && Ready(c, given, events, k, s) && AllEnded(Run(c, s, schedule))
    ensures var f := Run(c, s, schedule);
      && (f.w.out != [] <==> f.sawAll)
      && |f.w.out| <= |events|
      && (forall m | m in f.w.out :: FullJoin(c, Full(given, events), events, k, m))
      && (k !in f.w.rows <==> f.w.out != [])
  {
    ReadyInv(c, given, events, k, s);
    RunKeeps(c, given, events, k, s, schedule);
    var f := Run(c, s, schedule);
    FullRow(c, given, events, k);
    BelowCount(f.sent, |events|);
    EndedMeansWritten(c, given, events, k, f);
  }

  /**
   * The race the design relies on: without a Bloom filter, or once the key is in it, every interleaving publishes
   * the full join at least once.
   */
  lemma RacePublishes(c: Setup, given: Cells, events: seq<Event>, k: Hash, s: Contest, schedule: seq<nat>)
    requires Setting(c, given, events, k) && Ready(c, given, events, k, s) && (c.bloom ==> k in s.w.bloom)
    requires AllEnded(Run(c, s, schedule))
    ensures var f := Run(c, s, schedule);
      && 1 <= |f.w.out| <= |events| && k !in f.w.rows
      && forall m | m in f.w.out :: FullJoin(c, Full(given, events), events, k, m)
  {
    PublishedIffSeen(c, given, events, k, s, schedule);
    NoMissRun(c, given, events, k, s, schedule);
    ReadyInv(c, given, events, k, s);
    RunKeeps(c, given, events, k, s, schedule);
    EndedMeansWritten(c, given, events, k, Run(c, s, schedule));
  }

  // ---------- simultaneous first arrivals ----------

  /** The calls of a handler the Bloom filter answers "not seen". */
  function Stage(c: Setup, e: Event, r: nat): Pc {
    if r == 0 then Exists(e)
    else if r == 1 then WriteOnly(e)
    else if r == 2 then Add(e)
    else if r == 3 && c.Schedules() then Schedule(e)
    else Ended(e, true)
  }

  lemma StageTurn(c: Setup, w: World, e: Event, r: nat)
    requires r < 4 && (r == 0 ==> e.hash !in w.bloom)
    ensures var (w', pc') := HandlerStep(c, w, Stage(c, e, r), DONE);
      pc' == Stage(c, e, r + 1) && (r == 0 ==> w' == w) && !Stage(c, e, r).Read?
  {
  }

  /** One call of each of the first `i` handlers in turn. */
  function Turn(i: nat): seq<nat> {
    if i == 0 then [] else Turn(i - 1) + [i - 1]
  }

  lemma TurnTaken(c: Setup, events: seq<Event>, s: Contest, r: nat, i: nat)
    requires 0 < i <= |events| == |s.pcs| && !s.sawAll && !Stage(c, events[i - 1], r).Read?
    requires forall j | 0 <= j < |events| :: s.pcs[j] == Stage(c, events[j], if j < i - 1 then r + 1 else r)
    requires HandlerStep(c, s.w, Stage(c, events[i - 1], r), DONE).1 == Stage(c, events[i - 1], r + 1)
    ensures var f := Step(c, s, i - 1);
      && |f.pcs| == |events| && !f.sawAll && f.w == HandlerStep(c, s.w, Stage(c, events[i - 1], r), DONE).0
      && forall j | 0 <= j < |events| :: f.pcs[j] == Stage(c, events[j], if j < i then r + 1 else r)
  {
    assert s.pcs[i - 1] == Stage(c, events[i - 1], r);
  }

  lemma {:induction false} RunInTurn(c: Setup, events: seq<Event>, k: Hash, s: Contest, r: nat, i: nat)
    requires r < 4 && i <= |events| == |s.pcs| && !s.sawAll
    requires forall j | 0 <= j < |events| :: events[j].hash == k && s.pcs[j] == Stage(c, events[j], r)
    requires r == 0 ==> k !in s.w.bloom
    ensures var f := Run(c, s, Turn(i));
      && |f.pcs| == |events| && !f.sawAll && (r == 0 ==> f.w.bloom == s.w.bloom)
      && forall j | 0 <= j < |events| :: f.pcs[j] == Stage(c, events[j], if j < i then r + 1 else r)
  {
    if i > 0 {
      RunInTurn(c, events, k, s, r, i - 1);
      assert Turn(i)[..|Turn(i)| - 1] == Turn(i - 1);
      var before := Run(c, s, Turn(i - 1));
      assert Run(c, s, Turn(i)) == Step(c, before, i - 1);
      StageTurn(c, before.w, events[i - 1], r);
      TurnTaken(c, events, before, r, i);
    }
  }

  lemma {:induction false} RunThen(c: Setup, s: Contest, a: seq<nat>, b: seq<nat>)
    ensures Run(c, s, a + b) == Run(c, Run(c, s, a), b)
  {
    if b == [] {
      assert a + b == a;
    } else {
      RunThen(c, s, a, b[..|b| - 1]);
      assert (a + b)[..|a + b| - 1] == a + b[..|b| - 1];
    }
  }

  function Turns(n: nat, r: nat): seq<nat> {
    if r == 0 then [] else Turns(n, r - 1) + Turn(n)
  }

  lemma {:induction false} RunTurns(c: Setup, events: seq<Event>, k: Hash, s: Contest, r: nat)
    requires r <= 4 && |events| == |s.pcs| && !s.sawAll && k !in s.w.bloom
    requires forall j | 0 <= j < |events| :: events[j].hash == k && s.pcs[j] == Exists(events[j])
    ensures var f := Run(c, s, Turns(|events|, r));
      |f.pcs| == |events| && !f.sawAll && forall j | 0 <= j < |events| :: f.pcs[j] == Stage(c, events[j], r)
  {
    if r > 0 {
      RunTurns(c, events, k, s, r - 1);
      RunThen(c, s, Turns(|events|, r - 1), Turn(|events|));
      RunInTurn(c, events, k, Run(c, s, Turns(|events|, r - 1)), r - 1, |events|);
    }
  }

  /**
   * The Bloom filter's first-arrival shortcut is not safe under concurrency: for every set of handlers of a key
   * it does not know, some interleaving finishes with all N participants in the row and nothing published.
   */
  lemma SimultaneousFirstArrivalsLose(c: Setup, given: Cells, events: seq<Event>, k: Hash, s: Contest)
    requires Setting(c, given, events, k) && Ready(c, given, events, k, s) && c.bloom && k !in s.w.bloom
    ensures exists schedule :: var f := Run(c, s, schedule);
      AllEnded(f) && f.w.out == [] && CellsAt(f.w, k) == Full(given, events)
  {
    var schedule := Turns(|events|, 4);
    RunTurns(c, events, k, s, 4);
    PublishedIffSeen(c, given, events, k, s, schedule);
    ReadyInv(c, given, events, k, s);
    RunKeeps(c, given, events, k, s, schedule);
    var f := Run(c, s, schedule);
    EndedMeansWritten(c, given, events, k, f);
    assert AllEnded(f) && f.w.out == [] && CellsAt(f.w, k) == Full(given, events);
  }
}
