/**
 * Where every handled record ends up. For one key, over any sequence of handled records and fired timeouts, the
 * handled records are, as a multiset, those live in the row, those inside published messages, those superseded by
 * a later record of their stream, those dropped by an inner-policy timeout, and those lost with a refused
 * correction. Produces may be refused and retried; deletes succeed.
 */
module Ledger {
  import opened Base
  import opened Projection
  import opened Protocol
  import opened Provenance
  import opened Atomic

  datatype Entry = Entry(
    w: World,
    handled: multiset<Fact>,
    superseded: multiset<Fact>,
    dropped: multiset<Fact>,
    lost: multiset<Fact>)

  const EMPTY := Entry(EMPTY_WORLD, multiset{}, multiset{}, multiset{}, multiset{})

  function FactOf(e: Event): Fact { Fact(e.hash, e.stream, e.payload) }

  function Items(k: Hash, cells: Cells): set<Fact> {
    set s | s in cells :: Fact(k, s, cells[s])
  }

  function Live(w: World, k: Hash): multiset<Fact> {
    multiset(Items(k, CellsAt(w, k)))
  }

  /** The records inside the published messages of a key, message by message. */
  function Tally(out: seq<Sent>, k: Hash): multiset<Fact> {
    if out == [] then multiset{} else
    var m := out[|out| - 1];
    Tally(out[..|out| - 1], k) + if m.hash == k then multiset(Items(k, m.cells)) else multiset{}
  }

  /** The record replaces an earlier one of its stream. */
  function Replaced(w: World, e: Event): multiset<Fact> {
    var cells := CellsAt(w, e.hash);
    if e.stream in cells then multiset{Fact(e.hash, e.stream, cells[e.stream])} else multiset{}
  }

  /** The participants of a row that goes without a message. */
  function Unsent(x: Effect, live: multiset<Fact>): multiset<Fact> {
    if x.deleted && x.sent.None? then live else multiset{}
  }

  /** What handling the record takes away unsent: the row of a refused correction. */
  function LostCorrection(c: Setup, w: World, e: Event, a: Answers): multiset<Fact> {
    var v := Upsert(w, e);
    if c.bloom && e.hash !in w.bloom then multiset{}
    else Unsent(Decide(c, v.rows[e.hash], e.hash in v.tracker, e, Replies(a)), Live(v, e.hash))
  }

  /** What a timeout takes away unsent: an incomplete row, under inner policy. */
  function DroppedRow(c: Setup, w: World, h: Hash): multiset<Fact> {
    Unsent(Timing(c, RowAt(w, h), h, Reply(Done, {}, 0)), Live(w, h))
  }

  datatype Happening = Took(e: Event, a: Answers) | Timed(h: Hash, produce: Reply)

  function OpOf(x: Happening): Op {
    match x
    case Took(e, a) => Record(e, a)
    case Timed(h, produce) => Timeout(h, produce)
  }

  /** A timeout fires only on a key of the timeout set. */
  predicate Fires(w: World, x: Happening) {
    x.Timed? ==> x.h in w.timeouts
  }

  /** The books of key `k` after this. */
  function Recorded(c: Setup, k: Hash, s: Entry, x: Happening): Entry {
    match x
    case Took(e, a) =>
      if e.hash != k then s else
      s.(handled := s.handled + multiset{FactOf(e)}, superseded := s.superseded + Replaced(s.w, e),
         lost := s.lost + LostCorrection(c, s.w, e, a))
    case Timed(h, _) => if h != k then s else s.(dropped := s.dropped + DroppedRow(c, s.w, h))
  }

  /** The world moves on, and the books with it. */
  function Posted(c: Setup, k: Hash, s: Entry, x: Happening): Entry {
    Recorded(c, k, s, x).(w := Perform(c, s.w, OpOf(x)))
  }

  function Post(c: Setup, k: Hash, s: Entry, x: Happening): Entry {
    if Fires(s.w, x) then Posted(c, k, s, x) else s
  }

  function Books(c: Setup, k: Hash, xs: seq<Happening>): Entry {
    if xs == [] then EMPTY else Post(c, k, Books(c, k, xs[..|xs| - 1]), xs[|xs| - 1])
  }

  predicate Clear(r: Reply) { r.outcome != LostReply }

  /** A produce that reports an error has not taken effect. */
  predicate ClearReplies(x: Happening) {
    match x
    case Took(_, a) => Clear(a.publish) && Clear(a.correct)
    case Timed(_, produce) => Clear(produce)
  }

  predicate Balanced(k: Hash, s: Entry) {
    s.handled == Live(s.w, k) + Tally(s.w.out, k) + s.superseded + s.dropped + s.lost
  }

  // ---------- one record ----------

  lemma ItemIn(k: Hash, cells: Cells, x: Fact)
    ensures x in Items(k, cells) <==> x.hash == k && x.stream in cells && x.payload == cells[x.stream]
  {
    if x.hash == k && x.stream in cells && x.payload == cells[x.stream] {
      assert x == Fact(k, x.stream, cells[x.stream]);
    }
  }

  lemma UpsertItems(k: Hash, cells: Cells, stream: string, payload: Payload)
    ensures multiset(Items(k, cells[stream := payload])) +
      (if stream in cells then multiset{Fact(k, stream, cells[stream])} else multiset{})
      == multiset(Items(k, cells)) + multiset{Fact(k, stream, payload)}
  {
    var more, fact := cells[stream := payload], Fact(k, stream, payload);
    if stream in cells {
      var prior := Fact(k, stream, cells[stream]);
      assert prior in Items(k, cells);
      forall x ensures x in Items(k, more) <==> x in Items(k, cells) - {prior} + {fact} {
        ItemIn(k, more, x);
        ItemIn(k, cells, x);
      }
      assert Items(k, more) == Items(k, cells) - {prior} + {fact};
    } else {
      forall x ensures x in Items(k, more) <==> x in Items(k, cells) + {fact} {
        ItemIn(k, more, x);
        ItemIn(k, cells, x);
      }
      assert Items(k, more) == Items(k, cells) + {fact};
      ItemIn(k, cells, fact);
    }
  }

  lemma TallyPush(out: seq<Sent>, m: Sent, k: Hash)
    ensures Tally(out + [m], k) == Tally(out, k) + if m.hash == k then multiset(Items(k, m.cells)) else multiset{}
  {
    assert (out + [m])[..|out|] == out;
  }

  function Standing(w: World, k: Hash): multiset<Fact> {
    Live(w, k) + Tally(w.out, k)
  }

  lemma AddTally(a: multiset<Fact>, b: multiset<Fact>, c: multiset<Fact>, d: multiset<Fact>, tally: multiset<Fact>)
    requires a + b == c + d
    ensures (a + tally) + b == (c + tally) + d
  {
    forall x ensures ((a + tally) + b)[x] == ((c + tally) + d)[x] { assert (a + b)[x] == (c + d)[x]; }
  }

  /** Writing the cell: the row gains the record and gives up the one it replaces. */
  lemma UpsertBalances(w: World, e: Event)
    ensures Standing(Upsert(w, e), e.hash) + Replaced(w, e) == Standing(w, e.hash) + multiset{FactOf(e)}
  {
    UpsertItems(e.hash, CellsAt(w, e.hash), e.stream, e.payload);
    AddTally(Live(Upsert(w, e), e.hash), Replaced(w, e), Live(w, e.hash), multiset{FactOf(e)}, Tally(w.out, e.hash));
  }

  /** An effect on `k`'s row sends nothing, or sends the row's participants and deletes it. */
  predicate Orderly(x: Effect, k: Hash, cells: Cells) {
    x.sent.Some? ==> x.deleted && x.sent.value.hash == k && x.sent.value.cells == cells
  }

  lemma DecisionOrderly(c: Setup, row: Row, tracked: bool, e: Event, f: Site -> Reply)
    requires c.producer && Clear(f(AtPublish)) && Clear(f(AtCorrect))
    ensures Orderly(Decide(c, row, tracked, e, f), e.hash, row.cells)
  {
  }

  lemma TimingOrderly(c: Setup, w: World, k: Hash, produce: Reply)
    requires c.producer && Clear(produce)
    ensures Orderly(Timing(c, RowAt(w, k), k, produce), k, CellsAt(w, k))
    ensures Unsent(Timing(c, RowAt(w, k), k, produce), Live(w, k)) == DroppedRow(c, w, k)
  {
  }

  lemma EnactOther(c: Setup, w: World, h: Hash, x: Effect, k: Hash)
    requires h != k && (x.sent.Some? ==> x.sent.value.hash == h)
    ensures Standing(Enact(c, w, h, x), k) == Standing(w, k)
  {
    if x.sent.Some? { TallyPush(w.out, x.sent.value, k); }
  }

  /** Under an orderly effect the row stays, moves into one message, or goes unsent. */
  lemma EnactBalances(c: Setup, w: World, k: Hash, x: Effect)
    requires Orderly(x, k, CellsAt(w, k))
    ensures Standing(w, k) == Standing(Enact(c, w, k, x), k) + Unsent(x, Live(w, k))
  {
    if x.sent.Some? { TallyPush(w.out, x.sent.value, k); }
    assert x.deleted ==> Live(Enact(c, w, k, x), k) == multiset{};
  }

  lemma FirstArrivalStanding(c: Setup, w: World, e: Event, f: Site -> Reply, k: Hash)
    ensures Standing(FirstArrival(c, w, e, f), k) == Standing(Upsert(w, e), k)
  {
  }

  /** After the write: the row stays, moves into a message, or is lost. */
  lemma HandledBalances(c: Setup, w: World, e: Event, a: Answers)
    requires c.producer && Clear(a.publish) && Clear(a.correct)
    ensures Standing(Upsert(w, e), e.hash) ==
      Standing(Handled(c, w, e, Replies(a)).0, e.hash) + LostCorrection(c, w, e, a)
  {
    if c.bloom && e.hash !in w.bloom {
      FirstArrivalStanding(c, w, e, Replies(a), e.hash);
    } else {
      var v := Upsert(w, e);
      DecisionOrderly(c, v.rows[e.hash], e.hash in v.tracker, e, Replies(a));
      EnactBalances(c, v, e.hash, Decide(c, v.rows[e.hash], e.hash in v.tracker, e, Replies(a)));
    }
  }

  lemma Rearranged(s: Entry, standing: multiset<Fact>, written: multiset<Fact>, after: multiset<Fact>,
                   fact: multiset<Fact>, replaced: multiset<Fact>, lost: multiset<Fact>)
    requires s.handled == standing + s.superseded + s.dropped + s.lost
    requires written + replaced == standing + fact
    requires written == after + lost
    ensures s.handled + fact == after + (s.superseded + replaced) + s.dropped + (s.lost + lost)
  {
    forall x ensures (s.handled + fact)[x] == (after + (s.superseded + replaced) + s.dropped + (s.lost + lost))[x] {
      assert (written + replaced)[x] == (standing + fact)[x];
    }
  }

  lemma PostRecord(c: Setup, k: Hash, s: Entry, e: Event, a: Answers, w: World, replaced: multiset<Fact>,
      lost: multiset<Fact>)
    requires Balanced(k, s) && e.hash == k
    requires Standing(Upsert(s.w, e), k) + replaced == Standing(s.w, k) + multiset{FactOf(e)}
    requires Standing(Upsert(s.w, e), k) == Standing(w, k) + lost
    ensures Balanced(k, Entry(w, s.handled + multiset{FactOf(e)}, s.superseded + replaced, s.dropped, s.lost + lost))
  {
    Rearranged(s, Standing(s.w, k), Standing(Upsert(s.w, e), k), Standing(w, k), multiset{FactOf(e)}, replaced, lost);
  }

  lemma RecordBalances(c: Setup, k: Hash, s: Entry, e: Event, a: Answers)
    requires c.producer && Clear(a.publish) && Clear(a.correct) && Balanced(k, s) && e.hash == k
    ensures Balanced(k, Posted(c, k, s, Took(e, a)))
  {
    HandledBalances(c, s.w, e, a);
    UpsertBalances(s.w, e);
    PostRecord(c, k, s, e, a, Perform(c, s.w, Record(e, a)), Replaced(s.w, e), LostCorrection(c, s.w, e, a));
  }

  lemma TimeoutBalances(c: Setup, k: Hash, s: Entry, produce: Reply)
    requires c.producer && Clear(produce) && Balanced(k, s)
    ensures Balanced(k, Posted(c, k, s, Timed(k, produce)))
  {
    TimingOrderly(c, s.w, k, produce);
    EnactBalances(c, s.w, k, Timing(c, RowAt(s.w, k), k, produce));
  }

  lemma OwnMessages(c: Setup, row: Row, tracked: bool, e: Event, f: Site -> Reply)
    ensures var x := Decide(c, row, tracked, e, f); x.sent.Some? ==> x.sent.value.hash == e.hash
  {
  }

  lemma OtherRecord(c: Setup, k: Hash, w: World, e: Event, f: Site -> Reply)
    requires e.hash != k
    ensures Standing(Handled(c, w, e, f).0, k) == Standing(w, k)
  {
    var v := Upsert(w, e);
    assert Standing(v, k) == Standing(w, k);
    if c.bloom && e.hash !in w.bloom {
      FirstArrivalStanding(c, w, e, f, k);
    } else {
      OwnMessages(c, v.rows[e.hash], e.hash in v.tracker, e, f);
      EnactOther(c, v, e.hash, Decide(c, v.rows[e.hash], e.hash in v.tracker, e, f), k);
    }
  }

  lemma OtherTimeout(c: Setup, k: Hash, w: World, h: Hash, produce: Reply)
    requires h != k
    ensures Standing(Fired(c, w, h, produce), k) == Standing(w, k)
  {
    EnactOther(c, w, h, Timing(c, RowAt(w, h), h, produce), k);
  }

  lemma PostBalances(c: Setup, k: Hash, s: Entry, x: Happening)
    requires c.producer && ClearReplies(x) && Balanced(k, s)
    ensures Balanced(k, Posted(c, k, s, x))
  {
    match x {
      case Took(e, a) =>
        if e.hash == k { RecordBalances(c, k, s, e, a); } else { OtherRecord(c, k, s.w, e, Replies(a)); }
      case Timed(h, produce) =>
        if h == k { TimeoutBalances(c, k, s, produce); } else { OtherTimeout(c, k, s.w, h, produce); }
    }
  }

  /** The books always balance. */
  lemma {:induction false} Conservation(c: Setup, k: Hash, xs: seq<Happening>)
    requires c.producer && forall x | x in xs :: ClearReplies(x)
    ensures Balanced(k, Books(c, k, xs))
  {
    if xs != [] {
      Conservation(c, k, xs[..|xs| - 1]);
      PostBalances(c, k, Books(c, k, xs[..|xs| - 1]), xs[|xs| - 1]);
    }
  }

  // ---------- what is dropped and lost ----------

  lemma LiveEmptyIff(w: World, k: Hash)
    ensures Live(w, k) == multiset{} <==> CellsAt(w, k) == map[]
  {
    var cells := CellsAt(w, k);
    if cells != map[] {
      var s :| s in cells;
      assert Fact(k, s, cells[s]) in Items(k, cells);
      assert Fact(k, s, cells[s]) in Live(w, k);
    } else {
      assert Items(k, cells) == {};
    }
  }

  /** An incomplete row times out under inner policy. */
  predicate DropsRow(c: Setup, w: World, h: Hash) {
    !c.Partials() && CellsAt(w, h) != map[] && |CellsAt(w, h)| < c.N()
  }

  /** A timeout drops participants if and only if it finds an incomplete row under inner policy. */
  lemma DroppedIff(c: Setup, w: World, h: Hash)
    requires c.producer
    ensures DroppedRow(c, w, h) != multiset{} <==> DropsRow(c, w, h)
  {
    LiveEmptyIff(w, h);
  }

  /** A late record is read back in an incomplete row of a key with a partial, and its correction is refused. */
  predicate LosesRow(c: Setup, w: World, e: Event, a: Answers) {
    && (!c.bloom || e.hash in w.bloom)
    && c.Corrects() && e.hash in w.tracker
    && |CellsAt(Upsert(w, e), e.hash)| < c.N()
    && !a.correct.Took()
  }

  /** Deleting without a message: exactly when a correction is refused. */
  lemma UnsentIff(c: Setup, row: Row, tracked: bool, e: Event, f: Site -> Reply) returns (unsent: bool)
    requires c.producer
    ensures var x := Decide(c, row, tracked, e, f); unsent <==> x.deleted && x.sent.None?
    ensures var refused := c.Corrects() && tracked && |row.cells| < c.N() && !f(AtCorrect).Took();
      (unsent ==> refused) && (refused && Decodes(c.decode, row.cells) ==> unsent)
  {
    var x := Decide(c, row, tracked, e, f);
    unsent := x.deleted && x.sent.None?;
  }

  lemma LostCase(c: Setup, w: World, e: Event, a: Answers, row: Row, unsent: bool)
    requires RowAt(Upsert(w, e), e.hash) == Some(row)
    requires var x := Decide(c, row, e.hash in w.tracker, e, Replies(a)); unsent <==> x.deleted && x.sent.None?
    ensures LostCorrection(c, w, e, a) != multiset{} <==> (!c.bloom || e.hash in w.bloom) && unsent
  {
    var v := Upsert(w, e);
    assert e.stream in CellsAt(v, e.hash);
    LiveEmptyIff(v, e.hash);
  }

  lemma CorrectionTaken(c: Setup, w: World, e: Event, a: Answers)
    requires c.producer && a.correct.Took()
    ensures LostCorrection(c, w, e, a) == multiset{}
  {
  }

  lemma NotCorrected(c: Setup, w: World, e: Event, a: Answers)
    requires c.producer && (!c.Corrects() || e.hash !in w.tracker)
    ensures LostCorrection(c, w, e, a) == multiset{}
  {
  }

  lemma RowFull(c: Setup, w: World, e: Event, a: Answers)
    requires c.producer && |CellsAt(Upsert(w, e), e.hash)| >= c.N()
    ensures LostCorrection(c, w, e, a) == multiset{}
  {
  }

  lemma LostOnlyIf(c: Setup, w: World, e: Event, a: Answers)
    requires c.producer && !LosesRow(c, w, e, a)
    ensures LostCorrection(c, w, e, a) == multiset{}
  {
    if a.correct.Took() { CorrectionTaken(c, w, e, a); }
    else if !c.Corrects() || e.hash !in w.tracker { NotCorrected(c, w, e, a); }
    else if |CellsAt(Upsert(w, e), e.hash)| >= c.N() { RowFull(c, w, e, a); }
  }

  lemma LostIf(c: Setup, w: World, e: Event, a: Answers)
    requires c.producer && LosesRow(c, w, e, a) && Decodes(c.decode, CellsAt(Upsert(w, e), e.hash))
    ensures LostCorrection(c, w, e, a) != multiset{}
  {
    var row := Row(e.raw, CellsAt(Upsert(w, e), e.hash));
    var unsent := UnsentIff(c, row, true, e, Replies(a));
    LostCase(c, w, e, a, row, unsent);
  }

  /** Handling a record loses participants if and only if it makes a correction that is refused. */
  lemma LostIff(c: Setup, w: World, e: Event, a: Answers)
    requires c.producer && Decodes(c.decode, CellsAt(Upsert(w, e), e.hash))
    ensures LostCorrection(c, w, e, a) != multiset{} <==> LosesRow(c, w, e, a)
  {
    if LosesRow(c, w, e, a) { LostIf(c, w, e, a); } else { LostOnlyIf(c, w, e, a); }
  }

  predicate AllDecode(c: Setup, k: Hash, xs: seq<Happening>) {
    forall x | x in xs && x.Took? && x.e.hash == k :: c.decode(x.e.payload).Some?
  }

  lemma EnactDecodes(c: Setup, w: World, h: Hash, x: Effect, k: Hash)
    requires Decodes(c.decode, CellsAt(w, k))
    ensures Decodes(c.decode, CellsAt(Enact(c, w, h, x), k))
  {
  }

  lemma HandledDecodes(c: Setup, w: World, e: Event, f: Site -> Reply, k: Hash)
    requires Decodes(c.decode, CellsAt(w, k)) && (e.hash == k ==> c.decode(e.payload).Some?)
    ensures Decodes(c.decode, CellsAt(Handled(c, w, e, f).0, k)) && Decodes(c.decode, CellsAt(Upsert(w, e), k))
  {
    var v := Upsert(w, e);
    if e.hash == k { assert CellsAt(v, k) == CellsAt(w, k)[e.stream := e.payload]; }
    EnactDecodes(c, v, e.hash, Decide(c, v.rows[e.hash], e.hash in v.tracker, e, f), k);
  }

  lemma PostDecodes(c: Setup, k: Hash, s: Entry, x: Happening)
    requires Decodes(c.decode, CellsAt(s.w, k)) && (x.Took? && x.e.hash == k ==> c.decode(x.e.payload).Some?)
    ensures Decodes(c.decode, CellsAt(Post(c, k, s, x).w, k))
  {
    if Fires(s.w, x) {
      match x {
        case Took(e, a) => HandledDecodes(c, s.w, e, Replies(a), k);
        case Timed(h, produce) => EnactDecodes(c, s.w, h, Timing(c, RowAt(s.w, h), h, produce), k);
      }
    }
  }

  lemma {:induction false} BooksDecode(c: Setup, k: Hash, xs: seq<Happening>)
    requires AllDecode(c, k, xs)
    ensures Decodes(c.decode, CellsAt(Books(c, k, xs).w, k))
  {
    if xs != [] {
      BooksDecode(c, k, xs[..|xs| - 1]);
      PostDecodes(c, k, Books(c, k, xs[..|xs| - 1]), xs[|xs| - 1]);
    }
  }

  /** No timeout of the run drops the key's row. */
  predicate DropFree(c: Setup, k: Hash, xs: seq<Happening>) {
    xs == [] ||
    (var init, x := xs[..|xs| - 1], xs[|xs| - 1];
     DropFree(c, k, init) &&
     !(x.Timed? && x.h == k && k in Books(c, k, init).w.timeouts && DropsRow(c, Books(c, k, init).w, k)))
  }

  /** No record of the run loses the key's row. */
  predicate LossFree(c: Setup, k: Hash, xs: seq<Happening>) {
    xs == [] ||
    (var init, x := xs[..|xs| - 1], xs[|xs| - 1];
     LossFree(c, k, init) && !(x.Took? && x.e.hash == k && LosesRow(c, Books(c, k, init).w, x.e, x.a)))
  }

  lemma PostLoses(c: Setup, k: Hash, s: Entry, x: Happening)
    requires c.producer && Decodes(c.decode, CellsAt(s.w, k))
    requires x.Took? && x.e.hash == k ==> c.decode(x.e.payload).Some?
    ensures Posted(c, k, s, x).dropped == multiset{} <==>
      s.dropped == multiset{} && !(x.Timed? && x.h == k && DropsRow(c, s.w, k))
    ensures Posted(c, k, s, x).lost == multiset{} <==>
      s.lost == multiset{} && !(x.Took? && x.e.hash == k && LosesRow(c, s.w, x.e, x.a))
  {
    match x {
      case Took(e, a) =>
        if e.hash == k {
          HandledDecodes(c, s.w, e, Replies(a), k);
          LostIff(c, s.w, e, a);
        }
      case Timed(h, _) => DroppedIff(c, s.w, h);
    }
  }

  /**
   * State goes unpublished over a run exactly by the two steps above: what was dropped is empty if and only if no
   * incomplete row timed out under inner policy, and what was lost if and only if no correction was refused.
   */
  lemma {:induction false} NothingDroppedIff(c: Setup, k: Hash, xs: seq<Happening>)
    requires c.producer && AllDecode(c, k, xs)
    ensures Books(c, k, xs).dropped == multiset{} <==> DropFree(c, k, xs)
    ensures Books(c, k, xs).lost == multiset{} <==> LossFree(c, k, xs)
  {
    if xs != [] {
      var init, x := xs[..|xs| - 1], xs[|xs| - 1];
      NothingDroppedIff(c, k, init);
      BooksDecode(c, k, init);
      PostLoses(c, k, Books(c, k, init), x);
    }
  }

  lemma AddNothing(m: multiset<Fact>, n: multiset<Fact>)
    requires n == multiset{}
    ensures m + n == m
  {
  }

  lemma TookNothing(c: Setup, k: Hash, s: Entry, e: Event, a: Answers, lost: multiset<Fact>)
    requires lost == LostCorrection(c, s.w, e, a) && lost == multiset{}
    ensures Recorded(c, k, s, Took(e, a)).lost == s.lost
  {
    AddNothing(s.lost, lost);
    assert e.hash == k ==> Recorded(c, k, s, Took(e, a)).lost == s.lost + lost;
  }

  lemma TimedNothing(c: Setup, k: Hash, s: Entry, h: Hash, produce: Reply, dropped: multiset<Fact>)
    requires dropped == DroppedRow(c, s.w, h) && dropped == multiset{}
    ensures Recorded(c, k, s, Timed(h, produce)).dropped == s.dropped
  {
    AddNothing(s.dropped, dropped);
  }

  /** What a step that neither drops nor loses leaves in the books. */
  lemma RecordedKeeps(c: Setup, k: Hash, s: Entry, x: Happening)
    requires c.producer
    ensures !(x.Timed? && DropsRow(c, s.w, x.h)) ==> Recorded(c, k, s, x).dropped == s.dropped
    ensures !(x.Took? && LosesRow(c, s.w, x.e, x.a)) ==> Recorded(c, k, s, x).lost == s.lost
  {
    match x {
      case Took(e, a) =>
        if !LosesRow(c, s.w, e, a) {
          LostOnlyIf(c, s.w, e, a);
          TookNothing(c, k, s, e, a, LostCorrection(c, s.w, e, a));
        }
      case Timed(h, produce) =>
        DroppedIff(c, s.w, h);
        if !DropsRow(c, s.w, h) { TimedNothing(c, k, s, h, produce, DroppedRow(c, s.w, h)); }
    }
  }

  lemma PostKeeps(c: Setup, k: Hash, s: Entry, x: Happening)
    requires c.producer
    ensures !(x.Timed? && x.h in s.w.timeouts && DropsRow(c, s.w, x.h)) ==> Post(c, k, s, x).dropped == s.dropped
    ensures !(x.Took? && LosesRow(c, s.w, x.e, x.a)) ==> Post(c, k, s, x).lost == s.lost
  {
    RecordedKeeps(c, k, s, x);
  }

  /** Under partial egress, with corrections accepted, nothing is dropped and nothing is lost. */
  lemma {:induction false} NothingDropped(c: Setup, k: Hash, xs: seq<Happening>)
    requires c.producer && c.Partials() && forall x | x in xs && x.Took? :: x.a.correct.Took()
    ensures Books(c, k, xs).dropped == multiset{} && Books(c, k, xs).lost == multiset{}
  {
    if xs != [] {
      NothingDropped(c, k, xs[..|xs| - 1]);
      PostKeeps(c, k, Books(c, k, xs[..|xs| - 1]), xs[|xs| - 1]);
    }
  }

  // ---------- which configurations drop or lose ----------

  const FINE := Reply(Done, {}, 0)
  const SMOOTH := Answers(FINE, FINE, {}, 0, 0)

  lemma NotScheduled(c: Setup, w: World, e: Event, f: Site -> Reply)
    requires (!c.bloom || !c.Schedules()) && w.timeouts == map[]
    ensures Handled(c, w, e, f).0.timeouts == map[]
  {
  }

  lemma PerformTimeless(c: Setup, w: World, e: Event, a: Answers)
    requires (!c.bloom || !c.Schedules()) && w.timeouts == map[]
    ensures Perform(c, w, Record(e, a)).timeouts == map[]
  {
    NotScheduled(c, w, e, Replies(a));
  }

  lemma PostWorld(c: Setup, k: Hash, s: Entry, x: Happening)
    ensures Post(c, k, s, x).w == if Fires(s.w, x) then Perform(c, s.w, OpOf(x)) else s.w
  {
  }

  lemma PostTimeless(c: Setup, k: Hash, s: Entry, x: Happening)
    requires (!c.bloom || !c.Schedules()) && s.w.timeouts == map[]
    ensures Post(c, k, s, x).w.timeouts == map[]
  {
    PostWorld(c, k, s, x);
    if x.Took? { PerformTimeless(c, s.w, x.e, x.a); }
  }

  /** Nothing but a first arrival that asks the filter schedules a key. */
  lemma {:induction false} NeverTimed(c: Setup, k: Hash, xs: seq<Happening>)
    requires !c.bloom || !c.Schedules()
    ensures Books(c, k, xs).w.timeouts == map[]
  {
    if xs != [] {
      NeverTimed(c, k, xs[..|xs| - 1]);
      PostTimeless(c, k, Books(c, k, xs[..|xs| - 1]), xs[|xs| - 1]);
    }
  }

  lemma NeverIncomplete(c: Setup, w: World, h: Hash)
    requires c.N() < 2
    ensures !DropsRow(c, w, h)
  {
    if CellsAt(w, h) != map[] { assert |CellsAt(w, h)| >= 1; }
  }

  lemma {:induction false} NeverDrops(c: Setup, k: Hash, xs: seq<Happening>)
    requires c.producer && (c.Partials() || c.N() < 2 || !c.bloom || !c.Schedules())
    ensures Books(c, k, xs).dropped == multiset{}
  {
    if xs != [] {
      var s, x := Books(c, k, xs[..|xs| - 1]), xs[|xs| - 1];
      NeverDrops(c, k, xs[..|xs| - 1]);
      if !c.bloom || !c.Schedules() { NeverTimed(c, k, xs[..|xs| - 1]); }
      if x.Timed? && c.N() < 2 { NeverIncomplete(c, s.w, x.h); }
      PostKeeps(c, k, s, x);
    }
  }

  lemma TookSnoc(c: Setup, k: Hash, xs: seq<Happening>, x: Happening)
    ensures Books(c, k, xs + [x]) == Post(c, k, Books(c, k, xs), x)
  {
    assert (xs + [x])[..|xs|] == xs;
  }

  lemma FirstPerformed(c: Setup, e: Event)
    requires c.N() >= 2
    ensures var w := Perform(c, EMPTY_WORLD, Record(e, SMOOTH));
      && RowAt(w, e.hash) == Some(Row(e.raw, map[e.stream := e.payload]))
      && w.tracker == {} && (c.bloom ==> e.hash in w.bloom) && (c.bloom && c.Schedules() ==> e.hash in w.timeouts)
  {
    var v := Upsert(EMPTY_WORLD, e);
    assert v.rows[e.hash].cells == map[e.stream := e.payload];
    assert Decide(c, v.rows[e.hash], false, e, Replies(SMOOTH)) == Nothing(true);
  }

  /** One record of a key in its row, the key in the filter and scheduled, and nothing on the tracker. */
  lemma FirstTaken(c: Setup, e: Event)
    requires c.N() >= 2
    ensures var w := Books(c, e.hash, [Took(e, SMOOTH)]).w;
      && RowAt(w, e.hash) == Some(Row(e.raw, map[e.stream := e.payload]))
      && w.tracker == {} && (c.bloom ==> e.hash in w.bloom) && (c.bloom && c.Schedules() ==> e.hash in w.timeouts)
  {
    assert [] + [Took(e, SMOOTH)] == [Took(e, SMOOTH)];
    TookSnoc(c, e.hash, [], Took(e, SMOOTH));
    FirstPerformed(c, e);
  }

  /** A record whose row times out under inner policy is dropped. */
  lemma InnerTimeoutDrops(c: Setup, e: Event)
    requires c.producer && !c.Partials() && c.N() >= 2 && c.bloom && c.Schedules()
    ensures Books(c, e.hash, [Took(e, SMOOTH)] + [Timed(e.hash, FINE)]).dropped != multiset{}
  {
    FirstTaken(c, e);
    TookSnoc(c, e.hash, [Took(e, SMOOTH)], Timed(e.hash, FINE));
    DroppedIff(c, Books(c, e.hash, [Took(e, SMOOTH)]).w, e.hash);
  }

  ghost predicate EverDrops(c: Setup) {
    exists k, xs :: Books(c, k, xs).dropped != multiset{}
  }

  /** Timeouts can drop records unpublished exactly under inner policy, with two streams or more, where scheduled. */
  lemma EverDropsIff(c: Setup, e: Event)
    requires c.producer
    ensures EverDrops(c) <==> !c.Partials() && c.N() >= 2 && c.bloom && c.Schedules()
  {
    if EverDrops(c) {
      var k, xs :| Books(c, k, xs).dropped != multiset{};
      if c.Partials() || c.N() < 2 || !c.bloom || !c.Schedules() { NeverDrops(c, k, xs); }
    }
    if !c.Partials() && c.N() >= 2 && c.bloom && c.Schedules() { InnerTimeoutDrops(c, e); }
  }

  lemma NoTracking(c: Setup, row: Row, e: Event, f: Site -> Reply, timed: Option<Row>, h: Hash, produce: Reply)
    ensures Decide(c, row, false, e, f).tracked == None
    ensures !c.Partials() ==> Timing(c, timed, h, produce).tracked == None
  {
  }

  lemma EnactUntracked(c: Setup, w: World, h: Hash, x: Effect)
    requires w.tracker == {} && x.tracked == None
    ensures Enact(c, w, h, x).tracker == {}
  {
  }

  lemma RecordUntracked(c: Setup, w: World, e: Event, f: Site -> Reply)
    requires w.tracker == {}
    ensures Handled(c, w, e, f).0.tracker == {}
  {
    var v := Upsert(w, e);
    NoTracking(c, v.rows[e.hash], e, f, None, [], FINE);
    EnactUntracked(c, v, e.hash, Decide(c, v.rows[e.hash], false, e, f));
  }

  lemma UntrackedStays(c: Setup, w: World, x: Happening)
    requires w.tracker == {} && (x.Timed? ==> !c.Partials())
    ensures Perform(c, w, OpOf(x)).tracker == {}
  {
    match x {
      case Took(e, a) => RecordUntracked(c, w, e, Replies(a));
      case Timed(h, produce) =>
        NoTracking(c, Row("", map[]), Event([], "", "", [], []), Replies(SMOOTH), RowAt(w, h), h, produce);
        EnactUntracked(c, w, h, Timing(c, RowAt(w, h), h, produce));
    }
  }

  lemma PostUntracked(c: Setup, k: Hash, s: Entry, x: Happening)
    requires s.w.tracker == {} && (x.Timed? && x.h in s.w.timeouts ==> !c.Partials())
    ensures Post(c, k, s, x).w.tracker == {}
  {
    if Fires(s.w, x) { UntrackedStays(c, s.w, x); }
  }

  lemma {:induction false} NeverTracked(c: Setup, k: Hash, xs: seq<Happening>)
    requires !c.Partials() || !c.bloom || !c.Schedules()
    ensures Books(c, k, xs).w.tracker == {}
  {
    if xs != [] {
      NeverTracked(c, k, xs[..|xs| - 1]);
      if c.Partials() { NeverTimed(c, k, xs[..|xs| - 1]); }
      PostUntracked(c, k, Books(c, k, xs[..|xs| - 1]), xs[|xs| - 1]);
    }
  }

  lemma WrittenRow(c: Setup, w: World, e: Event)
    ensures |CellsAt(Upsert(w, e), e.hash)| >= 1
  {
    assert e.stream in CellsAt(Upsert(w, e), e.hash);
  }

  lemma {:induction false} NeverLoses(c: Setup, k: Hash, xs: seq<Happening>)
    requires c.producer && (!c.Partials() || !c.Corrects() || c.N() < 2 || !c.bloom || !c.Schedules())
    ensures Books(c, k, xs).lost == multiset{}
  {
    if xs != [] {
      var s, x := Books(c, k, xs[..|xs| - 1]), xs[|xs| - 1];
      NeverLoses(c, k, xs[..|xs| - 1]);
      if !c.Partials() || !c.bloom || !c.Schedules() { NeverTracked(c, k, xs[..|xs| - 1]); }
      if x.Took? { WrittenRow(c, s.w, x.e); }
      PostKeeps(c, k, s, x);
    }
  }

  /** After its timeout under partial policy the key is on the tracker and its row is gone. */
  lemma PartialTimedOut(c: Setup, w: World, e: Event)
    requires c.producer && c.Partials() && c.tracker && c.N() >= 2 && c.decode(e.payload).Some?
    requires RowAt(w, e.hash) == Some(Row(e.raw, map[e.stream := e.payload]))
    ensures var v := Fired(c, w, e.hash, FINE); e.hash !in v.rows && e.hash in v.tracker && v.bloom == w.bloom
  {
    assert c.Doc(w.rows[e.hash].cells).Some?;
  }

  lemma LateRefused(c: Setup, w: World, e: Event, a: Answers)
    requires c.producer && c.Corrects() && c.N() >= 2 && c.decode(e.payload).Some? && a.correct.outcome == Refused
    requires e.hash !in w.rows && e.hash in w.tracker && (c.bloom ==> e.hash in w.bloom)
    ensures LostCorrection(c, w, e, a) != multiset{}
  {
    assert CellsAt(Upsert(w, e), e.hash) == map[e.stream := e.payload];
    LostIf(c, w, e, a);
  }

  lemma LostAfter(c: Setup, xs: seq<Happening>, e: Event, a: Answers)
    requires LostCorrection(c, Books(c, e.hash, xs).w, e, a) != multiset{}
    ensures Books(c, e.hash, xs + [Took(e, a)]).lost != multiset{}
  {
    TookSnoc(c, e.hash, xs, Took(e, a));
  }

  lemma TimedAfter(c: Setup, k: Hash, xs: seq<Happening>, h: Hash)
    requires h in Books(c, k, xs).w.timeouts
    ensures Books(c, k, xs + [Timed(h, FINE)]).w == Fired(c, Books(c, k, xs).w, h, FINE)
  {
    TookSnoc(c, k, xs, Timed(h, FINE));
  }

  lemma TimedOut(c: Setup, e: Event)
    requires c.producer && c.Partials() && c.tracker && c.N() >= 2 && c.decode(e.payload).Some?
    requires c.bloom && c.Schedules()
    ensures var w := Books(c, e.hash, [Took(e, SMOOTH)] + [Timed(e.hash, FINE)]).w;
      e.hash !in w.rows && e.hash in w.tracker && (c.bloom ==> e.hash in w.bloom)
  {
    FirstTaken(c, e);
    PartialTimedOut(c, Books(c, e.hash, [Took(e, SMOOTH)]).w, e);
    TimedAfter(c, e.hash, [Took(e, SMOOTH)], e.hash);
  }

  predicate Losing(c: Setup, k: Hash, xs: seq<Happening>) {
    Books(c, k, xs).lost != multiset{}
  }

  /** A record that comes after the timeout and whose correction is refused is lost. */
  lemma RefusedCorrectionLoses(c: Setup, e: Event) returns (xs: seq<Happening>)
    requires c.producer && c.Partials() && c.Corrects() && c.N() >= 2 && c.decode(e.payload).Some?
    requires c.bloom && c.Schedules()
    ensures Losing(c, e.hash, xs)
  {
    var two, refused := [Took(e, SMOOTH)] + [Timed(e.hash, FINE)], SMOOTH.(correct := Reply(Refused, {}, 0));
    TimedOut(c, e);
    LateRefused(c, Books(c, e.hash, two).w, e, refused);
    LostAfter(c, two, e, refused);
    xs := two + [Took(e, refused)];
  }

  ghost predicate EverLoses(c: Setup) {
    exists k, xs :: Losing(c, k, xs)
  }

  /** Late arrivals can lose records exactly where corrections are made and timeouts scheduled, from two streams on. */
  lemma EverLosesIff(c: Setup, e: Event)
    requires c.producer && c.decode(e.payload).Some?
    ensures EverLoses(c) <==> c.Partials() && c.Corrects() && c.N() >= 2 && c.bloom && c.Schedules()
  {
    if EverLoses(c) {
      var k, xs :| Losing(c, k, xs);
      if !c.Partials() || !c.Corrects() || c.N() < 2 || !c.bloom || !c.Schedules() { NeverLoses(c, k, xs); }
    }
    if c.Partials() && c.Corrects() && c.N() >= 2 && c.bloom && c.Schedules() {
      var xs := RefusedCorrectionLoses(c, e);
    }
  }

  // ---------- how many joins ----------

  function Joins(out: seq<Sent>, k: Hash): nat {
    if out == [] then 0 else
    Joins(out[..|out| - 1], k) + if out[|out| - 1].kind == Main && out[|out| - 1].hash == k then 1 else 0
  }

  predicate JoinsFull(c: Setup, out: seq<Sent>) {
    forall m | m in out && m.kind == Main :: |m.cells| >= c.N()
  }

  lemma {:induction false} ItemsCount(k: Hash, cells: Cells)
    ensures |multiset(Items(k, cells))| == |cells|
    decreases |cells|
  {
    if cells != map[] {
      var s :| s in cells;
      var rest := cells - {s};
      ItemsCount(k, rest);
      assert cells.Keys == rest.Keys + {s};
      assert Items(k, cells) == Items(k, rest) + {Fact(k, s, cells[s])};
    } else {
      assert Items(k, cells) == {};
    }
  }

  lemma MulStep(n: nat, j: nat)
    ensures n * (j + 1) == n * j + n
  {
  }

  lemma {:induction false} JoinsBound(c: Setup, out: seq<Sent>, k: Hash)
    requires JoinsFull(c, out)
    ensures c.N() * Joins(out, k) <= |Tally(out, k)|
  {
    if out != [] {
      var init, m := out[..|out| - 1], out[|out| - 1];
      JoinsBound(c, init, k);
      ItemsCount(k, m.cells);
      assert |Tally(out, k)| == |Tally(init, k)| + if m.hash == k then |m.cells| else 0;
      MulStep(c.N(), Joins(init, k));
    }
  }

  predicate FullWhenJoined(c: Setup, x: Effect) {
    x.sent.Some? && x.sent.value.kind == Main ==> |x.sent.value.cells| >= c.N()
  }

  lemma EnactFull(c: Setup, w: World, h: Hash, x: Effect)
    requires JoinsFull(c, w.out) && FullWhenJoined(c, x)
    ensures JoinsFull(c, Enact(c, w, h, x).out)
  {
  }

  lemma DecisionFull(c: Setup, row: Row, tracked: bool, e: Event, f: Site -> Reply)
    ensures FullWhenJoined(c, Decide(c, row, tracked, e, f))
  {
  }

  lemma HandledFull(c: Setup, w: World, e: Event, f: Site -> Reply)
    requires JoinsFull(c, w.out)
    ensures JoinsFull(c, Handled(c, w, e, f).0.out)
  {
    var v := Upsert(w, e);
    DecisionFull(c, v.rows[e.hash], e.hash in v.tracker, e, f);
    EnactFull(c, v, e.hash, Decide(c, v.rows[e.hash], e.hash in v.tracker, e, f));
  }

  lemma PerformJoinsFull(c: Setup, w: World, op: Op)
    requires JoinsFull(c, w.out) && (op.Record? || op.Timeout?)
    ensures JoinsFull(c, Perform(c, w, op).out)
  {
    match op {
      case Record(e, a) => HandledFull(c, w, e, Replies(a));
      case Timeout(h, produce) => EnactFull(c, w, h, Timing(c, RowAt(w, h), h, produce));
    }
  }

  lemma {:induction false} BooksJoinsFull(c: Setup, k: Hash, xs: seq<Happening>)
    ensures JoinsFull(c, Books(c, k, xs).w.out)
  {
    if xs != [] {
      var init := xs[..|xs| - 1];
      BooksJoinsFull(c, k, init);
      var w := Books(c, k, init).w;
      PerformJoinsFull(c, w, OpOf(xs[|xs| - 1]));
    }
  }

  /** Each full join accounts for N handled records, and the row for the rest it holds. */
  lemma HandledBound(c: Setup, k: Hash, xs: seq<Happening>)
    requires c.producer && forall x | x in xs :: ClearReplies(x)
    ensures var s := Books(c, k, xs); c.N() * Joins(s.w.out, k) + |CellsAt(s.w, k)| <= |s.handled|
  {
    Conservation(c, k, xs);
    BooksJoinsFull(c, k, xs);
    var s := Books(c, k, xs);
    JoinsBound(c, s.w.out, k);
    ItemsCount(k, CellsAt(s.w, k));
  }
}
