/**
 * Where a key's records go when joins settle in memory before they are published. The row outlives the scheduling of
 * its join, so duplicates schedule it again; each flush that is accepted deletes whatever row it finds, and each one
 * that is refused drops the join. Records are told apart by the turn that wrote them. Every handled record is in the
 * row, in a pending or published join, superseded, or lost; and an accepted flush loses records if and only if it finds
 * a row that is no pending and no published join.
 */
module SettleLedger {
  import opened Base
  import opened Projection
  import opened Protocol
  import opened Provenance
  import opened Atomic
  import opened Ledger

  /** A record handled with nothing failing, its join due at `at`; or a pending join flushed. */
  datatype Turn = Take(e: Event, at: int) | Flushed(item: Item, produce: Reply)

  function OpFor(t: Turn): Op {
    match t
    case Take(e, at) => Record(e, Answers(FINE, FINE, {}, 0, at))
    case Flushed(item, produce) => Settle(item, produce)
  }

  /** In memory, without the filter, and with a producer. */
  predicate Settles(c: Setup) {
    c.N() >= 1 && c.Delays() && !c.durable && !c.bloom && c.producer
  }

  predicate Own(c: Setup, k: Hash, t: Turn) {
    match t
    case Take(e, _) => e.hash == k && c.decode(e.payload).Some?
    case Flushed(item, _) => item.hash == k
  }

  /** For each participant of a row or join, the turn that wrote it. */
  type Marks = map<string, nat>

  /**
   * The marks of a key's row, the latest among them, those of its pending and its published joins, and the turn that
   * last deleted the row.
   */
  datatype Book = Book(
    last: nat,
    cleared: nat,
    row: Marks,
    pending: seq<Marks>,
    sent: seq<Marks>,
    superseded: set<nat>,
    lost: set<nat>)

  datatype Tab = Tab(w: World, b: Book)

  const BLANK := Book(0, 0, map[], [], [], {}, {})

  function Marked(joins: seq<Marks>): set<nat> {
    if joins == [] then {} else Marked(joins[..|joins| - 1]) + joins[|joins| - 1].Values
  }

  /** The records that are in the row or in a join. */
  function Held(b: Book): set<nat> {
    b.row.Values + Marked(b.pending) + Marked(b.sent)
  }

  /** The row is itself a join, pending or published. */
  predicate RowJoined(b: Book) {
    b.row in b.pending || b.row in b.sent
  }

  /** The place of an item in the queue, its length if it is not there. */
  function IndexOf(queue: seq<Item>, item: Item): nat {
    if queue == [] || queue[0] == item then 0 else IndexOf(queue[1..], item) + 1
  }

  function Cut<T>(s: seq<T>, i: nat): seq<T> {
    if i < |s| then s[..i] + s[i + 1..] else s
  }

  /** Turn `n` writes a record of this stream, and schedules a join if the row then has `size` participants. */
  function TakeMarks(size: nat, b: Book, stream: string, n: nat): Book {
    var row := b.row[stream := n];
    b.(last := n,
       row := row,
       pending := if |row| < size then b.pending else b.pending + [row],
       superseded := b.superseded + if stream in b.row then {b.row[stream]} else {})
  }

  /** Turn `n` flushes the pending join `i`; what was held before and is not after is lost, unless superseded. */
  function FlushMarks(b: Book, i: nat, produce: Reply, n: nat): Book {
    if i >= |b.pending| then b else
    var next := b.(
      cleared := if produce.Fine() then n else b.cleared,
      row := if produce.Fine() then map[] else b.row,
      pending := Cut(b.pending, i),
      sent := if produce.Took() then b.sent + [b.pending[i]] else b.sent);
    next.(lost := b.lost + (Held(b) - Held(next) - b.superseded))
  }

  function PostMarks(size: nat, queue: seq<Item>, b: Book, t: Turn, n: nat): Book {
    match t
    case Take(e, _) => TakeMarks(size, b, e.stream, n)
    case Flushed(item, produce) => FlushMarks(b, IndexOf(queue, item), produce, n)
  }

  function Post(c: Setup, s: Tab, t: Turn, n: nat): Tab {
    Tab(Perform(c, s.w, OpFor(t)), PostMarks(c.N(), s.w.queue, s.b, t, n))
  }

  function Tabs(c: Setup, turns: seq<Turn>): Tab {
    if turns == [] then Tab(EMPTY_WORLD, BLANK) else
    Post(c, Tabs(c, turns[..|turns| - 1]), turns[|turns| - 1], |turns| - 1)
  }

  // ---------- marks tell the truth ----------

  /** The participants are the records the marked turns handled. */
  predicate Shows(turns: seq<Turn>, cells: Cells, marks: Marks) {
    && cells.Keys == marks.Keys
    && forall st | st in cells ::
         && marks[st] < |turns| && turns[marks[st]].Take?
         && turns[marks[st]].e.stream == st && turns[marks[st]].e.payload == cells[st]
  }

  predicate ShowsAll(turns: seq<Turn>, joins: seq<Cells>, marks: seq<Marks>) {
    |joins| == |marks| && forall i | 0 <= i < |joins| :: Shows(turns, joins[i], marks[i])
  }

  function Queued(queue: seq<Item>): seq<Cells> {
    seq(|queue|, i requires 0 <= i < |queue| => queue[i].cells)
  }

  function Published(out: seq<Sent>): seq<Cells> {
    seq(|out|, i requires 0 <= i < |out| => out[i].cells)
  }

  predicate Truthful(turns: seq<Turn>, k: Hash, s: Tab) {
    && Shows(turns, CellsAt(s.w, k), s.b.row)
    && ShowsAll(turns, Queued(s.w.queue), s.b.pending)
    && ShowsAll(turns, Published(s.w.out), s.b.sent)
  }

  lemma ShowsMore(turns: seq<Turn>, t: Turn, cells: Cells, marks: Marks)
    requires Shows(turns, cells, marks)
    ensures Shows(turns + [t], cells, marks)
  {
  }

  lemma ShowsAllMore(turns: seq<Turn>, t: Turn, joins: seq<Cells>, marks: seq<Marks>)
    requires ShowsAll(turns, joins, marks)
    ensures ShowsAll(turns + [t], joins, marks)
  {
    forall i | 0 <= i < |joins| ensures Shows(turns + [t], joins[i], marks[i]) {
      ShowsMore(turns, t, joins[i], marks[i]);
    }
  }

  lemma ShowsAllSnoc(turns: seq<Turn>, joins: seq<Cells>, marks: seq<Marks>, cells: Cells, join: Marks)
    requires ShowsAll(turns, joins, marks) && Shows(turns, cells, join)
    ensures ShowsAll(turns, joins + [cells], marks + [join])
  {
  }

  lemma UpsertShows(turns: seq<Turn>, e: Event, at: int, cells: Cells, marks: Marks)
    requires Shows(turns, cells, marks)
    ensures Shows(turns + [Take(e, at)], cells[e.stream := e.payload], marks[e.stream := |turns|])
    ensures |cells[e.stream := e.payload]| == |marks[e.stream := |turns|]|
  {
    var more, marked := cells[e.stream := e.payload], marks[e.stream := |turns|];
    assert more.Keys == marked.Keys;
    assert |more| == |more.Keys| && |marked| == |marked.Keys|;
  }

  lemma QueuedSnoc(queue: seq<Item>, item: Item)
    ensures Queued(queue + [item]) == Queued(queue) + [item.cells]
  {
  }

  lemma PublishedSnoc(out: seq<Sent>, m: Sent)
    ensures Published(out + [m]) == Published(out) + [m.cells]
  {
  }

  // ---------- what the books keep ----------

  /** A join is the row, or does not have the row's latest record. */
  predicate Apart(b: Book, join: Marks) {
    join == b.row || b.row == map[] || b.last !in join.Values
  }

  predicate AllApart(size: nat, b: Book, joins: seq<Marks>) {
    forall j | j in joins :: Apart(b, j) && |j| >= size
  }

  /** Of records before turn `n`, what is lost is neither held nor superseded. */
  predicate Dated(b: Book, n: nat) {
    && (forall x | x in Held(b) :: x < n) && (forall x | x in b.superseded :: x < n)
    && (forall x | x in b.lost :: x < n && x !in Held(b) && x !in b.superseded)
  }

  /** After `n` turns. */
  predicate Sound(size: nat, b: Book, n: nat) {
    && (b.row != map[] ==> b.last in b.row.Values)
    && Dated(b, n)
    && AllApart(size, b, b.pending) && AllApart(size, b, b.sent)
  }

  lemma {:induction false} MarkedIn(joins: seq<Marks>, x: nat)
    ensures x in Marked(joins) <==> exists j :: j in joins && x in j.Values
  {
    if joins != [] {
      var init, last := joins[..|joins| - 1], joins[|joins| - 1];
      MarkedIn(init, x);
      assert joins == init + [last];
    }
  }

  lemma MarkedSnoc(joins: seq<Marks>, j: Marks)
    ensures Marked(joins + [j]) == Marked(joins) + j.Values
  {
    assert (joins + [j])[..|joins|] == joins;
  }

  lemma RowValues(row: Marks, st: string, n: nat)
    ensures row[st := n].Values <= row.Values + {n} && n in row[st := n].Values
    ensures row.Values <= row[st := n].Values + if st in row then {row[st]} else {}
  {
    var more := row[st := n];
    assert more[st] == n;
    forall x | x in more.Values ensures x in row.Values + {n} {
      var o :| o in more && more[o] == x;
      if o != st { assert row[o] == x; }
    }
    forall x | x in row.Values ensures x in more.Values + if st in row then {row[st]} else {} {
      var o :| o in row && row[o] == x;
      if o != st { assert more[o] == x; }
    }
  }

  /** The new record is held, and what was held is, unless the record supersedes it. */
  lemma TakeHolds(size: nat, b: Book, st: string, n: nat)
    ensures var v := TakeMarks(size, b, st, n);
      n in Held(v) && Held(b) <= Held(v) + v.superseded && Held(v) <= Held(b) + {n}
  {
    var row := b.row[st := n];
    RowValues(b.row, st, n);
    MarkedSnoc(b.pending, row);
  }

  lemma JoinsOlder(joins: seq<Marks>, n: nat)
    requires forall x | x in Marked(joins) :: x < n
    ensures forall j | j in joins :: n !in j.Values
  {
    forall j | j in joins ensures n !in j.Values { MarkedIn(joins, n); }
  }

  /** What was joined before does not have the new record. */
  lemma TakeApart(size: nat, b: Book, st: string, n: nat)
    requires AllApart(size, b, b.pending) && AllApart(size, b, b.sent)
    requires (forall j | j in b.pending :: n !in j.Values) && (forall j | j in b.sent :: n !in j.Values)
    ensures var v := TakeMarks(size, b, st, n); AllApart(size, v, v.pending) && AllApart(size, v, v.sent)
  {
    var v := TakeMarks(size, b, st, n);
    forall j | j in v.pending ensures Apart(v, j) && |j| >= size {
      if j != v.row { assert j in b.pending; }
    }
  }

  lemma TakeDated(size: nat, b: Book, st: string, n: nat)
    requires Dated(b, n)
    ensures Dated(TakeMarks(size, b, st, n), n + 1)
  {
    TakeHolds(size, b, st, n);
    if st in b.row { assert b.row[st] in Held(b); }
  }

  lemma TakeSound(size: nat, b: Book, st: string, n: nat)
    requires Sound(size, b, n)
    ensures Sound(size, TakeMarks(size, b, st, n), n + 1)
  {
    assert forall j | j in b.pending || j in b.sent :: n !in j.Values by {
      assert Marked(b.pending) <= Held(b) && Marked(b.sent) <= Held(b);
      JoinsOlder(b.pending, n);
      JoinsOlder(b.sent, n);
    }
    TakeApart(size, b, st, n);
    TakeDated(size, b, st, n);
    RowValues(b.row, st, n);
  }

  // ---------- joins of one row ----------

  /** The marks of the row at some time: those it has now, or those a join was made from. */
  predicate IsSnapshot(b: Book, a: Marks) {
    a == b.row || a in b.pending || a in b.sent
  }

  /** If `d` has record `y` of `a`, it has every older one of `a` that nothing superseded. */
  predicate Nested(superseded: set<nat>, a: Marks, d: Marks) {
    forall x, y | x in a.Values && y in a.Values && y in d.Values && x <= y && x !in superseded :: x in d.Values
  }

  /** The row has only records written since its last deletion, and none that is superseded. */
  predicate RowCurrent(b: Book) {
    && (forall s, t | s in b.row && t in b.row && s != t :: b.row[s] != b.row[t])
    && (forall x | x in b.row.Values :: x >= b.cleared && x !in b.superseded)
  }

  /** And of the records written since, it has all that are in some join and not superseded. */
  predicate RowHas(b: Book, j: Marks) {
    forall x | x in j.Values && x >= b.cleared && x !in b.superseded :: x in b.row.Values
  }

  ghost predicate Woven(b: Book) {
    && RowCurrent(b)
    && (forall j | IsSnapshot(b, j) :: RowHas(b, j))
    && (forall a, d | IsSnapshot(b, a) && IsSnapshot(b, d) :: Nested(b.superseded, a, d))
  }

  lemma SnapshotHeld(b: Book, a: Marks, x: nat)
    requires IsSnapshot(b, a) && x in a.Values
    ensures x in Held(b)
  {
    if a in b.pending { MarkedIn(b.pending, x); }
    if a in b.sent { MarkedIn(b.sent, x); }
  }

  lemma TakeSnapshots(size: nat, b: Book, st: string, n: nat, a: Marks)
    requires IsSnapshot(TakeMarks(size, b, st, n), a)
    ensures a == b.row[st := n] || a in b.pending || a in b.sent
  {
  }

  /** The new row has the new record, and of the old row what the record does not supersede. */
  lemma RowAfter(b: Book, st: string, n: nat, x: nat)
    requires RowCurrent(b) && x != n
    ensures x in b.row[st := n].Values <==> x in b.row.Values && !(st in b.row && b.row[st] == x)
  {
    var more := b.row[st := n];
    if x in more.Values {
      var o :| o in more && more[o] == x;
      assert b.row[o] == x;
    }
    if x in b.row.Values && !(st in b.row && b.row[st] == x) {
      var o :| o in b.row && b.row[o] == x;
      assert more[o] == x;
    }
  }

  lemma TakeCurrent(size: nat, b: Book, st: string, n: nat)
    requires RowCurrent(b) && Dated(b, n) && b.cleared <= n
    ensures RowCurrent(TakeMarks(size, b, st, n))
  {
    var v := TakeMarks(size, b, st, n);
    forall s | s in b.row ensures b.row[s] != n { assert b.row[s] in Held(b); }
    forall x | x in v.row.Values ensures x >= v.cleared && x !in v.superseded {
      if x != n { RowAfter(b, st, n, x); }
    }
  }

  lemma TakeHas(size: nat, b: Book, st: string, n: nat, j: Marks)
    requires RowCurrent(b) && RowHas(b, j) && forall x | x in j.Values :: x < n
    ensures RowHas(TakeMarks(size, b, st, n), j)
  {
    var v := TakeMarks(size, b, st, n);
    forall x | x in j.Values && x >= v.cleared && x !in v.superseded ensures x in v.row.Values {
      RowAfter(b, st, n, x);
    }
  }

  /** The snapshot from which a record makes this one. */
  function Was(b: Book, st: string, n: nat, a: Marks): Marks {
    if a == b.row[st := n] then b.row else a
  }

  lemma WasHas(b: Book, st: string, n: nat, a: Marks, x: nat)
    requires RowCurrent(b) && IsSnapshot(b, Was(b, st, n, a)) && Dated(b, n) && x in a.Values
    ensures x <= n && (x == n ==> a == b.row[st := n]) && (x != n ==> x in Was(b, st, n, a).Values)
  {
    if a == b.row[st := n] {
      if x != n {
        RowAfter(b, st, n, x);
        assert x in Held(b);
      }
    } else {
      SnapshotHeld(b, a, x);
    }
  }

  lemma WasHad(b: Book, st: string, n: nat, d: Marks, x: nat)
    requires RowCurrent(b) && x in Was(b, st, n, d).Values && x < n && (st in b.row ==> b.row[st] != x)
    ensures x in d.Values
  {
    RowAfter(b, st, n, x);
  }

  lemma TakeNested(size: nat, b: Book, st: string, n: nat, a: Marks, d: Marks)
    requires RowCurrent(b) && Dated(b, n) && IsSnapshot(b, Was(b, st, n, a)) && IsSnapshot(b, Was(b, st, n, d))
    requires Nested(b.superseded, Was(b, st, n, a), Was(b, st, n, d))
    ensures Nested(TakeMarks(size, b, st, n).superseded, a, d)
  {
    forall x, y | x in a.Values && y in a.Values && y in d.Values && x <= y
        && x !in TakeMarks(size, b, st, n).superseded
      ensures x in d.Values
    {
      WasHas(b, st, n, a, x);
      WasHas(b, st, n, a, y);
      WasHas(b, st, n, d, y);
      if y < n { WasHad(b, st, n, d, x); }
    }
  }

  lemma TakeWoven(size: nat, b: Book, st: string, n: nat)
    requires Woven(b) && Dated(b, n) && b.cleared <= n
    ensures Woven(TakeMarks(size, b, st, n))
  {
    var v := TakeMarks(size, b, st, n);
    TakeCurrent(size, b, st, n);
    forall j: Marks | IsSnapshot(v, j) ensures RowHas(v, j) {
      TakeSnapshots(size, b, st, n, j);
      if j != v.row {
        forall x | x in j.Values ensures x < n { SnapshotHeld(b, j, x); }
        TakeHas(size, b, st, n, j);
      }
    }
    forall a: Marks, d: Marks | IsSnapshot(v, a) && IsSnapshot(v, d) ensures Nested(v.superseded, a, d) {
      TakeSnapshots(size, b, st, n, a);
      TakeSnapshots(size, b, st, n, d);
      assert IsSnapshot(b, Was(b, st, n, a)) && IsSnapshot(b, Was(b, st, n, d));
      TakeNested(size, b, st, n, a, d);
    }
  }

  // ---------- a flush of the books ----------

  lemma CutIn<T>(s: seq<T>, i: nat)
    requires i < |s|
    ensures forall x :: x in s <==> x in Cut(s, i) || x == s[i]
  {
    forall x | x in s ensures x in Cut(s, i) || x == s[i] {
      var j :| 0 <= j < |s| && s[j] == x;
      if j < i { assert Cut(s, i)[j] == x; } else if j > i { assert Cut(s, i)[j - 1] == x; }
    }
  }

  lemma {:induction false} MarkedCut(joins: seq<Marks>, i: nat)
    requires i < |joins|
    ensures Marked(joins) == Marked(Cut(joins, i)) + joins[i].Values
  {
    forall x ensures x in Marked(joins) <==> x in Marked(Cut(joins, i)) + joins[i].Values {
      MarkedIn(joins, x);
      MarkedIn(Cut(joins, i), x);
      CutIn(joins, i);
    }
  }

  /** What is held after the flush of join `i`. */
  lemma FlushHolds(b: Book, i: nat, produce: Reply, n: nat)
    requires i < |b.pending|
    ensures var v := FlushMarks(b, i, produce, n);
      && Held(v) <= Held(b)
      && Held(b) - Held(v) ==
           if produce.Fine() then b.row.Values - Marked(b.pending) - Marked(b.sent)
           else if produce.Took() then {}
           else b.pending[i].Values - b.row.Values - Marked(Cut(b.pending, i)) - Marked(b.sent)
  {
    MarkedCut(b.pending, i);
    MarkedSnoc(b.sent, b.pending[i]);
  }

  lemma FlushSound(size: nat, b: Book, i: nat, produce: Reply, n: nat)
    requires Sound(size, b, n)
    ensures Sound(size, FlushMarks(b, i, produce, n), n + 1)
  {
    if i < |b.pending| {
      FlushHolds(b, i, produce, n);
      CutIn(b.pending, i);
    }
  }

  /** What was a snapshot stays one, but for the row that is deleted and the join that is dropped. */
  lemma FlushWoven(b: Book, i: nat, produce: Reply, n: nat)
    requires Woven(b) && Dated(b, n)
    ensures Woven(FlushMarks(b, i, produce, n))
  {
    if i < |b.pending| {
      var v := FlushMarks(b, i, produce, n);
      CutIn(b.pending, i);
      forall j: Marks | IsSnapshot(v, j) ensures RowHas(v, j) && (j == map[] || IsSnapshot(b, j)) {
        assert j == map[] || IsSnapshot(b, j);
        forall x | x in j.Values && produce.Fine() ensures x < n { SnapshotHeld(b, j, x); }
      }
    }
  }

  /** A row is taken away with records that are in no join if and only if it is no join itself. */
  lemma RowLosesIff(size: nat, b: Book, n: nat)
    requires Sound(size, b, n) && Woven(b)
    ensures b.row.Values - Marked(b.pending) - Marked(b.sent) != {} <==> b.row != map[] && !RowJoined(b)
    ensures b.row.Values - Marked(b.pending) - Marked(b.sent) - b.superseded ==
      b.row.Values - Marked(b.pending) - Marked(b.sent)
  {
    if b.row != map[] && !RowJoined(b) {
      MarkedIn(b.pending, b.last);
      MarkedIn(b.sent, b.last);
      assert b.last in b.row.Values - Marked(b.pending) - Marked(b.sent);
    } else {
      forall x | x in b.row.Values ensures x in Marked(b.pending) + Marked(b.sent) {
        MarkedIn(b.pending, x);
        MarkedIn(b.sent, x);
      }
    }
  }

  // ---------- a record in the world ----------

  function ItemFor(c: Setup, w: World, e: Event, at: int): Item
    requires Decodes(c.decode, CellsAt(Upsert(w, e), e.hash))
  {
    var cells := CellsAt(Upsert(w, e), e.hash);
    JoinItem(c, e, cells, c.Doc(cells).value, at)
  }

  lemma TakeDecides(c: Setup, row: Row, e: Event, f: Site -> Reply)
    requires Settles(c) && Decodes(c.decode, row.cells)
    ensures Decide(c, row, false, e, f) ==
      if |row.cells| < c.N() then Nothing(true)
      else (var item := JoinItem(c, e, row.cells, c.Doc(row.cells).value, f(AtEnqueue).at);
            Effect(None, false, None, false, Some(item), true))
  {
  }

  lemma UpsertCells(w: World, e: Event)
    ensures CellsAt(Upsert(w, e), e.hash) == CellsAt(w, e.hash)[e.stream := e.payload]
  {
  }

  lemma PlainRecord(c: Setup, w: World, e: Event, a: Answers)
    requires !c.bloom && w.tracker == {}
    ensures var u := Upsert(w, e);
      Perform(c, w, Record(e, a)) == Enact(c, u, e.hash, Decide(c, u.rows[e.hash], false, e, Replies(a)))
  {
  }

  lemma Enacted(c: Setup, u: World, h: Hash, item: Item)
    requires !c.durable
    ensures Enact(c, u, h, Nothing(true)) == u
    ensures Enact(c, u, h, Effect(None, false, None, false, Some(item), true)) == u.(queue := u.queue + [item])
  {
  }

  lemma TakeWorld(c: Setup, w: World, e: Event, at: int)
    requires Settles(c) && w.tracker == {} && Decodes(c.decode, CellsAt(Upsert(w, e), e.hash))
    ensures var v, u := Perform(c, w, OpFor(Take(e, at))), Upsert(w, e);
      v == if |CellsAt(u, e.hash)| < c.N() then u else u.(queue := w.queue + [ItemFor(c, w, e, at)])
  {
    var u, a := Upsert(w, e), Answers(FINE, FINE, {}, 0, at);
    PlainRecord(c, w, e, a);
    TakeDecides(c, u.rows[e.hash], e, Replies(a));
    Enacted(c, u, e.hash, ItemFor(c, w, e, at));
  }

  ghost predicate Good(c: Setup, turns: seq<Turn>, k: Hash, s: Tab) {
    && s.w.tracker == {} && Decodes(c.decode, CellsAt(s.w, k))
    && Truthful(turns, k, s) && Sound(c.N(), s.b, |turns|) && Woven(s.b) && s.b.cleared <= |turns|
  }

  /** The row and the queue of a world in which the record was taken. */
  lemma TakeCells(c: Setup, w: World, e: Event, at: int)
    requires Settles(c) && w.tracker == {} && Decodes(c.decode, CellsAt(w, e.hash)) && c.decode(e.payload).Some?
    ensures var v, cells := Perform(c, w, OpFor(Take(e, at))), CellsAt(w, e.hash)[e.stream := e.payload];
      && CellsAt(v, e.hash) == cells && Decodes(c.decode, cells) && v.tracker == {} && v.out == w.out
      && Queued(v.queue) == if |cells| < c.N() then Queued(w.queue) else Queued(w.queue) + [cells]
  {
    UpsertCells(w, e);
    TakeWorld(c, w, e, at);
    var v := Perform(c, w, OpFor(Take(e, at)));
    assert CellsAt(v, e.hash) == CellsAt(Upsert(w, e), e.hash);
    QueuedSnoc(w.queue, ItemFor(c, w, e, at));
  }

  lemma TakeTruthful(c: Setup, turns: seq<Turn>, k: Hash, s: Tab, e: Event, at: int, w: World)
    requires Truthful(turns, k, s) && e.hash == k
    requires var cells := CellsAt(s.w, k)[e.stream := e.payload];
      && CellsAt(w, k) == cells && w.out == s.w.out
      && Queued(w.queue) == if |cells| < c.N() then Queued(s.w.queue) else Queued(s.w.queue) + [cells]
    ensures Truthful(turns + [Take(e, at)], k, Tab(w, TakeMarks(c.N(), s.b, e.stream, |turns|)))
  {
    var t, cells, row := Take(e, at), CellsAt(s.w, k)[e.stream := e.payload], s.b.row[e.stream := |turns|];
    UpsertShows(turns, e, at, CellsAt(s.w, k), s.b.row);
    ShowsAllMore(turns, t, Queued(s.w.queue), s.b.pending);
    ShowsAllMore(turns, t, Published(s.w.out), s.b.sent);
    ShowsAllSnoc(turns + [t], Queued(s.w.queue), s.b.pending, cells, row);
  }

  lemma TakeGood(c: Setup, turns: seq<Turn>, k: Hash, s: Tab, e: Event, at: int)
    requires Settles(c) && Good(c, turns, k, s) && e.hash == k && c.decode(e.payload).Some?
    ensures Good(c, turns + [Take(e, at)], k, Post(c, s, Take(e, at), |turns|))
  {
    TakeCells(c, s.w, e, at);
    TakeTruthful(c, turns, k, s, e, at, Perform(c, s.w, OpFor(Take(e, at))));
    TakeSound(c.N(), s.b, e.stream, |turns|);
    TakeWoven(c.N(), s.b, e.stream, |turns|);
  }

  // ---------- a flush in the world ----------

  lemma {:induction false} IndexBound(queue: seq<Item>, item: Item)
    ensures IndexOf(queue, item) <= |queue|
    ensures IndexOf(queue, item) < |queue| <==> item in queue
    ensures item in queue ==> queue[IndexOf(queue, item)] == item
  {
    if queue != [] && queue[0] != item { IndexBound(queue[1..], item); }
  }

  lemma CutCons(queue: seq<Item>, i: nat)
    requires queue != []
    ensures [queue[0]] + Cut(queue[1..], i) == Cut(queue, i + 1)
  {
  }

  lemma {:induction false} MinusIsCut(queue: seq<Item>, item: Item)
    ensures Minus(queue, item) == Cut(queue, IndexOf(queue, item))
  {
    if queue != [] {
      IndexBound(queue[1..], item);
      if queue[0] == item {
        assert Cut(queue, 0) == queue[1..];
      } else {
        MinusIsCut(queue[1..], item);
        CutCons(queue, IndexOf(queue[1..], item));
      }
    }
  }

  lemma CutQueued(queue: seq<Item>, i: nat)
    ensures Queued(Cut(queue, i)) == Cut(Queued(queue), i)
  {
  }

  function JoinOf(item: Item): Sent {
    Sent(Delayed, item.msgKey, item.text, "", item.hash, item.cells)
  }

  lemma FlushWorld(c: Setup, w: World, item: Item, produce: Reply)
    requires Settles(c) && item in w.queue
    ensures var v := Perform(c, w, OpFor(Flushed(item, produce)));
      && v.rows == (if produce.Fine() then w.rows - {item.hash} else w.rows) && v.tracker == w.tracker
      && v.queue == Minus(w.queue, item) && v.out == if produce.Took() then w.out + [JoinOf(item)] else w.out
  {
  }

  lemma ShowsAllCut(turns: seq<Turn>, joins: seq<Cells>, marks: seq<Marks>, i: nat)
    requires ShowsAll(turns, joins, marks)
    ensures ShowsAll(turns, Cut(joins, i), Cut(marks, i))
  {
  }

  lemma FlushTruthful(c: Setup, turns: seq<Turn>, k: Hash, s: Tab, item: Item, produce: Reply)
    requires Settles(c) && Truthful(turns, k, s) && item.hash == k && item in s.w.queue
    ensures var t := Flushed(item, produce); Truthful(turns + [t], k, Post(c, s, t, |turns|))
  {
    var t, i := Flushed(item, produce), IndexOf(s.w.queue, item);
    FlushWorld(c, s.w, item, produce);
    IndexBound(s.w.queue, item);
    MinusIsCut(s.w.queue, item);
    CutQueued(s.w.queue, i);
    ShowsMore(turns, t, CellsAt(s.w, k), s.b.row);
    ShowsAllMore(turns, t, Queued(s.w.queue), s.b.pending);
    ShowsAllMore(turns, t, Published(s.w.out), s.b.sent);
    ShowsAllCut(turns + [t], Queued(s.w.queue), s.b.pending, i);
    PublishedSnoc(s.w.out, JoinOf(item));
    ShowsAllSnoc(turns + [t], Published(s.w.out), s.b.sent, item.cells, s.b.pending[i]);
  }

  lemma FlushDecodes(c: Setup, w: World, k: Hash, item: Item, produce: Reply)
    requires Settles(c) && w.tracker == {} && Decodes(c.decode, CellsAt(w, k)) && item.hash == k && item in w.queue
    ensures var v := Perform(c, w, OpFor(Flushed(item, produce)));
      v.tracker == {} && Decodes(c.decode, CellsAt(v, k))
  {
    FlushWorld(c, w, item, produce);
  }

  lemma FlushNothing(c: Setup, turns: seq<Turn>, k: Hash, s: Tab, item: Item, produce: Reply)
    requires Good(c, turns, k, s) && item !in s.w.queue
    ensures var t := Flushed(item, produce); Good(c, turns + [t], k, Post(c, s, t, |turns|))
  {
    var t := Flushed(item, produce);
    IndexBound(s.w.queue, item);
    ShowsMore(turns, t, CellsAt(s.w, k), s.b.row);
    ShowsAllMore(turns, t, Queued(s.w.queue), s.b.pending);
    ShowsAllMore(turns, t, Published(s.w.out), s.b.sent);
    assert Post(c, s, t, |turns|) == s;
  }

  lemma FlushGood(c: Setup, turns: seq<Turn>, k: Hash, s: Tab, item: Item, produce: Reply)
    requires Settles(c) && Good(c, turns, k, s) && item.hash == k
    ensures var t := Flushed(item, produce); Good(c, turns + [t], k, Post(c, s, t, |turns|))
  {
    if item in s.w.queue {
      FlushSound(c.N(), s.b, IndexOf(s.w.queue, item), produce, |turns|);
      FlushWoven(s.b, IndexOf(s.w.queue, item), produce, |turns|);
      FlushDecodes(c, s.w, k, item, produce);
      FlushTruthful(c, turns, k, s, item, produce);
    } else {
      FlushNothing(c, turns, k, s, item, produce);
    }
  }

  // ---------- whole runs ----------

  lemma PostGood(c: Setup, turns: seq<Turn>, k: Hash, s: Tab, t: Turn)
    requires Settles(c) && Good(c, turns, k, s) && Own(c, k, t)
    ensures Good(c, turns + [t], k, Post(c, s, t, |turns|))
  {
    match t {
      case Take(e, at) => TakeGood(c, turns, k, s, e, at);
      case Flushed(item, produce) => FlushGood(c, turns, k, s, item, produce);
    }
  }

  lemma BlankGood(c: Setup, k: Hash)
    ensures Good(c, [], k, Tab(EMPTY_WORLD, BLANK))
  {
  }

  lemma {:induction false} TabsGood(c: Setup, k: Hash, turns: seq<Turn>)
    requires Settles(c) && forall t | t in turns :: Own(c, k, t)
    ensures Good(c, turns, k, Tabs(c, turns))
  {
    if turns == [] {
      BlankGood(c, k);
    } else {
      var init, t := turns[..|turns| - 1], turns[|turns| - 1];
      assert turns == init + [t] && Own(c, k, t);
      TabsGood(c, k, init);
      PostGood(c, init, k, Tabs(c, init), t);
    }
  }

  /** Everything handled is held, superseded or lost. */
  predicate Accounted(turns: seq<Turn>, b: Book) {
    forall n | 0 <= n < |turns| && turns[n].Take? :: n in Held(b) + b.superseded + b.lost
  }

  lemma PostHolds(size: nat, queue: seq<Item>, b: Book, t: Turn, n: nat)
    ensures var v := PostMarks(size, queue, b, t, n);
      && Held(b) <= Held(v) + v.superseded + v.lost && b.superseded <= v.superseded && b.lost <= v.lost
      && (t.Take? ==> n in Held(v))
  {
    if t.Take? { TakeHolds(size, b, t.e.stream, n); }
  }

  lemma AccountsOn(turns: seq<Turn>, t: Turn, b: Book, v: Book)
    requires Accounted(turns, b) && (t.Take? ==> |turns| in Held(v))
    requires Held(b) <= Held(v) + v.superseded + v.lost && b.superseded <= v.superseded && b.lost <= v.lost
    ensures Accounted(turns + [t], v)
  {
    var all, before := Held(v) + v.superseded + v.lost, Held(b) + b.superseded + b.lost;
    assert before <= all;
    forall n | 0 <= n < |turns| + 1 && (turns + [t])[n].Take? ensures n in all {
      if n < |turns| { assert turns[n].Take? && n in before; }
    }
  }

  lemma PostAccounts(size: nat, queue: seq<Item>, b: Book, turns: seq<Turn>, t: Turn)
    requires Accounted(turns, b)
    ensures Accounted(turns + [t], PostMarks(size, queue, b, t, |turns|))
  {
    PostHolds(size, queue, b, t, |turns|);
    AccountsOn(turns, t, b, PostMarks(size, queue, b, t, |turns|));
  }

  lemma TabsBook(c: Setup, turns: seq<Turn>, t: Turn)
    ensures var s := Tabs(c, turns);
      Tabs(c, turns + [t]).b == PostMarks(c.N(), s.w.queue, s.b, t, |turns|)
  {
    assert (turns + [t])[..|turns|] == turns;
  }

  lemma {:induction false} TabsAccount(c: Setup, turns: seq<Turn>)
    ensures Accounted(turns, Tabs(c, turns).b)
  {
    if turns != [] {
      var init, t := turns[..|turns| - 1], turns[|turns| - 1];
      assert turns == init + [t];
      TabsAccount(c, init);
      PostAccounts(c.N(), Tabs(c, init).w.queue, Tabs(c, init).b, init, t);
      TabsBook(c, init, t);
    }
  }

  /**
   * Every handled record is in the row, in a pending join, in a published one, superseded, or lost; the marks tell
   * which is which, and what is lost is in none of the others.
   */
  lemma SettlingAccounts(c: Setup, k: Hash, turns: seq<Turn>)
    requires Settles(c) && forall t | t in turns :: Own(c, k, t)
    ensures var s := Tabs(c, turns);
      && Accounted(turns, s.b) && Truthful(turns, k, s)
      && forall x | x in s.b.lost :: x !in Held(s.b) && x !in s.b.superseded
  {
    TabsGood(c, k, turns);
    TabsAccount(c, turns);
  }

  /** The latest record of a join that nothing has superseded. */
  predicate LatestLeft(b: Book, join: Marks, y: nat) {
    y in join.Values && y !in b.superseded && forall x | x in join.Values :: x in b.superseded || x <= y
  }

  /**
   * Since the latest record of the join that nothing has superseded was written, the row was deleted, and that record
   * is in no other join.
   */
  predicate DropLoses(b: Book, i: nat)
    requires i < |b.pending|
  {
    exists y | y in b.pending[i].Values && LatestLeft(b, b.pending[i], y) ::
      y < b.cleared && y !in Marked(Cut(b.pending, i)) + Marked(b.sent)
  }

  /** An accepted flush finds a row that is no join; a refused one drops the last join of a deleted row's record. */
  predicate Loses(s: Tab, t: Turn) {
    t.Flushed? && t.item in s.w.queue &&
    if t.produce.Fine() then s.b.row != map[] && !RowJoined(s.b)
    else !t.produce.Took() && IndexOf(s.w.queue, t.item) < |s.b.pending| && DropLoses(s.b, IndexOf(s.w.queue, t.item))
  }

  lemma {:induction false} MaxOf(s: set<nat>) returns (y: nat)
    requires s != {}
    ensures y in s && forall x | x in s :: x <= y
    decreases |s|
  {
    var x :| x in s;
    y := x;
    if s != {x} {
      assert forall z | z in s :: z == x || z in s - {x};
      var z := MaxOf(s - {x});
      if x <= z { y := z; }
    }
  }

  /** The records a refused flush would leave nowhere. */
  function OnlyThere(b: Book, i: nat): set<nat>
    requires i < |b.pending|
  {
    b.pending[i].Values - b.row.Values - Marked(Cut(b.pending, i)) - Marked(b.sent) - b.superseded
  }

  /** If some record of the join is in nothing else, then so is its latest one. */
  lemma LatestToo(b: Book, i: nat, x: nat, y: nat)
    requires Woven(b) && i < |b.pending| && x in OnlyThere(b, i) && LatestLeft(b, b.pending[i], y)
    ensures y < b.cleared && y !in Marked(Cut(b.pending, i)) + Marked(b.sent)
  {
    var join := b.pending[i];
    assert IsSnapshot(b, join) && RowHas(b, join) && Nested(b.superseded, join, b.row);
    CutIn(b.pending, i);
    forall d | (d in Cut(b.pending, i) || d in b.sent) && y in d.Values ensures x in d.Values {
      assert IsSnapshot(b, d) && Nested(b.superseded, join, d);
    }
    MarkedIn(Cut(b.pending, i), y);
    MarkedIn(Cut(b.pending, i), x);
    MarkedIn(b.sent, y);
    MarkedIn(b.sent, x);
  }

  lemma LatestOnly(b: Book, i: nat, y: nat)
    requires RowCurrent(b) && i < |b.pending| && LatestLeft(b, b.pending[i], y)
    requires y < b.cleared && y !in Marked(Cut(b.pending, i)) + Marked(b.sent)
    ensures y in OnlyThere(b, i)
  {
    assert y !in b.row.Values;
  }

  lemma DropLosesIff(b: Book, i: nat)
    requires Woven(b) && i < |b.pending|
    ensures DropLoses(b, i) <==> OnlyThere(b, i) != {}
  {
    var join := b.pending[i];
    if OnlyThere(b, i) != {} {
      var x :| x in OnlyThere(b, i);
      var y := MaxOf(join.Values - b.superseded);
      assert forall z | z in join.Values :: z in b.superseded || z in join.Values - b.superseded;
      assert LatestLeft(b, join, y);
      LatestToo(b, i, x, y);
    }
    if DropLoses(b, i) {
      var y: nat :| LatestLeft(b, join, y) && y < b.cleared && y !in Marked(Cut(b.pending, i)) + Marked(b.sent);
      LatestOnly(b, i, y);
    }
  }

  /**
   * A flush takes records out of the row and all joins exactly when it is accepted and finds a row that is itself no
   * join, or is refused, the row of its join has been deleted, and no other join has the latest record that counts.
   */
  lemma FlushLosesIff(c: Setup, turns: seq<Turn>, k: Hash, s: Tab, item: Item, produce: Reply)
    requires Good(c, turns, k, s)
    ensures var t := Flushed(item, produce);
      Held(s.b) - Held(PostMarks(c.N(), s.w.queue, s.b, t, |turns|)) - s.b.superseded != {} <==> Loses(s, t)
  {
    var i := IndexOf(s.w.queue, item);
    IndexBound(s.w.queue, item);
    if item in s.w.queue {
      FlushHolds(s.b, i, produce, |turns|);
      RowLosesIff(c.N(), s.b, |turns|);
      DropLosesIff(s.b, i);
    }
  }

  /** None of the run's flushes loses something. */
  predicate LossFree(c: Setup, turns: seq<Turn>) {
    turns == [] ||
    (var n := |turns| - 1; LossFree(c, turns[..n]) && !Loses(Tabs(c, turns[..n]), turns[n]))
  }

  lemma LostSnoc(c: Setup, turns: seq<Turn>, k: Hash, s: Tab, t: Turn)
    requires Good(c, turns, k, s)
    ensures PostMarks(c.N(), s.w.queue, s.b, t, |turns|).lost == {} <==> s.b.lost == {} && !Loses(s, t)
  {
    if t.Flushed? {
      FlushLosesIff(c, turns, k, s, t.item, t.produce);
      var next := PostMarks(c.N(), s.w.queue, s.b, t, |turns|);
      assert next.lost == s.b.lost + (Held(s.b) - Held(next) - s.b.superseded);
    }
  }

  /** Nothing is lost over a run if and only if none of its flushes loses something. */
  lemma {:induction false} NothingLostIff(c: Setup, k: Hash, turns: seq<Turn>)
    requires Settles(c) && forall t | t in turns :: Own(c, k, t)
    ensures Tabs(c, turns).b.lost == {} <==> LossFree(c, turns)
  {
    if turns != [] {
      var n := |turns| - 1;
      NothingLostIff(c, k, turns[..n]);
      TabsGood(c, k, turns[..n]);
      LostSnoc(c, turns[..n], k, Tabs(c, turns[..n]), turns[n]);
    }
  }

  // ---------- when every produce is accepted ----------

  predicate AllAccepted(turns: seq<Turn>) {
    forall t | t in turns && t.Flushed? :: t.produce.Fine()
  }

  /** Then a complete row has its join pending. */
  lemma {:induction false} AcceptedBacked(c: Setup, turns: seq<Turn>)
    requires c.N() >= 1 && AllAccepted(turns)
    ensures var b := Tabs(c, turns).b; |b.row| >= c.N() ==> b.row in b.pending
  {
    if turns != [] { AcceptedBacked(c, turns[..|turns| - 1]); }
  }

  /** So a flush loses records if and only if it finds a row that is neither empty nor complete. */
  lemma AcceptedLosesIff(c: Setup, k: Hash, turns: seq<Turn>, item: Item)
    requires Settles(c) && AllAccepted(turns) && item in Tabs(c, turns).w.queue
    requires forall t | t in turns :: Own(c, k, t)
    ensures var cells := CellsAt(Tabs(c, turns).w, k);
      Loses(Tabs(c, turns), Flushed(item, FINE)) <==> 0 < |cells| < c.N()
  {
    var s := Tabs(c, turns);
    TabsGood(c, k, turns);
    AcceptedBacked(c, turns);
    assert |CellsAt(s.w, k)| == |CellsAt(s.w, k).Keys| == |s.b.row.Keys| == |s.b.row|;
  }

  // ---------- a loss ----------

  /** The world of one key: its row, its pending joins and its messages. */
  predicate Is(w: World, k: Hash, cells: Cells, queue: seq<Item>, out: seq<Sent>) {
    w.tracker == {} && CellsAt(w, k) == cells && w.queue == queue && w.out == out
  }

  lemma PerformTurn(c: Setup, turns: seq<Turn>, t: Turn)
    ensures Tabs(c, turns + [t]).w == Perform(c, Tabs(c, turns).w, OpFor(t))
  {
    assert (turns + [t])[..|turns|] == turns;
  }

  lemma TakeShort(c: Setup, turns: seq<Turn>, k: Hash, cells: Cells, queue: seq<Item>, out: seq<Sent>, e: Event,
      at: int, more: Cells)
    requires Settles(c) && Is(Tabs(c, turns).w, k, cells, queue, out) && e.hash == k
    requires more == cells[e.stream := e.payload] && |more| < c.N() && Decodes(c.decode, more)
    ensures Is(Tabs(c, turns + [Take(e, at)]).w, k, more, queue, out)
  {
    PerformTurn(c, turns, Take(e, at));
    UpsertCells(Tabs(c, turns).w, e);
    TakeWorld(c, Tabs(c, turns).w, e, at);
  }

  lemma TakeFull(c: Setup, turns: seq<Turn>, k: Hash, cells: Cells, queue: seq<Item>, out: seq<Sent>, e: Event,
      at: int, i: Item)
    requires Settles(c) && Is(Tabs(c, turns).w, k, cells, queue, out) && e.hash == k
    requires i.cells == cells[e.stream := e.payload] && |i.cells| >= c.N() && Decodes(c.decode, i.cells)
    requires i == JoinItem(c, e, i.cells, c.Doc(i.cells).value, at)
    ensures Is(Tabs(c, turns + [Take(e, at)]).w, k, i.cells, queue + [i], out)
  {
    PerformTurn(c, turns, Take(e, at));
    UpsertCells(Tabs(c, turns).w, e);
    TakeWorld(c, Tabs(c, turns).w, e, at);
  }

  lemma FlushIs(c: Setup, turns: seq<Turn>, k: Hash, cells: Cells, item: Item, rest: seq<Item>, out: seq<Sent>)
    requires Settles(c) && Is(Tabs(c, turns).w, k, cells, [item] + rest, out) && item.hash == k
    ensures Is(Tabs(c, turns + [Flushed(item, FINE)]).w, k, map[], rest, out + [JoinOf(item)])
  {
    PerformTurn(c, turns, Flushed(item, FINE));
    FlushWorld(c, Tabs(c, turns).w, item, FINE);
    assert ([item] + rest)[1..] == rest;
  }

  /** The join of two streams, due at `at`. */
  function JoinDue(c: Setup, a: Event, b: Event, at: int): Item
    requires c.Doc(map[a.stream := a.payload, b.stream := b.payload]).Some?
  {
    var full := map[a.stream := a.payload, b.stream := b.payload];
    JoinItem(c, b, full, c.Doc(full).value, at)
  }

  /** `a` and `b` complete the join, and `b` is delivered once more. */
  function TwiceScheduled(a: Event, b: Event): seq<Turn> {
    [] + [Take(a, 0)] + [Take(b, 1)] + [Take(b, 2)]
  }

  predicate TwoStreams(c: Setup, a: Event, b: Event) {
    && Settles(c) && c.N() == 2 && a.hash == b.hash && a.stream != b.stream
    && c.decode(a.payload).Some? && c.decode(b.payload).Some?
    && c.Doc(map[a.stream := a.payload, b.stream := b.payload]).Some?
  }

  lemma PendingTwice(c: Setup, a: Event, b: Event)
    requires TwoStreams(c, a, b)
    ensures Is(Tabs(c, TwiceScheduled(a, b)).w, a.hash, map[a.stream := a.payload, b.stream := b.payload],
      [JoinDue(c, a, b, 1)] + [JoinDue(c, a, b, 2)], [])
  {
    var k, one, full := a.hash, map[a.stream := a.payload], map[a.stream := a.payload, b.stream := b.payload];
    var i, j := JoinDue(c, a, b, 1), JoinDue(c, a, b, 2);
    assert |one| == 1 && |full| == 2 && one[b.stream := b.payload] == full && full[b.stream := b.payload] == full;
    TakeShort(c, [], k, map[], [], [], a, 0, one);
    TakeFull(c, [] + [Take(a, 0)], k, one, [], [], b, 1, i);
    assert [] + [i] == [i];
    TakeFull(c, [] + [Take(a, 0)] + [Take(b, 1)], k, full, [i], [], b, 2, j);
  }

  /** A record is in the row, a pending join or a message of the key. */
  predicate Keeps(w: World, k: Hash, x: Fact) {
    || x in Items(k, CellsAt(w, k))
    || (exists i :: i in w.queue && i.hash == k && x in Items(k, i.cells))
    || (exists m :: m in w.out && m.hash == k && x in Items(k, m.cells))
  }

  /** A first flush publishes the join; a new record of `a`'s stream arrives; the second flush deletes it. */
  function Losing(c: Setup, a: Event, b: Event, a2: Event): seq<Turn>
    requires TwoStreams(c, a, b)
  {
    TwiceScheduled(a, b) + [Flushed(JoinDue(c, a, b, 1), FINE)] + [Take(a2, 3)] + [Flushed(JoinDue(c, a, b, 2), FINE)]
  }

  lemma SecondRound(c: Setup, turns: seq<Turn>, k: Hash, cells: Cells, i: Item, j: Item, e: Event)
    requires Settles(c) && c.N() >= 2 && Is(Tabs(c, turns).w, k, cells, [i] + [j], [])
      && i.hash == j.hash == e.hash == k
    requires c.decode(e.payload).Some?
    ensures Is(Tabs(c, turns + [Flushed(i, FINE)] + [Take(e, 3)]).w, k, map[e.stream := e.payload], [j], [JoinOf(i)])
  {
    FlushIs(c, turns, k, cells, i, [j], []);
    assert [] + [JoinOf(i)] == [JoinOf(i)];
    var one: Cells := map[e.stream := e.payload];
    assert |one| == 1;
    TakeShort(c, turns + [Flushed(i, FINE)], k, map[], [j], [JoinOf(i)], e, 3, one);
  }

  lemma LastFlush(c: Setup, turns: seq<Turn>, k: Hash, cells: Cells, j: Item, out: seq<Sent>)
    requires Settles(c) && Is(Tabs(c, turns).w, k, cells, [j], out) && j.hash == k
    ensures Is(Tabs(c, turns + [Flushed(j, FINE)]).w, k, map[], [], out + [JoinOf(j)])
  {
    assert [j] + [] == [j];
    FlushIs(c, turns, k, cells, j, [], out);
  }

  lemma LosingEnds(c: Setup, a: Event, b: Event, a2: Event)
    requires TwoStreams(c, a, b) && a2.hash == a.hash && c.decode(a2.payload).Some?
    ensures Is(Tabs(c, Losing(c, a, b, a2)).w, a.hash, map[], [], [JoinOf(JoinDue(c, a, b, 1))] +
      [JoinOf(JoinDue(c, a, b, 2))])
  {
    var i, j := JoinDue(c, a, b, 1), JoinDue(c, a, b, 2);
    PendingTwice(c, a, b);
    SecondRound(c, TwiceScheduled(a, b), a.hash, map[a.stream := a.payload, b.stream := b.payload], i, j, a2);
    var turns := TwiceScheduled(a, b) + [Flushed(i, FINE)] + [Take(a2, 3)];
    LastFlush(c, turns, a.hash, map[a2.stream := a2.payload], j, [JoinOf(i)]);
  }

  lemma NowhereElse(c: Setup, w: World, a: Event, b: Event, a2: Event)
    requires TwoStreams(c, a, b) && a2.hash == a.hash && a2.stream == a.stream && a2.payload != a.payload
    requires Is(w, a.hash, map[], [], [JoinOf(JoinDue(c, a, b, 1))] + [JoinOf(JoinDue(c, a, b, 2))])
    ensures !Keeps(w, a.hash, FactOf(a2))
  {
    var full := map[a.stream := a.payload, b.stream := b.payload];
    ItemIn(a.hash, full, FactOf(a2));
    ItemIn(a.hash, map[], FactOf(a2));
    assert forall m | m in w.out :: m.cells == full;
  }

  /** The record is then in no row, no pending join and no message, and nothing superseded it. */
  lemma SecondFlushLoses(c: Setup, a: Event, b: Event, a2: Event)
    requires TwoStreams(c, a, b) && a2.hash == a.hash && a2.stream == a.stream && a2.payload != a.payload
    requires c.decode(a2.payload).Some?
    ensures !Keeps(Tabs(c, Losing(c, a, b, a2)).w, a.hash, FactOf(a2))
  {
    LosingEnds(c, a, b, a2);
    NowhereElse(c, Tabs(c, Losing(c, a, b, a2)).w, a, b, a2);
  }
}
