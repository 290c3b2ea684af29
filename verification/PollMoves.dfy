/**
 * The poll loop of PollLoop and the moves of Redelivery are the same thing for one partition: whatever the rounds, the
 * fates of the records and the replies to the commits, there are moves that leave the cursor, the committed offset and
 * the set of passed-over records where the loop leaves them.
 */
module PollMoves {
  import opened Base
  import opened Protocol
  import opened PollLoop
  import Input = Redelivery
  import Lost = LostJoins

  /** What all attempts to commit a record together come to. */
  function Outcome(f: Commits, p: nat, o: nat): Protocol.Outcome {
    if Fine(f, p, o) then Done else if Took(f, p, o) then LostReply else Refused
  }

  /** The batch is a stretch of the partition's log; what nobody handles is no event of this configuration. */
  predicate Stretch(log: Input.Log, b: Batch) {
    && b.start + |b.records| <= |log|
    && forall j | 0 <= j < |b.records| && b.records[j] == Unroutable :: log[b.start + j].None?
  }

  predicate Stretches(log: Input.Log, rounds: seq<Round>, p: nat) {
    forall r, i | 0 <= r < |rounds| && 0 <= i < |rounds[r]| && rounds[r][i].p == p :: Stretch(log, rounds[r][i])
  }

  predicate PassesOver(b: Batch, f: Commits, o: nat) {
    b.start <= o < b.start + |b.records| && !Committing(b, f, o - b.start)
  }

  /** The offsets of a batch, from its record `j` on, that the loop does not try to commit. */
  function PassedFrom(b: Batch, f: Commits, j: nat): set<nat> {
    set o | o in Input.Range(b.start + j, b.start + |b.records|) && PassesOver(b, f, o)
  }

  function PassedIn(round: Round, f: Commits, p: nat): set<nat> {
    if round == [] then {} else
    var b := round[|round| - 1];
    PassedIn(round[..|round| - 1], f, p) + if b.p == p then PassedFrom(b, f, 0) else {}
  }

  /** The offsets of the partition that the rounds do not try to commit: their handling failed, or was not reached. */
  function PassedBy(rounds: seq<Round>, f: Commits, p: nat): set<nat> {
    if rounds == [] then {} else
    PassedBy(rounds[..|rounds| - 1], f, p) + PassedIn(rounds[|rounds| - 1], f, p)
  }

  // ---------- what the loop does to one partition ----------

  /** Where the loop stands with a partition. */
  datatype Spot = Spot(cursor: nat, committed: nat, passed: set<nat>)

  /** A record is passed over, or handled and committed; or the batch, up to `end`, is left behind it. */
  datatype Hop = Past | Onto | Away(handled: bool, outcome: Protocol.Outcome, end: nat)

  function Hopped(x: Spot, h: Hop): Spot {
    match h
    case Past => Spot(x.cursor + 1, x.committed, x.passed + {x.cursor})
    case Onto => Spot(x.cursor + 1, x.cursor + 1, x.passed)
    case Away(_, outcome, end) =>
      Spot(end, if outcome == Refused then x.committed else x.cursor + 1, x.passed + Input.Range(x.cursor + 1, end))
  }

  predicate Possible(log: Input.Log, x: Spot, h: Hop) {
    && x.cursor < |log|
    && (h.Away? ==> x.cursor < h.end <= |log| && if h.handled then h.outcome != Done else log[x.cursor].None?)
  }

  function HoppedAll(x: Spot, hops: seq<Hop>): Spot {
    if hops == [] then x else Hopped(HoppedAll(x, hops[..|hops| - 1]), hops[|hops| - 1])
  }

  predicate AllPossible(log: Input.Log, x: Spot, hops: seq<Hop>) {
    hops == [] ||
    (AllPossible(log, x, hops[..|hops| - 1]) && Possible(log, HoppedAll(x, hops[..|hops| - 1]), hops[|hops| - 1]))
  }

  lemma HopSnoc(log: Input.Log, x: Spot, hops: seq<Hop>, h: Hop)
    ensures HoppedAll(x, hops + [h]) == Hopped(HoppedAll(x, hops), h)
    ensures AllPossible(log, x, hops + [h]) <==> AllPossible(log, x, hops) && Possible(log, HoppedAll(x, hops), h)
  {
    assert (hops + [h])[..|hops|] == hops;
  }

  /** These hops lead from `x` to `y`. */
  predicate Trails(log: Input.Log, x: Spot, hops: seq<Hop>, y: Spot) {
    AllPossible(log, x, hops) && HoppedAll(x, hops) == y
  }

  lemma HopOn(log: Input.Log, x: Spot, hops: seq<Hop>, y: Spot, h: Hop)
    requires Trails(log, x, hops, y) && Possible(log, y, h)
    ensures Trails(log, x, hops + [h], Hopped(y, h))
  {
    HopSnoc(log, x, hops, h);
  }

  // ---------- one batch ----------

  /** The loop skips the record, or handles and commits it, and goes on. */
  predicate GoesOn(b: Batch, f: Commits, j: nat) {
    j < |b.records| && Reached(b, f, j) &&
    (b.records[j] == Failing || (b.records[j] == Handling && Fine(f, b.p, b.start + j)))
  }

  /** The loop is done with the batch at this record. */
  predicate Stops(b: Batch, f: Commits, j: nat) {
    j < |b.records| && Reached(b, f, j) &&
    (b.records[j] == Unroutable || (b.records[j] == Handling && !Fine(f, b.p, b.start + j)))
  }

  lemma OneOn(b: Batch, f: Commits, j: nat, before: nat)
    requires GoesOn(b, f, j)
    ensures Committing(b, f, j) <==> b.records[j] != Failing
    ensures CommittedAfter(b, f, j + 1, before) ==
      if b.records[j] == Failing then CommittedAfter(b, f, j, before) else b.start + j + 1
    ensures j + 1 < |b.records| ==> Reached(b, f, j + 1)
  {
  }

  lemma LeftBehind(b: Batch, f: Commits, j: nat, before: nat)
    requires Stops(b, f, j)
    ensures CommittedAfter(b, f, |b.records|, before) ==
      if Outcome(f, b.p, b.start + j) == Refused then CommittedAfter(b, f, j, before) else b.start + j + 1
    ensures PassedFrom(b, f, j) == Input.Range(b.start + j + 1, b.start + |b.records|)
  {
    NothingBeyond(b, f, j, |b.records|, before, false);
    forall o ensures o in PassedFrom(b, f, j) <==> o in Input.Range(b.start + j + 1, b.start + |b.records|) {
      if b.start + j <= o < b.start + |b.records| { assert PassesOver(b, f, o) <==> o != b.start + j; }
    }
  }

  /** The records of the batch before `n` that the loop does not try to commit. */
  function PassedBefore(b: Batch, f: Commits, n: nat): set<nat> {
    set o | o in Input.Range(b.start, b.start + n) && PassesOver(b, f, o)
  }

  lemma PassedMore(b: Batch, f: Commits, n: nat)
    requires GoesOn(b, f, n)
    ensures PassedBefore(b, f, n + 1) == PassedBefore(b, f, n) + if b.records[n] == Failing then {b.start + n} else {}
  {
    OneOn(b, f, n, 0);
    var parts := PassedBefore(b, f, n) + if b.records[n] == Failing then {b.start + n} else {};
    forall o ensures o in PassedBefore(b, f, n + 1) <==> o in parts {
      if o == b.start + n { assert PassesOver(b, f, o) <==> !Committing(b, f, n); }
    }
  }

  /** Where the loop stands before record `n` of a batch it began at `x`. */
  function SpotBefore(b: Batch, f: Commits, n: nat, x: Spot): Spot
    requires n <= |b.records|
  {
    Spot(b.start + n, CommittedAfter(b, f, n, x.committed), x.passed + PassedBefore(b, f, n))
  }

  lemma UnionAssociates(a: set<nat>, b: set<nat>, c: set<nat>)
    ensures a + (b + c) == a + b + c
  {
  }

  lemma SpotNext(b: Batch, f: Commits, n: nat, x: Spot)
    requires GoesOn(b, f, n)
    ensures SpotBefore(b, f, n + 1, x) ==
      Hopped(SpotBefore(b, f, n, x), if b.records[n] == Failing then Past else Onto)
  {
    OneOn(b, f, n, x.committed);
    PassedMore(b, f, n);
    UnionAssociates(x.passed, PassedBefore(b, f, n), if b.records[n] == Failing then {b.start + n} else {});
  }

  lemma {:induction false} BeforeHops(log: Input.Log, b: Batch, f: Commits, n: nat, x: Spot) returns (hops: seq<Hop>)
    requires b.start + |b.records| <= |log| && n <= |b.records| && x.cursor == b.start
    requires forall j | 0 <= j < n :: GoesOn(b, f, j)
    ensures Trails(log, x, hops, SpotBefore(b, f, n, x))
  {
    hops := [];
    if n == 0 {
      assert PassedBefore(b, f, 0) == {};
    } else {
      var h := if b.records[n - 1] == Failing then Past else Onto;
      hops := BeforeHops(log, b, f, n - 1, x);
      HopOn(log, x, hops, SpotBefore(b, f, n - 1, x), h);
      SpotNext(b, f, n - 1, x);
      hops := hops + [h];
    }
  }

  lemma PassedAround(b: Batch, f: Commits, n: nat)
    requires n <= |b.records|
    ensures PassedFrom(b, f, 0) == PassedBefore(b, f, n) + PassedFrom(b, f, n)
  {
    var parts := PassedBefore(b, f, n) + PassedFrom(b, f, n);
    forall o ensures o in PassedFrom(b, f, 0) <==> o in parts {
    }
  }

  /** How far the loop goes on with the batch. */
  lemma {:induction false} GoesTo(b: Batch, f: Commits, j: nat) returns (n: nat)
    requires j <= |b.records| && (forall i | 0 <= i < j :: GoesOn(b, f, i)) && (j < |b.records| ==> Reached(b, f, j))
    ensures n <= |b.records| && (forall i | 0 <= i < n :: GoesOn(b, f, i)) && (n < |b.records| ==> Stops(b, f, n))
    decreases |b.records| - j
  {
    if j < |b.records| && GoesOn(b, f, j) {
      OneOn(b, f, j, 0);
      n := GoesTo(b, f, j + 1);
    } else {
      n := j;
    }
  }

  function AwayFrom(b: Batch, f: Commits, n: nat): Hop
    requires n < |b.records|
  {
    Away(b.records[n] == Handling, Outcome(f, b.p, b.start + n), b.start + |b.records|)
  }

  /** Where the loop stands behind a batch it began at `x`. */
  function SpotAfter(b: Batch, f: Commits, x: Spot): Spot {
    Spot(b.start + |b.records|, CommittedAfter(b, f, |b.records|, x.committed), x.passed + PassedFrom(b, f, 0))
  }

  lemma LeftSpot(b: Batch, f: Commits, n: nat, x: Spot)
    requires Stops(b, f, n)
    ensures SpotAfter(b, f, x) == Hopped(SpotBefore(b, f, n, x), AwayFrom(b, f, n))
  {
    LeftBehind(b, f, n, x.committed);
    PassedAround(b, f, n);
    UnionAssociates(x.passed, PassedBefore(b, f, n), PassedFrom(b, f, n));
  }

  lemma WholeSpot(b: Batch, f: Commits, x: Spot)
    ensures SpotAfter(b, f, x) == SpotBefore(b, f, |b.records|, x)
  {
    assert PassedFrom(b, f, 0) == PassedBefore(b, f, |b.records|);
  }

  /** The batch as a whole. */
  lemma BatchHops(log: Input.Log, b: Batch, f: Commits, x: Spot) returns (hops: seq<Hop>)
    requires Stretch(log, b) && x.cursor == b.start
    ensures Trails(log, x, hops, SpotAfter(b, f, x))
  {
    var n := GoesTo(b, f, 0);
    hops := BeforeHops(log, b, f, n, x);
    if n < |b.records| {
      HopOn(log, x, hops, SpotBefore(b, f, n, x), AwayFrom(b, f, n));
      LeftSpot(b, f, n, x);
      hops := hops + [AwayFrom(b, f, n)];
    } else {
      WholeSpot(b, f, x);
    }
  }

  // ---------- whole runs ----------

  lemma {:induction false} NoPart(round: Round, p: nat, f: Commits)
    requires forall i | 0 <= i < |round| :: round[i].p != p
    ensures PassedIn(round, f, p) == {}
  {
    if round != [] { NoPart(round[..|round| - 1], p, f); }
  }

  lemma RoundParts(round: Round, p: nat, i: nat, f: Commits)
    requires Partitioned(round) && i < |round| && round[i].p == p
    ensures PassedIn(round, f, p) == PassedFrom(round[i], f, 0)
  {
    if i < |round| - 1 {
      RoundParts(round[..|round| - 1], p, i, f);
    } else {
      NoPart(round[..i], p, f);
    }
  }

  lemma {:induction false} HopsThen(log: Input.Log, x: Spot, a: seq<Hop>, b: seq<Hop>)
    ensures HoppedAll(x, a + b) == HoppedAll(HoppedAll(x, a), b)
    ensures AllPossible(log, x, a) && AllPossible(log, HoppedAll(x, a), b) ==> AllPossible(log, x, a + b)
  {
    if b == [] {
      assert a + b == a;
    } else {
      var init, h := b[..|b| - 1], b[|b| - 1];
      HopsThen(log, x, a, init);
      HopSnoc(log, x, a + init, h);
      assert a + b == (a + init) + [h];
    }
  }

  lemma {:induction false} LoopHops(log: Input.Log, rounds: seq<Round>, f: Commits, p: nat) returns (hops: seq<Hop>)
    requires Consecutive(rounds) && Stretches(log, rounds, p)
    ensures Trails(log, Spot(0, 0, {}), hops,
      Spot(Position(rounds, p), OffsetOf(CommittedBy(rounds, f), p), PassedBy(rounds, f, p)))
  {
    hops := [];
    if rounds != [] {
      var init, last := rounds[..|rounds| - 1], rounds[|rounds| - 1];
      hops := LoopHops(log, init, f, p);
      RoundOf(last, f, |last|, CommittedBy(init, f), p);
      InRoundGrows(last, p, Position(init, p));
      if i :| 0 <= i < |last| && last[i].p == p {
        RoundParts(last, p, i, f);
        assert Stretch(log, rounds[|rounds| - 1][i]) && last[i] in last;
        var more := BatchHops(log, last[i], f, HoppedAll(Spot(0, 0, {}), hops));
        HopsThen(log, Spot(0, 0, {}), hops, more);
        hops := hops + more;
      } else {
        NoPart(last, p, f);
      }
    }
  }

  // ---------- and the moves ----------

  /** `k` is a key of no record, so that nothing concerns it. */
  predicate Elsewhere(log: Input.Log, k: Hash) {
    forall i | 0 <= i < |log| && log[i].Some? :: log[i].value.hash != k
  }

  lemma PassesOn(c: Setup, log: Input.Log, p: Input.Partition, k: Hash, s: string) returns (q: Input.Partition)
    requires Lost.At(c, log, p, k, s) && p.cursor < |log|
    ensures Lost.Leads(c, log, p, q, false) && Lost.At(c, log, q, k, s)
    ensures q.cursor == p.cursor + 1 && q.committed == p.committed && q.passed == p.passed + {p.cursor}
  {
    q := Input.Skip(p);
    Lost.PassOver(c, log, p, k, s);
  }

  lemma CommitsOn(c: Setup, log: Input.Log, p: Input.Partition, k: Hash, s: string) returns (q: Input.Partition)
    requires Input.GoodSetup(c) && Input.GoodLog(c, log) && s in c.join.streamIDs && Elsewhere(log, k)
    requires Lost.At(c, log, p, k, s) && p.cursor < |log|
    ensures Lost.Leads(c, log, p, q, false) && Lost.At(c, log, q, k, s)
    ensures q.cursor == q.committed == p.cursor + 1 && q.passed == p.passed
  {
    q := Lost.Handle(c, log, p, k, s, Done, None);
    Lost.LeadsAnyhow(c, log, p, q);
  }

  lemma LeavesAside(c: Setup, log: Input.Log, p: Input.Partition, k: Hash, s: string, outcome: Protocol.Outcome,
      end: nat) returns (q: Input.Partition)
    requires Lost.At(c, log, p, k, s) && p.cursor < end <= |log| && log[p.cursor].None?
    ensures Lost.Leads(c, log, p, q, false) && Lost.At(c, log, q, k, s)
    ensures q.cursor == end && q.committed == if outcome == Refused then p.committed else p.cursor + 1
    ensures q.passed == p.passed + Input.Range(p.cursor + 1, end)
  {
    q := Input.Step(c, log, p, Input.Unrouted(outcome, true, end));
    Lost.LeadsStep(c, log, p, Input.Unrouted(outcome, true, end), false);
  }

  /** Behind the record at the cursor the batch, which ends at `end`, is left. */
  lemma Leaves(c: Setup, log: Input.Log, p: Input.Partition, k: Hash, s: string, handled: bool,
      outcome: Protocol.Outcome, end: nat) returns (q: Input.Partition)
    requires Input.GoodSetup(c) && Input.GoodLog(c, log) && s in c.join.streamIDs && Elsewhere(log, k)
    requires Lost.At(c, log, p, k, s) && p.cursor < end <= |log|
    requires if handled then outcome != Done else log[p.cursor].None?
    ensures Lost.Leads(c, log, p, q, false) && Lost.At(c, log, q, k, s)
    ensures q.cursor == end && q.committed == if outcome == Refused then p.committed else p.cursor + 1
    ensures q.passed == p.passed + Input.Range(p.cursor + 1, end)
  {
    if handled {
      q := Lost.Handle(c, log, p, k, s, outcome, Some(end));
      Lost.LeadsAnyhow(c, log, p, q);
    } else {
      q := LeavesAside(c, log, p, k, s, outcome, end);
    }
  }

  function SpotOf(p: Input.Partition): Spot {
    Spot(p.cursor, p.committed, p.passed)
  }

  /** There are moves for a hop. */
  lemma HopMoves(c: Setup, log: Input.Log, p: Input.Partition, k: Hash, s: string, h: Hop)
    returns (q: Input.Partition)
    requires Input.GoodSetup(c) && Input.GoodLog(c, log) && s in c.join.streamIDs && Elsewhere(log, k)
    requires Lost.At(c, log, p, k, s) && Possible(log, SpotOf(p), h)
    ensures Lost.Leads(c, log, p, q, false) && Lost.At(c, log, q, k, s) && SpotOf(q) == Hopped(SpotOf(p), h)
  {
    match h {
      case Past => q := PassesOn(c, log, p, k, s);
      case Onto => q := CommitsOn(c, log, p, k, s);
      case Away(handled, outcome, end) => q := Leaves(c, log, p, k, s, handled, outcome, end);
    }
  }

  lemma {:induction false} HopsMoves(c: Setup, log: Input.Log, k: Hash, s: string, hops: seq<Hop>)
    returns (q: Input.Partition)
    requires Input.GoodSetup(c) && Input.GoodLog(c, log) && s in c.join.streamIDs && Elsewhere(log, k)
    requires AllPossible(log, Spot(0, 0, {}), hops)
    ensures Lost.Leads(c, log, Input.FRESH, q, false) && Lost.At(c, log, q, k, s)
    ensures SpotOf(q) == HoppedAll(Spot(0, 0, {}), hops)
  {
    if hops == [] {
      q := Input.FRESH;
      Lost.StartsAt(c, log, k, s);
      Lost.LeadsNowhere(c, log, q, false);
    } else {
      var n := |hops| - 1;
      var u := HopsMoves(c, log, k, s, hops[..n]);
      q := HopMoves(c, log, u, k, s, hops[n]);
      Lost.LeadsThen(c, log, Input.FRESH, u, q, false);
    }
  }

  /**
   * Whatever rounds the loop goes through, for each partition there are moves that end where it ends: at the same
   * position and committed offset, with the offsets passed over that it did not try to commit.
   */
  lemma LoopIsMoves(c: Setup, log: Input.Log, rounds: seq<Round>, f: Commits, p: nat) returns (moves: seq<Input.Move>)
    requires Input.GoodSetup(c) && Input.GoodLog(c, log) && Consecutive(rounds) && Stretches(log, rounds, p)
    ensures var q := Input.Run(c, log, moves);
      && q.cursor == Position(rounds, p)
      && q.committed == OffsetOf(CommittedBy(rounds, f), p)
      && q.passed == PassedBy(rounds, f, p)
  {
    var n := Lost.LongestKey(log);
    var k := seq(n, _ => 0);
    var hops := LoopHops(log, rounds, f, p);
    var q := HopsMoves(c, log, k, c.join.streamIDs[0], hops);
    moves :| Lost.From(c, log, Input.FRESH, moves) == q;
    Lost.RunFrom(c, log, moves);
  }
}
