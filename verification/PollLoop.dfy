/**
 * consumer.Run and commitWithRetry (internal/consumer/consumer.go), round after round: the fetched records of each
 * partition in turn, each handled and then committed with up to three attempts. A record whose handling fails is
 * passed over, a record nobody handles is committed and ends its partition's batch, a commit that fails for good ends
 * it too, and one variable holds the commit error of all partitions of a round.
 */
module PollLoop {
  import opened Protocol

  const MAX_ATTEMPTS := 3

  /** What getHandler and Handle make of a record. */
  datatype Fate = Unroutable | Failing | Handling

  /** How a commit attempt fares, and whether the context is cancelled before the next one. */
  datatype Try = Try(outcome: Outcome, cancelled: bool)

  /** Partition, offset and attempt to what becomes of it. */
  type Commits = (nat, nat, nat) -> Try

  // ---------- commitWithRetry ----------

  /** Another attempt is made after this one: it failed, and the backoff was not cut short. */
  predicate Again(t: Try) {
    t.outcome != Done && !t.cancelled
  }

  /** Attempt `a` is made. */
  predicate Made(f: Commits, p: nat, o: nat, a: nat) {
    a == 1 || (a == 2 && Again(f(p, o, 1))) || (a == 3 && Again(f(p, o, 1)) && Again(f(p, o, 2)))
  }

  /** Some attempt made succeeded. */
  predicate Fine(f: Commits, p: nat, o: nat) {
    f(p, o, 1).outcome == Done ||
    (Made(f, p, o, 2) && f(p, o, 2).outcome == Done) || (Made(f, p, o, 3) && f(p, o, 3).outcome == Done)
  }

  /** Some attempt made took effect, reported or not. */
  predicate Took(f: Commits, p: nat, o: nat) {
    f(p, o, 1).outcome != Refused ||
    (Made(f, p, o, 2) && f(p, o, 2).outcome != Refused) || (Made(f, p, o, 3) && f(p, o, 3).outcome != Refused)
  }

  /** Up to three attempts, until one succeeds or the backoff behind one is cut short. */
  method CommitWithRetry(f: Commits, p: nat, o: nat) returns (ok: bool, took: bool)
    ensures ok == Fine(f, p, o)
    ensures took == Took(f, p, o)
    ensures var first, second, third := f(p, o, 1), f(p, o, 2), f(p, o, 3);
      && (ok <==>
            || first.outcome == Done
            || (!first.cancelled && (second.outcome == Done || (!second.cancelled && third.outcome == Done))))
      && (took <==>
            || first.outcome != Refused
            || (!first.cancelled && (second.outcome != Refused || (!second.cancelled && third.outcome != Refused))))
  {
    took := false;
    for attempt := 1 to MAX_ATTEMPTS + 1
      invariant attempt <= MAX_ATTEMPTS && Made(f, p, o, attempt)
      invariant forall a | 1 <= a < attempt :: f(p, o, a).outcome != Done
      invariant took <==>
        (attempt > 1 && f(p, o, 1).outcome != Refused) || (attempt > 2 && f(p, o, 2).outcome != Refused)
    {
      var lastErr := f(p, o, attempt);
      if lastErr.outcome != Refused {
        took := true;
      }
      if lastErr.outcome == Done {
        return true, took;
      }
      if attempt == MAX_ATTEMPTS {
        break;
      }
      if lastErr.cancelled {
        return false, took;
      }
    }
    return false, took;
  }

  // ---------- one batch of one partition ----------

  /** A fetched batch of partition `p`, its first record at offset `start`. */
  datatype Batch = Batch(p: nat, start: nat, records: seq<Fate>)

  /** The records a pass gets to: none before them is unroutable or handled without a successful commit. */
  predicate Reached(b: Batch, f: Commits, j: nat) {
    j < |b.records| &&
    forall k | 0 <= k < j :: b.records[k] == Failing || (b.records[k] == Handling && Fine(f, b.p, b.start + k))
  }

  /** Run tries to commit the record: it was handled, or nobody handles it. */
  predicate Committing(b: Batch, f: Commits, j: nat) {
    Reached(b, f, j) && b.records[j] != Failing
  }

  predicate CommitsAt(b: Batch, f: Commits, j: nat) {
    Committing(b, f, j) && Took(f, b.p, b.start + j)
  }

  /** The committed offset after the first `n` records, each commit that takes effect setting it anew. */
  function CommittedAfter(b: Batch, f: Commits, n: nat, before: nat): nat
    requires n <= |b.records|
  {
    if n == 0 then before
    else if CommitsAt(b, f, n - 1) then b.start + n
    else CommittedAfter(b, f, n - 1, before)
  }

  /** The commit error a pass leaves behind: that of the last commit it made, or what it found. */
  function ErrorAfter(b: Batch, f: Commits, n: nat, before: bool): bool
    requires n <= |b.records|
  {
    if n == 0 then before
    else if Committing(b, f, n - 1) then !Fine(f, b.p, b.start + n - 1)
    else ErrorAfter(b, f, n - 1, before)
  }

  /** The records Handle is called for. */
  predicate Handled(b: Batch, f: Commits, j: nat) {
    Reached(b, f, j) && b.records[j] != Unroutable
  }

  lemma {:induction false} NothingBeyond(b: Batch, f: Commits, i: nat, n: nat, committed: nat, err: bool)
    requires i < n <= |b.records| && Reached(b, f, i)
    requires b.records[i] == Unroutable || (b.records[i] == Handling && !Fine(f, b.p, b.start + i))
    ensures CommittedAfter(b, f, n, committed) == CommittedAfter(b, f, i + 1, committed)
    ensures ErrorAfter(b, f, n, err) == !Fine(f, b.p, b.start + i)
    ensures forall j | i < j < |b.records| :: !Reached(b, f, j)
  {
    if n - 1 > i { NothingBeyond(b, f, i, n - 1, committed, err); }
  }

  /** Which records a pass gets to, handles, and tries to commit. */
  lemma ReachedIs(b: Batch, f: Commits, j: nat)
    requires j < |b.records|
    ensures var before := forall k | 0 <= k < j ::
        b.records[k] == Failing || (b.records[k] == Handling && Fine(f, b.p, b.start + k));
      && (Reached(b, f, j) <==> before)
      && (Handled(b, f, j) <==> before && b.records[j] != Unroutable)
      && (Committing(b, f, j) <==> before && b.records[j] != Failing)
      && (CommitsAt(b, f, j) <==> before && b.records[j] != Failing && Took(f, b.p, b.start + j))
  {
  }

  /** The offset left behind is that of the last commit that takes effect, plus one. */
  lemma {:induction false} LastEffect(b: Batch, f: Commits, j: nat, n: nat, before: nat)
    requires j < n <= |b.records| && CommitsAt(b, f, j) && forall l | j < l < n :: !CommitsAt(b, f, l)
    ensures CommittedAfter(b, f, n, before) == b.start + j + 1
  {
    if n - 1 > j { LastEffect(b, f, j, n - 1, before); }
  }

  lemma {:induction false} NoEffect(b: Batch, f: Commits, n: nat, before: nat)
    requires n <= |b.records| && forall j | 0 <= j < n :: !CommitsAt(b, f, j)
    ensures CommittedAfter(b, f, n, before) == before
  {
    if n > 0 { NoEffect(b, f, n - 1, before); }
  }

  /** The closure given to EachPartition; `err` is the shared commitErr. */
  method PollPartition(b: Batch, f: Commits, committed: nat, err: bool)
    returns (after: nat, commitErr: bool, handled: seq<nat>)
    ensures after == CommittedAfter(b, f, |b.records|, committed)
    ensures commitErr == ErrorAfter(b, f, |b.records|, err)
    ensures forall j :: j in handled <==> 0 <= j < |b.records| && Handled(b, f, j)
  {
    after, commitErr, handled := committed, err, [];
    for i := 0 to |b.records|
      invariant i < |b.records| ==> Reached(b, f, i)
      invariant forall k | 0 <= k < i :: Handled(b, f, k)
      invariant after == CommittedAfter(b, f, i, committed)
      invariant commitErr == ErrorAfter(b, f, i, err)
      invariant forall j :: j in handled <==> 0 <= j < i
    {
      if b.records[i] == Unroutable {
        NothingBeyond(b, f, i, |b.records|, committed, err);
        var ok, took := CommitWithRetry(f, b.p, b.start + i);
        commitErr := !ok;
        if took {
          after := b.start + i + 1;
        }
        return;
      }
      handled := handled + [i];
      if b.records[i] == Failing {
        continue;
      }
      var ok, took := CommitWithRetry(f, b.p, b.start + i);
      commitErr := !ok;
      if took {
        after := b.start + i + 1;
      }
      if commitErr {
        NothingBeyond(b, f, i, |b.records|, committed, err);
        return;
      }
    }
  }

  // ---------- one round ----------

  /** The batches of one PollFetches, in the order EachPartition takes them. */
  type Round = seq<Batch>

  predicate Partitioned(round: Round) {
    forall i, j | 0 <= i < j < |round| :: round[i].p != round[j].p
  }

  /** The error after the first `n` partitions of the round. */
  function RoundError(round: Round, f: Commits, n: nat): bool
    requires n <= |round|
  {
    if n == 0 then false else ErrorAfter(round[n - 1], f, |round[n - 1].records|, RoundError(round, f, n - 1))
  }

  type Offsets = map<nat, nat>

  function OffsetOf(m: Offsets, p: nat): nat {
    if p in m then m[p] else 0
  }

  /** The committed offsets after the first `n` partitions of the round. */
  function RoundCommitted(round: Round, f: Commits, n: nat, before: Offsets): Offsets
    requires n <= |round|
  {
    if n == 0 then before else
    var b, m := round[n - 1], RoundCommitted(round, f, n - 1, before);
    m[b.p := CommittedAfter(b, f, |b.records|, OffsetOf(m, b.p))]
  }

  method PollRound(round: Round, f: Commits, before: Offsets) returns (committed: Offsets, commitErr: bool)
    ensures committed == RoundCommitted(round, f, |round|, before)
    ensures commitErr == RoundError(round, f, |round|)
  {
    committed, commitErr := before, false;
    for i := 0 to |round|
      invariant committed == RoundCommitted(round, f, i, before)
      invariant commitErr == RoundError(round, f, i)
    {
      var after, err, _ := PollPartition(round[i], f, OffsetOf(committed, round[i].p), commitErr);
      committed, commitErr := committed[round[i].p := after], err;
    }
  }

  // ---------- whole runs ----------

  function CommittedBy(rounds: seq<Round>, f: Commits): Offsets {
    if rounds == [] then map[] else
    var last := rounds[|rounds| - 1];
    RoundCommitted(last, f, |last|, CommittedBy(rounds[..|rounds| - 1], f))
  }

  /** Run: rounds until one ends with a commit error. */
  method Run(rounds: seq<Round>, f: Commits) returns (done: nat, committed: Offsets, failed: bool)
    ensures done <= |rounds| && committed == CommittedBy(rounds[..done], f)
    ensures forall r | 0 <= r < (if failed then done - 1 else done) :: !RoundError(rounds[r], f, |rounds[r]|)
    ensures failed ==> done > 0 && RoundError(rounds[done - 1], f, |rounds[done - 1]|)
    ensures !failed ==> done == |rounds|
  {
    done, committed, failed := 0, map[], false;
    while done < |rounds|
      invariant done <= |rounds| && committed == CommittedBy(rounds[..done], f)
      invariant forall r | 0 <= r < done :: !RoundError(rounds[r], f, |rounds[r]|)
    {
      var err;
      committed, err := PollRound(rounds[done], f, committed);
      assert rounds[..done + 1][..done] == rounds[..done];
      done := done + 1;
      if err {
        failed := true;
        return;
      }
    }
  }

  function InRound(round: Round, p: nat, at: nat): nat {
    if round == [] then at else
    var b := round[|round| - 1];
    InRound(round[..|round| - 1], p, at) + if b.p == p then |b.records| else 0
  }

  /** Where the next batch of partition `p` begins: the client's position moves on with every batch fetched. */
  function Position(rounds: seq<Round>, p: nat): nat {
    if rounds == [] then 0 else InRound(rounds[|rounds| - 1], p, Position(rounds[..|rounds| - 1], p))
  }

  /** Without a restart every partition is fetched gap-free, batch after batch. */
  predicate Consecutive(rounds: seq<Round>) {
    rounds == [] ||
    (var init, last := rounds[..|rounds| - 1], rounds[|rounds| - 1];
     Consecutive(init) && Partitioned(last) && forall b | b in last :: b.start == Position(init, b.p))
  }

  /** In some round the commit of the record at this offset takes effect. */
  predicate CommitsOffset(round: Round, f: Commits, p: nat, o: nat) {
    exists b :: b in round && b.p == p && b.start <= o < b.start + |b.records| && CommitsAt(b, f, o - b.start)
  }

  predicate EverCommits(rounds: seq<Round>, f: Commits, p: nat, o: nat) {
    exists r :: 0 <= r < |rounds| && CommitsOffset(rounds[r], f, p, o)
  }

  /** `m` is just behind the last offset of `p` whose commit took effect. */
  ghost predicate Behind(rounds: seq<Round>, f: Commits, p: nat, m: nat) {
    && (m == 0 || EverCommits(rounds, f, p, m - 1))
    && (forall o: nat | EverCommits(rounds, f, p, o) :: o < m)
  }

  lemma {:induction false} BatchBehind(b: Batch, f: Commits, n: nat, before: nat)
    requires n <= |b.records| && before <= b.start
    ensures var m := CommittedAfter(b, f, n, before);
      && m <= b.start + n
      && (m == before || (b.start < m && CommitsAt(b, f, m - 1 - b.start)))
      && (forall j | 0 <= j < n && CommitsAt(b, f, j) :: b.start + j < m)
  {
    if n > 0 { BatchBehind(b, f, n - 1, before); }
  }

  /** What a round makes of one partition: its one batch, if any, is applied. */
  lemma {:induction false} RoundOf(round: Round, f: Commits, n: nat, before: Offsets, p: nat)
    requires n <= |round| && Partitioned(round)
    ensures (forall i | 0 <= i < n :: round[i].p != p) ==>
      OffsetOf(RoundCommitted(round, f, n, before), p) == OffsetOf(before, p)
    ensures forall i | 0 <= i < n && round[i].p == p ::
      OffsetOf(RoundCommitted(round, f, n, before), p) ==
        CommittedAfter(round[i], f, |round[i].records|, OffsetOf(before, p))
  {
    if n > 0 { RoundOf(round, f, n - 1, before, p); }
  }

  lemma {:induction false} InRoundGrows(round: Round, p: nat, at: nat)
    requires Partitioned(round)
    ensures (forall i | 0 <= i < |round| :: round[i].p != p) ==> InRound(round, p, at) == at
    ensures forall i | 0 <= i < |round| && round[i].p == p :: InRound(round, p, at) == at + |round[i].records|
  {
    if round != [] { InRoundGrows(round[..|round| - 1], p, at); }
  }

  lemma EverSnoc(rounds: seq<Round>, f: Commits, p: nat, o: nat)
    requires rounds != []
    ensures EverCommits(rounds, f, p, o) <==>
      EverCommits(rounds[..|rounds| - 1], f, p, o) || CommitsOffset(rounds[|rounds| - 1], f, p, o)
  {
    var init := rounds[..|rounds| - 1];
    if EverCommits(rounds, f, p, o) {
      var r :| 0 <= r < |rounds| && CommitsOffset(rounds[r], f, p, o);
      if r < |init| { assert init[r] == rounds[r]; }
    }
    if EverCommits(init, f, p, o) {
      var r :| 0 <= r < |init| && CommitsOffset(init[r], f, p, o);
      assert rounds[r] == init[r];
    }
  }

  lemma OwnBatch(round: Round, f: Commits, i: nat, o: nat)
    requires i < |round| && Partitioned(round)
    ensures CommitsOffset(round, f, round[i].p, o) <==>
      round[i].start <= o < round[i].start + |round[i].records| && CommitsAt(round[i], f, o - round[i].start)
  {
    if CommitsOffset(round, f, round[i].p, o) {
      var b :| b in round && b.p == round[i].p && b.start <= o < b.start + |b.records| && CommitsAt(b, f, o - b.start);
      var j :| 0 <= j < |round| && round[j] == b;
      assert i == j;
    }
  }

  lemma NoBatch(round: Round, f: Commits, p: nat, o: nat)
    requires forall i | 0 <= i < |round| :: round[i].p != p
    ensures !CommitsOffset(round, f, p, o)
  {
  }

  lemma BatchMore(rounds: seq<Round>, f: Commits, i: nat, before: nat)
    requires rounds != [] && i < |rounds[|rounds| - 1]| && Partitioned(rounds[|rounds| - 1])
    requires var b := rounds[|rounds| - 1][i]; before <= b.start && Behind(rounds[..|rounds| - 1], f, b.p, before)
    ensures var b := rounds[|rounds| - 1][i]; var m := CommittedAfter(b, f, |b.records|, before);
      Behind(rounds, f, b.p, m) && m <= b.start + |b.records|
  {
    var init, last := rounds[..|rounds| - 1], rounds[|rounds| - 1];
    var b := last[i];
    BatchBehind(b, f, |b.records|, before);
    forall o: nat
      ensures EverCommits(rounds, f, b.p, o) <==>
        EverCommits(init, f, b.p, o) || (b.start <= o < b.start + |b.records| && CommitsAt(b, f, o - b.start))
    {
      EverSnoc(rounds, f, b.p, o);
      OwnBatch(last, f, i, o);
    }
  }

  lemma OneRoundMore(rounds: seq<Round>, f: Commits, p: nat)
    requires Consecutive(rounds) && rounds != []
    requires var init := rounds[..|rounds| - 1]; var m := OffsetOf(CommittedBy(init, f), p);
      Behind(init, f, p, m) && m <= Position(init, p)
    ensures var m := OffsetOf(CommittedBy(rounds, f), p); Behind(rounds, f, p, m) && m <= Position(rounds, p)
  {
    var init, last := rounds[..|rounds| - 1], rounds[|rounds| - 1];
    RoundOf(last, f, |last|, CommittedBy(init, f), p);
    InRoundGrows(last, p, Position(init, p));
    if i :| 0 <= i < |last| && last[i].p == p {
      BatchMore(rounds, f, i, OffsetOf(CommittedBy(init, f), p));
    } else {
      forall o: nat ensures EverCommits(rounds, f, p, o) <==> EverCommits(init, f, p, o) {
        EverSnoc(rounds, f, p, o);
        NoBatch(last, f, p, o);
      }
    }
  }

  /** The committed offset of each partition is just behind the last commit that took effect, in whatever round. */
  lemma {:induction false} CommittedBehind(rounds: seq<Round>, f: Commits, p: nat)
    requires Consecutive(rounds)
    ensures var m := OffsetOf(CommittedBy(rounds, f), p); Behind(rounds, f, p, m) && m <= Position(rounds, p)
  {
    if rounds != [] {
      CommittedBehind(rounds[..|rounds| - 1], f, p);
      OneRoundMore(rounds, f, p);
    }
  }

  // ---------- records passed over ----------

  /** Batch `b` of partition `b.p` was fetched in some round and has the record at offset `o`. */
  predicate Fetched(rounds: seq<Round>, b: Batch, o: nat) {
    b.start <= o < b.start + |b.records| && exists r :: 0 <= r < |rounds| && b in rounds[r]
  }

  lemma {:induction false} BatchesEnd(rounds: seq<Round>, r: nat, b: Batch)
    requires Consecutive(rounds) && r < |rounds| && b in rounds[r]
    ensures b.start + |b.records| <= Position(rounds, b.p)
  {
    var init, last := rounds[..|rounds| - 1], rounds[|rounds| - 1];
    var i :| 0 <= i < |rounds[r]| && rounds[r][i] == b;
    InRoundGrows(last, b.p, Position(init, b.p));
    if r < |init| {
      assert init[r] == rounds[r];
      BatchesEnd(init, r, b);
      if j :| 0 <= j < |last| && last[j].p == b.p { }
    }
  }

  /** No offset of a partition is fetched twice. */
  lemma {:induction false} FetchedOnce(rounds: seq<Round>, r: nat, a: Batch, q: nat, b: Batch, o: nat)
    requires Consecutive(rounds) && r < |rounds| && a in rounds[r] && q < |rounds| && b in rounds[q] && a.p == b.p
    requires a.start <= o < a.start + |a.records| && b.start <= o < b.start + |b.records|
    ensures a == b
  {
    var init, last := rounds[..|rounds| - 1], rounds[|rounds| - 1];
    if r < |init| && q < |init| {
      assert init[r] == rounds[r] && init[q] == rounds[q];
      FetchedOnce(init, r, a, q, b, o);
    } else if r < |init| {
      assert init[r] == rounds[r];
      BatchesEnd(init, r, a);
    } else if q < |init| {
      assert init[q] == rounds[q];
      BatchesEnd(init, q, b);
    } else {
      var i, j :| 0 <= i < |last| && last[i] == a && 0 <= j < |last| && last[j] == b;
      assert i == j;
    }
  }

  lemma NeverCommitted(rounds: seq<Round>, f: Commits, b: Batch, o: nat)
    requires Consecutive(rounds) && Fetched(rounds, b, o) && !CommitsAt(b, f, o - b.start)
    ensures !EverCommits(rounds, f, b.p, o)
  {
    if EverCommits(rounds, f, b.p, o) {
      var q :| 0 <= q < |rounds| && CommitsOffset(rounds[q], f, b.p, o);
      var a :| a in rounds[q] && a.p == b.p && a.start <= o < a.start + |a.records| && CommitsAt(a, f, o - a.start);
      var r :| 0 <= r < |rounds| && b in rounds[r];
      FetchedOnce(rounds, r, b, q, a, o);
    }
  }

  ghost predicate LaterCommits(rounds: seq<Round>, f: Commits, p: nat, o: nat) {
    exists later: nat :: later > o && EverCommits(rounds, f, p, later)
  }

  /**
   * A fetched record whose own commit did not take effect (its handling failed, it was never reached, or the commit
   * was refused) lies below the committed offset, never to be redelivered, if and only if a later record of its
   * partition commits, in this round or any other.
   */
  lemma PassedOverIff(rounds: seq<Round>, f: Commits, b: Batch, o: nat)
    requires Consecutive(rounds) && Fetched(rounds, b, o) && !CommitsAt(b, f, o - b.start)
    ensures o < OffsetOf(CommittedBy(rounds, f), b.p) <==> LaterCommits(rounds, f, b.p, o)
  {
    CommittedBehind(rounds, f, b.p);
    NeverCommitted(rounds, f, b, o);
    var m := OffsetOf(CommittedBy(rounds, f), b.p);
    if o < m {
      assert m - 1 != o;
      assert EverCommits(rounds, f, b.p, m - 1);
    }
  }

  /** In particular one whose handling failed. */
  lemma FailedRecordSkippedIff(rounds: seq<Round>, f: Commits, b: Batch, o: nat)
    requires Consecutive(rounds) && Fetched(rounds, b, o)
    requires Handled(b, f, o - b.start) && b.records[o - b.start] == Failing
    ensures o < OffsetOf(CommittedBy(rounds, f), b.p) <==> LaterCommits(rounds, f, b.p, o)
  {
    PassedOverIff(rounds, f, b, o);
  }

  /** A record ends its batch: nobody handles it, or its commit failed for good. */
  predicate EndsBatch(b: Batch, f: Commits, j: nat) {
    Committing(b, f, j) && (b.records[j] == Unroutable || !Fine(f, b.p, b.start + j))
  }

  /**
   * Behind the record that ends a batch nothing is handled, and those records are lost to this consumer if and only if
   * a later record of the partition commits.
   */
  lemma AbandonedTailSkippedIff(rounds: seq<Round>, f: Commits, b: Batch, j: nat, o: nat)
    requires Consecutive(rounds) && Fetched(rounds, b, o) && EndsBatch(b, f, j) && b.start + j < o
    ensures !Handled(b, f, o - b.start)
    ensures o < OffsetOf(CommittedBy(rounds, f), b.p) <==> LaterCommits(rounds, f, b.p, o)
  {
    NothingBeyond(b, f, j, |b.records|, 0, false);
    PassedOverIff(rounds, f, b, o);
  }

  // ---------- the error of a round ----------

  predicate Silent(b: Batch, f: Commits, from: nat, to: nat) {
    forall j | from <= j < to :: !Committing(b, f, j)
  }

  lemma {:induction false} SilenceKeepsError(b: Batch, f: Commits, n: nat, before: bool)
    requires n <= |b.records| && Silent(b, f, 0, n)
    ensures ErrorAfter(b, f, n, before) == before
  {
    if n > 0 { SilenceKeepsError(b, f, n - 1, before); }
  }

  lemma {:induction false} LastCommitDecides(b: Batch, f: Commits, j: nat, n: nat, before: bool)
    requires j < n <= |b.records| && Committing(b, f, j) && Silent(b, f, j + 1, n)
    ensures ErrorAfter(b, f, n, before) == !Fine(f, b.p, b.start + j)
  {
    if j < n - 1 { LastCommitDecides(b, f, j, n - 1, before); }
  }

  /**
   * A failed commit stops the consumer only if no later partition of the round commits anything: the error reported
   * is that of the last commit of the last partition that made one.
   */
  lemma {:induction false} LastPartitionDecides(round: Round, f: Commits, i: nat, j: nat, n: nat)
    requires i < n <= |round| && j < |round[i].records|
    requires Committing(round[i], f, j) && Silent(round[i], f, j + 1, |round[i].records|)
    requires forall q | i < q < n :: Silent(round[q], f, 0, |round[q].records|)
    ensures RoundError(round, f, n) == !Fine(f, round[i].p, round[i].start + j)
  {
    if i == n - 1 {
      LastCommitDecides(round[i], f, j, |round[i].records|, RoundError(round, f, i));
    } else {
      LastPartitionDecides(round, f, i, j, n - 1);
      SilenceKeepsError(round[n - 1], f, |round[n - 1].records|, RoundError(round, f, n - 1));
    }
  }

  /**
   * So a batch ended by a failed commit goes unnoticed, and its tail is not handled, when a later partition of the
   * round ends with a commit that succeeds: Run goes on to the next round.
   */
  lemma CommitErrorMasked(round: Round, f: Commits, i: nat, j: nat, q: nat, l: nat)
    requires i < q == |round| - 1 && EndsBatch(round[i], f, j) && !Fine(f, round[i].p, round[i].start + j)
    requires Committing(round[q], f, l) && Fine(f, round[q].p, round[q].start + l)
    requires Silent(round[q], f, l + 1, |round[q].records|)
    ensures !RoundError(round, f, |round|)
    ensures forall o | j < o < |round[i].records| :: !Handled(round[i], f, o)
  {
    LastPartitionDecides(round, f, q, l, |round|);
    NothingBeyond(round[i], f, j, |round[i].records|, 0, false);
  }
}
