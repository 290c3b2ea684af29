/**
 * The two delay queues and the delay flusher of Protocol are the same thing: what the queues hold, publish and clear is
 * what the flusher's steps make of the items, call by call and for every combination of replies.
 */
module Flushes {
  import opened Base
  import opened Protocol
  import opened DelayCodec
  import opened DelayQueue
  import Durable = DurableQueue
  import Provenance
  import Atomic

  type Text = string -> Bytes

  /** The replies to produce, row deletion and removal of each item. */
  type Answers = nat -> (Reply, Reply, Reply)

  // ---------- items and messages as bytes ----------

  function ValueFor(utf8: Text, item: Item): Value {
    Value(Some(item.hash), Some(utf8(item.text)), Some(item.msgKey), item.publishAt)
  }

  function ValuesFor(utf8: Text, items: seq<Item>): seq<Value> {
    seq(|items|, i requires 0 <= i < |items| => ValueFor(utf8, items[i]))
  }

  /** The topic as bytes, and the rows. */
  function Seen(utf8: Text, w: World): Effects {
    Effects(seq(|w.out|, i requires 0 <= i < |w.out| => Message(w.out[i].key, utf8(w.out[i].text))), w.rows)
  }

  // ---------- the flusher's steps ----------

  /** The flusher run through its items, the calls for item `i` answered as `f` says. */
  function RunFlush(c: Setup, w: World, at: Fpc, i: nat, f: Answers): World
    decreases Atomic.FlushesLeft(at)
  {
    if at.Quiet? then w else
    var r := match at case Flush(_, _) => f(i).0 case Clear(_, _) => f(i).1 case Dequeue(_, _) => f(i).2;
    Atomic.FlushesRunOut(c, w, at, r);
    var (v, next) := FlusherStep(c, w, at, r);
    RunFlush(c, v, next, if next.Flush? || next.Quiet? then i + 1 else i, f)
  }

  /** What the calls for one item leave of the world. */
  function Flown(c: Setup, w: World, item: Item, f: (Reply, Reply, Reply)): World {
    w.(out := if c.producer && f.0.Took()
              then w.out + [Sent(Delayed, item.msgKey, item.text, "", item.hash, item.cells)] else w.out,
       rows := if (c.producer ==> f.0.Fine()) && f.1.Took() then w.rows - {item.hash} else w.rows,
       queue := if c.durable && f.2.Took() then Without(w.queue, item) else w.queue)
  }

  lemma RunStep(c: Setup, w: World, at: Fpc, i: nat, f: Answers)
    requires !at.Quiet?
    ensures var r := match at case Flush(_, _) => f(i).0 case Clear(_, _) => f(i).1 case Dequeue(_, _) => f(i).2;
      var (v, next) := FlusherStep(c, w, at, r);
      RunFlush(c, w, at, i, f) == RunFlush(c, v, next, if next.Flush? || next.Quiet? then i + 1 else i, f)
  {
  }

  lemma RunDequeue(c: Setup, w: World, item: Item, rest: seq<Item>, i: nat, f: Answers)
    requires c.durable
    ensures RunFlush(c, w, Dequeue(item, rest), i, f) ==
      RunFlush(c, if f(i).2.Took() then w.(queue := Without(w.queue, item)) else w, NextItem(rest), i + 1, f)
  {
    RunStep(c, w, Dequeue(item, rest), i, f);
  }

  lemma RunClear(c: Setup, w: World, item: Item, rest: seq<Item>, i: nat, f: Answers)
    ensures RunFlush(c, w, Clear(item, rest), i, f) ==
      RunFlush(c, w.(rows := if f(i).1.Took() then w.rows - {item.hash} else w.rows,
        queue := if c.durable && f(i).2.Took() then Without(w.queue, item) else w.queue), NextItem(rest), i + 1, f)
  {
    RunStep(c, w, Clear(item, rest), i, f);
    if c.durable { RunDequeue(c, FlusherStep(c, w, Clear(item, rest), f(i).1).0, item, rest, i, f); }
  }

  lemma RunOne(c: Setup, w: World, item: Item, rest: seq<Item>, i: nat, f: Answers)
    ensures RunFlush(c, w, Fpc.Flush(item, rest), i, f) ==
      RunFlush(c, Flown(c, w, item, f(i)), NextItem(rest), i + 1, f)
  {
    RunStep(c, w, Fpc.Flush(item, rest), i, f);
    var v := FlusherStep(c, w, Fpc.Flush(item, rest), f(i).0).0;
    if c.producer ==> f(i).0.Fine() {
      RunClear(c, v, item, rest, i, f);
    } else if c.durable {
      RunDequeue(c, v, item, rest, i, f);
    }
  }

  /** The items flown one after the other. */
  function FlownAll(c: Setup, w: World, items: seq<Item>, f: Answers): World {
    if items == [] then w else
    var n := |items| - 1;
    Flown(c, FlownAll(c, w, items[..n], f), items[n], f(n))
  }

  lemma {:induction false} RunFrom(c: Setup, w: World, items: seq<Item>, i: nat, f: Answers)
    requires i <= |items|
    ensures RunFlush(c, FlownAll(c, w, items[..i], f), NextItem(items[i..]), i, f) == FlownAll(c, w, items, f)
    decreases |items| - i
  {
    if i == |items| {
      assert items[..i] == items;
    } else {
      assert items[i..][0] == items[i] && items[i..][1..] == items[i + 1..] && items[..i + 1][..i] == items[..i];
      RunOne(c, FlownAll(c, w, items[..i], f), items[i], items[i + 1..], i, f);
      RunFrom(c, w, items, i + 1, f);
    }
  }

  lemma FlushIsFlown(c: Setup, w: World, items: seq<Item>, f: Answers)
    ensures RunFlush(c, w, NextItem(items), 0, f) == FlownAll(c, w, items, f)
  {
    RunFrom(c, w, items, 0, f);
    assert items[0..] == items && items[..0] == [];
  }

  // ---------- and the queues' ----------

  lemma FlownIsAttempt(c: Setup, w: World, item: Item, f: (Reply, Reply, Reply), utf8: Text)
    ensures Seen(utf8, Flown(c, w, item, f)) ==
      Attempt(Seen(utf8, w), ValueFor(utf8, item), c.producer, true, f.0, f.1)
  {
  }

  lemma {:induction false} FlownAreAttempts(c: Setup, w: World, items: seq<Item>, f: Answers, utf8: Text)
    ensures Seen(utf8, FlownAll(c, w, items, f)) ==
      AttemptAll(Seen(utf8, w), ValuesFor(utf8, items), c.producer, true, (i: nat) => (f(i).0, f(i).1))
  {
    if items != [] {
      var n := |items| - 1;
      FlownAreAttempts(c, w, items[..n], f, utf8);
      FlownIsAttempt(c, FlownAll(c, w, items[..n], f), items[n], f(n), utf8);
      assert ValuesFor(utf8, items)[..n] == ValuesFor(utf8, items[..n]);
    }
  }

  lemma {:induction false} MemoryStays(c: Setup, w: World, items: seq<Item>, f: Answers)
    requires !c.durable
    ensures FlownAll(c, w, items, f).queue == w.queue
  {
    if items != [] { MemoryStays(c, w, items[..|items| - 1], f); }
  }

  lemma {:induction false} DueSnoc(queue: seq<Item>, item: Item, now: int)
    ensures Provenance.Due(queue + [item], now) ==
      Provenance.Due(queue, now) + if item.publishAt <= now then [item] else []
    ensures Provenance.Later(queue + [item], now) ==
      Provenance.Later(queue, now) + if item.publishAt <= now then [] else [item]
  {
    if queue != [] {
      assert (queue + [item])[1..] == queue[1..] + [item];
      DueSnoc(queue[1..], item, now);
    } else {
      assert [] + [item] == [item] && [item][1..] == [];
    }
  }

  lemma {:induction false} DueIs(queue: seq<Item>, now: int, utf8: Text)
    ensures ValuesFor(utf8, Provenance.Due(queue, now)) == DueOf(ValuesFor(utf8, queue), now)
    ensures ValuesFor(utf8, Provenance.Later(queue, now)) == KeptOf(ValuesFor(utf8, queue), now)
  {
    if queue != [] {
      var n := |queue| - 1;
      DueIs(queue[..n], now, utf8);
      DueSnoc(queue[..n], queue[n], now);
      assert queue == queue[..n] + [queue[n]];
      assert ValuesFor(utf8, queue)[..n] == ValuesFor(utf8, queue[..n]);
    }
  }

  /**
   * The in-memory queue: polled at `now`, the flusher takes the items the queue's flush takes, leaves those it keeps,
   * and publishes and clears, call by call, what the flush does.
   */
  lemma MemoryFlushIsFlusher(c: Setup, w: World, now: int, f: Answers, utf8: Text)
    requires !c.durable
    ensures var polled := w.(queue := Provenance.Later(w.queue, now));
      var v := RunFlush(c, polled, NextItem(Provenance.Due(w.queue, now)), 0, f);
      var values := ValuesFor(utf8, w.queue);
      && ValuesFor(utf8, v.queue) == KeptOf(values, now)
      && Seen(utf8, v) ==
           AttemptAll(Seen(utf8, w), DueOf(values, now), c.producer, true, (i: nat) => (f(i).0, f(i).1))
  {
    var due, polled := Provenance.Due(w.queue, now), w.(queue := Provenance.Later(w.queue, now));
    FlushIsFlown(c, polled, due, f);
    FlownAreAttempts(c, polled, due, f, utf8);
    MemoryStays(c, polled, due, f);
    DueIs(w.queue, now, utf8);
    assert Seen(utf8, polled) == Seen(utf8, w);
  }

  // ---------- the durable queue ----------

  /** The members of the set that holds these items. */
  function MembersOf(utf8: Text, items: seq<Item>): set<string> {
    set i | i in items :: Member(DelayedOf(i, utf8))
  }

  lemma WithoutMember(utf8: Text, queue: seq<Item>, item: Item)
    requires Faithful(utf8)
    ensures MembersOf(utf8, Without(queue, item)) == MembersOf(utf8, queue) - {Member(DelayedOf(item, utf8))}
  {
    var left := Without(queue, item);
    WithoutOthers(queue, item);
    forall i | i in queue ensures Member(DelayedOf(i, utf8)) == Member(DelayedOf(item, utf8)) <==> SameMember(i, item) {
      MergesIff(i, item, utf8);
    }
  }

  /** Scheduling a join adds its member. */
  lemma EnqueuedMember(c: Setup, utf8: Text, queue: seq<Item>, item: Item)
    requires c.durable && Faithful(utf8)
    ensures MembersOf(utf8, Enqueued(c, queue, item)) == MembersOf(utf8, queue) + {Member(DelayedOf(item, utf8))}
  {
    WithoutMember(utf8, queue, item);
    var m := Member(DelayedOf(item, utf8));
    forall x
      ensures x in MembersOf(utf8, Enqueued(c, queue, item)) <==> x in MembersOf(utf8, Without(queue, item)) + {m}
    {
    }
  }

  function Delayeds(utf8: Text, items: seq<Item>): seq<DelayedJoin> {
    seq(|items|, i requires 0 <= i < |items| => DelayedOf(items[i], utf8))
  }

  lemma {:induction false} FlownLeaves(c: Setup, w: World, items: seq<Item>, f: Answers, utf8: Text)
    requires c.durable && Faithful(utf8)
    ensures MembersOf(utf8, FlownAll(c, w, items, f).queue) ==
      MembersOf(utf8, w.queue) - Durable.Removed(Durable.Members(Delayeds(utf8, items)), f)
  {
    if items != [] {
      var n := |items| - 1;
      FlownLeaves(c, w, items[..n], f, utf8);
      WithoutMember(utf8, FlownAll(c, w, items[..n], f).queue, items[n]);
      var members := Durable.Members(Delayeds(utf8, items));
      assert members[..n] == Durable.Members(Delayeds(utf8, items[..n]));
      assert members[n] == Member(DelayedOf(items[n], utf8));
    }
  }

  lemma {:induction false} FlownAreRounds(c: Setup, w: World, items: seq<Item>, f: Answers, utf8: Text)
    ensures Seen(utf8, FlownAll(c, w, items, f)) ==
      Durable.Rounds(Seen(utf8, w), Durable.Members(Delayeds(utf8, items)), c.producer, true, f)
  {
    if items != [] {
      var n := |items| - 1;
      FlownAreRounds(c, w, items[..n], f, utf8);
      FlownIsAttempt(c, FlownAll(c, w, items[..n], f), items[n], f(n), utf8);
      ParseMember(DelayedOf(items[n], utf8));
      assert Durable.Members(Delayeds(utf8, items))[..n] == Durable.Members(Delayeds(utf8, items[..n]));
    }
  }

  /**
   * The durable queue: the flusher, given the items of the members that the set answered with, publishes and clears,
   * call by call, what the queue's flush does, and leaves the members that it leaves.
   */
  lemma DurableFlushIsFlusher(c: Setup, w: World, items: seq<Item>, f: Answers, utf8: Text)
    requires c.durable && Faithful(utf8)
    ensures var v, members := RunFlush(c, w, NextItem(items), 0, f), Durable.Members(Delayeds(utf8, items));
      && Seen(utf8, v) == Durable.Rounds(Seen(utf8, w), members, c.producer, true, f)
      && MembersOf(utf8, v.queue) == MembersOf(utf8, w.queue) - Durable.Removed(members, f)
  {
    FlushIsFlown(c, w, items, f);
    FlownAreRounds(c, w, items, f, utf8);
    FlownLeaves(c, w, items, f, utf8);
  }
}
