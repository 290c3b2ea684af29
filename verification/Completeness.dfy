/**
 * What counting participants means over whole runs: when the delivered records come from the configured streams, all
 * distinct, every join that is published covers exactly these; a configuration that lists a stream twice never joins
 * its own streams; and one stray stream name is enough for a join that misses a configured stream.
 */
module Completeness {
  import opened Base
  import opened JoinConfig
  import opened Projection
  import opened Protocol
  import opened SerialRuns
  import Engine

  /** Every delivered record names one of these streams. */
  predicate Delivers(actions: seq<Provenance.Action>, names: set<string>) {
    forall a | a in actions && a.Deliver? :: a.e.stream in names
  }

  // ---------- configured streams only ----------

  /** Reachable rows hold cells of delivered streams only. */
  lemma RowsConfigured(c: Setup, actions: seq<Provenance.Action>, names: set<string>, h: Hash)
    requires Delivers(actions, names) && h in Provenance.Run(c, actions).w.rows
    ensures Provenance.Run(c, actions).w.rows[h].cells.Keys <= names
  {
    var s := Provenance.Run(c, actions);
    Provenance.RunKeeps(c, actions);
    forall st | st in s.w.rows[h].cells ensures st in names {
      Provenance.KnownWasConsumed(c, actions, Provenance.Fact(h, st, s.w.rows[h].cells[st]));
    }
  }

  /** So every published join has exactly the configured streams, which is what "complete" is meant to say. */
  lemma JoinsCoverStreams(c: Setup, actions: seq<Provenance.Action>, i: nat)
    requires c.join.DistinctStreams() && Delivers(actions, c.join.Streams())
    requires i < |Provenance.Run(c, actions).w.out|
    ensures var m := Provenance.Run(c, actions).w.out[i];
      (m.kind == Main || m.kind == Delayed <==> m.cells.Keys == c.join.Streams()) && m.cells.Keys <= c.join.Streams()
  {
    var m := Provenance.Run(c, actions).w.out[i];
    Provenance.PublishedWasConsumed(c, actions, i);
    Provenance.JoinsAreComplete(c, actions, i);
    forall st | st in m.cells ensures st in c.join.Streams() {
      assert Provenance.Consumed(actions, m.hash, st, m.cells[st]);
    }
    CompleteMeansAllStreamsIff(c.join);
    assert |m.cells| == |m.cells.Keys|;
    assert |m.cells.Keys| >= c.N() <==> m.cells.Keys == c.join.Streams();
  }

  /** And on a complete row every projection entry of a validated configuration finds its stream. */
  lemma CompleteRowsProject(c: Setup, actions: seq<Provenance.Action>, h: Hash, p: ProjectionField)
    requires Valid(c.join) && c.join.DistinctStreams() && Delivers(actions, c.join.Streams())
    requires h in Provenance.Run(c, actions).w.rows && p in c.join.projection
    requires Engine.IsComplete(c.join, RowAt(Provenance.Run(c, actions).w, h))
    ensures p.stream in Provenance.Run(c, actions).w.rows[h].cells
  {
    RowsConfigured(c, actions, c.join.Streams(), h);
    Engine.NoStreamMissing(c.join, RowAt(Provenance.Run(c, actions).w, h), p);
  }

  // ---------- any N names make a join ----------

  /** One record of each named stream, all with the same key and payload. */
  function OneEach(streams: seq<string>, payload: Payload): (es: seq<Event>)
    ensures |es| == |streams|
  {
    seq(|streams|, i requires 0 <= i < |streams| => Event([], "", streams[i], payload, []))
  }

  lemma StreamsOfEach(streams: seq<string>, payload: Payload)
    ensures StreamsOf(OneEach(streams, payload)) == Elements(streams)
  {
    var es := OneEach(streams, payload);
    forall st | st in streams ensures st in StreamsOf(es) {
      var i :| 0 <= i < |streams| && streams[i] == st;
      assert es[i] in es && es[i].stream == st;
    }
  }

  /** A queued join is published by the next flush. */
  lemma QueuedJoins(c: Setup, actions: seq<Provenance.Action>, s: Provenance.System, es: seq<Event>)
    returns (all: seq<Provenance.Action>, m: Sent)
    requires c.producer && Serially(c, actions, s, es) && |s.w.queue| == 1
    ensures Calm(all) && DeliversOnly(all, es)
    ensures m in Provenance.Run(c, all).w.out && m.kind == Delayed && m.cells == s.w.queue[0].cells
  {
    var item := s.w.queue[0];
    assert s.w.queue == [item];
    var poll, flush := Provenance.PollDelays(0, [item], item.publishAt), Provenance.RunFlusher(0, DONE);
    Provenance.RunSnoc(c, actions, poll);
    Provenance.RunSnoc(c, actions + [poll], flush);
    DueAlone(item, item.publishAt);
    all := actions + [poll] + [flush];
    var out := Provenance.Run(c, all).w.out;
    m := out[|out| - 1];
  }

  predicate IsJoin(m: Sent) {
    m.kind == Main || m.kind == Delayed
  }

  /** With a producer, N usable records of different streams and one key get their join published. */
  lemma FullSetJoins(c: Setup, es: seq<Event>, h: Hash) returns (actions: seq<Provenance.Action>, m: Sent)
    requires c.producer && FullSet(c, es, h)
    ensures Calm(actions) && DeliversOnly(actions, es)
    ensures m in Provenance.Run(c, actions).w.out && IsJoin(m) && m.cells.Keys == StreamsOf(es)
  {
    var s;
    actions, s := Ready(c, es, h);
    var call := Provenance.RunHandler(0, DONE);
    OneMore(c, actions, s, es, call);
    if c.Delays() {
      actions, m := QueuedJoins(c, actions + [call], Provenance.Step(c, s, call), es);
    } else {
      actions, m := actions + [call], Provenance.Step(c, s, call).w.out[0];
    }
  }

  /** Any N distinct stream names, configured or not, make a join. */
  lemma NamesMakeJoin(c: Setup, streams: seq<string>, payload: Payload)
    returns (actions: seq<Provenance.Action>, m: Sent)
    requires c.producer && c.decode(payload).Some? && Distinct(streams) && |streams| == c.N() >= 1
    ensures Delivers(actions, Elements(streams))
    ensures m in Provenance.Run(c, actions).w.out && IsJoin(m) && m.cells.Keys == Elements(streams)
  {
    var es := OneEach(streams, payload);
    StreamsOfEach(streams, payload);
    actions, m := FullSetJoins(c, es, []);
    forall a | a in actions && a.Deliver? ensures a.e.stream in Elements(streams) {
      assert a.e.stream in StreamsOf(es);
    }
  }

  /** `n` of the names, as a list. */
  lemma {:induction false} Listing(names: set<string>, n: nat) returns (streams: seq<string>)
    requires n <= |names|
    ensures |streams| == n && Distinct(streams) && Elements(streams) <= names
    decreases n
  {
    if n == 0 {
      streams := [];
    } else {
      var st :| st in names;
      var rest := Listing(names - {st}, n - 1);
      streams := [st] + rest;
      forall o | o in streams ensures o in names { assert o == st || o in Elements(rest); }
      forall j | 0 <= j < |rest| ensures rest[j] != st { assert rest[j] in Elements(rest); }
    }
  }

  /** A join takes N of the names delivered. */
  lemma JoinTakesN(c: Setup, actions: seq<Provenance.Action>, m: Sent, names: set<string>)
    requires Delivers(actions, names) && m in Provenance.Run(c, actions).w.out && IsJoin(m)
    ensures m.cells.Keys <= names && |m.cells.Keys| >= c.N()
  {
    var i :| 0 <= i < |Provenance.Run(c, actions).w.out| && Provenance.Run(c, actions).w.out[i] == m;
    Provenance.PublishedWasConsumed(c, actions, i);
    Provenance.JoinsAreComplete(c, actions, i);
    forall st | st in m.cells ensures st in names {
      assert Provenance.Consumed(actions, m.hash, st, m.cells[st]);
    }
    assert |m.cells| == |m.cells.Keys|;
  }

  // ---------- what that means for the configured streams ----------

  /** Some run in which all stream headers come from `names` publishes a join. */
  ghost predicate JoinsPossible(c: Setup, names: set<string>) {
    exists actions, m :: Delivers(actions, names) && m in Provenance.Run(c, actions).w.out && IsJoin(m)
  }

  /** Joins are possible at all if and only if at least N different stream names are delivered. */
  lemma JoinsPossibleIff(c: Setup, names: set<string>, payload: Payload)
    requires c.producer && c.N() >= 1 && c.decode(payload).Some?
    ensures JoinsPossible(c, names) <==> |names| >= c.N()
  {
    if JoinsPossible(c, names) {
      var actions, m :| Delivers(actions, names) && m in Provenance.Run(c, actions).w.out && IsJoin(m);
      JoinTakesN(c, actions, m, names);
      SubsetCount(m.cells.Keys, names);
    }
    if |names| >= c.N() {
      var streams := Listing(names, c.N());
      var actions, m := NamesMakeJoin(c, streams, payload);
      assert Delivers(actions, names);
    }
  }

  /** A configuration that lists a stream twice never joins its own streams. */
  lemma RepeatedStreamNeverJoins(c: Setup, actions: seq<Provenance.Action>, m: Sent)
    requires !c.join.DistinctStreams() && Delivers(actions, c.join.Streams())
    requires m in Provenance.Run(c, actions).w.out
    ensures !IsJoin(m)
  {
    if IsJoin(m) {
      JoinTakesN(c, actions, m, c.join.Streams());
      SubsetCount(m.cells.Keys, c.join.Streams());
      assert c.join.Streams() == Elements(c.join.streamIDs);
      ElementsCount(c.join.streamIDs);
    }
  }

  /** Whenever all stream headers come from `names`, every published join has all configured streams. */
  ghost predicate JoinsCover(c: Setup, names: set<string>) {
    forall actions, m | Delivers(actions, names) && m in Provenance.Run(c, actions).w.out && IsJoin(m) ::
      c.join.Streams() <= m.cells.Keys
  }

  /** With more than N names delivered, some run publishes a join without a given one of them. */
  lemma StrayHeaderCompletes(c: Setup, names: set<string>, missing: string, payload: Payload)
    returns (actions: seq<Provenance.Action>, m: Sent)
    requires c.producer && c.N() >= 1 && c.decode(payload).Some? && |names| > c.N()
    ensures Delivers(actions, names) && m in Provenance.Run(c, actions).w.out && IsJoin(m) && missing !in m.cells
  {
    var streams := Listing(names - {missing}, c.N());
    actions, m := NamesMakeJoin(c, streams, payload);
    assert missing !in Elements(streams);
  }

  /**
   * Joins cover the configured streams on all runs if and only if no more than N different stream names are delivered:
   * one stray header can complete a row.
   */
  lemma JoinsCoverIff(c: Setup, names: set<string>, payload: Payload)
    requires c.producer && c.N() >= 1 && c.decode(payload).Some? && c.join.Streams() <= names
    ensures JoinsCover(c, names) <==> |names| <= c.N()
  {
    if |names| <= c.N() {
      forall actions, m | Delivers(actions, names) && m in Provenance.Run(c, actions).w.out && IsJoin(m)
        ensures c.join.Streams() <= m.cells.Keys
      {
        JoinTakesN(c, actions, m, names);
        SubsetOfSameSize(m.cells.Keys, names);
      }
    } else {
      var missing := c.join.streamIDs[0];
      var actions, m := StrayHeaderCompletes(c, names, missing, payload);
      assert missing in c.join.Streams();
    }
  }
}
