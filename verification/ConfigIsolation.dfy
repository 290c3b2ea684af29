/**
 * Interleaved configurations behave as if alone if and only if their durable delay queues have different names: two of
 * them under one name, and the records that complete a join of the first leave it in the queue of the second.
 */
module ConfigIsolation {
  import opened Base
  import opened Projection
  import opened Protocol
  import opened RowStore
  import opened RecordHandler
  import opened MultiConfig
  import opened SerialRuns

  type Parser = string -> Option<ConfigID>

  // ---------- records that make a join ----------

  /** The event of a record of this stream and payload. */
  function EventFor(c: Setup, sha: string -> Bytes, stream: string, payload: Payload): Event
    requires c.decode(payload).Some?
  {
    var raw := Keys.RawKey(c.join.key.field, c.join.key.fields, c.decode(payload).value);
    Event(sha(raw), raw, stream, payload, [])
  }

  /** A stream name of this length; so there are as many as needed. */
  function Name(n: nat): (s: string)
    ensures |s| == n
  {
    seq(n, _ => 's')
  }

  function Events(c: Setup, sha: string -> Bytes, n: nat, payload: Payload): (es: seq<Event>)
    requires c.decode(payload).Some?
    ensures |es| == n
  {
    seq(n, i requires 0 <= i < n => EventFor(c, sha, Name(i + 1), payload))
  }

  /** A configuration as the processor builds it, with a payload it decodes. */
  predicate Able(c: Setup, payload: Payload) {
    (c.delayQueue <==> c.join.postJoinDelay > 0) && c.N() >= 1 && c.decode(payload).Some?
  }

  lemma EventsFull(c: Setup, sha: string -> Bytes, payload: Payload) returns (es: seq<Event>, h: Hash)
    requires Able(c, payload)
    ensures FullSet(c, es, h) && forall e | e in es :: e == EventFor(c, sha, e.stream, payload)
  {
    es, h := Events(c, sha, c.N(), payload), EventFor(c, sha, "", payload).hash;
    forall i, j | 0 <= i < j < |es| ensures es[i].stream != es[j].stream { assert |es[i].stream| != |es[j].stream|; }
  }

  // ---------- the acts of one configuration ----------

  /** A record that names the configuration and the stream. */
  function RecordFor(idText: string, stream: string, payload: Payload): RecordHandler.Record {
    RecordHandler.Record([Header(CONFIG_ID_HEADER, idText), Header(STREAM_ID_HEADER, stream)], [], Some(payload))
  }

  lemma RecordIsEvent(p: Processor, parse: Parser, sha: string -> Bytes, id: ConfigID, idText: string, t: nat,
      stream: string, payload: Payload)
    requires id in p.configs && parse(idText) == Some(id) && p.configs[id].decode(payload).Some?
    ensures Aimed(p, parse, sha, Consume(t, RecordFor(idText, stream, payload))) ==
      Some((id, Provenance.Deliver(t, EventFor(p.configs[id], sha, stream, payload))))
  {
    var hs := RecordFor(idText, stream, payload).headers;
    assert hs[1..] == [Header(STREAM_ID_HEADER, stream)];
    assert HeaderValue(hs, STREAM_ID_HEADER) == HeaderValue(hs[1..], STREAM_ID_HEADER);
  }

  /** The act that is this action of the configuration: its records come from the topic. */
  function ActFor(id: ConfigID, idText: string, payload: Payload, a: Provenance.Action): Act {
    if a.Deliver? then Consume(a.t, RecordFor(idText, a.e.stream, payload)) else Work(id, a)
  }

  predicate FromRecords(c: Setup, sha: string -> Bytes, payload: Payload, a: Provenance.Action)
    requires c.decode(payload).Some?
  {
    a.Deliver? ==> a.e == EventFor(c, sha, a.e.stream, payload)
  }

  /** All acts concern this configuration. */
  predicate OnlyAt(p: Processor, parse: Parser, sha: string -> Bytes, acts: seq<Act>, id: ConfigID) {
    acts == [] ||
    (var n := |acts| - 1;
     OnlyAt(p, parse, sha, acts[..n], id)
     && var x := Aimed(p, parse, sha, acts[n]); x.Some? && x.value.0 == id)
  }

  lemma {:induction false} ActsOf(p: Processor, parse: Parser, sha: string -> Bytes, id: ConfigID, idText: string,
      payload: Payload, actions: seq<Provenance.Action>) returns (acts: seq<Act>)
    requires id in p.configs && parse(idText) == Some(id) && p.configs[id].decode(payload).Some?
    requires forall a | a in actions :: FromRecords(p.configs[id], sha, payload, a)
    ensures ActionsOf(p, parse, sha, acts, id) == actions && OnlyAt(p, parse, sha, acts, id)
  {
    if actions == [] {
      acts := [];
    } else {
      var n := |actions| - 1;
      var before := ActsOf(p, parse, sha, id, idText, payload, actions[..n]);
      var a := actions[n];
      var act := ActFor(id, idText, payload, a);
      assert FromRecords(p.configs[id], sha, payload, a);
      if a.Deliver? { RecordIsEvent(p, parse, sha, id, idText, a.t, a.e.stream, payload); }
      acts := before + [act];
      assert acts[..|before|] == before;
      assert actions == actions[..n] + [a];
    }
  }

  lemma {:induction false} OwnRun(p: Processor, parse: Parser, sha: string -> Bytes, acts: seq<Act>, id: ConfigID)
    requires id in p.configs && OnlyAt(p, parse, sha, acts, id)
    ensures SystemOf(p, MultiConfig.Run(p, parse, sha, acts), id) ==
      Provenance.Run(p.configs[id], ActionsOf(p, parse, sha, acts, id))
  {
    if acts == [] {
      InitialSystem(p, id);
    } else {
      var init := acts[..|acts| - 1];
      OwnRun(p, parse, sha, init, id);
      var action := Aimed(p, parse, sha, acts[|acts| - 1]).value.1;
      StepOwn(p, MultiConfig.Run(p, parse, sha, init), id, action);
      Provenance.RunSnoc(p.configs[id], ActionsOf(p, parse, sha, init, id), action);
    }
  }

  lemma {:induction false} NothingElsewhere(p: Processor, parse: Parser, sha: string -> Bytes, acts: seq<Act>,
      id: ConfigID, other: ConfigID)
    requires OnlyAt(p, parse, sha, acts, id) && other != id
    ensures ActionsOf(p, parse, sha, acts, other) == []
  {
    if acts != [] { NothingElsewhere(p, parse, sha, acts[..|acts| - 1], id, other); }
  }

  // ---------- two queues under one name ----------

  /** Some run of a delaying configuration leaves a join in its queue. */
  lemma QueueingRun(c: Setup, sha: string -> Bytes, payload: Payload) returns (actions: seq<Provenance.Action>)
    requires Able(c, payload) && c.Delays()
    ensures Provenance.Run(c, actions).w.queue != []
    ensures forall x | x in actions :: FromRecords(c, sha, payload, x)
  {
    var es, h := EventsFull(c, sha, payload);
    var s;
    actions, s := Ready(c, es, h);
    OneMore(c, actions, s, es, Provenance.RunHandler(0, DONE));
    actions := actions + [Provenance.RunHandler(0, DONE)];
  }

  lemma OneQueue(p: Processor, s: State, a: ConfigID, b: ConfigID)
    requires a in p.configs && b in p.configs && InRedis(p.configs[a]) && InRedis(p.configs[b])
    requires p.configs[a].join.name == p.configs[b].join.name
    ensures SystemOf(p, s, b).w.queue == SystemOf(p, s, a).w.queue
  {
  }

  /** Records of the first configuration alone end up in the queue of the second. */
  lemma SharedNameLeaks(p: Processor, parse: Parser, sha: string -> Bytes, a: ConfigID, b: ConfigID, idText: string,
      payload: Payload) returns (acts: seq<Act>)
    requires a in p.configs && b in p.configs && a != b && InRedis(p.configs[a]) && InRedis(p.configs[b])
    requires p.configs[a].join.name == p.configs[b].join.name
    requires Able(p.configs[a], payload) && parse(idText) == Some(a)
    ensures ActionsOf(p, parse, sha, acts, b) == []
    ensures SystemOf(p, MultiConfig.Run(p, parse, sha, acts), b).w.queue != []
  {
    var actions := QueueingRun(p.configs[a], sha, payload);
    acts := ActsOf(p, parse, sha, a, idText, payload, actions);
    OwnRun(p, parse, sha, acts, a);
    NothingElsewhere(p, parse, sha, acts, a, b);
    OneQueue(p, MultiConfig.Run(p, parse, sha, acts), a, b);
  }

  /** Every configuration behaves, in every interleaved run, as on its own records alone. */
  ghost predicate RunsIsolated(p: Processor, parse: Parser, sha: string -> Bytes) {
    forall acts, id | id in p.configs ::
      SystemOf(p, MultiConfig.Run(p, parse, sha, acts), id) ==
        Provenance.Run(p.configs[id], ActionsOf(p, parse, sha, acts, id))
  }

  /** Interleaved runs decompose by configuration if and only if no two durable delay queues share a name. */
  lemma RunsIsolatedIff(p: Processor, parse: Parser, sha: string -> Bytes, idText: ConfigID -> string, payload: Payload)
    requires forall id | id in p.configs :: Able(p.configs[id], payload) && parse(idText(id)) == Some(id)
    ensures RunsIsolated(p, parse, sha) <==> NamesApart(p)
  {
    if NamesApart(p) {
      forall acts, id | id in p.configs
        ensures SystemOf(p, MultiConfig.Run(p, parse, sha, acts), id) ==
          Provenance.Run(p.configs[id], ActionsOf(p, parse, sha, acts, id))
      {
        ConfigsDecompose(p, parse, sha, acts, id);
      }
    } else {
      var a, b :| a in p.configs && b in p.configs && a != b && InRedis(p.configs[a]) && InRedis(p.configs[b])
        && p.configs[a].join.name == p.configs[b].join.name;
      var acts := SharedNameLeaks(p, parse, sha, a, b, idText(a), payload);
      assert Provenance.Run(p.configs[b], []).w.queue == [];
    }
  }
}
