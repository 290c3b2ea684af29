/**
 * Several join configurations in one processor: rows of join_state_v2 keyed by configuration, Redis keys ending in the
 * configuration's id or, for the delay queue, its name, and records routed by their x-config-id header. Interleaved in
 * any way, each configuration behaves as if it ran alone on its own records when no two durable delay queues share a
 * name. (ConfigIsolation has the converse.)
 */
module MultiConfig {
  import opened Base
  import opened Protocol
  import opened RowStore
  import opened RecordHandler
  import Provenance

  const CONFIG_ID_HEADER := "x-config-id"
  const TIMEOUTS_PREFIX := "omni_joiner:timeouts:"
  const PARTIAL_PREFIX := "omni_joiner:partial:"
  const DELAY_PREFIX := "omni_joiner:delay:"

  /** What all configurations store and publish; `memory` holds the delay queues that are not in Redis. */
  datatype Shared = Shared(
    rowsV2: map<ConfigID, map<Hash, Row>>,
    blooms: map<string, set<Hash>>,
    timeouts: map<string, map<Hash, int>>,
    trackers: map<string, set<Hash>>,
    delays: map<string, seq<Item>>,
    memory: map<ConfigID, seq<Item>>,
    out: seq<(ConfigID, Sent)>)

  /** The processor's configurations, and the base name of their Bloom filters. */
  datatype Processor = Processor(configs: map<ConfigID, Setup>, bloomKey: string)

  function Key(prefix: string, id: string): string {
    prefix + id
  }

  lemma KeyInjective(prefix: string, a: string, b: string)
    requires Key(prefix, a) == Key(prefix, b)
    ensures a == b
  {
    assert Key(prefix, a)[|prefix|..] == a && Key(prefix, b)[|prefix|..] == b;
  }

  function Get<V>(m: map<string, V>, key: string, none: V): V {
    if key in m then m[key] else none
  }

  function InRedis(c: Setup): bool { c.delayQueue && c.durable }

  function QueueOf(c: Setup, id: ConfigID, s: Shared): seq<Item> {
    if InRedis(c) then Get(s.delays, Key(DELAY_PREFIX, c.join.name), []) else Get(s.memory, id, [])
  }

  function Own(out: seq<(ConfigID, Sent)>, id: ConfigID): seq<Sent> {
    if out == [] then [] else
    Own(out[..|out| - 1], id) + if out[|out| - 1].0 == id then [out[|out| - 1].1] else []
  }

  function Tagged(id: ConfigID, ms: seq<Sent>): seq<(ConfigID, Sent)> {
    seq(|ms|, i requires 0 <= i < |ms| => (id, ms[i]))
  }

  /** One configuration's share of it all. */
  function View(p: Processor, s: Shared, id: ConfigID): World
    requires id in p.configs
  {
    World(
      Get(s.rowsV2, id, map[]),
      Get(s.blooms, Key(p.bloomKey + ":", id), {}),
      Get(s.timeouts, Key(TIMEOUTS_PREFIX, id), map[]),
      Get(s.trackers, Key(PARTIAL_PREFIX, id), {}),
      QueueOf(p.configs[id], id, s),
      Own(s.out, id))
  }

  /** Its share replaced; what it published in the meantime is appended to the topic. */
  function Put(p: Processor, s: Shared, id: ConfigID, w: World): Shared
    requires id in p.configs && Own(s.out, id) <= w.out
  {
    var c := p.configs[id];
    Shared(
      s.rowsV2[id := w.rows],
      s.blooms[Key(p.bloomKey + ":", id) := w.bloom],
      s.timeouts[Key(TIMEOUTS_PREFIX, id) := w.timeouts],
      s.trackers[Key(PARTIAL_PREFIX, id) := w.tracker],
      if InRedis(c) then s.delays[Key(DELAY_PREFIX, c.join.name) := w.queue] else s.delays,
      if InRedis(c) then s.memory else s.memory[id := w.queue],
      s.out + Tagged(id, w.out[|Own(s.out, id)|..]))
  }

  lemma {:induction false} OwnTagged(out: seq<(ConfigID, Sent)>, id: ConfigID, ms: seq<Sent>, other: ConfigID)
    ensures Own(out + Tagged(id, ms), other) == if id == other then Own(out, other) + ms else Own(out, other)
  {
    if ms == [] {
      assert out + Tagged(id, ms) == out;
    } else {
      var init, m := ms[..|ms| - 1], ms[|ms| - 1];
      OwnTagged(out, id, init, other);
      assert out + Tagged(id, ms) == (out + Tagged(id, init)) + [(id, m)];
      assert ((out + Tagged(id, init)) + [(id, m)])[..|out + Tagged(id, init)|] == out + Tagged(id, init);
      assert init + [m] == ms;
    }
  }

  /** Reading back one's own share gives what was put. */
  lemma ViewOwn(p: Processor, s: Shared, id: ConfigID, w: World)
    requires id in p.configs && Own(s.out, id) <= w.out
    ensures View(p, Put(p, s, id, w), id) == w
  {
    OwnTagged(s.out, id, w.out[|Own(s.out, id)|..], id);
  }

  /** Configurations keep their Redis delay queues under different keys. */
  predicate NamesApart(p: Processor) {
    forall a, b | a in p.configs && b in p.configs && a != b && InRedis(p.configs[a]) && InRedis(p.configs[b]) ::
      p.configs[a].join.name != p.configs[b].join.name
  }

  lemma KeysApart(p: Processor, id: ConfigID, other: ConfigID)
    requires id != other
    ensures Key(p.bloomKey + ":", id) != Key(p.bloomKey + ":", other)
    ensures Key(TIMEOUTS_PREFIX, id) != Key(TIMEOUTS_PREFIX, other)
    ensures Key(PARTIAL_PREFIX, id) != Key(PARTIAL_PREFIX, other)
  {
    if Key(p.bloomKey + ":", id) == Key(p.bloomKey + ":", other) { KeyInjective(p.bloomKey + ":", id, other); }
    if Key(TIMEOUTS_PREFIX, id) == Key(TIMEOUTS_PREFIX, other) { KeyInjective(TIMEOUTS_PREFIX, id, other); }
    if Key(PARTIAL_PREFIX, id) == Key(PARTIAL_PREFIX, other) { KeyInjective(PARTIAL_PREFIX, id, other); }
  }

  lemma QueueOther(p: Processor, s: Shared, id: ConfigID, w: World, other: ConfigID)
    requires id in p.configs && other in p.configs && id != other && NamesApart(p) && Own(s.out, id) <= w.out
    ensures QueueOf(p.configs[other], other, Put(p, s, id, w)) == QueueOf(p.configs[other], other, s)
  {
    var c, d := p.configs[id], p.configs[other];
    if InRedis(c) && InRedis(d) && Key(DELAY_PREFIX, c.join.name) == Key(DELAY_PREFIX, d.join.name) {
      KeyInjective(DELAY_PREFIX, c.join.name, d.join.name);
    }
  }

  lemma ViewOther(p: Processor, s: Shared, id: ConfigID, w: World, other: ConfigID)
    requires id in p.configs && other in p.configs && id != other && NamesApart(p) && Own(s.out, id) <= w.out
    ensures View(p, Put(p, s, id, w), other) == View(p, s, other)
  {
    KeysApart(p, id, other);
    QueueOther(p, s, id, w, other);
    OwnTagged(s.out, id, w.out[|Own(s.out, id)|..], other);
  }

  const NOTHING := Shared(map[], map[], map[], map[], map[], map[], [])

  // ---------- interleaved runs ----------

  /** What is not shared: the handlers, managers and flushers at work for one configuration. */
  datatype Workers = Workers(
    threads: map<nat, Pc>,
    managers: map<nat, Mpc>,
    flushers: map<nat, Fpc>,
    known: set<Provenance.Fact>)

  const IDLE := Workers(map[], map[], map[], {})

  datatype State = State(shared: Shared, locals: map<ConfigID, Workers>)

  /** A record taken up by handler `t` of whichever configuration it names, or a step of one configuration. */
  datatype Act = Consume(t: nat, rec: Record) | Work(id: ConfigID, action: Provenance.Action)

  /** HandlerResolverFromMap; `parse` is uuid.Parse. */
  function Route(p: Processor, parse: string -> Option<ConfigID>, rec: Record): Option<ConfigID> {
    match HeaderValue(rec.headers, CONFIG_ID_HEADER)
    case None => None
    case Some(v) => (match parse(v) case Some(id) => (if id in p.configs then Some(id) else None) case None => None)
  }

  function SystemOf(p: Processor, s: State, id: ConfigID): Provenance.System
    requires id in p.configs
  {
    var l := if id in s.locals then s.locals[id] else IDLE;
    Provenance.System(View(p, s.shared, id), l.threads, l.managers, l.flushers, l.known)
  }

  /** The act as the configuration it concerns sees it. */
  function Aimed(p: Processor, parse: string -> Option<ConfigID>, sha: string -> Bytes, a: Act): Option<(ConfigID,
      Provenance.Action)> {
    match a
    case Work(id, action) => if id in p.configs then Some((id, action)) else None
    case Consume(t, rec) =>
      (match Route(p, parse, rec)
       case None => None
       case Some(id) =>
         match EventOf(p.configs[id].join, p.configs[id].decode, sha, rec)
         case None => None
         case Some(e) => Some((id, Provenance.Deliver(t, e))))
  }

  lemma OutGrows(c: Setup, s: Provenance.System, a: Provenance.Action)
    ensures s.w.out <= Provenance.Step(c, s, a).w.out
  {
  }

  function Step(p: Processor, s: State, id: ConfigID, action: Provenance.Action): State
    requires id in p.configs
  {
    var sys := SystemOf(p, s, id);
    OutGrows(p.configs[id], sys, action);
    var n := Provenance.Step(p.configs[id], sys, action);
    State(Put(p, s.shared, id, n.w), s.locals[id := Workers(n.threads, n.managers, n.flushers, n.known)])
  }

  function Run(p: Processor, parse: string -> Option<ConfigID>, sha: string -> Bytes, acts: seq<Act>): State {
    if acts == [] then State(NOTHING, map[]) else
    var s := Run(p, parse, sha, acts[..|acts| - 1]);
    match Aimed(p, parse, sha, acts[|acts| - 1])
    case None => s
    case Some((id, action)) => if id in p.configs then Step(p, s, id, action) else s
  }

  /** A configuration's own actions: its own steps, and the records that carry its id. */
  function ActionsOf(p: Processor, parse: string -> Option<ConfigID>, sha: string -> Bytes, acts: seq<Act>,
      id: ConfigID): seq<Provenance.Action> {
    if acts == [] then [] else
    var before := ActionsOf(p, parse, sha, acts[..|acts| - 1], id);
    match Aimed(p, parse, sha, acts[|acts| - 1])
    case None => before
    case Some((i, action)) => if i == id then before + [action] else before
  }

  lemma StepOwn(p: Processor, s: State, id: ConfigID, action: Provenance.Action)
    requires id in p.configs
    ensures SystemOf(p, Step(p, s, id, action), id) == Provenance.Step(p.configs[id], SystemOf(p, s, id), action)
  {
    var sys := SystemOf(p, s, id);
    OutGrows(p.configs[id], sys, action);
    ViewOwn(p, s.shared, id, Provenance.Step(p.configs[id], sys, action).w);
  }

  lemma StepOther(p: Processor, s: State, id: ConfigID, action: Provenance.Action, other: ConfigID)
    requires id in p.configs && other in p.configs && other != id && NamesApart(p)
    ensures SystemOf(p, Step(p, s, id, action), other) == SystemOf(p, s, other)
  {
    var sys := SystemOf(p, s, id);
    OutGrows(p.configs[id], sys, action);
    ViewOther(p, s.shared, id, Provenance.Step(p.configs[id], sys, action).w, other);
  }

  lemma InitialSystem(p: Processor, id: ConfigID)
    requires id in p.configs
    ensures SystemOf(p, State(NOTHING, map[]), id) == Provenance.INIT
  {
  }

  /**
   * At the end of any interleaved run, the rows, Redis entries, messages and workers of a configuration are those of a
   * processor that has only that configuration and sees only the records carrying its id.
   */
  lemma {:induction false} ConfigsDecompose(p: Processor, parse: string -> Option<ConfigID>, sha: string -> Bytes,
      acts: seq<Act>, id: ConfigID)
    requires NamesApart(p) && id in p.configs
    ensures SystemOf(p, Run(p, parse, sha, acts), id) ==
      Provenance.Run(p.configs[id], ActionsOf(p, parse, sha, acts, id))
  {
    if acts == [] {
      InitialSystem(p, id);
    } else {
      var init := acts[..|acts| - 1];
      ConfigsDecompose(p, parse, sha, init, id);
      var s, mine := Run(p, parse, sha, init), ActionsOf(p, parse, sha, init, id);
      match Aimed(p, parse, sha, acts[|acts| - 1]) {
        case None =>
        case Some((i, action)) =>
          if i == id {
            StepOwn(p, s, id, action);
            Provenance.RunSnoc(p.configs[id], mine, action);
          } else if i in p.configs {
            StepOther(p, s, i, action, id);
          }
      }
    }
  }

  // ---------- routing and names ----------

  /** A record goes to a configuration exactly if its first configuration header parses to the id of that one. */
  lemma RouteIff(p: Processor, parse: string -> Option<ConfigID>, rec: Record, id: ConfigID)
    ensures Route(p, parse, rec) == Some(id) <==>
      id in p.configs && exists i ::
        IsFirstHeader(rec.headers, "x-config-id", i) && parse(rec.headers[i].value) == Some(id)
  {
    FirstHeader(rec.headers, CONFIG_ID_HEADER);
  }

  /** Where a configuration's entries are: by its id, but for a durable delay queue, which goes by its name. */
  lemma KeysAre(p: Processor, s: Shared, id: ConfigID)
    requires id in p.configs
    ensures var w, c := View(p, s, id), p.configs[id];
      && w.rows == (if id in s.rowsV2 then s.rowsV2[id] else map[])
      && w.bloom == Get(s.blooms, p.bloomKey + ":" + id, {})
      && w.timeouts == Get(s.timeouts, "omni_joiner:timeouts:" + id, map[])
      && w.tracker == Get(s.trackers, "omni_joiner:partial:" + id, {})
      && w.queue == (if c.delayQueue && c.durable then Get(s.delays, "omni_joiner:delay:" + c.join.name, [])
                     else Get(s.memory, id, []))
  {
  }
}
