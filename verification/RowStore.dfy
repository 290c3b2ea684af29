/**
 * The row store (internal/store/scylla.go): join_state rows by key hash, join_state_v2 rows by configuration and
 * key hash. A write may take effect and still report an error; the reply to each call says so.
 */
module RowStore {
  import opened Base
  import opened Protocol

  type ConfigID = string

  /** The row after one stream's cell is written: the other cells stay, the raw key is the writer's. */
  function Written(rows: map<Hash, Row>, e: Event): map<Hash, Row> {
    rows[e.hash := Row(e.raw, (if e.hash in rows then rows[e.hash].cells else map[])[e.stream := e.payload])]
  }

  function Found(rows: map<Hash, Row>, h: Hash): Option<Row> {
    if h in rows then Some(rows[h]) else None
  }

  class Store {
    var rows: map<Hash, Row>
    var rowsV2: map<ConfigID, map<Hash, Row>>

    constructor ()
      ensures rows == map[] && rowsV2 == map[]
    {
      rows, rowsV2 := map[], map[];
    }

    function V2(id: ConfigID): map<Hash, Row>
      reads this
    {
      if id in rowsV2 then rowsV2[id] else map[]
    }

    method UpsertParticipantOnly(e: Event, write: Reply) returns (ok: bool)
      modifies this`rows
      ensures rows == if write.Took() then Written(old(rows), e) else old(rows)
      ensures ok == write.Fine()
    {
      if write.Took() {
        var row := if e.hash in rows then rows[e.hash] else Row(e.raw, map[]);
        rows := rows[e.hash := row.(raw := e.raw, cells := row.cells[e.stream := e.payload])];
      }
      ok := write.Fine();
    }

    method GetState(h: Hash, read: Reply) returns (ok: bool, state: Option<Row>)
      ensures ok == read.Fine()
      ensures state == if ok then Found(rows, h) else None
    {
      if !read.Fine() {
        return false, None;
      }
      return true, if h in rows then Some(rows[h]) else None;
    }

    /** The write, and then the row read back: other writers can come between. */
    method UpsertParticipant(e: Event, write: Reply, read: Reply) returns (ok: bool, state: Option<Row>)
      modifies this`rows
      ensures rows == if write.Took() then Written(old(rows), e) else old(rows)
      ensures ok == (write.Fine() && read.Fine())
      ensures state == if ok then Found(rows, e.hash) else None
    {
      ok := UpsertParticipantOnly(e, write);
      if !ok {
        return false, None;
      }
      ok, state := GetState(e.hash, read);
    }

    method DeleteState(h: Hash, r: Reply) returns (ok: bool)
      modifies this`rows
      ensures rows == if r.Took() then old(rows) - {h} else old(rows)
      ensures ok == r.Fine()
    {
      if r.Took() {
        rows := rows - {h};
      }
      ok := r.Fine();
    }

    method UpsertParticipantOnlyV2(id: ConfigID, e: Event, write: Reply) returns (ok: bool)
      modifies this`rowsV2
      ensures V2(id) == if write.Took() then Written(old(V2(id)), e) else old(V2(id))
      ensures forall other | other != id :: V2(other) == old(V2(other))
      ensures ok == write.Fine()
    {
      if write.Took() {
        var mine := if id in rowsV2 then rowsV2[id] else map[];
        var row := if e.hash in mine then mine[e.hash] else Row(e.raw, map[]);
        rowsV2 := rowsV2[id := mine[e.hash := row.(raw := e.raw, cells := row.cells[e.stream := e.payload])]];
      }
      ok := write.Fine();
    }

    method GetStateV2(id: ConfigID, h: Hash, read: Reply) returns (ok: bool, state: Option<Row>)
      ensures ok == read.Fine()
      ensures state == if ok then Found(V2(id), h) else None
    {
      if !read.Fine() {
        return false, None;
      }
      return true, if id in rowsV2 && h in rowsV2[id] then Some(rowsV2[id][h]) else None;
    }

    method UpsertParticipantV2(id: ConfigID, e: Event, write: Reply, read: Reply) returns (ok: bool, state: Option<Row>)
      modifies this`rowsV2
      ensures V2(id) == if write.Took() then Written(old(V2(id)), e) else old(V2(id))
      ensures forall other | other != id :: V2(other) == old(V2(other))
      ensures ok == (write.Fine() && read.Fine())
      ensures state == if ok then Found(V2(id), e.hash) else None
    {
      ok := UpsertParticipantOnlyV2(id, e, write);
      if !ok {
        return false, None;
      }
      ok, state := GetStateV2(id, e.hash, read);
    }

    method DeleteStateV2(id: ConfigID, h: Hash, r: Reply) returns (ok: bool)
      modifies this`rowsV2
      ensures V2(id) == if r.Took() then old(V2(id)) - {h} else old(V2(id))
      ensures forall other | other != id :: V2(other) == old(V2(other))
      ensures ok == r.Fine()
    {
      if r.Took() && id in rowsV2 {
        rowsV2 := rowsV2[id := rowsV2[id] - {h}];
      }
      ok := r.Fine();
    }
  }

  /** What a handler is given for a store: the whole of join_state, or one configuration's share of join_state_v2. */
  datatype StateStore = Whole(store: Store) | Scoped(store: Store, configID: ConfigID)
  {
    function Rows(): map<Hash, Row>
      reads store
    {
      match this
      case Whole(s) => s.rows
      case Scoped(s, id) => s.V2(id)
    }

    /** Nothing outside this share has changed since the state `old` stands for. */
    twostate predicate OthersKept()
      reads store
    {
      && (Scoped? ==> store.rows == old(store.rows))
      && (Whole? ==> store.rowsV2 == old(store.rowsV2))
      && (forall other | Scoped? && other != configID :: store.V2(other) == old(store.V2(other)))
    }

    method UpsertParticipant(e: Event, write: Reply, read: Reply) returns (ok: bool, state: Option<Row>)
      modifies store
      ensures Rows() == if write.Took() then Written(old(Rows()), e) else old(Rows())
      ensures ok == (write.Fine() && read.Fine())
      ensures state == if ok then Found(Rows(), e.hash) else None
      ensures OthersKept()
    {
      match this {
        case Whole(s) => ok, state := s.UpsertParticipant(e, write, read);
        case Scoped(s, id) => ok, state := s.UpsertParticipantV2(id, e, write, read);
      }
    }

    method UpsertParticipantOnly(e: Event, write: Reply) returns (ok: bool)
      modifies store
      ensures Rows() == if write.Took() then Written(old(Rows()), e) else old(Rows())
      ensures ok == write.Fine()
      ensures OthersKept()
    {
      match this {
        case Whole(s) => ok := s.UpsertParticipantOnly(e, write);
        case Scoped(s, id) => ok := s.UpsertParticipantOnlyV2(id, e, write);
      }
    }

    method GetState(h: Hash, read: Reply) returns (ok: bool, state: Option<Row>)
      ensures ok == read.Fine()
      ensures state == if ok then Found(Rows(), h) else None
    {
      match this {
        case Whole(s) => ok, state := s.GetState(h, read);
        case Scoped(s, id) => ok, state := s.GetStateV2(id, h, read);
      }
    }

    method DeleteState(h: Hash, r: Reply) returns (ok: bool)
      modifies store
      ensures Rows() == if r.Took() then old(Rows()) - {h} else old(Rows())
      ensures ok == r.Fine()
      ensures OthersKept()
    {
      match this {
        case Whole(s) => ok := s.DeleteState(h, r);
        case Scoped(s, id) => ok := s.DeleteStateV2(id, h, r);
      }
    }
  }
}
