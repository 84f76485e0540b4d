/**
 * The in-memory repository the API's tests run against
 * (apps/api/internal/repository/resource_mock.go): live rows in `data`,
 * soft-deleted rows ("tombstones") in `deleted`, both keyed by id.
 *
 * The Go type is generic and sets the Email, Username and PasswordHash
 * fields by reflection; here it holds users, whose fields are set directly.
 */
module MockRepository {
  import opened Wrappers
  import opened ApiTypes
  import opened Collections

  /** The two maps, as values. */
  datatype Tables = Tables(data: map<Uuid, User>, deleted: map<Uuid, User>)

  /** No id is both live and deleted, and every row sits under its own id. */
  predicate Valid(t: Tables) {
    t.data.Keys !! t.deleted.Keys
    && (forall u | u in t.data :: t.data[u].id == u)
    && (forall u | u in t.deleted :: t.deleted[u].id == u)
  }

  /** The columns of `u` that an update map names, replaced. */
  function ApplyUpdates(u: User, upd: map<Column, string>): (r: User)
    ensures r.id == u.id && r.googleId == u.googleId && r.isAdmin == u.isAdmin
    ensures r.emailVerifiedAt == u.emailVerifiedAt && r.lastLoginAt == u.lastLoginAt
    ensures r.email == (if EmailColumn in upd then upd[EmailColumn] else u.email)
    ensures r.username == (if UsernameColumn in upd then upd[UsernameColumn] else u.username)
    ensures r.passwordHash == (if PasswordHashColumn in upd then upd[PasswordHashColumn] else u.passwordHash)
  {
    var u1 := if EmailColumn in upd then u.(email := upd[EmailColumn]) else u;
    var u2 := if UsernameColumn in upd then u1.(username := upd[UsernameColumn]) else u1;
    if PasswordHashColumn in upd then u2.(passwordHash := upd[PasswordHashColumn]) else u2
  }

  // ---------------------------------------------- the operations as values

  function StoreTables(t: Tables, e: User): Tables {
    Tables(t.data[e.id := e], t.deleted - {e.id})
  }

  function UpdateTables(t: Tables, e: User, updates: seq<map<Column, string>>): Tables {
    if e.id !in t.data then t
    else Tables(t.data[e.id := if |updates| > 0 then ApplyUpdates(e, updates[0]) else e], t.deleted)
  }

  function DestroyTables(t: Tables, id: Uuid): Tables {
    if id in t.data then Tables(t.data - {id}, t.deleted[id := t.data[id]]) else t
  }

  function KillTables(t: Tables, id: Uuid): Tables {
    Tables(t.data - {id}, t.deleted - {id})
  }

  function RestoreTables(t: Tables, id: Uuid): Tables {
    if id in t.deleted then Tables(t.data[id := t.deleted[id]], t.deleted - {id}) else t
  }

  /** Every operation keeps the two maps disjoint and rows under their ids. */
  lemma OperationsPreserveValid(t: Tables, e: User, updates: seq<map<Column, string>>, id: Uuid)
    requires Valid(t)
    ensures Valid(StoreTables(t, e)) && Valid(UpdateTables(t, e, updates))
    ensures Valid(DestroyTables(t, id)) && Valid(KillTables(t, id)) && Valid(RestoreTables(t, id))
  {
  }

  /** Destroy then Restore puts a live row back exactly where it was. */
  lemma DestroyThenRestore(t: Tables, id: Uuid)
    requires Valid(t) && id in t.data
    ensures RestoreTables(DestroyTables(t, id), id) == t
  {
    var d := DestroyTables(t, id);
    assert d.data[id := d.deleted[id]] == t.data;
    assert d.deleted - {id} == t.deleted;
  }

  /** Kill is idempotent, and after a Destroy it removes the same as Kill alone. */
  lemma KillIdempotent(t: Tables, id: Uuid)
    ensures KillTables(KillTables(t, id), id) == KillTables(t, id)
    ensures KillTables(DestroyTables(t, id), id) == KillTables(t, id)
  {
  }

  /** A stored row is live and has no tombstone, whatever was there before. */
  lemma StoreRevives(t: Tables, e: User)
    ensures var s := StoreTables(t, e);
            e.id in s.data && s.data[e.id] == e && e.id !in s.deleted
  {
  }

  /** Restoring what is not deleted, or destroying what is not live, changes nothing. */
  lemma AbsentIsNoOp(t: Tables, id: Uuid)
    ensures id !in t.deleted ==> RestoreTables(t, id) == t
    ensures id !in t.data ==> DestroyTables(t, id) == t
  {
  }

  // ------------------------------------------------------------ the class

  class MockResourceRepository {
    var data: map<Uuid, User>
    var deleted: map<Uuid, User>
    const cacheEn: bool

    function Snapshot(): Tables
      reads this
    {
      Tables(data, deleted)
    }

    constructor (cacheEnabled: bool)
      ensures data == map[] && deleted == map[] && cacheEn == cacheEnabled
      ensures Valid(Snapshot())
    {
      data := map[];
      deleted := map[];
      cacheEn := cacheEnabled;
    }

    function CacheEnabled(): bool {
      cacheEn
    }

    /** Store: the row goes live under its id and any tombstone goes. */
    method Store(entity: User) returns (r: Outcome<DbError>)
      requires Valid(Snapshot())
      modifies this
      ensures r == Pass
      ensures Snapshot() == StoreTables(old(Snapshot()), entity) && Valid(Snapshot())
    {
      data := data[entity.id := entity];
      deleted := deleted - {entity.id};
      OperationsPreserveValid(old(Snapshot()), entity, [], entity.id);
      return Pass;
    }

    /** GetByID sees live rows only; preloads are ignored. */
    method GetByID(id: Uuid, preloads: seq<string>) returns (r: Result<User, DbError>)
      requires Valid(Snapshot())
      ensures id in data ==> r == Success(data[id]) && r.value.id == id
      ensures id !in data ==> r == Failure(RecordNotFound)
      ensures id in deleted ==> r == Failure(RecordNotFound)
    {
      if id in data {
        return Success(data[id]);
      }
      return Failure(RecordNotFound);
    }

    /**
     * GetMany: every live row once, in map order (the order picked is the
     * ghost `order`), and their number; the options are ignored.
     */
    method GetMany() returns (list: seq<User>, total: int, ghost order: seq<Uuid>)
      requires Valid(Snapshot())
      ensures Enumerates(order, data.Keys) && |list| == |order|
      ensures forall i | 0 <= i < |list| :: list[i] == data[order[i]]
      ensures total == |list| == |data|
      ensures forall u | u in data :: data[u] in list
    {
      var rows := data;
      list, order := [], [];
      var remaining := rows.Keys;
      while remaining != {}
        invariant remaining <= rows.Keys
        invariant Enumerates(order, rows.Keys - remaining)
        invariant |list| == |order|
        invariant forall i | 0 <= i < |list| :: list[i] == rows[order[i]]
        decreases |remaining|
      {
        var k :| k in remaining;
        EnumerationSnoc(order, rows.Keys - remaining, k);
        list, order := list + [rows[k]], order + [k];
        assert rows.Keys - (remaining - {k}) == (rows.Keys - remaining) + {k};
        remaining := remaining - {k};
      }
      assert rows.Keys - remaining == rows.Keys;
      EnumerationLength(order, rows.Keys);
      total := |list|;
      ListedRows(rows, list, order);
    }

    /** A listing along an enumeration of the keys holds every row. */
    static lemma {:induction false} ListedRows(rows: map<Uuid, User>, list: seq<User>, order: seq<Uuid>)
      requires Enumerates(order, rows.Keys) && |list| == |order|
      requires forall i | 0 <= i < |list| :: list[i] == rows[order[i]]
      ensures forall u | u in rows :: rows[u] in list
    {
      forall u | u in rows ensures rows[u] in list {
        var i :| 0 <= i < |order| && order[i] == u;
        assert list[i] == rows[u];
      }
    }

    /**
     * Update: a non-live id is ErrRecordNotFound and nothing changes;
     * otherwise the given entity, with the email, username and password_hash
     * entries of the first update map applied, replaces the live row.
     */
    method Update(entity: User, updates: seq<map<Column, string>>) returns (r: Result<User, DbError>)
      requires Valid(Snapshot())
      modifies this
      ensures entity.id !in old(data) ==> r == Failure(RecordNotFound) && Snapshot() == old(Snapshot())
      ensures entity.id in old(data) ==>
                r == Success(if |updates| > 0 then ApplyUpdates(entity, updates[0]) else entity)
      ensures Snapshot() == UpdateTables(old(Snapshot()), entity, updates) && Valid(Snapshot())
    {
      if entity.id !in data {
        return Failure(RecordNotFound);
      }
      var e := entity;
      if |updates| > 0 {
        e := ApplyUpdates(entity, updates[0]);
      }
      data := data[entity.id := e];
      OperationsPreserveValid(old(Snapshot()), entity, updates, entity.id);
      return Success(e);
    }

    /** Destroy: a live row moves to the tombstones; otherwise ErrRecordNotFound. */
    method Destroy(id: Uuid) returns (r: Outcome<DbError>)
      requires Valid(Snapshot())
      modifies this
      ensures r == (if id in old(data) then Pass else Fail(RecordNotFound))
      ensures Snapshot() == DestroyTables(old(Snapshot()), id) && Valid(Snapshot())
    {
      if id in data {
        var v := data[id];
        deleted := deleted[id := v];
        data := data - {id};
        OperationsPreserveValid(old(Snapshot()), v, [], id);
        return Pass;
      }
      return Fail(RecordNotFound);
    }

    /** Kill: the id leaves both maps; it always succeeds. */
    method Kill(id: Uuid) returns (r: Outcome<DbError>)
      requires Valid(Snapshot())
      modifies this
      ensures r == Pass
      ensures Snapshot() == KillTables(old(Snapshot()), id) && Valid(Snapshot())
    {
      data := data - {id};
      deleted := deleted - {id};
      return Pass;
    }

    /** Restore: a tombstoned row goes live again and is returned; otherwise
        ErrRecordNotFound. */
    method Restore(id: Uuid) returns (r: Result<User, DbError>)
      requires Valid(Snapshot())
      modifies this
      ensures id in old(deleted) ==> r == Success(old(deleted)[id])
      ensures id !in old(deleted) ==> r == Failure(RecordNotFound)
      ensures Snapshot() == RestoreTables(old(Snapshot()), id) && Valid(Snapshot())
    {
      if id in deleted {
        var v := deleted[id];
        data := data[id := v];
        deleted := deleted - {id};
        return Success(v);
      }
      return Failure(RecordNotFound);
    }
  }
}
