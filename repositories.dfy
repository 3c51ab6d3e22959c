/**
 * The JPA repositories as tables: rows keyed by an `IDENTITY` id that starts
 * at 1 and grows with every save, listed in insertion order, which is the
 * order `findAll` returns them in (see README).
 */
module Repositories {
  import opened Wrappers
  import opened Entities

  datatype Table<E> = Table(rows: map<int, E>, order: seq<int>, nextId: int)

  /** Every stored id appears once in `order`, increasing, and below `nextId`. */
  predicate WellFormed<E>(t: Table<E>) {
    && t.nextId >= 1
    && (forall i :: 0 <= i < |t.order| ==> 1 <= t.order[i] < t.nextId && t.order[i] in t.rows)
    && (forall i, j :: 0 <= i < j < |t.order| ==> t.order[i] < t.order[j])
    && (forall id :: id in t.rows ==> id in t.order)
  }

  /** A table with no rows whose first id will be 1. */
  function EmptyTable<E>(): (t: Table<E>)
    ensures WellFormed(t) && t.rows == map[]
  {
    Table(map[], [], 1)
  }

  /** The rows of `t` with their ids, in insertion order. */
  function Rows<E>(t: Table<E>): (r: seq<(int, E)>)
    requires WellFormed(t)
    ensures |r| == |t.order|
    ensures forall k :: 0 <= k < |r| ==> r[k].0 == t.order[k]
    ensures forall k :: 0 <= k < |r| ==> r[k].0 in t.rows && r[k].1 == t.rows[r[k].0]
    ensures forall id :: id in t.rows ==> (id, t.rows[id]) in r
  {
    var r := seq(|t.order|, k requires 0 <= k < |t.order| => (t.order[k], t.rows[t.order[k]]));
    assert forall id :: id in t.rows ==> (id, t.rows[id]) in r by {
      forall id | id in t.rows ensures (id, t.rows[id]) in r {
        var k :| 0 <= k < |t.order| && t.order[k] == id;
        assert r[k] == (id, t.rows[id]);
      }
    }
    r
  }

  /** `findById`. */
  function FindById<E>(t: Table<E>, id: int): (r: Option<E>)
    ensures r.Some? <==> id in t.rows
    ensures r.Some? ==> r.value == t.rows[id]
  {
    if id in t.rows then Some(t.rows[id]) else None
  }

  /** `save` of a new entity: it gets the next id and goes last. */
  function Insert<E>(t: Table<E>, e: E): (r: Table<E>)
    requires WellFormed(t)
    ensures WellFormed(r)
    ensures t.nextId !in t.rows
    ensures r.rows == t.rows[t.nextId := e] && r.nextId == t.nextId + 1
    ensures Rows(r) == Rows(t) + [(t.nextId, e)]
  {
    var r := Table(t.rows[t.nextId := e], t.order + [t.nextId], t.nextId + 1);
    AppendedWellFormed(t, e);
    AppendedRows(t, e);
    r
  }

  /** Appending the next id keeps a table well formed. */
  lemma AppendedWellFormed<E>(t: Table<E>, e: E)
    requires WellFormed(t)
    ensures t.nextId !in t.rows
    ensures WellFormed(Table(t.rows[t.nextId := e], t.order + [t.nextId], t.nextId + 1))
  {
    var r := Table(t.rows[t.nextId := e], t.order + [t.nextId], t.nextId + 1);
    forall id | id in r.rows ensures id in r.order {
      if id != t.nextId {
        assert id in t.order;
      } else {
        assert r.order[|t.order|] == id;
      }
    }
  }

  /** Appending the next id adds exactly one row, at the end of `findAll`. */
  lemma AppendedRows<E>(t: Table<E>, e: E)
    requires WellFormed(t)
    ensures var r := Table(t.rows[t.nextId := e], t.order + [t.nextId], t.nextId + 1);
      WellFormed(r) && Rows(r) == Rows(t) + [(t.nextId, e)]
  {
    var r := Table(t.rows[t.nextId := e], t.order + [t.nextId], t.nextId + 1);
    AppendedWellFormed(t, e);
    var a, b := Rows(r), Rows(t) + [(t.nextId, e)];
    forall k | 0 <= k < |a| ensures a[k] == b[k] {
      if k < |t.order| {
        assert r.order[k] == t.order[k] && t.order[k] < t.nextId;
      }
    }
  }

  /** `save` of an entity already stored under `id`: the row changes, its place does not. */
  function Update<E>(t: Table<E>, id: int, e: E): (r: Table<E>)
    requires WellFormed(t) && id in t.rows
    ensures WellFormed(r)
    ensures r.rows == t.rows[id := e] && r.order == t.order && r.nextId == t.nextId
  {
    t.(rows := t.rows[id := e])
  }

  /** Every reservation points at a stored room and a stored user. */
  predicate Linked(users: Table<User>, rooms: Table<Room>, reservations: Table<Reservation>) {
    forall id :: id in reservations.rows ==>
      reservations.rows[id].roomId in rooms.rows && reservations.rows[id].userId in users.rows
  }

  /** The three repositories of the server, updated in place by the services. */
  class Database {
    var users: Table<User>
    var rooms: Table<Room>
    var reservations: Table<Reservation>

    predicate Valid()
      reads this
    {
      WellFormed(users) && WellFormed(rooms) && WellFormed(reservations) && Linked(users, rooms, reservations)
    }

    /** An empty schema. */
    constructor ()
      ensures Valid()
      ensures users.rows == map[] && rooms.rows == map[] && reservations.rows == map[]
    {
      users := EmptyTable();
      rooms := EmptyTable();
      reservations := EmptyTable();
    }
  }
}
