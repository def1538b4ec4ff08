/**
 * The shared record machinery of apps/common/models.py.
 *
 * `BaseModel` gives every record a unique primary key; in this model a table
 * is a map keyed by `Id` and a fresh key is drawn from a counter that is
 * above every key in use (the uuid4 default of the source, without its
 * randomness).  `IsDeletedModel` adds the soft-delete flag and time stamp;
 * its rows are `Soft<T>` values kept in a `SoftTable<T>`.
 */
module Common {
  import opened Wrappers

  type Id = nat
  type UserId = nat
  /** A point in time; the clock is a parameter of the operations that read it. */
  type Time = int

  /** A row of an `IsDeletedModel` table: the record and its deletion state. */
  datatype Soft<T> = Soft(value: T, isDeleted: bool, deletedAt: Option<Time>)
  {
    /** Visible to the default manager, which hides soft-deleted rows. */
    predicate Live() { !isDeleted }
  }

  /** A freshly stored soft-deletable record: not deleted, no deletion time. */
  function Fresh<T>(v: T): Soft<T>
  {
    Soft(v, false, None)
  }

  /** The storage of one `IsDeletedModel` table. */
  class SoftTable<T> {
    var rows: map<Id, Soft<T>>
    var nextId: Id

    /** Every key in use lies below the counter, so a fresh key never collides. */
    ghost predicate Valid()
      reads this
    {
      forall id :: id in rows ==> id < nextId
    }

    constructor ()
      ensures Valid() && rows == map[] && nextId == 0
    {
      rows := map[];
      nextId := 0;
    }

    /** `objects.create(...)`: stores the record under a key no row uses, with the field defaults. */
    method Create(v: T) returns (id: Id)
      requires Valid()
      modifies this
      ensures Valid()
      ensures id !in old(rows)
      ensures rows == old(rows)[id := Soft(v, false, None)]
      ensures !rows[id].isDeleted && rows[id].deletedAt == None
      ensures nextId == old(nextId) + 1 && id == old(nextId)
    {
      id := nextId;
      rows := rows[id := Fresh(v)];
      nextId := nextId + 1;
    }

    /** `save()` of an instance loaded from the table: writes its fields, keeps the deletion state. */
    method Update(id: Id, v: T)
      requires Valid() && id in rows
      modifies this
      ensures Valid()
      ensures rows == old(rows)[id := old(rows)[id].(value := v)]
      ensures nextId == old(nextId)
    {
      rows := rows[id := rows[id].(value := v)];
    }

    /**
     * `IsDeletedModel.delete`: raises the flag, stamps the time and saves only
     * those two fields.  The row stays in storage.  Saving with `update_fields`
     * a row that is not stored fails; `ok` is false then and nothing changes.
     */
    method Delete(id: Id, now: Time) returns (ok: bool)
      requires Valid()
      modifies this
      ensures Valid()
      ensures ok <==> id in old(rows)
      ensures rows.Keys == old(rows).Keys
      ensures ok ==> rows[id].isDeleted && rows[id].deletedAt == Some(now)
      ensures ok ==> rows[id].value == old(rows)[id].value
      ensures forall k :: k in old(rows) && k != id ==> rows[k] == old(rows)[k]
      ensures !ok ==> rows == old(rows)
      ensures nextId == old(nextId)
    {
      ok := id in rows;
      if ok {
        rows := rows[id := rows[id].(isDeleted := true, deletedAt := Some(now))];
      }
    }

    /** `IsDeletedModel.hard_delete`: removes the row from storage; other rows stay. */
    method HardDelete(id: Id)
      requires Valid()
      modifies this
      ensures Valid()
      ensures id !in rows
      ensures rows.Keys == old(rows).Keys - {id}
      ensures forall k :: k in rows ==> rows[k] == old(rows)[k]
      ensures nextId == old(nextId)
    {
      rows := rows - {id};
    }
  }
}
