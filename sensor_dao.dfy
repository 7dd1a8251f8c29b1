/** The sensor table as the screen sees it: `get`, `add` and `update`. */
module SensorStore {
  import opened Sensors

  class SensorDao {
    /** The rows currently stored. */
    var rows: Store
    /** Every write issued so far, oldest first. */
    ghost var calls: seq<DaoCall>

    /** A table whose rows are each stored under their own id. */
    constructor (initial: Store)
      requires WellKeyed(initial)
      ensures WellKeyed(rows)
      ensures rows == initial && calls == []
    {
      rows := initial;
      calls := [];
    }

    method Get(id: string) returns (r: Option<Sensor>)
      ensures r.Some? <==> id in rows
      ensures r.Some? ==> r.value == rows[id]
    {
      r := Find(rows, id);
    }

    method Add(row: Sensor)
      modifies this
      ensures rows == old(rows)[row.uniqueId := row]
      ensures calls == old(calls) + [DaoCall.Add(row)]
    {
      rows := Apply(rows, DaoCall.Add(row));
      calls := calls + [DaoCall.Add(row)];
    }

    method Update(row: Sensor)
      modifies this
      ensures rows == Apply(old(rows), DaoCall.Update(row))
      ensures row.uniqueId in old(rows) ==> rows == old(rows)[row.uniqueId := row]
      ensures calls == old(calls) + [DaoCall.Update(row)]
    {
      rows := Apply(rows, DaoCall.Update(row));
      calls := calls + [DaoCall.Update(row)];
    }
  }
}
