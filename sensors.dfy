/** Values shared by the sensor detail screen: the registration snapshot the
    screen is opened with, the persisted sensor row, and the calls the screen
    makes on the sensor table. */
module Sensors {

  datatype Option<+T> = None | Some(value: T) {
    /** `x ?: default` */
    function GetOr(default: T): T {
      match this
      case Some(v) => v
      case None => default
    }
  }

  /** One extra attribute of a registration; `value` is the already
      stringified attribute value, or None when the value is null. */
  datatype Attribute = Attribute(key: string, value: Option<string>)

  /** The snapshot a sensor reports. `state` is `state.toString()`; the
      attributes are listed in the map's key iteration order. */
  datatype Registration = Registration(
    uniqueId: string,
    state: string,
    unitOfMeasurement: Option<string>,
    deviceClass: Option<string>,
    icon: Option<string>,
    attributes: seq<Attribute>)

  /** A row of the sensor table, in constructor order
      `Sensor(uniqueId, enabled, flag, state)`. */
  datatype Sensor = Sensor(uniqueId: string, enabled: bool, flag: bool, state: string)

  /** The sensor table, keyed by `uniqueId`. */
  type Store = map<string, Sensor>

  /** A write the screen issues on the sensor table. */
  datatype DaoCall = Add(row: Sensor) | Update(row: Sensor)

  /** The table's primary key: every row is stored under its own id. */
  ghost predicate WellKeyed(rows: Store) {
    forall k :: k in rows ==> rows[k].uniqueId == k
  }

  /** The row stored under `id`, if any (`sensorDao.get(id)`). */
  function Find(rows: Store, id: string): (r: Option<Sensor>)
    ensures r.Some? <==> id in rows
    ensures r.Some? ==> r.value == rows[id]
  {
    if id in rows then Some(rows[id]) else None
  }

  /** The effect of one write: `add` stores the row under its id; `update`
      replaces the row with the same id and changes nothing when there is none. */
  function Apply(rows: Store, call: DaoCall): (r: Store)
    ensures WellKeyed(rows) ==> WellKeyed(r)
    ensures call.Add? || call.row.uniqueId in rows ==>
      r == rows[call.row.uniqueId := call.row]
    ensures call.Update? && call.row.uniqueId !in rows ==> r == rows
  {
    match call
    case Add(row) => rows[row.uniqueId := row]
    case Update(row) => if row.uniqueId in rows then rows[row.uniqueId := row] else rows
  }
}
