/** The sensor detail screen: it creates or reads the sensor's row when it
    opens, persists the user's flips of the `enabled` switch, asks for the
    missing permissions, and stores the answer. Each operation is proved
    against the matching event of `Reconcile.Step`. */
module SensorDetail {
  import opened Sensors
  import opened SensorStore
  import opened Reconcile
  import opened SensorDisplay

  class SensorDetailFragment {
    const registration: Registration
    /** The permissions the sensor needs. */
    const permissions: seq<string>
    const sensorDao: SensorDao
    /** The `enabled` switch. */
    var checked: bool
    /** The permission prompts issued so far (`requestPermissions(permissions, 0)`). */
    var requests: seq<seq<string>>

    /** The sensor table keeps its primary key. */
    ghost predicate Valid()
      reads this, sensorDao
    {
      WellKeyed(sensorDao.rows)
    }

    /** The screen's state as `Reconcile` sees it. */
    ghost function Current(): Screen
      reads this, sensorDao
    {
      Screen(sensorDao.rows, sensorDao.calls, checked, requests)
    }

    constructor (registration: Registration, permissions: seq<string>, sensorDao: SensorDao)
      requires WellKeyed(sensorDao.rows)
      ensures Valid()
      ensures this.registration == registration && this.permissions == permissions
      ensures this.sensorDao == sensorDao
      ensures !checked && requests == []
    {
      this.registration := registration;
      this.permissions := permissions;
      this.sensorDao := sensorDao;
      checked := false;
      requests := [];
    }

    /** `updateSensorEntity(isEnabled)`: fetch the row, then update it or add
        a new one. */
    method UpdateSensorEntity(isEnabled: bool)
      requires Valid()
      modifies sensorDao
      ensures Valid()
      ensures sensorDao.rows == UpdateEntity(old(sensorDao.rows), registration, isEnabled)
      ensures sensorDao.calls == old(sensorDao.calls) + [EntityWrite(old(sensorDao.rows), registration, isEnabled)]
    {
      var sensorEntity := sensorDao.Get(registration.uniqueId);
      match sensorEntity
      case Some(entity) =>
        sensorDao.Update(entity.(enabled := isEnabled, state := registration.state));
      case None =>
        sensorDao.Add(Sensor(registration.uniqueId, isEnabled, false, registration.state));
    }

    /** `onCreatePreferences`: set the switch up from the stored row, creating
        the row on first display, then show the registration. */
    method OnCreatePreferences(granted: set<string>) returns (display: DisplayModel)
      requires Valid()
      requires DistinctKeys(registration.attributes)
      modifies this, sensorDao
      ensures Valid()
      ensures Current() == Step(old(Current()), registration, permissions, Input(Open, granted))
      ensures display.uniqueId == registration.uniqueId
      ensures display.state == StateSummary(registration.state, registration.unitOfMeasurement)
      ensures display.deviceClass == registration.deviceClass && display.icon == registration.icon
      ensures display.attributesVisible <==> registration.attributes != []
      ensures |display.attributeRows| == |registration.attributes|
      ensures forall i :: 0 <= i < |display.attributeRows| ==>
                display.attributeRows[i] == Row(registration.attributes[i].key, registration.attributes[i].value.GetOr(""))
    {
      var dao := sensorDao.Get(registration.uniqueId);
      var perm := HavePermission(permissions, granted);
      if dao.None? {
        UpdateSensorEntity(perm);
        checked := perm;
      } else {
        checked := dao.value.enabled;
      }
      display := RefreshSensorData();
    }

    /** The switch's change listener. An accepted flip is kept by the switch. */
    method OnToggle(newState: bool, granted: set<string>) returns (accepted: bool)
      requires Valid()
      modifies this, sensorDao
      ensures Valid()
      ensures accepted <==> !newState || forall p :: p in permissions ==> p in granted
      ensures Current() == Step(old(Current()), registration, permissions, Input(Toggle(newState), granted))
    {
      if newState && !HavePermission(permissions, granted) {
        requests := requests + [permissions];
        return false;
      }
      UpdateSensorEntity(newState);
      checked := newState;
      accepted := true;
    }

    /** `onRequestPermissionsResult`: the switch and the stored flag become
        "every result is granted". The grants the system holds at this point
        play no part, so the event is stated with an empty set of them. */
    method OnRequestPermissionsResult(grantResults: seq<int>)
      requires Valid()
      modifies this, sensorDao
      ensures Valid()
      ensures Current() == Step(old(Current()), registration, permissions, Input(PermissionsResult(grantResults), {}))
    {
      checked := AllResultsGranted(grantResults);
      UpdateSensorEntity(checked);
    }

    /** `refreshSensorData`: the summaries and one attribute row per key, in
        key order; an empty attribute map hides the category. */
    method RefreshSensorData() returns (d: DisplayModel)
      requires DistinctKeys(registration.attributes)
      ensures d.uniqueId == registration.uniqueId
      ensures d.state == StateSummary(registration.state, registration.unitOfMeasurement)
      ensures d.deviceClass == registration.deviceClass && d.icon == registration.icon
      ensures d.attributesVisible <==> registration.attributes != []
      ensures |d.attributeRows| == |registration.attributes|
      ensures forall i :: 0 <= i < |d.attributeRows| ==>
                d.attributeRows[i] == Row(registration.attributes[i].key, registration.attributes[i].value.GetOr(""))
    {
      var attributes := registration.attributes;
      var visible := true;
      var rows: seq<Row> := [];
      if attributes == [] {
        visible := false;
      } else {
        for i := 0 to |attributes|
          invariant |rows| == i
          invariant forall j :: 0 <= j < i ==> rows[j] == Row(attributes[j].key, attributes[j].value.GetOr(""))
        {
          var key := attributes[i].key;
          LookupFindsEntry(attributes, i);
          rows := rows + [Row(key, Summary(Lookup(attributes, key)))];
        }
      }
      var state := StateSummary(registration.state, registration.unitOfMeasurement);
      d := DisplayModel(registration.uniqueId, state, registration.deviceClass, registration.icon, visible, rows);
    }
  }
}
