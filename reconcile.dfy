/** The enable/disable reconciliation of one sensor, as pure functions over
    the screen's observable state: the sensor table (with the history of
    writes issued on it), the switch, and the permission prompts issued. */
module Reconcile {
  import opened Sensors

  /** `PackageManager.PERMISSION_GRANTED` */
  const PERMISSION_GRANTED: int := 0

  /** `permissions.all { hasPermission(it) }` */
  function AllGranted(perms: seq<string>, granted: set<string>): (r: bool)
    ensures r <==> forall i :: 0 <= i < |perms| ==> perms[i] in granted
  {
    if perms == [] then true else perms[0] in granted && AllGranted(perms[1..], granted)
  }

  /** `havePermission()`: true for an empty list, otherwise true exactly
      when every required permission is granted. */
  function HavePermission(perms: seq<string>, granted: set<string>): (r: bool)
    ensures perms == [] ==> r
    ensures r <==> forall p :: p in perms ==> p in granted
  {
    if perms != [] then AllGranted(perms, granted) else true
  }

  /** `grantResults.all { it == PERMISSION_GRANTED }` */
  function AllResultsGranted(grantResults: seq<int>): (r: bool)
    ensures r <==> forall i :: 0 <= i < |grantResults| ==> grantResults[i] == PERMISSION_GRANTED
  {
    if grantResults == [] then true
    else grantResults[0] == PERMISSION_GRANTED && AllResultsGranted(grantResults[1..])
  }

  /** The one write `updateSensorEntity(isEnabled)` issues: an update of the
      fetched row when there is one, otherwise an add of a new row. */
  function EntityWrite(rows: Store, reg: Registration, isEnabled: bool): (c: DaoCall)
    ensures c.Update? <==> reg.uniqueId in rows
    ensures c.row.enabled == isEnabled && c.row.state == reg.state
    ensures c.Update? ==> c.row.uniqueId == rows[reg.uniqueId].uniqueId && c.row.flag == rows[reg.uniqueId].flag
    ensures c.Add? ==> c.row.uniqueId == reg.uniqueId && !c.row.flag
  {
    match Find(rows, reg.uniqueId)
    case Some(entity) => Update(entity.(enabled := isEnabled, state := reg.state))
    case None => Add(Sensor(reg.uniqueId, isEnabled, false, reg.state))
  }

  /** The table after `updateSensorEntity(isEnabled)`. */
  function UpdateEntity(rows: Store, reg: Registration, isEnabled: bool): (r: Store)
    requires WellKeyed(rows)
    ensures WellKeyed(r)
    ensures r.Keys == rows.Keys + {reg.uniqueId}
    ensures r[reg.uniqueId].enabled == isEnabled && r[reg.uniqueId].state == reg.state
    ensures r[reg.uniqueId].flag == (reg.uniqueId in rows && rows[reg.uniqueId].flag)
    ensures forall k :: k in rows && k != reg.uniqueId ==> r[k] == rows[k]
  {
    Apply(rows, EntityWrite(rows, reg, isEnabled))
  }

  /** What the screen holds between events. */
  datatype Screen = Screen(
    rows: Store,                  // the sensor table
    calls: seq<DaoCall>,          // writes issued on it, oldest first
    checked: bool,                // the `enabled` switch
    requests: seq<seq<string>>)   // permission prompts issued, oldest first

  /** Opening the screen, the user flipping the switch, and the answer to a
      permission prompt. */
  datatype Event = Open | Toggle(newState: bool) | PermissionsResult(grantResults: seq<int>)

  /** An event together with the permissions the system grants when it happens. */
  datatype Input = Input(event: Event, granted: set<string>)

  /** Calls `updateSensorEntity(isEnabled)` on the screen's table. */
  function Persist(s: Screen, reg: Registration, isEnabled: bool): Screen
    requires WellKeyed(s.rows)
  {
    var call := EntityWrite(s.rows, reg, isEnabled);
    s.(rows := Apply(s.rows, call), calls := s.calls + [call])
  }

  /** The listener's answer to the user flipping the switch to `newState`. */
  function ToggleAccepted(newState: bool, perms: seq<string>, granted: set<string>): (accepted: bool)
    ensures accepted <==> !newState || forall p :: p in perms ==> p in granted
  {
    !(newState && !HavePermission(perms, granted))
  }

  /** One event. Each event either writes nothing or issues exactly one
      write, and that write is the row now stored under the sensor's id. */
  function Step(s: Screen, reg: Registration, perms: seq<string>, input: Input): (t: Screen)
    requires WellKeyed(s.rows)
    ensures WellKeyed(t.rows)
    ensures || (t.rows == s.rows && t.calls == s.calls)
            || (&& |t.calls| == |s.calls| + 1
                && t.calls[..|s.calls|] == s.calls
                && t.calls[|s.calls|].row.uniqueId == reg.uniqueId
                && t.rows == s.rows[reg.uniqueId := t.calls[|s.calls|].row])
  {
    var perm := HavePermission(perms, input.granted);
    match input.event
    case Open =>
      if reg.uniqueId in s.rows then s.(checked := s.rows[reg.uniqueId].enabled)
      else Persist(s, reg, perm).(checked := perm)
    case Toggle(newState) =>
      if ToggleAccepted(newState, perms, input.granted) then Persist(s, reg, newState).(checked := newState)
      else s.(requests := s.requests + [perms])
    case PermissionsResult(grantResults) =>
      var allGranted := AllResultsGranted(grantResults);
      Persist(s.(checked := allGranted), reg, allGranted)
  }

  /** A sequence of events, oldest first. The table stays keyed by id and
      the write history only grows. */
  function Run(s: Screen, reg: Registration, perms: seq<string>, trace: seq<Input>): (t: Screen)
    requires WellKeyed(s.rows)
    ensures WellKeyed(t.rows)
    ensures |s.calls| <= |t.calls| && t.calls[..|s.calls|] == s.calls
    decreases |trace|
  {
    if trace == [] then s
    else Step(Run(s, reg, perms, trace[..|trace| - 1]), reg, perms, trace[|trace| - 1])
  }

  // ---------------------------------------------------------------------
  // Opening the screen

  /** First display: exactly one row is added, enabled when the permissions
      are held, and the switch shows the same value. */
  lemma OpenWithoutRecord(s: Screen, reg: Registration, perms: seq<string>, granted: set<string>)
    requires WellKeyed(s.rows) && reg.uniqueId !in s.rows
    ensures var t := Step(s, reg, perms, Input(Open, granted));
            var row := Sensor(reg.uniqueId, HavePermission(perms, granted), false, reg.state);
            && t.calls == s.calls + [Add(row)]
            && t.rows == s.rows[reg.uniqueId := row]
            && Find(t.rows, reg.uniqueId) == Some(row)
            && t.checked == HavePermission(perms, granted)
            && t.requests == s.requests
  {
  }

  /** Later displays: the switch shows the stored value, whatever the
      permissions are now, and nothing is written. */
  lemma OpenWithRecord(s: Screen, reg: Registration, perms: seq<string>, granted: set<string>)
    requires WellKeyed(s.rows) && reg.uniqueId in s.rows
    ensures Step(s, reg, perms, Input(Open, granted)) == s.(checked := s.rows[reg.uniqueId].enabled)
  {
  }

  // ---------------------------------------------------------------------
  // Flipping the switch

  /** Switching on without the permissions is refused: nothing is written,
      the switch keeps its value, and a prompt for exactly the configured
      permissions is issued. */
  lemma ToggleOnWithoutPermission(s: Screen, reg: Registration, perms: seq<string>, granted: set<string>)
    requires WellKeyed(s.rows)
    requires exists p :: p in perms && p !in granted
    ensures !ToggleAccepted(true, perms, granted)
    ensures var t := Step(s, reg, perms, Input(Toggle(true), granted));
            && t.rows == s.rows && t.calls == s.calls && t.checked == s.checked
            && t.requests == s.requests + [perms]
  {
  }

  /** Every other flip, switching off included, is accepted and persisted
      with exactly one write. */
  lemma ToggleAcceptedPersists(s: Screen, reg: Registration, perms: seq<string>, newState: bool, granted: set<string>)
    requires WellKeyed(s.rows)
    requires !newState || forall p :: p in perms ==> p in granted
    ensures ToggleAccepted(newState, perms, granted)
    ensures var t := Step(s, reg, perms, Input(Toggle(newState), granted));
            && t.calls == s.calls + [EntityWrite(s.rows, reg, newState)]
            && t.rows == UpdateEntity(s.rows, reg, newState)
            && t.rows[reg.uniqueId].enabled == newState
            && t.checked == newState && t.requests == s.requests
  {
  }

  // ---------------------------------------------------------------------
  // The answer to a permission prompt

  /** The switch and the stored flag both become "every result is granted":
      a denial stores false, an empty answer stores true. */
  lemma PermissionsResultPersists(s: Screen, reg: Registration, perms: seq<string>, grantResults: seq<int>, granted: set<string>)
    requires WellKeyed(s.rows)
    ensures var t := Step(s, reg, perms, Input(PermissionsResult(grantResults), granted));
            && t.checked == AllResultsGranted(grantResults)
            && t.rows == UpdateEntity(s.rows, reg, t.checked)
            && t.rows[reg.uniqueId].enabled == t.checked
            && t.calls == s.calls + [EntityWrite(s.rows, reg, t.checked)]
            && t.requests == s.requests
            && (grantResults == [] ==> t.checked)
            && ((exists i :: 0 <= i < |grantResults| && grantResults[i] != PERMISSION_GRANTED) ==> !t.checked)
  {
  }

  /** Delivering the same answer again leaves the table and the switch as
      the first delivery left them. */
  lemma PermissionsResultIdempotent(s: Screen, reg: Registration, perms: seq<string>, grantResults: seq<int>, granted: set<string>, granted': set<string>)
    requires WellKeyed(s.rows)
    ensures var t := Step(s, reg, perms, Input(PermissionsResult(grantResults), granted));
            var t' := Step(t, reg, perms, Input(PermissionsResult(grantResults), granted'));
            t'.rows == t.rows && t'.checked == t.checked
  {
  }

  // ---------------------------------------------------------------------
  // Safety: who may store `enabled = true`

  ghost predicate Enabled(s: Screen, id: string) {
    id in s.rows && s.rows[id].enabled
  }

  /** The events allowed to store `enabled = true`: opening or switching on
      while the permissions are held, and an all-granted prompt answer. */
  ghost predicate Authorizes(input: Input, perms: seq<string>) {
    match input.event
    case Open => HavePermission(perms, input.granted)
    case Toggle(newState) => newState && HavePermission(perms, input.granted)
    case PermissionsResult(grantResults) => AllResultsGranted(grantResults)
  }

  /** A single event writes `enabled = true` only when it is authorized. */
  lemma StepEnablesOnlyWhenAuthorized(s: Screen, reg: Registration, perms: seq<string>, input: Input)
    requires WellKeyed(s.rows)
    ensures var t := Step(s, reg, perms, input);
            |t.calls| > |s.calls| && t.calls[|s.calls|].row.enabled ==> Authorizes(input, perms)
  {
  }

  /** Event `k` of `trace` issued a write and no later event did. */
  ghost predicate LastWriteAt(s: Screen, reg: Registration, perms: seq<string>, trace: seq<Input>, k: int)
    requires WellKeyed(s.rows) && 0 <= k < |trace|
  {
    var before := Run(s, reg, perms, trace[..k]);
    var after := Run(s, reg, perms, trace[..k + 1]);
    && |before.calls| < |after.calls|
    && after.calls == Run(s, reg, perms, trace).calls
    && after.rows == Run(s, reg, perms, trace).rows
  }

  /** An event that writes nothing keeps the last write of the events before it. */
  lemma LastWriteKept(s: Screen, reg: Registration, perms: seq<string>, trace: seq<Input>, k: int)
    requires WellKeyed(s.rows) && 0 <= k < |trace| - 1
    requires LastWriteAt(s, reg, perms, trace[..|trace| - 1], k)
    requires Run(s, reg, perms, trace).calls == Run(s, reg, perms, trace[..|trace| - 1]).calls
    ensures LastWriteAt(s, reg, perms, trace, k)
  {
    var prefix := trace[..|trace| - 1];
    assert prefix[..k] == trace[..k];
    assert prefix[..k + 1] == trace[..k + 1];
  }

  /** An event that writes is the last write of the sequence it ends. */
  lemma LastWriteIsFinal(s: Screen, reg: Registration, perms: seq<string>, trace: seq<Input>)
    requires WellKeyed(s.rows) && trace != []
    requires |Run(s, reg, perms, trace[..|trace| - 1]).calls| < |Run(s, reg, perms, trace).calls|
    ensures LastWriteAt(s, reg, perms, trace, |trace| - 1)
  {
    assert trace[..|trace|] == trace;
  }

  /** After any sequence of events, the sensor is stored as enabled only if
      it was so before and nothing was written since, or the last write came
      from an authorized event. */
  lemma {:induction false} EnabledOnlyAfterAuthorizedWrite(s: Screen, reg: Registration, perms: seq<string>, trace: seq<Input>)
    requires WellKeyed(s.rows)
    ensures var t := Run(s, reg, perms, trace);
            Enabled(t, reg.uniqueId) ==>
              || (Enabled(s, reg.uniqueId) && t.calls == s.calls && t.rows == s.rows)
              || exists k :: 0 <= k < |trace| && Authorizes(trace[k], perms) && LastWriteAt(s, reg, perms, trace, k)
  {
    if trace != [] {
      var n := |trace| - 1;
      var prefix := trace[..n];
      var u := Run(s, reg, perms, prefix);
      var t := Step(u, reg, perms, trace[n]);
      assert t == Run(s, reg, perms, trace);
      if Enabled(t, reg.uniqueId) {
        if t.calls == u.calls {
          EnabledOnlyAfterAuthorizedWrite(s, reg, perms, prefix);
          if !(Enabled(s, reg.uniqueId) && u.calls == s.calls && u.rows == s.rows) {
            var k :| 0 <= k < |prefix| && Authorizes(prefix[k], perms) && LastWriteAt(s, reg, perms, prefix, k);
            LastWriteKept(s, reg, perms, trace, k);
            assert trace[k] == prefix[k];
          }
        } else {
          StepEnablesOnlyWhenAuthorized(u, reg, perms, trace[n]);
          LastWriteIsFinal(s, reg, perms, trace);
        }
      }
    }
  }
}
