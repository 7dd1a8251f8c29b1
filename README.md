# Sensor detail screen: enablement reconciliation

A Dafny model of the sensor detail screen of the Home Assistant Android
companion app (`SensorDetailFragment`). The screen shows one sensor's
registration. It keeps the sensor's persisted row (`enabled`, a reserved flag,
last state) in step with the user's `enabled` switch and with the runtime
permissions the sensor needs.

- When the screen opens, the row is created on first display, enabled only
  when the permissions are held. On later displays the stored value is shown
  as it is.
- When the user flips the switch, switching on without the permissions is
  refused and a permission prompt is issued. Every other flip is persisted.
- When the prompt is answered, the switch and the row become "every result is
  granted".

Modules:

- `Sensors` (`sensors.dfy`): the registration snapshot, the `Sensor` row, the
  `add`/`update` calls and their effect on the table (`Apply`), and the
  primary-key invariant `WellKeyed`.
- `SensorStore` (`sensor_dao.dfy`): the sensor table as a class with `Get`,
  `Add` and `Update`. The table is a `map` field and the history of writes a
  ghost `seq` field.
- `Reconcile` (`reconcile.dfy`): the permission checks, the read-then-add-or-update
  write, and the three events as a pure transition function `Step` over the
  screen's observable state. `Run` replays a sequence of events. The lemmas
  prove the per-event rules and the safety property over any sequence of
  events: a row is stored as enabled only if it was already enabled at the
  start and nothing was written since, or the last write came from an
  authorized event.
- `SensorDisplay` (`sensor_display.dfy`): the state summary, Kotlin's
  `isNullOrBlank`, and the attribute lookup.
- `SensorDetail` (`sensor_detail.dfy`): the screen itself, a class whose
  methods update the switch, the prompt log and the table. Each method is
  proved equal to the matching `Step` event.

Modelling decisions:

- The operating system's permission state is a parameter
  `granted: set<string>` of the operations that query it. It is read at the
  moment of the call, as `PermissionManager.hasPermission` is.
- The grant results are the integers the callback receives, with
  `PERMISSION_GRANTED = 0` (the Android constant).
- Once the change listener returns true, the preference framework stores the
  new value in the switch. `OnToggle` models this with `checked := newState`.
- `state.toString()` and the attribute values' `toString()` are given as
  strings; a null attribute value is `None`.
- The attribute map is a sequence of entries in key iteration order whose
  keys are distinct, as a map's are.

## Model

| member | source | states |
|---|---|---|
| `Sensors.Find` | app/src/main/java/io/homeassistant/companion/android/sensors/SensorDetailFragment.kt:108 | `sensorDao.get(id)` finds a row exactly when one is stored under `id`, and then it is that row |
| `Sensors.Apply` | app/src/main/java/io/homeassistant/companion/android/sensors/SensorDetailFragment.kt:112-120 | `add` stores the row under its id; `update` replaces an existing row with the same id and otherwise changes nothing; both keep every row under its own id |
| `SensorStore.SensorDao.Get` | app/src/main/java/io/homeassistant/companion/android/sensors/SensorDetailFragment.kt:108 | returns the stored row for the id, or none when there is no row |
| `SensorStore.SensorDao.Add` | app/src/main/java/io/homeassistant/companion/android/sensors/SensorDetailFragment.kt:120 | the row is stored under its id and one `add` is appended to the write history |
| `SensorStore.SensorDao.Update` | app/src/main/java/io/homeassistant/companion/android/sensors/SensorDetailFragment.kt:112 | an existing row with the same id is replaced and one `update` is appended to the write history |
| `Reconcile.AllGranted` | app/src/main/java/io/homeassistant/companion/android/sensors/SensorDetailFragment.kt:126 | `permissions.all { hasPermission }` is true exactly when every listed permission is granted |
| `Reconcile.HavePermission` | app/src/main/java/io/homeassistant/companion/android/sensors/SensorDetailFragment.kt:124-129 | true for an empty permission list; otherwise true exactly when every required permission is in the granted set |
| `Reconcile.AllResultsGranted` | app/src/main/java/io/homeassistant/companion/android/sensors/SensorDetailFragment.kt:139 | true exactly when every grant result equals `PERMISSION_GRANTED`, so an empty result array gives true |
| `Reconcile.EntityWrite` | app/src/main/java/io/homeassistant/companion/android/sensors/SensorDetailFragment.kt:105-122 | `updateSensorEntity` issues an `update` exactly when a row exists, else an `add`; the written row has the new `enabled` and the registration's state; an update keeps the fetched row's id and flag, an add uses the registration's id and flag false |
| `Reconcile.UpdateEntity` | app/src/main/java/io/homeassistant/companion/android/sensors/SensorDetailFragment.kt:105-122 | afterwards the row at the sensor's id exists with the given `enabled` and the registration's state; its flag is the old one, or false for a new row; no other key is added, removed or changed; the primary key is kept |
| `Reconcile.ToggleAccepted` | app/src/main/java/io/homeassistant/companion/android/sensors/SensorDetailFragment.kt:57-64 | the change listener returns true exactly when the switch is turned off or every required permission is granted |
| `Reconcile.Step` | app/src/main/java/io/homeassistant/companion/android/sensors/SensorDetailFragment.kt:44-143 | each of the three events (open, flip, prompt answer) either writes nothing and leaves the table as it was, or issues exactly one write, and that write is the row now stored under the sensor's id; the primary key is kept |
| `Reconcile.Run` | app/src/main/java/io/homeassistant/companion/android/sensors/SensorDetailFragment.kt:44-143 | over any sequence of events the table stays keyed by id and the write history only grows |
| `Reconcile.OpenWithoutRecord` | app/src/main/java/io/homeassistant/companion/android/sensors/SensorDetailFragment.kt:44-49 | first display: exactly one `add` of `Sensor(id, havePermission(), false, state)`; a later `get` returns that row; the switch shows `havePermission()`; no prompt is issued |
| `Reconcile.OpenWithRecord` | app/src/main/java/io/homeassistant/companion/android/sensors/SensorDetailFragment.kt:44-52 | with a stored row, the switch shows the stored `enabled` whatever the permissions are now, and nothing else changes |
| `Reconcile.ToggleOnWithoutPermission` | app/src/main/java/io/homeassistant/companion/android/sensors/SensorDetailFragment.kt:57-60 | switching on while a required permission is missing is refused: no write, the switch keeps its value, and one prompt for exactly the configured permissions is issued |
| `Reconcile.ToggleAcceptedPersists` | app/src/main/java/io/homeassistant/companion/android/sensors/SensorDetailFragment.kt:54-65 | every other flip, switching off included, is accepted; exactly one write stores `enabled = newState`; the switch shows `newState`; no prompt is issued |
| `Reconcile.PermissionsResultPersists` | app/src/main/java/io/homeassistant/companion/android/sensors/SensorDetailFragment.kt:131-143 | the switch and the stored `enabled` both become "all results granted" with exactly one write; an empty answer stores true; any denial stores false |
| `Reconcile.PermissionsResultIdempotent` | app/src/main/java/io/homeassistant/companion/android/sensors/SensorDetailFragment.kt:138-141 | delivering the same answer again leaves the table and the switch as the first delivery left them |
| `Reconcile.StepEnablesOnlyWhenAuthorized` | app/src/main/java/io/homeassistant/companion/android/sensors/SensorDetailFragment.kt:44-141 | an event writes `enabled = true` only when it is opening with the permissions held, switching on with the permissions held, or an all-granted prompt answer |
| `Reconcile.EnabledOnlyAfterAuthorizedWrite` | app/src/main/java/io/homeassistant/companion/android/sensors/SensorDetailFragment.kt:44-141 | after any sequence of events, the sensor is stored as enabled only if it was so at the start and nothing was written since, or some authorized event issued a write and no later event wrote |
| `SensorDisplay.IsBlank` | app/src/main/java/io/homeassistant/companion/android/sensors/SensorDetailFragment.kt:76 | Kotlin's `isBlank()` is true exactly when every character is whitespace, so the empty string is blank |
| `SensorDisplay.IsNullOrBlank` | app/src/main/java/io/homeassistant/companion/android/sensors/SensorDetailFragment.kt:76 | `unitOfMeasurement.isNullOrBlank()` is true for a null unit, and otherwise exactly when every character of the unit is whitespace |
| `SensorDisplay.StateSummary` | app/src/main/java/io/homeassistant/companion/android/sensors/SensorDetailFragment.kt:75-81 | the summary starts with the state; it is the state alone exactly when the unit is null or blank, otherwise the rest is a space and the unit |
| `SensorDisplay.StateSummaryExamples` | app/src/main/java/io/homeassistant/companion/android/sensors/SensorDetailFragment.kt:75-81 | state "21.5" with unit "°C" gives "21.5 °C"; with no unit or a blank unit it gives "21.5" |
| `SensorDisplay.Lookup` | app/src/main/java/io/homeassistant/companion/android/sensors/SensorDetailFragment.kt:96 | `attributes[key]` finds nothing exactly when no entry has the key |
| `SensorDisplay.Summary` | app/src/main/java/io/homeassistant/companion/android/sensors/SensorDetailFragment.kt:96 | `attributes[key]?.toString() ?: ""` is the value when the key is present with a non-null value, and "" otherwise |
| `SensorDisplay.LookupFindsEntry` | app/src/main/java/io/homeassistant/companion/android/sensors/SensorDetailFragment.kt:93-96 | with distinct keys, looking up an entry's own key finds that entry's value |
| `SensorDetail.SensorDetailFragment.constructor` | app/src/main/java/io/homeassistant/companion/android/sensors/SensorDetailFragment.kt:17-21 | given a table whose rows are stored under their own ids, the screen holds the given registration, permission list and sensor table, its invariant holds, and no prompt has been issued |
| `SensorDetail.SensorDetailFragment.UpdateSensorEntity` | app/src/main/java/io/homeassistant/companion/android/sensors/SensorDetailFragment.kt:105-122 | the table becomes `UpdateEntity` of the old table and exactly the one write `EntityWrite` is issued; the primary key is kept |
| `SensorDetail.SensorDetailFragment.OnCreatePreferences` | app/src/main/java/io/homeassistant/companion/android/sensors/SensorDetailFragment.kt:34-69 | the table, write history, switch and prompts become the `Open` step of the old state; the display it returns is the one `RefreshSensorData` states |
| `SensorDetail.SensorDetailFragment.OnToggle` | app/src/main/java/io/homeassistant/companion/android/sensors/SensorDetailFragment.kt:54-65 | returns true exactly when switching off or all permissions are granted; the new state is the `Toggle` step of the old one |
| `SensorDetail.SensorDetailFragment.OnRequestPermissionsResult` | app/src/main/java/io/homeassistant/companion/android/sensors/SensorDetailFragment.kt:131-143 | the new state is the `PermissionsResult` step of the old one |
| `SensorDetail.SensorDetailFragment.RefreshSensorData` | app/src/main/java/io/homeassistant/companion/android/sensors/SensorDetailFragment.kt:71-103 | the id, device class and icon summaries are the raw fields; the state summary is `StateSummary`; the attribute category is visible exactly when there are attributes; there is exactly one row per key in key order, titled with the key and summarised with its value, or "" for null |

## Left out

- Dependency injection, `AppDatabase.getInstance` and Room persistence
  (lines 35-40): the sensor table is an in-memory map behind `get`, `add` and
  `update`. The `Sensor` entity and `SensorDao` are not part of this model;
  `add` is modelled as storing the row under its id, and `update` of a missing
  id as changing nothing.
- Loading the preference XML and the `findPreference` null checks (lines 42,
  44, 72-89, 138): the model assumes every preference exists. Widget details
  such as `isIconSpaceReserved` (lines 94-99) are left out too.
- `PermissionManager.hasPermission` and `PackageManager` (lines 126, 139):
  these are operating-system calls. They become the `granted` set parameter
  and integer grant results.
- The asynchronous prompt started by `requestPermissions(permissions, 0)`
  (line 58): it is recorded as an entry in `requests`. The request code and
  the callback's own `permissions` and `requestCode` parameters are unused.
- `toString()` on the state and on attribute values: these are taken as
  already-made strings.
- `newInstance`, the fragment lifecycle and `super.onRequestPermissionsResult`:
  these are framework plumbing with no effect on the sensor's row.
- Kotlin's `Char.isWhitespace` follows the Java platform definition, whose
  space separators depend on the platform's Unicode version. The code points
  listed in `SensorDisplay.IsWhitespace` are those of Unicode 6.3 and later;
  U+180E, a space separator up to Unicode 6.2 (the version Java 8 uses), is
  not whitespace in this model.
