# Flood-monitor decision engine

A Dafny model of the decision engine of a flood-monitoring service. The
service runs this engine on every water-level reading that a river gauge
submits. The engine:

- classifies the level into one of four risk levels (SAFE, WARNING,
  HIGH_RISK, CRITICAL), with thresholds at 30, 60 and 90 cm;
- detects a rapid rise, meaning more than 15 cm above the device's oldest
  reading of the last ten minutes, and on one lifts WARNING to HIGH_RISK;
- stores the reading;
- keeps at most one OPEN incident per (device, risk level) bucket and resolves all of
  a device's open incidents on a SAFE reading;
- decides whether an alert goes to the background notifier.

The model also covers the sustained-duration escalation query, the guard the
background alert task applies, and the two history queries (`list_readings`,
`latest_reading`).

Files and modules:

- `wrappers.dfy` (`Wrappers`): `Option` and `Result`.
- `models.dfy` (`Models`): the risk levels, devices, readings, incidents and
  HTTP errors.
- `database.dfy` (`Database`): the three tables as a class `Db` whose fields
  the route handlers reassign. Also the `DbState` snapshot, the generic
  "first matching row" query and the per-device filter of the readings table.
- `risk.dfy` (`Risk`): `app/services/risk.py`. The pure parts are functions
  with lemmas. `create_or_update_incident` is specified by the function
  `Reconcile` and implemented by the method `CreateOrUpdateIncident`, which
  resolves incidents in place in a loop and appends new ones.
- `readings.dfy` (`Readings`): `app/routers/readings.py`. `submit_reading` is
  specified by the function `Ingest` and implemented by the method
  `SubmitReading` on a `Db`. The history queries are functions.
- `scenario.dfy` (`Scenario`): two runs of one gauge through `Ingest`, one
  exact step at a time. The first has seven readings that rise, peak and
  recede. The second has two readings whose quick rise escalates a WARNING
  to HIGH_RISK.

Time is whole seconds. "Now" is an explicit parameter. Water levels are
`real`.

The model follows what the code does, including these details:

- The docstring of `check_rapid_rise` speaks of "the last 10 minutes", but
  the query has only a lower bound (`timestamp >= now - 10 min`). Readings
  stamped in the future therefore also fall in the window.
- `list_readings` treats an empty `device_id` as "no filter".
- The background alert task checks again that the risk is not SAFE, although
  the gate never schedules a SAFE alert.

## Model

| member | source | states |
|---|---|---|
| `Models.RiskLevel.Severity` | app/models/__init__.py:7-11 | Gives the severity order of the four levels. SAFE alone has severity 0, and no level is above 3. |
| `Models.RiskLevel.Value` | app/models/__init__.py:8-11 | Definition with no contract of its own: each member's value ("safe", "warning", "high_risk", "critical"), which the incident message interpolates. |
| `Database.ReadingsOf` | app/routers/readings.py:86-87 | Filters the readings table by device. Each reading of device `d` is kept with its multiplicity, and no other reading is kept. |
| `Risk.ClassifyRisk` | app/services/risk.py:9-17 | Is total. SAFE iff level < 30, WARNING iff 30 ≤ level < 60, HIGH_RISK iff 60 ≤ level < 90, CRITICAL iff level ≥ 90. Lower bounds are inclusive and negative levels are SAFE. |
| `Risk.ClassifyRiskMonotone` | app/services/risk.py:9-17 | Is monotone: a ≤ b implies severity(classify a) ≤ severity(classify b). |
| `Risk.OldestSince` | app/services/risk.py:22-30 | Returns None iff the device has no reading stamped at or after `since`. Otherwise returns one of the device's readings in that window whose timestamp is the smallest there. |
| `Risk.CheckRapidRise` | app/services/risk.py:19-34 | An empty window gives false, whatever the level. A true result means the window's oldest reading is more than 15 below the current level. A false result on a non-empty window means it is at most 15 below. |
| `Risk.RapidRiseAgainstOldest` | app/services/risk.py:22-33 | Applies when one reading is strictly the oldest in the window. Then the result is true iff current − its level > 15, so a rise of exactly 15 is false. Newer readings in the window do not matter. |
| `Risk.RapidRiseBoundary` | app/services/risk.py:21-31 | On concrete numbers, with a single 40 cm reading 540 s old: 56 cm is a rapid rise and 55 cm is not. This pins the 15 cm threshold and the strict comparison. |
| `Risk.OldestSinceOwnDevice` | app/services/risk.py:22-30 | Gives the same window query result on the whole table and on the device's own readings alone. |
| `Risk.RapidRiseOwnDevice` | app/services/risk.py:19-34 | Readings of other devices never change the rapid-rise decision. |
| `Risk.ShouldEscalate` | app/services/risk.py:36-57 | Is false for SAFE and CRITICAL. For WARNING (HIGH_RISK) it is true iff the bucket has an open incident triggered at or before now − 1800 s (now − 600 s). |
| `Risk.FindOpen` | app/services/risk.py:77-85 | Finds an open incident of exactly (device, risk) when one exists. Returns None iff none exists. |
| `Risk.ResolveAll` | app/services/risk.py:60-74 | Resolving the device's open incidents keeps the table's length. It neither adds nor removes incidents. |
| `Risk.ResolveAllAt` | app/services/risk.py:70-71 | Treats each incident on its own: it is resolved at `now` iff it belongs to the device and is open. |
| `Risk.ResolveAllEffect` | app/services/risk.py:60-74 | Sets `resolved_at = now` on every open incident of the device, of every risk level. Other devices' incidents and already-resolved ones are unchanged. No other field changes. Afterwards the device has no open incident. |
| `Risk.ResolveAllIdempotent` | app/services/risk.py:60-74 | A second resolve is a no-op, whatever its timestamp. |
| `Risk.IncidentMessageInjective` | app/services/risk.py:88-90 | "Water level crossed {risk} threshold", with " (RAPID RISE detected)" appended iff rapid. Different (risk, rapid) pairs give different messages. |
| `Risk.IncidentMessage` | app/services/risk.py:88-90 | Definition with no contract of its own: builds the incident message. Its property is in `IncidentMessageInjective`. |
| `Risk.NewIncident` | app/services/risk.py:91-95 | Definition with no contract of its own: the incident that is appended, with device, risk and message. Its fields are stated by `Reconcile`'s contract. |
| `Risk.Reconcile` | app/services/risk.py:59-99 | SAFE: resolves all of the device's open incidents and returns None. Non-SAFE with an open incident in the bucket: changes nothing and returns None. Otherwise appends exactly one incident and returns it. That incident has this device and risk, `triggered_at = now`, is open and carries the threshold message. |
| `Risk.ReconcileKeepsOneOpenPerBucket` | app/services/risk.py:76-99 | Preserves "at most one open incident per (device, risk)". |
| `Risk.ReconcileIdempotent` | app/services/risk.py:59-99 | Repeating the same reconciliation creates nothing and leaves the table as the first call left it. |
| `Risk.ReopenAfterResolve` | app/services/risk.py:60-99 | After a SAFE reading resolves the device, a non-SAFE reading opens a new incident triggered at its own time. |
| `Risk.CreateOrUpdateIncident` | app/services/risk.py:59-99 | Imperative version. The resolve loop updates incidents in place and new incidents are appended. The new table and the return value are exactly those of `Reconcile`. Devices and readings are untouched. |
| `Readings.ProcessAlert` | app/routers/readings.py:28-38 | Calls the sink iff the device is registered and the risk is not SAFE. The sink then gets the device's name and location with the level, risk and rapid flag. |
| `Readings.Escalate` | app/routers/readings.py:52-54 | The risk changes iff rapid rise and raw risk is WARNING, and then it becomes HIGH_RISK. Severity never decreases. |
| `Readings.EscalateNoCascade` | app/routers/readings.py:52-54 | Escalation is idempotent, never yields CRITICAL from a lower level, and never lifts SAFE. |
| `Readings.DeviceNotFound` | app/routers/readings.py:46 | Definition with no contract of its own: the 404 error and its detail for an unregistered device. |
| `Readings.AlertGate` | app/routers/readings.py:70-71 | Definition with no contract of its own: an alert is due for a new incident or a CRITICAL risk. Its effect is stated by `IngestAlertGate`. |
| `Readings.Ingest` | app/routers/readings.py:40-74 | Definition with no contract of its own: one call of `submit_reading` on a table snapshot. The lemmas below and the `SubmitReading` method state its properties. |
| `Readings.IngestRejectsUnknownDevice` | app/routers/readings.py:43-46 | The call fails iff the device is unregistered. Then it returns 404, and no reading, incident or alert is produced. |
| `Readings.IngestStoresOneReading` | app/routers/readings.py:48-65 | Appends exactly one reading, with the submitted device and level. Its timestamp is the supplied one, or now. Its risk is the classification, escalated by a rapid rise measured on the history before the append. |
| `Readings.SubmittedTimestampOnlyStamps` | app/routers/readings.py:49-68 | The submitted timestamp changes only the stored timestamp. The risk, the incidents and the alert are the same either way. |
| `Readings.IngestAlertGate` | app/routers/readings.py:67-72 | Schedules an alert iff the incident table grew or the final risk is CRITICAL. The alert carries the final risk, which is never SAFE. |
| `Readings.IngestReconcilesFinalRisk` | app/routers/readings.py:49-72 | Incidents are reconciled on the final, escalated risk together with the raw rapid flag. An alert is scheduled iff that reconciliation creates an incident or the risk is CRITICAL, and it carries the device, level, final risk and rapid flag. |
| `Readings.ScheduledAlertReachesSink` | app/routers/readings.py:28-72 | Every scheduled alert, run against the same registry, passes the guard in `process_alert`. |
| `Readings.IngestKeepsOneOpenPerBucket` | app/routers/readings.py:67-68 | Sequential ingestion keeps at most one open incident per (device, risk). |
| `Readings.SubmitReading` | app/routers/readings.py:40-74 | Imperative version. The new tables and the response are exactly those of `Ingest`. |
| `Readings.InsertDesc` | app/routers/readings.py:81 | Inserting into the newest-first order adds exactly that reading (multiset). |
| `Readings.InsertDescSorted` | app/routers/readings.py:81 | Inserting keeps a newest-first list newest first. |
| `Readings.SortDesc` | app/routers/readings.py:81 | `ORDER BY timestamp DESC` is a permutation of its input. |
| `Readings.SortDescSorted` | app/routers/readings.py:81 | The sorted rows are newest first and hold exactly the input's readings. |
| `Readings.Selected` | app/routers/readings.py:78-80 | Definition with no contract of its own: no device id or an empty one selects every reading, and any other id selects that device's readings. |
| `Readings.PrefixOfSorted` | app/routers/readings.py:81 | Applying the limit keeps the newest rows. No dropped row is newer than a kept one. |
| `Readings.ListReadings` | app/routers/readings.py:76-81 | Returns min(limit, #selected) readings, newest first, drawn from the table. With a device id, only that device's readings are returned. No omitted selected reading is newer than a returned one. |
| `Readings.EmptyIdListsAll` | app/routers/readings.py:79-80 | An empty device id lists exactly the same rows as no id, for every table and limit. |
| `Readings.DefaultListLimitBound` | app/routers/readings.py:77-81 | With the route's default limit of 50, the result is the 50 newest selected readings, or all of them when there are fewer. |
| `Readings.LatestReading` | app/routers/readings.py:83-93 | Returns 404 "No readings found for this device" iff the device has no reading. Otherwise returns one of its readings with the greatest timestamp. |
| `Readings.LatestIsFirstListed` | app/routers/readings.py:76-93 | The latest reading is the single row that `list_readings` returns for that device with limit 1. |
| `Scenario.RiverScenarioRising` | app/routers/readings.py:40-74 | 10 cm gives SAFE with no alert. 45 gives WARNING, one incident and an alert. 46 gives WARNING, no new incident and no alert. 65, with a rise of 20, gives HIGH_RISK, a second bucket and an alert. |
| `Scenario.RiverScenarioPeak` | app/routers/readings.py:40-74 | 95 gives CRITICAL, a third incident and an alert. 95 again gives CRITICAL with no new incident but still an alert. |
| `Scenario.RiverScenarioRecede` | app/routers/readings.py:40-74 | 5 gives SAFE with no alert, and all three open incidents are resolved. |
| `Scenario.RiverScenarioFlash` | app/routers/readings.py:49-72 | 10 cm, then 45 cm 300 s later: the 35 cm rise lifts WARNING to HIGH_RISK. The reading is stored as HIGH_RISK, the one incident opened is HIGH_RISK with the rapid-rise message, and the alert carries HIGH_RISK. |

## Left out

- Risk.CheckRapidRise: when two in-window readings share the smallest timestamp, the contract only says that *an* oldest reading decides. The model picks the earliest stored one. The database leaves the order of equal timestamps unspecified.
- Readings.LatestReading: on equal timestamps the contract only promises *a* newest reading. The model keeps storage order among ties, as it does in `ListReadings`.
- Clock: every `datetime.utcnow()` of one request is the single parameter `now`. This covers the rapid-rise window, the default reading timestamp, the incident's `triggered_at` and each `resolved_at` in the resolve loop. The code reads the clock once per resolved incident, so those times can differ by microseconds.
- Ids: database-assigned ids are `|table| + 1`. No code path deletes readings or incidents.
- Query order: `.first()` without ORDER BY returns the first matching row in storage order.
- `list_readings` limit: the limit is a natural number. The database decides what a negative `LIMIT` means. The query-parameter default of 50 is not applied by `ListReadings`: callers pass the limit, and `DefaultListLimit` names the default.
- Transport and I/O: HTTP routing, request validation, `BackgroundTasks` and async dispatch are not modelled. The scheduled alert is returned as a value, and the background task is the pure guard `ProcessAlert` over the registry.
- Telegram: the HTTP call, its configuration and its message formatting are not modelled. The sink is opaque.
- Logging: the log lines written on a rapid rise, for each resolved incident and for each new incident are not modelled. They change no table and no response.
- Persistence: SQLAlchemy sessions, `commit`/`refresh` and transaction atomicity are replaced by in-memory sequences and a map. Persistence failures are therefore not modelled.
- Concurrency: concurrent requests, including the race that can open two incidents in one bucket, are out of scope. The bucket invariant is proved for sequential ingestion only.
- Measurements: floating-point rounding is not modelled; levels are exact reals. Non-finite levels (NaN, +inf, -inf), which the `float` request field accepts, are not modelled either. A NaN fails every comparison in `classify_risk` and comes out CRITICAL, so the band contract of `ClassifyRisk` does not describe it.
- Other parts of the system: authentication, device registration CRUD, the incidents listing route, the dashboard, application wiring and the sensor and simulator clients are not modelled. The device registry is only a map from id to name and location.
