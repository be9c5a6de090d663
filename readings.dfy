/**
 * The readings routes: the ingestion coordinator that classifies, escalates,
 * stores and reconciles each submitted reading and decides whether an alert
 * is handed to the background sink; the alert guard; and the two history
 * queries.
 */
module Readings {
  import opened Wrappers
  import opened Models
  import opened Database
  import opened Risk

  const NotFound: nat := 404

  /** The request body: `timestamp` is optional and defaults to "now". */
  datatype ReadingCreate = ReadingCreate(deviceId: DeviceId, waterLevelCm: real, timestamp: Option<int>)

  /** The arguments of the background task handed to the alert sink. */
  datatype AlertTask = AlertTask(deviceId: DeviceId, waterLevel: real, risk: RiskLevel, rapidRise: bool)

  /** What the sink is asked to deliver. */
  datatype Notification = Notification(
    deviceId: DeviceId,
    deviceName: string,
    location: string,
    waterLevel: real,
    risk: RiskLevel,
    rapidRise: bool)

  /** A successful submission: the stored reading and the alert task, if one was scheduled. */
  datatype Submitted = Submitted(reading: Reading, alert: Option<AlertTask>)

  /** The tables after a request together with the route's response. */
  datatype Ingested = Ingested(state: DbState, response: Result<Submitted, HttpError>)

  // ---------------------------------------------------------------------
  // Alert guard
  // ---------------------------------------------------------------------

  /** The background task only calls the sink for a registered device and a non-SAFE risk. */
  function ProcessAlert(devices: map<DeviceId, Device>, task: AlertTask): (n: Option<Notification>)
    ensures n.Some? <==> task.deviceId in devices && task.risk != SAFE
    ensures n.Some? ==> var dev := devices[task.deviceId];
      n.value == Notification(task.deviceId, dev.name, dev.location, task.waterLevel, task.risk, task.rapidRise)
  {
    if task.deviceId in devices && task.risk != SAFE then
      var dev := devices[task.deviceId];
      Some(Notification(task.deviceId, dev.name, dev.location, task.waterLevel, task.risk, task.rapidRise))
    else None
  }

  // ---------------------------------------------------------------------
  // Ingestion: specification
  // ---------------------------------------------------------------------

  /** A rapid rise lifts WARNING to HIGH_RISK; no other level moves. */
  function Escalate(raw: RiskLevel, rapidRise: bool): (r: RiskLevel)
    ensures r.Severity() >= raw.Severity()
    ensures r != raw <==> rapidRise && raw == WARNING
    ensures r != raw ==> r == HIGH_RISK
  {
    if rapidRise && raw == WARNING then HIGH_RISK else raw
  }

  /**
   * Escalation never cascades: applying it to its own result changes
   * nothing, it never produces CRITICAL and it never lifts SAFE.
   */
  lemma EscalateNoCascade(raw: RiskLevel, rapidRise: bool)
    ensures Escalate(Escalate(raw, rapidRise), rapidRise) == Escalate(raw, rapidRise)
    ensures Escalate(raw, rapidRise) == CRITICAL ==> raw == CRITICAL
    ensures Escalate(raw, rapidRise) == SAFE <==> raw == SAFE
  {
  }

  function DeviceNotFound(d: DeviceId): HttpError
  {
    HttpError(NotFound, "Device '" + d + "' not found. Register it first.")
  }

  /** An alert is scheduled for a newly created incident or a CRITICAL reading. */
  predicate AlertGate(created: Option<Incident>, risk: RiskLevel)
  {
    created.Some? || risk == CRITICAL
  }

  /**
   * One call of `submit_reading`: reject an unknown device; otherwise
   * classify, test for a rapid rise against the history before this reading,
   * escalate, append the reading, reconcile incidents and gate the alert.
   */
  function Ingest(s: DbState, req: ReadingCreate, now: int): (out: Ingested)
  {
    if req.deviceId !in s.devices then Ingested(s, Failure(DeviceNotFound(req.deviceId)))
    else
      var rapidRise := CheckRapidRise(s.readings, req.deviceId, req.waterLevelCm, now);
      var risk := Escalate(ClassifyRisk(req.waterLevelCm), rapidRise);
      var timestamp := match req.timestamp case Some(t) => t case None => now;
      var stored := Reading(|s.readings| + 1, req.deviceId, req.waterLevelCm, risk, timestamp);
      var rec := Reconcile(s.incidents, req.deviceId, risk, rapidRise, now);
      var alert := if AlertGate(rec.created, risk)
        then Some(AlertTask(req.deviceId, req.waterLevelCm, risk, rapidRise))
        else None;
      Ingested(DbState(s.devices, s.readings + [stored], rec.incidents), Success(Submitted(stored, alert)))
  }

  /** An unknown device is rejected with 404 and nothing is stored, changed or alerted. */
  lemma IngestRejectsUnknownDevice(s: DbState, req: ReadingCreate, now: int)
    ensures var out := Ingest(s, req, now);
      (out.response.Failure? <==> req.deviceId !in s.devices)
      && (out.response.Failure? ==> out.state == s && out.response.error.status == 404)
  {
  }

  /**
   * A successful call appends exactly one reading: the submitted device and
   * level, the supplied timestamp or `now`, and the final risk, which is the
   * classification escalated by a rapid rise measured on the history as it
   * was before the append.
   */
  lemma IngestStoresOneReading(s: DbState, req: ReadingCreate, now: int)
    requires req.deviceId in s.devices
    ensures var out := Ingest(s, req, now);
      out.response.Success? &&
      var r := out.response.value.reading;
      && out.state.readings == s.readings + [r]
      && out.state.devices == s.devices
      && r.deviceId == req.deviceId && r.waterLevel == req.waterLevelCm
      && r.timestamp == (if req.timestamp.Some? then req.timestamp.value else now)
      && var raw := ClassifyRisk(req.waterLevelCm);
         var rapid := CheckRapidRise(s.readings, req.deviceId, req.waterLevelCm, now);
         r.risk == (if rapid && raw == WARNING then HIGH_RISK else raw)
  {
  }

  /**
   * The alert gate: an alert is scheduled exactly when the incidents table
   * grew (a new incident) or the final risk is CRITICAL, and a scheduled
   * alert is never for a SAFE reading.
   */
  lemma IngestAlertGate(s: DbState, req: ReadingCreate, now: int)
    requires req.deviceId in s.devices
    ensures var out := Ingest(s, req, now);
      out.response.Success? &&
      var sub := out.response.value;
      && (sub.alert.Some? <==> |out.state.incidents| > |s.incidents| || sub.reading.risk == CRITICAL)
      && (sub.alert.Some? ==> sub.alert.value.risk == sub.reading.risk && sub.alert.value.risk != SAFE)
  {
    var rapid := CheckRapidRise(s.readings, req.deviceId, req.waterLevelCm, now);
    var risk := Escalate(ClassifyRisk(req.waterLevelCm), rapid);
    var rec := Reconcile(s.incidents, req.deviceId, risk, rapid, now);
    assert rec.created.None? ==> |rec.incidents| == |s.incidents|;
  }

  /**
   * The incident step sees the final risk: incidents are reconciled on the
   * classification escalated by a rapid rise, together with the raw rapid
   * flag, and the alert follows that reconciliation's result.
   */
  lemma IngestReconcilesFinalRisk(s: DbState, req: ReadingCreate, now: int)
    requires req.deviceId in s.devices
    ensures var out := Ingest(s, req, now);
      var rapid := CheckRapidRise(s.readings, req.deviceId, req.waterLevelCm, now);
      var risk := Escalate(ClassifyRisk(req.waterLevelCm), rapid);
      var rec := Reconcile(s.incidents, req.deviceId, risk, rapid, now);
      && out.response.Success?
      && out.state.incidents == rec.incidents
      && (out.response.value.alert.Some? <==> rec.created.Some? || risk == CRITICAL)
      && (out.response.value.alert.Some? ==>
            out.response.value.alert.value == AlertTask(req.deviceId, req.waterLevelCm, risk, rapid))
  {
  }

  /**
   * The rapid-rise window is measured from the processing time: the
   * timestamp a client submits changes only the stored timestamp, never the
   * risk, the incidents or the alert.
   */
  lemma SubmittedTimestampOnlyStamps(s: DbState, d: DeviceId, level: real, t1: Option<int>, t2: Option<int>, now: int)
    requires d in s.devices
    ensures var a := Ingest(s, ReadingCreate(d, level, t1), now);
      var b := Ingest(s, ReadingCreate(d, level, t2), now);
      && a.state.incidents == b.state.incidents
      && a.response.value.reading.risk == b.response.value.reading.risk
      && a.response.value.alert == b.response.value.alert
  {
  }

  /** Every alert the gate schedules passes the background guard and reaches the sink. */
  lemma ScheduledAlertReachesSink(s: DbState, req: ReadingCreate, now: int)
    ensures var out := Ingest(s, req, now);
      out.response.Success? && out.response.value.alert.Some? ==>
        ProcessAlert(out.state.devices, out.response.value.alert.value).Some?
  {
    if req.deviceId in s.devices {
      IngestAlertGate(s, req, now);
    }
  }

  /** Sequential ingestion keeps at most one open incident per (device, risk) bucket. */
  lemma IngestKeepsOneOpenPerBucket(s: DbState, req: ReadingCreate, now: int)
    requires OneOpenPerBucket(s.incidents)
    ensures OneOpenPerBucket(Ingest(s, req, now).state.incidents)
  {
    if req.deviceId in s.devices {
      var rapid := CheckRapidRise(s.readings, req.deviceId, req.waterLevelCm, now);
      var risk := Escalate(ClassifyRisk(req.waterLevelCm), rapid);
      ReconcileKeepsOneOpenPerBucket(s.incidents, req.deviceId, risk, rapid, now);
    }
  }

  // ---------------------------------------------------------------------
  // Ingestion: the imperative route handler
  // ---------------------------------------------------------------------

  method SubmitReading(db: Db, req: ReadingCreate, now: int) returns (res: Result<Submitted, HttpError>)
    modifies db
    ensures db.State() == Ingest(old(db.State()), req, now).state
    ensures res == Ingest(old(db.State()), req, now).response
  {
    if req.deviceId !in db.devices {
      return Failure(DeviceNotFound(req.deviceId));
    }

    var risk := ClassifyRisk(req.waterLevelCm);
    var rapidRise := CheckRapidRise(db.readings, req.deviceId, req.waterLevelCm, now);

    if rapidRise && risk == WARNING {
      risk := HIGH_RISK;
    }

    var timestamp := if req.timestamp.Some? then req.timestamp.value else now;
    var stored := Reading(|db.readings| + 1, req.deviceId, req.waterLevelCm, risk, timestamp);
    db.readings := db.readings + [stored];

    var incident := CreateOrUpdateIncident(db, req.deviceId, risk, rapidRise, now);

    var alert: Option<AlertTask> := None;
    if incident.Some? || risk == CRITICAL {
      alert := Some(AlertTask(req.deviceId, req.waterLevelCm, risk, rapidRise));
    }
    return Success(Submitted(stored, alert));
  }

  // ---------------------------------------------------------------------
  // History queries
  // ---------------------------------------------------------------------

  /** Newest first. */
  ghost predicate SortedDesc(rs: seq<Reading>)
  {
    forall i, j :: 0 <= i < j < |rs| ==> rs[i].timestamp >= rs[j].timestamp
  }

  /** Insert `x` before the first reading that is not newer than it. */
  function InsertDesc(x: Reading, rs: seq<Reading>): (r: seq<Reading>)
    ensures multiset(r) == multiset(rs) + multiset{x}
  {
    if rs == [] || x.timestamp >= rs[0].timestamp then [x] + rs
    else
      assert rs == [rs[0]] + rs[1..];
      [rs[0]] + InsertDesc(x, rs[1..])
  }

  lemma {:induction false} InsertDescSorted(x: Reading, rs: seq<Reading>)
    requires SortedDesc(rs)
    ensures SortedDesc(InsertDesc(x, rs))
  {
    if rs != [] && x.timestamp < rs[0].timestamp {
      var tail := InsertDesc(x, rs[1..]);
      InsertDescSorted(x, rs[1..]);
      assert rs == [rs[0]] + rs[1..];
      forall j | 0 <= j < |tail| ensures tail[j].timestamp <= rs[0].timestamp {
        assert tail[j] in multiset(tail);
        assert tail[j] == x || tail[j] in multiset(rs[1..]);
      }
    }
  }

  /** ORDER BY timestamp DESC; equal timestamps keep their storage order. */
  function SortDesc(rs: seq<Reading>): (r: seq<Reading>)
    ensures multiset(r) == multiset(rs)
  {
    if rs == [] then []
    else
      assert rs == [rs[0]] + rs[1..];
      InsertDesc(rs[0], SortDesc(rs[1..]))
  }

  /** Sorting yields a newest-first permutation holding exactly the same readings. */
  lemma {:induction false} SortDescSorted(rs: seq<Reading>)
    ensures SortedDesc(SortDesc(rs))
    ensures forall x :: x in SortDesc(rs) <==> x in rs
  {
    if rs != [] {
      SortDescSorted(rs[1..]);
      InsertDescSorted(rs[0], SortDesc(rs[1..]));
    }
    var r := SortDesc(rs);
    forall x ensures x in r <==> x in rs {
      assert x in r <==> x in multiset(r);
      assert x in rs <==> x in multiset(rs);
    }
  }

  /** The rows the route filters: a device's readings, or all of them when no id (or an empty one) is given. */
  function Selected(rs: seq<Reading>, deviceId: Option<DeviceId>): seq<Reading>
  {
    if deviceId.Some? && deviceId.value != "" then ReadingsOf(rs, deviceId.value) else rs
  }

  /** The limit `list_readings` applies when the request gives none. */
  const DefaultListLimit: nat := 50

  function Min(a: nat, b: nat): nat { if a <= b then a else b }

  /**
   * `list_readings`: the selected readings, newest first, at most `limit`
   * of them; no omitted reading is newer than a returned one.
   */
  function ListReadings(rs: seq<Reading>, deviceId: Option<DeviceId>, limit: nat): (out: seq<Reading>)
    ensures |out| == Min(limit, |Selected(rs, deviceId)|)
    ensures SortedDesc(out)
    ensures multiset(out) <= multiset(Selected(rs, deviceId))
    ensures forall x :: x in out ==> x in rs
    ensures deviceId.Some? && deviceId.value != "" ==> forall x :: x in out ==> x.deviceId == deviceId.value
    ensures forall x, i :: x in multiset(Selected(rs, deviceId)) - multiset(out) && 0 <= i < |out| ==>
      x.timestamp <= out[i].timestamp
  {
    var sorted := SortDesc(Selected(rs, deviceId));
    var n := Min(limit, |sorted|);
    SortDescSorted(Selected(rs, deviceId));
    PrefixOfSorted(sorted, n);
    sorted[..n]
  }

  /** An empty device id is no filter at all: it lists the same rows as no id. */
  lemma EmptyIdListsAll(rs: seq<Reading>, limit: nat)
    ensures ListReadings(rs, Some(""), limit) == ListReadings(rs, None, limit)
  {
  }

  /** Without a limit the route returns the newest 50 selected readings, or all of them when fewer. */
  lemma DefaultListLimitBound(rs: seq<Reading>, deviceId: Option<DeviceId>)
    ensures |ListReadings(rs, deviceId, DefaultListLimit)| == if |Selected(rs, deviceId)| < 50 then |Selected(rs, deviceId)| else 50
  {
  }

  /** A prefix of a sorted list holds the newest readings of the list. */
  lemma PrefixOfSorted(sorted: seq<Reading>, n: nat)
    requires SortedDesc(sorted) && n <= |sorted|
    ensures multiset(sorted[..n]) <= multiset(sorted)
    ensures forall x, i :: x in multiset(sorted) - multiset(sorted[..n]) && 0 <= i < n ==>
      x.timestamp <= sorted[i].timestamp
  {
    assert sorted == sorted[..n] + sorted[n..];
    assert multiset(sorted) == multiset(sorted[..n]) + multiset(sorted[n..]);
    forall x, i | x in multiset(sorted) - multiset(sorted[..n]) && 0 <= i < n
      ensures x.timestamp <= sorted[i].timestamp
    {
      assert x in multiset(sorted[n..]);
      assert x in sorted[n..];
      var k :| n <= k < |sorted| && sorted[k] == x;
    }
  }

  /** `latest_reading`: a reading of the device with the greatest timestamp, or 404. */
  function LatestReading(rs: seq<Reading>, d: DeviceId): (r: Result<Reading, HttpError>)
    ensures r.Failure? <==> forall x :: x in rs ==> x.deviceId != d
    ensures r.Failure? ==> r.error == HttpError(NotFound, "No readings found for this device")
    ensures r.Success? ==> r.value in rs && r.value.deviceId == d
    ensures r.Success? ==> forall x :: x in rs && x.deviceId == d ==> x.timestamp <= r.value.timestamp
  {
    var sorted := SortDesc(ReadingsOf(rs, d));
    SortDescSorted(ReadingsOf(rs, d));
    if |sorted| == 0 then Failure(HttpError(NotFound, "No readings found for this device"))
    else Success(sorted[0])
  }

  /** The latest reading is the single row `list_readings` returns for that device with limit 1. */
  lemma LatestIsFirstListed(rs: seq<Reading>, d: DeviceId)
    requires d != ""
    ensures LatestReading(rs, d).Success? ==> ListReadings(rs, Some(d), 1) == [LatestReading(rs, d).value]
  {
  }
}
