/**
 * An end-to-end run of the ingestion route for one river gauge, step by
 * step: each step states the exact tables and response one call produces.
 */
module Scenario {
  import opened Wrappers
  import opened Models
  import opened Database
  import opened Risk
  import opened Readings

  const Gauge: DeviceId := "river_001"

  function Registry(): map<DeviceId, Device>
  {
    map[Gauge := Device("River 001", "North bridge")]
  }

  function Submit(level: real): ReadingCreate
  {
    ReadingCreate(Gauge, level, None)
  }

  function R1(): Reading { Reading(1, Gauge, 10.0, SAFE, 0) }
  function R2(): Reading { Reading(2, Gauge, 45.0, WARNING, 1000) }
  function R3(): Reading { Reading(3, Gauge, 46.0, WARNING, 1300) }
  function R4(): Reading { Reading(4, Gauge, 65.0, HIGH_RISK, 1480) }
  function R5(): Reading { Reading(5, Gauge, 95.0, CRITICAL, 1540) }
  function R6(): Reading { Reading(6, Gauge, 95.0, CRITICAL, 1600) }
  function R7(): Reading { Reading(7, Gauge, 5.0, SAFE, 1660) }

  function Warning(): Incident { Incident(1, Gauge, WARNING, 1000, None, IncidentMessage(WARNING, false)) }
  function High(): Incident { Incident(2, Gauge, HIGH_RISK, 1480, None, IncidentMessage(HIGH_RISK, true)) }
  function Critical(): Incident { Incident(3, Gauge, CRITICAL, 1540, None, IncidentMessage(CRITICAL, true)) }

  /** `Ingest` on a registered device, unfolded one level. */
  lemma IngestAccepted(s: DbState, req: ReadingCreate, now: int)
    requires req.deviceId in s.devices && req.timestamp.None?
    ensures var rapid := CheckRapidRise(s.readings, req.deviceId, req.waterLevelCm, now);
      var risk := Escalate(ClassifyRisk(req.waterLevelCm), rapid);
      var stored := Reading(|s.readings| + 1, req.deviceId, req.waterLevelCm, risk, now);
      var rec := Reconcile(s.incidents, req.deviceId, risk, rapid, now);
      Ingest(s, req, now) == Ingested(DbState(s.devices, s.readings + [stored], rec.incidents),
        Success(Submitted(stored, if rec.created.Some? || risk == CRITICAL then Some(AlertTask(req.deviceId, req.waterLevelCm, risk, rapid)) else None)))
  {
  }

  lemma Step1()
    ensures Ingest(DbState(Registry(), [], []), Submit(10.0), 0)
         == Ingested(DbState(Registry(), [R1()], []), Success(Submitted(R1(), None)))
  {
    IngestAccepted(DbState(Registry(), [], []), Submit(10.0), 0);
  }

  lemma Step2Facts()
    ensures !CheckRapidRise([R1()], Gauge, 45.0, 1000)
    ensures Reconcile([], Gauge, WARNING, false, 1000) == Reconciled([Warning()], Some(Warning()))
  {
  }

  lemma Step2()
    ensures Ingest(DbState(Registry(), [R1()], []), Submit(45.0), 1000)
         == Ingested(DbState(Registry(), [R1(), R2()], [Warning()]),
                     Success(Submitted(R2(), Some(AlertTask(Gauge, 45.0, WARNING, false)))))
  {
    Step2Facts();
    IngestAccepted(DbState(Registry(), [R1()], []), Submit(45.0), 1000);
  }

  lemma Step3Facts()
    ensures !CheckRapidRise([R1(), R2()], Gauge, 46.0, 1300)
    ensures Reconcile([Warning()], Gauge, WARNING, false, 1300) == Reconciled([Warning()], None)
  {
    RapidRiseAgainstOldest([R1(), R2()], Gauge, 46.0, 1300, R2());
    assert OpenInBucket([Warning()][0], Gauge, WARNING);
  }

  lemma Step3()
    ensures Ingest(DbState(Registry(), [R1(), R2()], [Warning()]), Submit(46.0), 1300)
         == Ingested(DbState(Registry(), [R1(), R2(), R3()], [Warning()]), Success(Submitted(R3(), None)))
  {
    Step3Facts();
    IngestAccepted(DbState(Registry(), [R1(), R2()], [Warning()]), Submit(46.0), 1300);
  }

  lemma Step4Facts()
    ensures CheckRapidRise([R1(), R2(), R3()], Gauge, 65.0, 1480)
    ensures Reconcile([Warning()], Gauge, HIGH_RISK, true, 1480) == Reconciled([Warning(), High()], Some(High()))
  {
    RapidRiseAgainstOldest([R1(), R2(), R3()], Gauge, 65.0, 1480, R2());
  }

  lemma Step4()
    ensures Ingest(DbState(Registry(), [R1(), R2(), R3()], [Warning()]), Submit(65.0), 1480)
         == Ingested(DbState(Registry(), [R1(), R2(), R3(), R4()], [Warning(), High()]),
                     Success(Submitted(R4(), Some(AlertTask(Gauge, 65.0, HIGH_RISK, true)))))
  {
    Step4Facts();
    IngestAccepted(DbState(Registry(), [R1(), R2(), R3()], [Warning()]), Submit(65.0), 1480);
  }

  lemma Step5Facts()
    ensures CheckRapidRise([R1(), R2(), R3(), R4()], Gauge, 95.0, 1540)
    ensures Reconcile([Warning(), High()], Gauge, CRITICAL, true, 1540)
         == Reconciled([Warning(), High(), Critical()], Some(Critical()))
  {
    RapidRiseAgainstOldest([R1(), R2(), R3(), R4()], Gauge, 95.0, 1540, R2());
  }

  lemma Step5()
    ensures Ingest(DbState(Registry(), [R1(), R2(), R3(), R4()], [Warning(), High()]), Submit(95.0), 1540)
         == Ingested(DbState(Registry(), [R1(), R2(), R3(), R4(), R5()], [Warning(), High(), Critical()]),
                     Success(Submitted(R5(), Some(AlertTask(Gauge, 95.0, CRITICAL, true)))))
  {
    Step5Facts();
    IngestAccepted(DbState(Registry(), [R1(), R2(), R3(), R4()], [Warning(), High()]), Submit(95.0), 1540);
  }

  lemma Step6Facts()
    ensures CheckRapidRise([R1(), R2(), R3(), R4(), R5()], Gauge, 95.0, 1600)
    ensures Reconcile([Warning(), High(), Critical()], Gauge, CRITICAL, true, 1600)
         == Reconciled([Warning(), High(), Critical()], None)
  {
    RapidRiseAgainstOldest([R1(), R2(), R3(), R4(), R5()], Gauge, 95.0, 1600, R2());
    assert OpenInBucket([Warning(), High(), Critical()][2], Gauge, CRITICAL);
  }

  lemma Step6()
    ensures Ingest(DbState(Registry(), [R1(), R2(), R3(), R4(), R5()], [Warning(), High(), Critical()]), Submit(95.0), 1600)
         == Ingested(DbState(Registry(), [R1(), R2(), R3(), R4(), R5(), R6()], [Warning(), High(), Critical()]),
                     Success(Submitted(R6(), Some(AlertTask(Gauge, 95.0, CRITICAL, true)))))
  {
    Step6Facts();
    IngestAccepted(DbState(Registry(), [R1(), R2(), R3(), R4(), R5()], [Warning(), High(), Critical()]), Submit(95.0), 1600);
  }

  function Resolved(inc: Incident): Incident { inc.(resolvedAt := Some(1660)) }

  lemma Step7Rapid()
    ensures !CheckRapidRise([R1(), R2(), R3(), R4(), R5(), R6()], Gauge, 5.0, 1660)
  {
    RapidRiseAgainstOldest([R1(), R2(), R3(), R4(), R5(), R6()], Gauge, 5.0, 1660, R3());
  }

  lemma Step7Resolve()
    ensures Reconcile([Warning(), High(), Critical()], Gauge, SAFE, false, 1660)
         == Reconciled([Resolved(Warning()), Resolved(High()), Resolved(Critical())], None)
  {
    var incs := [Warning(), High(), Critical()];
    assert incs[1..] == [High(), Critical()];
    assert incs[1..][1..] == [Critical()];
  }

  lemma Step7()
    ensures Ingest(DbState(Registry(), [R1(), R2(), R3(), R4(), R5(), R6()], [Warning(), High(), Critical()]), Submit(5.0), 1660)
         == Ingested(DbState(Registry(), [R1(), R2(), R3(), R4(), R5(), R6(), R7()],
                             [Resolved(Warning()), Resolved(High()), Resolved(Critical())]),
                     Success(Submitted(R7(), None)))
  {
    Step7Rapid();
    Step7Resolve();
    IngestAccepted(DbState(Registry(), [R1(), R2(), R3(), R4(), R5(), R6()], [Warning(), High(), Critical()]), Submit(5.0), 1660);
  }

  /** The tables after the first four readings. */
  function RisingState(): DbState
  {
    DbState(Registry(), [R1(), R2(), R3(), R4()], [Warning(), High()])
  }

  /**
   * From an empty history: SAFE, then WARNING opens an incident and alerts,
   * a sustained WARNING is silent, and HIGH_RISK opens a second bucket and
   * alerts.
   */
  lemma RiverScenarioRising()
    ensures
      var o1 := Ingest(DbState(Registry(), [], []), Submit(10.0), 0);
      var o2 := Ingest(o1.state, Submit(45.0), 1000);
      var o3 := Ingest(o2.state, Submit(46.0), 1300);
      var o4 := Ingest(o3.state, Submit(65.0), 1480);
      && o1.response.value.reading.risk == SAFE && o1.response.value.alert.None?
      && o2.response.value.reading.risk == WARNING && o2.response.value.alert.Some?
      && o3.response.value.reading.risk == WARNING && o3.response.value.alert.None?
      && o4.response.value.reading.risk == HIGH_RISK && o4.response.value.alert.Some?
      && |o2.state.incidents| == |o3.state.incidents| == 1
      && o4.state == RisingState()
  {
    Step1(); Step2(); Step3(); Step4();
  }

  /** The tables after the two CRITICAL readings. */
  function PeakState(): DbState
  {
    DbState(Registry(), [R1(), R2(), R3(), R4(), R5(), R6()], [Warning(), High(), Critical()])
  }

  /**
   * Continuing: CRITICAL opens a third incident and alerts, and alerts again
   * while that incident stays open.
   */
  lemma RiverScenarioPeak()
    ensures
      var o5 := Ingest(RisingState(), Submit(95.0), 1540);
      var o6 := Ingest(o5.state, Submit(95.0), 1600);
      && o5.response.value.reading.risk == CRITICAL && o5.response.value.alert.Some?
      && o6.response.value.reading.risk == CRITICAL && o6.response.value.alert.Some?
      && |o5.state.incidents| == 3
      && o6.state == PeakState()
  {
    Step5();
    Step6();
  }

  /** Finally a SAFE reading resolves all three open incidents without an alert. */
  lemma RiverScenarioRecede()
    ensures
      var o7 := Ingest(PeakState(), Submit(5.0), 1660);
      && o7.response.value.reading.risk == SAFE && o7.response.value.alert.None?
      && (forall i :: 0 <= i < 3 ==> PeakState().incidents[i].IsOpen())
      && |o7.state.incidents| == 3
      && (forall i :: 0 <= i < 3 ==> !o7.state.incidents[i].IsOpen())
  {
    Step7();
  }

  // A flash flood: a WARNING-level reading that rose quickly is escalated,
  // and its incident opens in the HIGH_RISK bucket.

  function Flash(): Reading { Reading(2, Gauge, 45.0, HIGH_RISK, 300) }
  function FlashIncident(): Incident { Incident(1, Gauge, HIGH_RISK, 300, None, IncidentMessage(HIGH_RISK, true)) }

  lemma FlashFacts()
    ensures CheckRapidRise([R1()], Gauge, 45.0, 300)
    ensures Reconcile([], Gauge, HIGH_RISK, true, 300) == Reconciled([FlashIncident()], Some(FlashIncident()))
  {
    RapidRiseAgainstOldest([R1()], Gauge, 45.0, 300, R1());
  }

  lemma FlashStep()
    ensures Ingest(DbState(Registry(), [R1()], []), Submit(45.0), 300)
         == Ingested(DbState(Registry(), [R1(), Flash()], [FlashIncident()]),
                     Success(Submitted(Flash(), Some(AlertTask(Gauge, 45.0, HIGH_RISK, true)))))
  {
    FlashFacts();
    IngestAccepted(DbState(Registry(), [R1()], []), Submit(45.0), 300);
  }

  /**
   * 10 cm, then 45 cm five minutes later: the rise of 35 cm lifts the
   * WARNING classification to HIGH_RISK, the reading is stored as HIGH_RISK,
   * the one incident opened is a HIGH_RISK one marked as a rapid rise, and
   * the alert carries HIGH_RISK.
   */
  lemma RiverScenarioFlash()
    ensures
      var o1 := Ingest(DbState(Registry(), [], []), Submit(10.0), 0);
      var o2 := Ingest(o1.state, Submit(45.0), 300);
      && ClassifyRisk(45.0) == WARNING
      && o2.response.value.reading.risk == HIGH_RISK
      && |o2.state.incidents| == 1
      && o2.state.incidents[0].risk == HIGH_RISK
      && o2.state.incidents[0].message == "Water level crossed high_risk threshold (RAPID RISE detected)"
      && o2.response.value.alert == Some(AlertTask(Gauge, 45.0, HIGH_RISK, true))
  {
    Step1();
    FlashStep();
    FlashMessage();
  }

  lemma FlashMessage()
    ensures FlashIncident().message == "Water level crossed high_risk threshold (RAPID RISE detected)"
  {
  }
}
