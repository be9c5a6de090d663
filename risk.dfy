/**
 * The risk service: threshold classification, rapid-rise detection, the
 * sustained-duration escalation query and the incident lifecycle that runs
 * on every classified reading.
 */
module Risk {
  import opened Wrappers
  import opened Models
  import opened Database

  /** Length of the trailing rapid-rise window: ten minutes, in seconds. */
  const RapidRiseWindow: int := 600
  /** A rise of strictly more than this many centimetres is rapid. */
  const RapidRiseDelta: real := 15.0
  /** An open WARNING incident older than 30 minutes asks for escalation. */
  const WarningEscalationAge: int := 1800
  /** An open HIGH_RISK incident older than 10 minutes asks for escalation. */
  const HighRiskEscalationAge: int := 600

  // ---------------------------------------------------------------------
  // Classification
  // ---------------------------------------------------------------------

  /** Half-open bands with inclusive lower bounds at 30, 60 and 90 cm. */
  function ClassifyRisk(level: real): (r: RiskLevel)
    ensures r == SAFE <==> level < 30.0
    ensures r == WARNING <==> 30.0 <= level < 60.0
    ensures r == HIGH_RISK <==> 60.0 <= level < 90.0
    ensures r == CRITICAL <==> 90.0 <= level
  {
    if level < 30.0 then SAFE
    else if level < 60.0 then WARNING
    else if level < 90.0 then HIGH_RISK
    else CRITICAL
  }

  /** A higher water level never yields a less severe risk. */
  lemma ClassifyRiskMonotone(a: real, b: real)
    requires a <= b
    ensures ClassifyRisk(a).Severity() <= ClassifyRisk(b).Severity()
  {
  }

  // ---------------------------------------------------------------------
  // Rapid-rise detection
  // ---------------------------------------------------------------------

  /** Reading `x` is one of device `d`'s readings stamped at or after `since`. */
  predicate InWindow(x: Reading, d: DeviceId, since: int)
  {
    x.deviceId == d && x.timestamp >= since
  }

  /** `o` is a reading of `rs` in the window with the smallest timestamp there. */
  ghost predicate IsOldestInWindow(rs: seq<Reading>, o: Reading, d: DeviceId, since: int)
  {
    && o in rs
    && InWindow(o, d, since)
    && forall x :: x in rs && InWindow(x, d, since) ==> o.timestamp <= x.timestamp
  }

  /**
   * The window query ordered by ascending timestamp, first row taken. Among
   * readings with equal timestamps the earliest stored one is chosen.
   */
  function OldestSince(rs: seq<Reading>, d: DeviceId, since: int): (o: Option<Reading>)
    ensures o.None? <==> forall x :: x in rs ==> !InWindow(x, d, since)
    ensures o.Some? ==> IsOldestInWindow(rs, o.value, d, since)
  {
    if rs == [] then None
    else
      assert rs == [rs[0]] + rs[1..];
      var rest := OldestSince(rs[1..], d, since);
      if InWindow(rs[0], d, since) && (rest.None? || rs[0].timestamp <= rest.value.timestamp)
      then Some(rs[0])
      else rest
  }

  /**
   * Rapid rise: the current level exceeds the oldest reading of the device in
   * the last ten minutes by strictly more than 15 cm. An empty window never
   * reports a rise.
   */
  function CheckRapidRise(rs: seq<Reading>, d: DeviceId, current: real, now: int): (rise: bool)
    ensures (forall x :: x in rs ==> !InWindow(x, d, now - RapidRiseWindow)) ==> !rise
    ensures rise ==> exists o :: IsOldestInWindow(rs, o, d, now - RapidRiseWindow) && current - o.waterLevel > RapidRiseDelta
    ensures !rise && (exists x :: x in rs && InWindow(x, d, now - RapidRiseWindow)) ==>
      exists o :: IsOldestInWindow(rs, o, d, now - RapidRiseWindow) && current - o.waterLevel <= RapidRiseDelta
  {
    match OldestSince(rs, d, now - RapidRiseWindow)
    case None => false
    case Some(o) => current - o.waterLevel > RapidRiseDelta
  }

  /**
   * When one reading is strictly the oldest in the window, the outcome is
   * decided by it alone: a rise of exactly 15 cm is not rapid.
   */
  lemma RapidRiseAgainstOldest(rs: seq<Reading>, d: DeviceId, current: real, now: int, o: Reading)
    requires IsOldestInWindow(rs, o, d, now - RapidRiseWindow)
    requires forall x :: x in rs && InWindow(x, d, now - RapidRiseWindow) && x != o ==> o.timestamp < x.timestamp
    ensures CheckRapidRise(rs, d, current, now) <==> current - o.waterLevel > RapidRiseDelta
  {
    var oldest := OldestSince(rs, d, now - RapidRiseWindow);
    assert oldest.Some?;
    assert oldest.value == o;
  }

  /**
   * The 15 cm boundary on concrete numbers: with one reading of 40 cm nine
   * minutes ago, 56 cm is a rapid rise and 55 cm is not.
   */
  lemma RapidRiseBoundary(d: DeviceId, now: int)
    ensures var rs := [Reading(1, d, 40.0, WARNING, now - 540)];
      CheckRapidRise(rs, d, 56.0, now) && !CheckRapidRise(rs, d, 55.0, now)
  {
    var rs := [Reading(1, d, 40.0, WARNING, now - 540)];
    RapidRiseAgainstOldest(rs, d, 56.0, now, rs[0]);
    RapidRiseAgainstOldest(rs, d, 55.0, now, rs[0]);
  }

  /** Readings of other devices never influence the rapid-rise decision. */
  lemma {:induction false} OldestSinceOwnDevice(rs: seq<Reading>, d: DeviceId, since: int)
    ensures OldestSince(rs, d, since) == OldestSince(ReadingsOf(rs, d), d, since)
  {
    if rs != [] {
      OldestSinceOwnDevice(rs[1..], d, since);
      if rs[0].deviceId == d {
        assert ReadingsOf(rs, d) == [rs[0]] + ReadingsOf(rs[1..], d);
        assert ReadingsOf(rs, d)[1..] == ReadingsOf(rs[1..], d);
      } else {
        assert ReadingsOf(rs, d) == ReadingsOf(rs[1..], d);
      }
    }
  }

  lemma RapidRiseOwnDevice(rs: seq<Reading>, d: DeviceId, current: real, now: int)
    ensures CheckRapidRise(rs, d, current, now) == CheckRapidRise(ReadingsOf(rs, d), d, current, now)
  {
    OldestSinceOwnDevice(rs, d, now - RapidRiseWindow);
  }

  // ---------------------------------------------------------------------
  // Sustained-duration escalation (a query the ingestion path never calls)
  // ---------------------------------------------------------------------

  /** Incident `inc` is open and belongs to the bucket `(d, risk)`. */
  predicate OpenInBucket(inc: Incident, d: DeviceId, risk: RiskLevel)
  {
    inc.deviceId == d && inc.risk == risk && inc.IsOpen()
  }

  /** Latest trigger time at which an open incident counts as persisting. */
  function EscalationThreshold(risk: RiskLevel, now: int): Option<int>
  {
    match risk
    case WARNING => Some(now - WarningEscalationAge)
    case HIGH_RISK => Some(now - HighRiskEscalationAge)
    case _ => None
  }

  function ShouldEscalate(incs: seq<Incident>, d: DeviceId, risk: RiskLevel, now: int): (esc: bool)
    ensures risk == SAFE || risk == CRITICAL ==> !esc
    ensures risk == WARNING ==> (esc <==> exists i :: 0 <= i < |incs| && OpenInBucket(incs[i], d, WARNING) && incs[i].triggeredAt <= now - 1800)
    ensures risk == HIGH_RISK ==> (esc <==> exists i :: 0 <= i < |incs| && OpenInBucket(incs[i], d, HIGH_RISK) && incs[i].triggeredAt <= now - 600)
  {
    match EscalationThreshold(risk, now)
    case None => false
    case Some(threshold) => First(incs, inc => OpenInBucket(inc, d, risk) && inc.triggeredAt <= threshold).Some?
  }

  // ---------------------------------------------------------------------
  // Incident lifecycle: specification
  // ---------------------------------------------------------------------

  /** At most one open incident per (device, risk level) bucket. */
  ghost predicate OneOpenPerBucket(incs: seq<Incident>)
  {
    forall i, j :: 0 <= i < j < |incs| && incs[i].IsOpen() && incs[j].IsOpen() && incs[i].deviceId == incs[j].deviceId
      ==> incs[i].risk != incs[j].risk
  }

  /** Index of the first open incident of bucket `(d, risk)`, if any. */
  function FindOpen(incs: seq<Incident>, d: DeviceId, risk: RiskLevel): (r: Option<nat>)
    ensures r.Some? ==> r.value < |incs| && OpenInBucket(incs[r.value], d, risk)
    ensures r.None? <==> forall i :: 0 <= i < |incs| ==> !OpenInBucket(incs[i], d, risk)
  {
    First(incs, inc => OpenInBucket(inc, d, risk))
  }

  function ResolveIfOpen(inc: Incident, d: DeviceId, now: int): Incident
  {
    if inc.deviceId == d && inc.IsOpen() then inc.(resolvedAt := Some(now)) else inc
  }

  /** The incidents table after every open incident of `d` is resolved at `now`. */
  function ResolveAll(incs: seq<Incident>, d: DeviceId, now: int): (r: seq<Incident>)
    ensures |r| == |incs|
  {
    if incs == [] then [] else [ResolveIfOpen(incs[0], d, now)] + ResolveAll(incs[1..], d, now)
  }

  lemma {:induction false} ResolveAllAt(incs: seq<Incident>, d: DeviceId, now: int, k: nat)
    requires k < |incs|
    ensures ResolveAll(incs, d, now)[k] == ResolveIfOpen(incs[k], d, now)
  {
    if k > 0 {
      ResolveAllAt(incs[1..], d, now, k - 1);
    }
  }

  /**
   * Resolving sets `resolvedAt := now` on exactly the open incidents of `d`,
   * whatever their risk level, and leaves every other incident and every
   * other field as it was; afterwards `d` has no open incident.
   */
  lemma ResolveAllEffect(incs: seq<Incident>, d: DeviceId, now: int)
    ensures var r := ResolveAll(incs, d, now);
      && |r| == |incs|
      && (forall k :: 0 <= k < |incs| && incs[k].deviceId == d && incs[k].IsOpen() ==>
            r[k] == incs[k].(resolvedAt := Some(now)))
      && (forall k :: 0 <= k < |incs| && !(incs[k].deviceId == d && incs[k].IsOpen()) ==> r[k] == incs[k])
      && (forall k :: 0 <= k < |r| ==> !(r[k].deviceId == d && r[k].IsOpen()))
  {
    forall k | 0 <= k < |incs| ensures ResolveAll(incs, d, now)[k] == ResolveIfOpen(incs[k], d, now) {
      ResolveAllAt(incs, d, now, k);
    }
  }

  /** Resolving a second time changes nothing, whatever the second time stamp. */
  lemma {:induction false} ResolveAllIdempotent(incs: seq<Incident>, d: DeviceId, now: int, later: int)
    ensures ResolveAll(ResolveAll(incs, d, now), d, later) == ResolveAll(incs, d, now)
  {
    if incs != [] {
      ResolveAllIdempotent(incs[1..], d, now, later);
      var r := ResolveAll(incs, d, now);
      assert r[1..] == ResolveAll(incs[1..], d, now);
    }
  }

  /** The message names the crossed threshold and flags a rapid rise. */
  function IncidentMessage(risk: RiskLevel, rapidRise: bool): string
  {
    "Water level crossed " + risk.Value() + " threshold" + (if rapidRise then " (RAPID RISE detected)" else "")
  }

  /** Distinct (risk, rapid-rise) pairs give distinct messages. */
  lemma IncidentMessageInjective(r1: RiskLevel, b1: bool, r2: RiskLevel, b2: bool)
    requires IncidentMessage(r1, b1) == IncidentMessage(r2, b2)
    ensures r1 == r2 && b1 == b2
  {
    assert |IncidentMessage(r1, b1)| == |IncidentMessage(r2, b2)|;
  }

  /** Outcome of reconciliation: the new table and the incident created, if any. */
  datatype Reconciled = Reconciled(incidents: seq<Incident>, created: Option<Incident>)

  /** The incident a non-SAFE reading opens in an empty bucket. */
  function NewIncident(incs: seq<Incident>, d: DeviceId, risk: RiskLevel, rapidRise: bool, now: int): Incident
  {
    Incident(|incs| + 1, d, risk, now, None, IncidentMessage(risk, rapidRise))
  }

  /**
   * What `create_or_update_incident` does to the incidents table: SAFE
   * resolves all of the device's open incidents and creates nothing; any
   * other level creates one incident exactly when its bucket has none open.
   */
  function Reconcile(incs: seq<Incident>, d: DeviceId, risk: RiskLevel, rapidRise: bool, now: int): (r: Reconciled)
    ensures risk == SAFE ==> r.created.None? && r.incidents == ResolveAll(incs, d, now)
    ensures risk != SAFE ==> (r.created.Some? <==> forall i :: 0 <= i < |incs| ==> !OpenInBucket(incs[i], d, risk))
    ensures risk != SAFE && r.created.None? ==> r.incidents == incs
    ensures r.created.Some? ==> r.incidents == incs + [r.created.value]
    ensures r.created.Some? ==> var inc := r.created.value;
      inc.deviceId == d && inc.risk == risk && inc.triggeredAt == now && inc.IsOpen()
      && inc.message == IncidentMessage(risk, rapidRise)
  {
    if risk == SAFE then Reconciled(ResolveAll(incs, d, now), None)
    else match FindOpen(incs, d, risk)
      case Some(_) => Reconciled(incs, None)
      case None =>
        var inc := NewIncident(incs, d, risk, rapidRise, now);
        Reconciled(incs + [inc], Some(inc))
  }

  /** Reconciliation keeps at most one open incident per bucket. */
  lemma ReconcileKeepsOneOpenPerBucket(incs: seq<Incident>, d: DeviceId, risk: RiskLevel, rapidRise: bool, now: int)
    requires OneOpenPerBucket(incs)
    ensures OneOpenPerBucket(Reconcile(incs, d, risk, rapidRise, now).incidents)
  {
    var r := Reconcile(incs, d, risk, rapidRise, now);
    if risk == SAFE {
      ResolveAllEffect(incs, d, now);
      forall i, j | 0 <= i < j < |r.incidents| && r.incidents[i].IsOpen() && r.incidents[j].IsOpen()
        && r.incidents[i].deviceId == r.incidents[j].deviceId
        ensures r.incidents[i].risk != r.incidents[j].risk
      {
        assert r.incidents[i] == incs[i] && r.incidents[j] == incs[j];
      }
    } else if r.created.Some? {
      var n := |incs|;
      forall i, j | 0 <= i < j < |r.incidents| && r.incidents[i].IsOpen() && r.incidents[j].IsOpen()
        && r.incidents[i].deviceId == r.incidents[j].deviceId
        ensures r.incidents[i].risk != r.incidents[j].risk
      {
        if j == n {
          assert !OpenInBucket(incs[i], d, risk);
        }
      }
    }
  }

  /**
   * Reconciling the same reading twice: the second call creates nothing and
   * leaves the table as the first call left it.
   */
  lemma ReconcileIdempotent(incs: seq<Incident>, d: DeviceId, risk: RiskLevel, rapidRise: bool, now: int, later: int)
    ensures var first := Reconcile(incs, d, risk, rapidRise, now);
      var second := Reconcile(first.incidents, d, risk, rapidRise, later);
      second.created.None? && second.incidents == first.incidents
  {
    var first := Reconcile(incs, d, risk, rapidRise, now);
    if risk == SAFE {
      ResolveAllIdempotent(incs, d, now, later);
    } else if first.created.Some? {
      assert OpenInBucket(first.incidents[|incs|], d, risk);
    }
  }

  /** After a SAFE reading resolved the device, a non-SAFE reading opens a fresh incident. */
  lemma ReopenAfterResolve(incs: seq<Incident>, d: DeviceId, rapidRise: bool, now: int,
                           risk: RiskLevel, rapid2: bool, later: int)
    requires risk != SAFE
    ensures var resolved := Reconcile(incs, d, SAFE, rapidRise, now).incidents;
      var again := Reconcile(resolved, d, risk, rapid2, later);
      again.created.Some? && again.created.value.triggeredAt == later
  {
    ResolveAllEffect(incs, d, now);
  }

  // ---------------------------------------------------------------------
  // Incident lifecycle: the in-place update on the store
  // ---------------------------------------------------------------------

  method CreateOrUpdateIncident(db: Db, d: DeviceId, risk: RiskLevel, rapidRise: bool, now: int)
    returns (created: Option<Incident>)
    modifies db
    ensures db.incidents == Reconcile(old(db.incidents), d, risk, rapidRise, now).incidents
    ensures created == Reconcile(old(db.incidents), d, risk, rapidRise, now).created
    ensures db.devices == old(db.devices) && db.readings == old(db.readings)
  {
    if risk == SAFE {
      ghost var before := db.incidents;
      var i := 0;
      while i < |db.incidents|
        invariant i <= |db.incidents| == |before|
        invariant forall k :: 0 <= k < i ==> db.incidents[k] == ResolveIfOpen(before[k], d, now)
        invariant forall k :: i <= k < |before| ==> db.incidents[k] == before[k]
        invariant db.devices == old(db.devices) && db.readings == old(db.readings)
      {
        var inc := db.incidents[i];
        if inc.deviceId == d && inc.IsOpen() {
          db.incidents := db.incidents[i := inc.(resolvedAt := Some(now))];
        }
        i := i + 1;
      }
      forall k | 0 <= k < |before| ensures db.incidents[k] == ResolveAll(before, d, now)[k] {
        ResolveAllAt(before, d, now, k);
      }
      return None;
    }
    var existing := FindOpen(db.incidents, d, risk);
    if existing.None? {
      var incident := NewIncident(db.incidents, d, risk, rapidRise, now);
      db.incidents := db.incidents + [incident];
      return Some(incident);
    }
    return None;
  }
}
