/**
 * The persistent entities of the flood monitor: risk levels, registered
 * devices, stored readings and incidents. Timestamps are whole seconds;
 * water levels are centimetres as reals.
 */
module Models {
  import opened Wrappers

  /** The four risk levels, in increasing order of severity. */
  datatype RiskLevel = SAFE | WARNING | HIGH_RISK | CRITICAL {

    /** Position in the severity order, SAFE lowest. */
    function Severity(): (n: nat)
      ensures n <= 3
      ensures this == SAFE <==> n == 0
    {
      match this
      case SAFE => 0
      case WARNING => 1
      case HIGH_RISK => 2
      case CRITICAL => 3
    }

    /** The member's value, which the incident message interpolates. */
    function Value(): string
    {
      match this
      case SAFE => "safe"
      case WARNING => "warning"
      case HIGH_RISK => "high_risk"
      case CRITICAL => "critical"
    }
  }

  type DeviceId = string

  /** A registered telemetry source; the registry maps its id to this record. */
  datatype Device = Device(name: string, location: string)

  /** A stored reading; `risk` is the final, possibly escalated, level. */
  datatype Reading = Reading(id: nat, deviceId: DeviceId, waterLevel: real, risk: RiskLevel, timestamp: int)

  /** An incident is OPEN while `resolvedAt` is None. */
  datatype Incident = Incident(
    id: nat,
    deviceId: DeviceId,
    risk: RiskLevel,
    triggeredAt: int,
    resolvedAt: Option<int>,
    message: string)
  {
    predicate IsOpen() { resolvedAt.None? }
  }

  /** The HTTP error a route raises: a status code and its detail text. */
  datatype HttpError = HttpError(status: nat, detail: string)

}
