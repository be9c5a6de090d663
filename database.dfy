/**
 * The relational store as the decision engine sees it: the device registry,
 * the readings table and the incidents table, each held in memory.
 */
module Database {
  import opened Wrappers
  import opened Models

  /** A snapshot of the three tables, used to specify whole requests. */
  datatype DbState = DbState(devices: map<DeviceId, Device>, readings: seq<Reading>, incidents: seq<Incident>)

  /**
   * The first row (in storage order) that passes a filter: a `.filter(...).first()`
   * query with no ORDER BY.
   */
  function First<T>(rows: seq<T>, p: T -> bool): (r: Option<nat>)
    ensures r.Some? ==> r.value < |rows| && p(rows[r.value])
    ensures r.Some? ==> forall j :: 0 <= j < r.value ==> !p(rows[j])
    ensures r.None? <==> forall j :: 0 <= j < |rows| ==> !p(rows[j])
  {
    if rows == [] then None
    else if p(rows[0]) then Some(0)
    else match First(rows[1..], p)
      case None => None
      case Some(k) => Some(k + 1)
  }

  /** The rows of the readings table that belong to device `d`, in storage order. */
  function ReadingsOf(rs: seq<Reading>, d: DeviceId): (r: seq<Reading>)
    ensures forall x :: multiset(r)[x] == if x.deviceId == d then multiset(rs)[x] else 0
    ensures forall x :: x in r <==> x in rs && x.deviceId == d
  {
    if rs == [] then []
    else
      assert rs == [rs[0]] + rs[1..];
      (if rs[0].deviceId == d then [rs[0]] else []) + ReadingsOf(rs[1..], d)
  }

  class Db {
    var devices: map<DeviceId, Device>
    var readings: seq<Reading>
    var incidents: seq<Incident>

    constructor (registry: map<DeviceId, Device>)
      ensures devices == registry && readings == [] && incidents == []
    {
      devices := registry;
      readings := [];
      incidents := [];
    }

    /** The three tables as one value. */
    function State(): DbState
      reads this
    {
      DbState(devices, readings, incidents)
    }
  }
}
