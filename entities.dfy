/**
 * The two persisted entities. Each is a mutable object with an identity that
 * the repository assigns when it is first saved, and each has a row value: the
 * state a database row holds once the object is written.
 */
module Entities {
  import opened Wrappers
  import opened Domain

  /** A row of the route_stats table. */
  datatype RouteStatsRow = RouteStatsRow(
    id: int,
    originLat: real, originLon: real,
    destinationLat: real, destinationLon: real,
    modeUsed: string, distanceKm: real, durationMinutes: int,
    calculationTime: Timestamp)

  /** Statistics of one computed route. */
  class RouteStats {
    var id: Option<int>
    var originLat: real
    var originLon: real
    var destinationLat: real
    var destinationLon: real
    var modeUsed: string
    var distanceKm: real
    var durationMinutes: int
    var calculationTime: Timestamp

    /** The seven-argument constructor; `now` is the clock reading `LocalDateTime.now()`. */
    constructor (originLat: real, originLon: real, destinationLat: real, destinationLon: real,
                 modeUsed: string, distanceKm: real, durationMinutes: int, now: Timestamp)
      ensures id == None
      ensures this.originLat == originLat && this.originLon == originLon
      ensures this.destinationLat == destinationLat && this.destinationLon == destinationLon
      ensures this.modeUsed == modeUsed && this.distanceKm == distanceKm
      ensures this.durationMinutes == durationMinutes
      ensures calculationTime == now
    {
      id := None;
      this.originLat := originLat;
      this.originLon := originLon;
      this.destinationLat := destinationLat;
      this.destinationLon := destinationLon;
      this.modeUsed := modeUsed;
      this.distanceKm := distanceKm;
      this.durationMinutes := durationMinutes;
      calculationTime := now;
    }

    /** The row this object's state is written as, under the key `key`. */
    function RowWith(key: int): (r: RouteStatsRow)
      reads this
      ensures r.id == key && r.calculationTime == calculationTime
    {
      RouteStatsRow(key, originLat, originLon, destinationLat, destinationLon,
                    modeUsed, distanceKm, durationMinutes, calculationTime)
    }

    method SetId(v: Option<int>)
      modifies this`id
      ensures id == v
    {
      id := v;
    }

    method SetOriginLat(v: real)
      modifies this`originLat
      ensures originLat == v
    {
      originLat := v;
    }

    method SetOriginLon(v: real)
      modifies this`originLon
      ensures originLon == v
    {
      originLon := v;
    }

    method SetDestinationLat(v: real)
      modifies this`destinationLat
      ensures destinationLat == v
    {
      destinationLat := v;
    }

    method SetDestinationLon(v: real)
      modifies this`destinationLon
      ensures destinationLon == v
    {
      destinationLon := v;
    }

    method SetModeUsed(v: string)
      modifies this`modeUsed
      ensures modeUsed == v
    {
      modeUsed := v;
    }

    method SetDistanceKm(v: real)
      modifies this`distanceKm
      ensures distanceKm == v
    {
      distanceKm := v;
    }

    method SetDurationMinutes(v: int)
      modifies this`durationMinutes
      ensures durationMinutes == v
    {
      durationMinutes := v;
    }

    method SetCalculationTime(v: Timestamp)
      modifies this`calculationTime
      ensures calculationTime == v
    {
      calculationTime := v;
    }
  }

  /** A row of the audit_entries table. */
  datatype AuditRow = AuditRow(id: int, action: string, timestamp: Timestamp, message: string)

  /** One audited operation call. */
  class AuditEntry {
    var id: Option<int>
    var action: string
    var timestamp: Timestamp
    var message: string

    /** The two-argument constructor; `now` is the clock reading `LocalDateTime.now()`. */
    constructor (action: string, message: string, now: Timestamp)
      ensures id == None
      ensures this.action == action && this.message == message
      ensures timestamp == now
    {
      id := None;
      this.action := action;
      this.message := message;
      timestamp := now;
    }

    /** The row this object's state is written as, under the key `key`. */
    function RowWith(key: int): (r: AuditRow)
      reads this
      ensures r.id == key && r.action == action && r.message == message && r.timestamp == timestamp
    {
      AuditRow(key, action, timestamp, message)
    }

    method SetId(v: Option<int>)
      modifies this`id
      ensures id == v
    {
      id := v;
    }

    method SetAction(v: string)
      modifies this`action
      ensures action == v
    {
      action := v;
    }

    method SetTimestamp(v: Timestamp)
      modifies this`timestamp
      ensures timestamp == v
    {
      timestamp := v;
    }

    method SetMessage(v: string)
      modifies this`message
      ensures message == v
    {
      message := v;
    }
  }
}
