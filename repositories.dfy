/**
 * The two tables and the operations the core performs on them. Each table is
 * a sequence of rows in insertion order; `nextId` is the identity column's
 * next value.
 */
module Repositories {
  import opened Wrappers
  import opened Domain
  import opened Errors
  import opened Entities

  /** The rows of the stats table that a retention delete with `cutoff` keeps. */
  function Retained(rows: seq<RouteStatsRow>, cutoff: Timestamp): (r: seq<RouteStatsRow>)
    ensures forall x :: x in r <==> x in rows && x.calculationTime >= cutoff
    ensures |r| <= |rows|
  {
    if rows == [] then []
    else if rows[|rows| - 1].calculationTime >= cutoff
    then Retained(rows[..|rows| - 1], cutoff) + [rows[|rows| - 1]]
    else Retained(rows[..|rows| - 1], cutoff)
  }

  /** The rows of the stats table that a retention delete with `cutoff` removes. */
  function Removed(rows: seq<RouteStatsRow>, cutoff: Timestamp): (r: seq<RouteStatsRow>)
    ensures forall x :: x in r <==> x in rows && x.calculationTime < cutoff
  {
    if rows == [] then []
    else if rows[|rows| - 1].calculationTime < cutoff
    then Removed(rows[..|rows| - 1], cutoff) + [rows[|rows| - 1]]
    else Removed(rows[..|rows| - 1], cutoff)
  }

  /** Every row is either kept or removed, never both and never neither. */
  lemma {:induction false} RetainedRemovedPartition(rows: seq<RouteStatsRow>, cutoff: Timestamp)
    ensures multiset(Retained(rows, cutoff)) + multiset(Removed(rows, cutoff)) == multiset(rows)
    ensures |Retained(rows, cutoff)| + |Removed(rows, cutoff)| == |rows|
  {
    if rows != [] {
      var init := rows[..|rows| - 1];
      RetainedRemovedPartition(init, cutoff);
      assert rows == init + [rows[|rows| - 1]];
    }
  }

  /** A second delete with the same cutoff keeps everything. */
  lemma {:induction false} RetainedIdempotent(rows: seq<RouteStatsRow>, cutoff: Timestamp)
    ensures Retained(Retained(rows, cutoff), cutoff) == Retained(rows, cutoff)
    ensures Removed(Retained(rows, cutoff), cutoff) == []
  {
    if rows != [] {
      var init := rows[..|rows| - 1];
      RetainedIdempotent(init, cutoff);
      var r := Retained(init, cutoff);
      if rows[|rows| - 1].calculationTime >= cutoff {
        var r' := r + [rows[|rows| - 1]];
        assert r'[..|r'| - 1] == r;
      }
    }
  }

  /** Keys strictly increase along the table (insertion order under an identity column). */
  ghost predicate StatsIdsIncreasing(rows: seq<RouteStatsRow>)
  {
    forall i, j :: 0 <= i < j < |rows| ==> rows[i].id < rows[j].id
  }

  /** A delete keeps the surviving rows in their order, so keys still increase. */
  lemma {:induction false} RetainedKeepsOrder(rows: seq<RouteStatsRow>, cutoff: Timestamp)
    requires StatsIdsIncreasing(rows)
    ensures StatsIdsIncreasing(Retained(rows, cutoff))
  {
    if rows != [] {
      var init := rows[..|rows| - 1];
      RetainedKeepsOrder(init, cutoff);
      var r := Retained(init, cutoff);
      if rows[|rows| - 1].calculationTime >= cutoff {
        var last := rows[|rows| - 1];
        forall i | 0 <= i < |r| ensures r[i].id < last.id {
          assert r[i] in init;
        }
      }
    }
  }

  /** The route_stats table (RouteStatsRepository). */
  class RouteStatsRepository {
    var rows: seq<RouteStatsRow>
    var nextId: int

    ghost predicate Valid()
      reads this
    {
      StatsIdsIncreasing(rows) && forall x :: x in rows ==> x.id < nextId
    }

    constructor ()
      ensures Valid() && rows == []
    {
      rows := [];
      nextId := 1;
    }

    /**
     * `save` of a new entity: the row is inserted under the next key and the
     * key is written back to the entity. With `fault` the write fails and the
     * table and the entity are left as they were.
     */
    method Save(entity: RouteStats, fault: Option<Exception>) returns (o: Outcome<Exception>)
      requires Valid()
      modifies this, entity`id
      ensures Valid()
      ensures fault.Some? ==> o == Fail(fault.value) && rows == old(rows)
                              && nextId == old(nextId) && entity.id == old(entity.id)
      ensures fault.None? ==> o == Pass && rows == old(rows) + [entity.RowWith(old(nextId))]
                              && entity.id == Some(old(nextId)) && nextId > old(nextId)
    {
      if fault.Some? {
        return Fail(fault.value);
      }
      rows := rows + [entity.RowWith(nextId)];
      entity.id := Some(nextId);
      nextId := nextId + 1;
      o := Pass;
    }

    /**
     * `deleteOldRouteStats`: removes every row calculated strictly before
     * `cutoff` and answers how many rows it removed.
     */
    method DeleteOldRouteStats(cutoff: Timestamp) returns (count: int)
      requires Valid()
      modifies this`rows
      ensures Valid()
      ensures rows == Retained(old(rows), cutoff)
      ensures count == |Removed(old(rows), cutoff)|
      ensures 0 <= count <= |old(rows)|
    {
      RetainedRemovedPartition(rows, cutoff);
      RetainedKeepsOrder(rows, cutoff);
      var before := |rows|;
      rows := Retained(rows, cutoff);
      count := before - |rows|;
    }
  }

  /** Keys strictly increase along the audit table. */
  ghost predicate AuditIdsIncreasing(rows: seq<AuditRow>)
  {
    forall i, j :: 0 <= i < j < |rows| ==> rows[i].id < rows[j].id
  }

  /** The audit_entries table (AuditEntryRepository). */
  class AuditEntryRepository {
    var rows: seq<AuditRow>
    var nextId: int

    ghost predicate Valid()
      reads this
    {
      AuditIdsIncreasing(rows) && forall x :: x in rows ==> x.id < nextId
    }

    constructor ()
      ensures Valid() && rows == []
    {
      rows := [];
      nextId := 1;
    }

    /** `save` of a new entity, as for the stats table. */
    method Save(entity: AuditEntry, fault: Option<Exception>) returns (o: Outcome<Exception>)
      requires Valid()
      modifies this, entity`id
      ensures Valid()
      ensures fault.Some? ==> o == Fail(fault.value) && rows == old(rows)
                              && nextId == old(nextId) && entity.id == old(entity.id)
      ensures fault.None? ==> o == Pass && rows == old(rows) + [entity.RowWith(old(nextId))]
                              && entity.id == Some(old(nextId)) && nextId > old(nextId)
    {
      if fault.Some? {
        return Fail(fault.value);
      }
      rows := rows + [entity.RowWith(nextId)];
      entity.id := Some(nextId);
      nextId := nextId + 1;
      o := Pass;
    }
  }
}
