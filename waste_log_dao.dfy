/** The `waste_logs` table and its data-access object: rows in rowid order, `id` the
    primary key; queries and aggregates are functions of the rows, the insert is a
    method of `WasteLogTable`. */
module WasteLogDao {
  import opened Numeric
  import opened Wrappers
  import opened Entities
  import opened Collections

  /** The primary-key constraint: no two rows share an `id`. */
  predicate UniqueIds(rows: seq<WasteLog>)
  {
    forall i, j :: 0 <= i < j < |rows| ==> rows[i].id != rows[j].id
  }

  function Ids(rows: seq<WasteLog>): set<string>
  {
    set r | r in rows :: r.id
  }

  /** Sorting ascending on the negated date lists the newest first. */
  function NewestFirstKey(log: WasteLog): int
  {
    -(log.dateWasted as int)
  }

  /** SELECT * FROM waste_logs ORDER BY dateWasted DESC */
  function GetAllWasteLogs(rows: seq<WasteLog>): (r: seq<WasteLog>)
    ensures multiset(r) == multiset(rows)
    ensures forall i, j :: 0 <= i < j < |r| ==> r[i].dateWasted >= r[j].dateWasted
  {
    var r := SortByKey(rows, NewestFirstKey);
    assert forall i, j :: 0 <= i < j < |r| ==> NewestFirstKey(r[i]) <= NewestFirstKey(r[j]);
    r
  }

  /** `dateWasted >= :startDate AND dateWasted <= :endDate` */
  predicate WastedBetween(startDate: Int64, endDate: Int64, log: WasteLog)
  {
    startDate <= log.dateWasted <= endDate
  }

  /** SELECT * FROM waste_logs WHERE dateWasted >= :startDate AND dateWasted <= :endDate */
  function GetWasteLogsByDateRange(rows: seq<WasteLog>, startDate: Int64, endDate: Int64): (r: seq<WasteLog>)
    ensures forall x :: x in r <==> x in rows && startDate <= x.dateWasted <= endDate
    ensures forall x :: multiset(r)[x] == if WastedBetween(startDate, endDate, x) then multiset(rows)[x] else 0
  {
    Filter(rows, x => WastedBetween(startDate, endDate, x))
  }

  /** `dateWasted >= :startDate` */
  predicate WastedSince(startDate: Int64, log: WasteLog)
  {
    log.dateWasted >= startDate
  }

  /** The rows an aggregate from `startDate` ranges over, in table order. */
  function RowsSince(rows: seq<WasteLog>, startDate: Int64): (r: seq<WasteLog>)
    ensures |r| <= |rows|
  {
    if rows == [] then []
    else (if WastedSince(startDate, rows[0]) then [rows[0]] else []) + RowsSince(rows[1..], startDate)
  }

  /** The rows an aggregate ranges over are exactly the stored rows wasted on or
      after `startDate`. */
  lemma {:induction false} RowsSinceMembers(rows: seq<WasteLog>, startDate: Int64)
    ensures forall x :: x in RowsSince(rows, startDate) <==> x in rows && x.dateWasted >= startDate
  {
    if rows != [] {
      assert rows == [rows[0]] + rows[1..];
      RowsSinceMembers(rows[1..], startDate);
    }
  }

  /** The sum of the quantities of `logs`. */
  function SumQuantity(logs: seq<WasteLog>): int
  {
    if logs == [] then 0 else logs[0].quantity + SumQuantity(logs[1..])
  }

  /** SELECT SUM(quantity) FROM waste_logs WHERE dateWasted >= :startDate
      -- SQL's SUM over no rows is NULL, not 0. */
  function GetTotalWasteFromDate(rows: seq<WasteLog>, startDate: Int64): (r: Option<int>)
    ensures r.None? <==> RowsSince(rows, startDate) == []
    ensures r.Some? ==> r.value == SumQuantity(RowsSince(rows, startDate))
  {
    var since := RowsSince(rows, startDate);
    if since == [] then None else Some(SumQuantity(since))
  }

  /** SELECT COUNT(*) FROM waste_logs WHERE dateWasted >= :startDate */
  function GetWasteCountFromDate(rows: seq<WasteLog>, startDate: Int64): (r: nat)
    ensures r == |RowsSince(rows, startDate)|
    ensures r <= |rows|
  {
    |RowsSince(rows, startDate)|
  }

  /** Nothing logged from `startDate` on: the count is zero and the total is null,
      and each of those happens only then. */
  lemma NothingSinceIffEmptyAggregates(rows: seq<WasteLog>, startDate: Int64)
    ensures GetWasteCountFromDate(rows, startDate) == 0 <==> forall x :: x in rows ==> x.dateWasted < startDate
    ensures GetTotalWasteFromDate(rows, startDate).None? <==> forall x :: x in rows ==> x.dateWasted < startDate
  {
    var since := RowsSince(rows, startDate);
    RowsSinceMembers(rows, startDate);
    assert since != [] ==> since[0] in since;
  }

  /** The count is zero exactly when the total is null. */
  lemma CountZeroIffTotalNull(rows: seq<WasteLog>, startDate: Int64)
    ensures GetWasteCountFromDate(rows, startDate) == 0 <==> GetTotalWasteFromDate(rows, startDate).None?
  {
  }

  lemma {:induction false} SumQuantityAppend(logs: seq<WasteLog>, log: WasteLog)
    ensures SumQuantity(logs + [log]) == SumQuantity(logs) + log.quantity
  {
    if logs != [] {
      assert (logs + [log])[1..] == logs[1..] + [log];
      SumQuantityAppend(logs[1..], log);
    }
  }

  lemma {:induction false} RowsSinceAppend(rows: seq<WasteLog>, log: WasteLog, startDate: Int64)
    ensures RowsSince(rows + [log], startDate) ==
      RowsSince(rows, startDate) + (if log.dateWasted >= startDate then [log] else [])
  {
    if rows != [] {
      assert (rows + [log])[1..] == rows[1..] + [log];
      RowsSinceAppend(rows[1..], log, startDate);
    }
  }

  /** Logging one more waste event from `startDate` on raises the count by one; an
      older event leaves it alone. */
  lemma CountAfterInsert(rows: seq<WasteLog>, log: WasteLog, startDate: Int64)
    ensures GetWasteCountFromDate(rows + [log], startDate) ==
      GetWasteCountFromDate(rows, startDate) + (if log.dateWasted >= startDate then 1 else 0)
  {
    RowsSinceAppend(rows, log, startDate);
  }

  /** Logging one more waste event from `startDate` on adds its quantity to the total
      (turning a null total into exactly that quantity); an older event leaves the
      total alone. */
  lemma TotalAfterInsert(rows: seq<WasteLog>, log: WasteLog, startDate: Int64)
    ensures GetTotalWasteFromDate(rows + [log], startDate) ==
      if log.dateWasted < startDate then GetTotalWasteFromDate(rows, startDate)
      else Some(GetTotalWasteFromDate(rows, startDate).GetOr(0) + log.quantity)
  {
    var before, after := RowsSince(rows, startDate), RowsSince(rows + [log], startDate);
    RowsSinceAppend(rows, log, startDate);
    if log.dateWasted >= startDate {
      NullableSumAppend(before, after, log);
    } else {
      assert after == before;
    }
  }

  /** SQL's nullable SUM over one more row: the row's quantity added to the old sum,
      read as 0 when there were no rows. */
  lemma NullableSumAppend(before: seq<WasteLog>, after: seq<WasteLog>, log: WasteLog)
    requires after == before + [log]
    ensures after != []
    ensures SumQuantity(after) == (if before == [] then 0 else SumQuantity(before)) + log.quantity
  {
    assert after[|before|] == log;
    SumQuantityAppend(before, log);
  }

  class WasteLogTable {
    var rows: seq<WasteLog>

    ghost predicate Valid()
      reads this
    {
      UniqueIds(rows)
    }

    constructor ()
      ensures Valid() && rows == []
    {
      rows := [];
    }

    /** `@Insert` with the default ABORT strategy: a duplicate key throws and the
        table is left as it was; otherwise exactly one row is added. */
    method InsertWasteLog(log: WasteLog) returns (outcome: WriteOutcome)
      requires Valid()
      modifies this
      ensures Valid()
      ensures outcome == if log.id in Ids(old(rows)) then ConstraintViolation else Written
      ensures rows == if outcome == Written then old(rows) + [log] else old(rows)
    {
      if log.id in Ids(rows) {
        outcome := ConstraintViolation;
      } else {
        assert forall i :: 0 <= i < |rows| ==> rows[i] in rows;
        rows := rows + [log];
        outcome := Written;
      }
    }
  }
}
