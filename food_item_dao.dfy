/** The `food_items` table and its data-access object. The table's rows are kept in
    rowid order; `id` is the primary key. Queries are functions of the rows; the
    writes are methods of `FoodItemTable`, which holds them. */
module FoodItemDao {
  import opened Numeric
  import opened Wrappers
  import opened Entities
  import opened Collections

  /** The primary-key constraint: no two rows share an `id`. */
  predicate UniqueIds(rows: seq<FoodItem>)
  {
    forall i, j :: 0 <= i < j < |rows| ==> rows[i].id != rows[j].id
  }

  function Ids(rows: seq<FoodItem>): set<string>
  {
    set r | r in rows :: r.id
  }

  /** `isConsumed = 0` */
  predicate IsActive(item: FoodItem)
  {
    !item.isConsumed
  }

  function ExpirationKey(item: FoodItem): int
  {
    item.expirationDate
  }

  /** SELECT * FROM food_items WHERE isConsumed = 0 ORDER BY expirationDate ASC */
  function GetAllActiveFoodItems(rows: seq<FoodItem>): (r: seq<FoodItem>)
    ensures forall x :: x in r <==> x in rows && !x.isConsumed
    ensures multiset(r) == multiset(Filter(rows, IsActive))
    ensures forall i, j :: 0 <= i < j < |r| ==> r[i].expirationDate <= r[j].expirationDate
  {
    var r := SortByKey(Filter(rows, IsActive), ExpirationKey);
    assert forall x :: x in r <==> x in multiset(r);
    r
  }

  /** `isConsumed = 0 AND expirationDate <= :warningDate` */
  predicate IsExpiringBy(warningDate: Int64, item: FoodItem)
  {
    !item.isConsumed && item.expirationDate <= warningDate
  }

  /** SELECT * FROM food_items WHERE expirationDate <= :warningDate AND isConsumed = 0 */
  function GetExpiringItems(rows: seq<FoodItem>, warningDate: Int64): (r: seq<FoodItem>)
    ensures forall x :: x in r <==> x in rows && !x.isConsumed && x.expirationDate <= warningDate
    ensures forall x :: multiset(r)[x] == if IsExpiringBy(warningDate, x) then multiset(rows)[x] else 0
  {
    Filter(rows, x => IsExpiringBy(warningDate, x))
  }

  /** The rows after `UPDATE food_items SET isConsumed = 1, dateConsumed = :t WHERE id = :id`. */
  function MarkedConsumed(rows: seq<FoodItem>, id: string, t: Int64): (r: seq<FoodItem>)
    ensures |r| == |rows|
    ensures forall i :: 0 <= i < |rows| && rows[i].id == id ==>
      r[i] == rows[i].(isConsumed := true, dateConsumed := Some(t))
    ensures forall i :: 0 <= i < |rows| && rows[i].id != id ==> r[i] == rows[i]
  {
    seq(|rows|, i requires 0 <= i < |rows| =>
      if rows[i].id == id then rows[i].(isConsumed := true, dateConsumed := Some(t)) else rows[i])
  }

  /** The rows after `@Update`: the row whose key equals the item's is replaced by it. */
  function Replaced(rows: seq<FoodItem>, item: FoodItem): (r: seq<FoodItem>)
    ensures |r| == |rows|
    ensures forall i :: 0 <= i < |rows| ==> r[i] == if rows[i].id == item.id then item else rows[i]
  {
    seq(|rows|, i requires 0 <= i < |rows| => if rows[i].id == item.id then item else rows[i])
  }

  /** The rows after `@Delete`: every row with the given key is gone, the others stay
      in order. */
  function WithoutId(rows: seq<FoodItem>, id: string): (r: seq<FoodItem>)
    ensures forall x :: x in r <==> x in rows && x.id != id
    ensures id !in Ids(r)
    ensures UniqueIds(rows) ==> UniqueIds(r)
    ensures UniqueIds(rows) ==> |r| == if id in Ids(rows) then |rows| - 1 else |rows|
  {
    if rows == [] then []
    else
      var rest := WithoutId(rows[1..], id);
      assert rows == [rows[0]] + rows[1..];
      assert UniqueIds(rows) ==> UniqueIds(rows[1..]) && rows[0].id !in Ids(rows[1..]);
      if rows[0].id == id then rest else [rows[0]] + rest
  }

  /** Marking is keyed on `id` only: every other row is untouched, the keys do not
      change, and the marked row leaves both queries over active items. */
  lemma {:induction false} MarkedConsumedLeavesActive(rows: seq<FoodItem>, id: string, t: Int64, warningDate: Int64)
    requires UniqueIds(rows)
    ensures var r := MarkedConsumed(rows, id, t);
      && UniqueIds(r) && Ids(r) == Ids(rows)
      && (forall x :: x in GetAllActiveFoodItems(r) ==> x.id != id)
      && (forall x :: x in GetExpiringItems(r, warningDate) ==> x.id != id)
      && (forall x :: x in rows && x.id != id ==> x in r)
  {
    var r := MarkedConsumed(rows, id, t);
    forall x | x in r
      ensures x.id != id ==> x in rows
      ensures x.id == id ==> x.isConsumed
    {
      var i :| 0 <= i < |r| && r[i] == x;
    }
    forall x | x in rows && x.id != id
      ensures x in r
    {
      var i :| 0 <= i < |rows| && rows[i] == x;
      assert r[i] == x;
    }
    assert Ids(r) == Ids(rows) by {
      forall k | k in Ids(rows) ensures k in Ids(r) {
        var x :| x in rows && x.id == k;
        var i :| 0 <= i < |rows| && rows[i] == x;
        assert r[i].id == k;
      }
      forall k | k in Ids(r) ensures k in Ids(rows) {
        var x :| x in r && x.id == k;
        var i :| 0 <= i < |r| && r[i] == x;
        assert rows[i].id == k;
      }
    }
  }

  /** A second mark overwrites the first: only the latest consumption time is kept. */
  lemma MarkedConsumedTwice(rows: seq<FoodItem>, id: string, t1: Int64, t2: Int64)
    ensures MarkedConsumed(MarkedConsumed(rows, id, t1), id, t2) == MarkedConsumed(rows, id, t2)
  {
    var a := MarkedConsumed(MarkedConsumed(rows, id, t1), id, t2);
    var b := MarkedConsumed(rows, id, t2);
    assert |a| == |b|;
    forall i | 0 <= i < |a| ensures a[i] == b[i] {
    }
  }

  /** Marking an id that is not in the table changes nothing. */
  lemma MarkedConsumedAbsent(rows: seq<FoodItem>, id: string, t: Int64)
    requires id !in Ids(rows)
    ensures MarkedConsumed(rows, id, t) == rows
  {
    var r := MarkedConsumed(rows, id, t);
    forall i | 0 <= i < |rows| ensures r[i] == rows[i] {
      assert rows[i] in rows;
    }
  }

  /** The expiring items are active items, and a later warning date never loses one. */
  lemma ExpiringWithinActive(rows: seq<FoodItem>, w1: Int64, w2: Int64)
    requires w1 <= w2
    ensures forall x :: x in GetExpiringItems(rows, w1) ==> x in GetAllActiveFoodItems(rows)
    ensures forall x :: x in GetExpiringItems(rows, w1) ==> x in GetExpiringItems(rows, w2)
  {
  }

  class FoodItemTable {
    var rows: seq<FoodItem>

    ghost predicate Valid()
      reads this
    {
      UniqueIds(rows)
    }

    constructor ()
      ensures Valid() && rows == []
    {
      rows := [];
    }

    /** `@Insert` with the default ABORT strategy: a duplicate key throws and the
        table is left as it was. */
    method InsertFoodItem(item: FoodItem) returns (outcome: WriteOutcome)
      requires Valid()
      modifies this
      ensures Valid()
      ensures outcome == if item.id in Ids(old(rows)) then ConstraintViolation else Written
      ensures rows == if outcome == Written then old(rows) + [item] else old(rows)
    {
      if item.id in Ids(rows) {
        outcome := ConstraintViolation;
      } else {
        assert forall i :: 0 <= i < |rows| ==> rows[i] in rows;
        rows := rows + [item];
        outcome := Written;
      }
    }

    /** `@Update`: replaces the row with the item's key; no such row, no change. */
    method UpdateFoodItem(item: FoodItem)
      requires Valid()
      modifies this
      ensures Valid()
      ensures rows == Replaced(old(rows), item)
      ensures item.id !in Ids(old(rows)) ==> rows == old(rows)
    {
      if item.id !in Ids(rows) {
        assert forall i :: 0 <= i < |rows| ==> rows[i] in rows;
        assert Replaced(rows, item) == rows;
      }
      rows := Replaced(rows, item);
    }

    /** `@Delete`: removes the row with the item's key; the item's other fields play
        no part. */
    method DeleteFoodItem(item: FoodItem)
      requires Valid()
      modifies this
      ensures Valid()
      ensures rows == WithoutId(old(rows), item.id)
    {
      rows := WithoutId(rows, item.id);
    }

    /** UPDATE food_items SET isConsumed = 1, dateConsumed = :dateConsumed WHERE id = :id */
    method MarkAsConsumed(id: string, dateConsumed: Int64)
      requires Valid()
      modifies this
      ensures Valid()
      ensures rows == MarkedConsumed(old(rows), id, dateConsumed)
    {
      MarkedConsumedLeavesActive(rows, id, dateConsumed, 0);
      rows := MarkedConsumed(rows, id, dateConsumed);
    }
  }
}
