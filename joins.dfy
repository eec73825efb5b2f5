/**
 * SQL semantics of the aggregate queries: a parent row `LEFT JOIN`ed with up
 * to three child tables on the parent's id, and `SUM`, `COALESCE` and
 * `COUNT(DISTINCT ...)` over a column of the joined rows.
 *
 * Every child condition compares a child column with the parent's id, so the
 * rows joined to one parent are the cross product of the three lists of
 * matching child rows, each list replaced by a single NULL row when it is
 * empty. A value summed from one child table is therefore repeated once per
 * joined row of each other table; `JoinTotal` and `LeftJoinSum` state this
 * in closed form.
 */
module Joins {
  import opened Wrappers
  import opened Ledger

  /** The columns the queries aggregate, each belonging to one child table. */
  datatype Column =
    | SpProductId | SpQuantity | SpSubtotal
    | FpFarmerId | FpQuantity | FpTotalPaid
    | ReturnQuantity

  predicate OfShipmentProducts(col: Column) {
    col.SpProductId? || col.SpQuantity? || col.SpSubtotal?
  }

  predicate OfFarmerPurchases(col: Column) {
    col.FpFarmerId? || col.FpQuantity? || col.FpTotalPaid?
  }

  /** One row of `parent LEFT JOIN shipment_products LEFT JOIN farmer_purchases LEFT JOIN returns`. */
  datatype JoinRow = JoinRow(
    sp: Option<ShipmentProductRow>, fp: Option<FarmerPurchaseRow>, ret: Option<ReturnRow>)

  // ---------------------------------------------------------------------------
  // Column values. A field function gives 0 for another table's column.

  function SpField(x: ShipmentProductRow, col: Column): int {
    match col
    case SpProductId => x.productId
    case SpQuantity => x.quantity
    case SpSubtotal => x.subtotal
    case _ => 0
  }

  function FpField(y: FarmerPurchaseRow, col: Column): int {
    match col
    case FpFarmerId => y.farmerId
    case FpQuantity => y.quantity
    case FpTotalPaid => y.totalPaid
    case _ => 0
  }

  function RetField(z: ReturnRow, col: Column): int {
    match col
    case ReturnQuantity => z.quantity
    case _ => 0
  }

  /** The cell of `col` in a joined row: NULL when the column's table is NULL there. */
  function Cell(row: JoinRow, col: Column): Option<int> {
    if OfShipmentProducts(col) then
      (if row.sp.Some? then Some(SpField(row.sp.value, col)) else None)
    else if OfFarmerPurchases(col) then
      (if row.fp.Some? then Some(FpField(row.fp.value, col)) else None)
    else if row.ret.Some? then Some(RetField(row.ret.value, col)) else None
  }

  function Cells(rows: seq<JoinRow>, col: Column): (r: seq<Option<int>>)
    ensures |r| == |rows|
    ensures forall k :: 0 <= k < |rows| ==> r[k] == Cell(rows[k], col)
  {
    seq(|rows|, k requires 0 <= k < |rows| => Cell(rows[k], col))
  }

  // ---------------------------------------------------------------------------
  // Aggregates over a column of cells.

  function AddNullable(a: Option<int>, b: Option<int>): Option<int> {
    match a
    case None => b
    case Some(x) => (match b case None => a case Some(y) => Some(x + y))
  }

  /** SQL `SUM`: NULL cells are skipped, and the sum of no non-NULL cell is NULL. */
  function Sum(cells: seq<Option<int>>): Option<int> {
    if |cells| == 0 then None
    else AddNullable(Sum(cells[..|cells| - 1]), cells[|cells| - 1])
  }

  function Coalesce(a: Option<int>, fallback: int): int {
    match a
    case None => fallback
    case Some(x) => x
  }

  /** The sum with every NULL read as 0. */
  function SumOr0(cells: seq<Option<int>>): int {
    if |cells| == 0 then 0
    else SumOr0(cells[..|cells| - 1]) + Coalesce(cells[|cells| - 1], 0)
  }

  /** SQL `COUNT(DISTINCT ...)` is the size of this set of non-NULL values. */
  function Distinct(cells: seq<Option<int>>): set<int> {
    if |cells| == 0 then {}
    else Distinct(cells[..|cells| - 1]) + (if cells[|cells| - 1].Some? then {cells[|cells| - 1].value} else {})
  }

  /** `COALESCE(SUM(x), 0)` is the sum of the column with NULL read as 0. */
  lemma {:induction false} CoalesceSum(cells: seq<Option<int>>)
    ensures Coalesce(Sum(cells), 0) == SumOr0(cells)
    ensures Sum(cells).None? ==> SumOr0(cells) == 0
  {
    if |cells| > 0 {
      CoalesceSum(cells[..|cells| - 1]);
    }
  }

  lemma {:induction false} SumOr0Append(c1: seq<Option<int>>, c2: seq<Option<int>>)
    ensures SumOr0(c1 + c2) == SumOr0(c1) + SumOr0(c2)
  {
    if |c2| > 0 {
      var c2' := c2[..|c2| - 1];
      assert (c1 + c2)[..|c1 + c2| - 1] == c1 + c2';
      SumOr0Append(c1, c2');
    } else {
      assert c1 + c2 == c1;
    }
  }

  lemma {:induction false} DistinctAppend(c1: seq<Option<int>>, c2: seq<Option<int>>)
    ensures Distinct(c1 + c2) == Distinct(c1) + Distinct(c2)
  {
    if |c2| > 0 {
      var c2' := c2[..|c2| - 1];
      assert (c1 + c2)[..|c1 + c2| - 1] == c1 + c2';
      DistinctAppend(c1, c2');
    } else {
      assert c1 + c2 == c1;
    }
  }

  lemma CellsAppend(r1: seq<JoinRow>, r2: seq<JoinRow>, col: Column)
    ensures Cells(r1 + r2, col) == Cells(r1, col) + Cells(r2, col)
  {
  }

  /** `SUM` skipping NULLs over a joined column. */
  function Total(rows: seq<JoinRow>, col: Column): int {
    SumOr0(Cells(rows, col))
  }

  lemma TotalAppend(r1: seq<JoinRow>, r2: seq<JoinRow>, col: Column)
    ensures Total(r1 + r2, col) == Total(r1, col) + Total(r2, col)
  {
    CellsAppend(r1, r2, col);
    SumOr0Append(Cells(r1, col), Cells(r2, col));
  }

  lemma DistinctOfAppend(r1: seq<JoinRow>, r2: seq<JoinRow>, col: Column)
    ensures Distinct(Cells(r1 + r2, col)) == Distinct(Cells(r1, col)) + Distinct(Cells(r2, col))
  {
    CellsAppend(r1, r2, col);
    DistinctAppend(Cells(r1, col), Cells(r2, col));
  }

  // ---------------------------------------------------------------------------
  // One side of the join: the matching child rows, or one NULL row.

  function Lift<T>(rows: seq<T>): (r: seq<Option<T>>)
    ensures |r| == |rows|
    ensures forall k :: 0 <= k < |rows| ==> r[k] == Some(rows[k])
  {
    seq(|rows|, k requires 0 <= k < |rows| => Some(rows[k]))
  }

  /** The child rows an outer join pairs with one parent row. */
  function LeftSide<T>(rows: seq<T>): (r: seq<Option<T>>)
    ensures |r| == Fanout(|rows|)
  {
    if |rows| == 0 then [None] else Lift(rows)
  }

  /** How many joined rows a child table with `n` matching rows contributes. */
  function Fanout(n: nat): nat {
    if n == 0 then 1 else n
  }

  function SpValue(x: Option<ShipmentProductRow>, col: Column): int {
    if x.Some? then SpField(x.value, col) else 0
  }

  function FpValue(y: Option<FarmerPurchaseRow>, col: Column): int {
    if y.Some? then FpField(y.value, col) else 0
  }

  function RetValue(z: Option<ReturnRow>, col: Column): int {
    if z.Some? then RetField(z.value, col) else 0
  }

  function SpSide(a: seq<Option<ShipmentProductRow>>, col: Column): int {
    if |a| == 0 then 0 else SpSide(a[..|a| - 1], col) + SpValue(a[|a| - 1], col)
  }

  function FpSide(b: seq<Option<FarmerPurchaseRow>>, col: Column): int {
    if |b| == 0 then 0 else FpSide(b[..|b| - 1], col) + FpValue(b[|b| - 1], col)
  }

  function RetSide(c: seq<Option<ReturnRow>>, col: Column): int {
    if |c| == 0 then 0 else RetSide(c[..|c| - 1], col) + RetValue(c[|c| - 1], col)
  }

  function SpIdOf(x: Option<ShipmentProductRow>, col: Column): set<int> {
    if x.Some? && OfShipmentProducts(col) then {SpField(x.value, col)} else {}
  }

  function FpIdOf(y: Option<FarmerPurchaseRow>, col: Column): set<int> {
    if y.Some? && OfFarmerPurchases(col) then {FpField(y.value, col)} else {}
  }

  function RetIdOf(z: Option<ReturnRow>, col: Column): set<int> {
    if z.Some? && col.ReturnQuantity? then {RetField(z.value, col)} else {}
  }

  function SpIds(a: seq<Option<ShipmentProductRow>>, col: Column): set<int> {
    if |a| == 0 then {} else SpIds(a[..|a| - 1], col) + SpIdOf(a[|a| - 1], col)
  }

  function FpIds(b: seq<Option<FarmerPurchaseRow>>, col: Column): set<int> {
    if |b| == 0 then {} else FpIds(b[..|b| - 1], col) + FpIdOf(b[|b| - 1], col)
  }

  function RetIds(c: seq<Option<ReturnRow>>, col: Column): set<int> {
    if |c| == 0 then {} else RetIds(c[..|c| - 1], col) + RetIdOf(c[|c| - 1], col)
  }

  // ---------------------------------------------------------------------------
  // The join, left-deep as the queries write it.

  function Join(a: seq<Option<ShipmentProductRow>>, b: seq<Option<FarmerPurchaseRow>>, c: seq<Option<ReturnRow>>): seq<JoinRow> {
    if |a| == 0 then [] else Join(a[..|a| - 1], b, c) + JoinFp(a[|a| - 1], b, c)
  }

  function JoinFp(x: Option<ShipmentProductRow>, b: seq<Option<FarmerPurchaseRow>>, c: seq<Option<ReturnRow>>): seq<JoinRow> {
    if |b| == 0 then [] else JoinFp(x, b[..|b| - 1], c) + JoinRet(x, b[|b| - 1], c)
  }

  function JoinRet(x: Option<ShipmentProductRow>, y: Option<FarmerPurchaseRow>, c: seq<Option<ReturnRow>>): seq<JoinRow> {
    if |c| == 0 then [] else JoinRet(x, y, c[..|c| - 1]) + [JoinRow(x, y, c[|c| - 1])]
  }

  lemma CellTotal(row: JoinRow, col: Column)
    ensures Total([row], col) == SpValue(row.sp, col) + FpValue(row.fp, col) + RetValue(row.ret, col)
    ensures Distinct(Cells([row], col)) == SpIdOf(row.sp, col) + FpIdOf(row.fp, col) + RetIdOf(row.ret, col)
  {
    var cs := Cells([row], col);
    assert cs == [Cell(row, col)];
    assert cs[..0] == [];
    assert SumOr0(cs) == SumOr0(cs[..0]) + Coalesce(cs[0], 0);
    assert Distinct(cs) == Distinct(cs[..0]) + (if cs[0].Some? then {cs[0].value} else {});
    match col {
      case SpProductId =>
      case SpQuantity =>
      case SpSubtotal =>
      case FpFarmerId =>
      case FpQuantity =>
      case FpTotalPaid =>
      case ReturnQuantity =>
    }
  }

  lemma {:induction false} JoinRetTotal(x: Option<ShipmentProductRow>, y: Option<FarmerPurchaseRow>, c: seq<Option<ReturnRow>>, col: Column)
    ensures Total(JoinRet(x, y, c), col) == |c| * (SpValue(x, col) + FpValue(y, col)) + RetSide(c, col)
  {
    if |c| > 0 {
      var c' := c[..|c| - 1];
      var z := c[|c| - 1];
      var row := JoinRow(x, y, z);
      var s := SpValue(x, col) + FpValue(y, col);
      assert Total(JoinRet(x, y, c), col) == Total(JoinRet(x, y, c'), col) + Total([row], col) by {
        assert JoinRet(x, y, c) == JoinRet(x, y, c') + [row];
        TotalAppend(JoinRet(x, y, c'), [row], col);
      }
      assert Total([row], col) == s + RetValue(z, col) by {
        CellTotal(row, col);
      }
      JoinRetTotal(x, y, c', col);
      assert RetSide(c, col) == RetSide(c', col) + RetValue(z, col);
      RetStep(|c'|, |c|, s, RetSide(c', col), RetValue(z, col), RetSide(c, col));
    } else {
      assert Cells([], col) == [];
    }
  }

  /** No farmer-purchase rows: every term of `JoinFpTotal`'s closed form vanishes. */
  lemma NoFpRows(nb: nat, nc: nat, sx: int, f: int, r: int)
    requires nb == 0 && f == 0
    ensures nb * nc * sx + nc * f + nb * r == 0
  {
  }

  /** No shipment-product rows: every term of `JoinTotal`'s closed form vanishes. */
  lemma NoSpRows(na: nat, nb: nat, nc: nat, s: int, f: int, r: int)
    requires na == 0 && s == 0
    ensures nb * nc * s + na * nc * f + na * nb * r == 0
  {
  }

  /** One more return row: the step of `JoinRetTotal`, over plain numbers. */
  lemma RetStep(nc: nat, nc1: nat, s: int, r: int, rz: int, r1: int)
    requires nc1 == nc + 1 && r1 == r + rz
    ensures (nc * s + r) + (s + rz) == nc1 * s + r1
  {
  }

  lemma {:induction false} JoinRetDistinct(x: Option<ShipmentProductRow>, y: Option<FarmerPurchaseRow>, c: seq<Option<ReturnRow>>, col: Column)
    requires |c| > 0
    ensures Distinct(Cells(JoinRet(x, y, c), col)) == SpIdOf(x, col) + FpIdOf(y, col) + RetIds(c, col)
  {
    var c' := c[..|c| - 1];
    var z := c[|c| - 1];
    var row := JoinRow(x, y, z);
    var left := JoinRet(x, y, c');
    var sx, fy, r, rz := SpIdOf(x, col), FpIdOf(y, col), RetIds(c', col), RetIdOf(z, col);
    var dl := Distinct(Cells(left, col));
    assert Distinct(Cells(JoinRet(x, y, c), col)) == dl + Distinct(Cells([row], col)) by {
      assert JoinRet(x, y, c) == left + [row];
      DistinctOfAppend(left, [row], col);
    }
    assert Distinct(Cells([row], col)) == sx + fy + rz by {
      CellTotal(row, col);
    }
    assert RetIds(c, col) == r + rz;
    if |c'| == 0 {
      assert dl == {} && r == {} by {
        assert Cells(left, col) == [];
      }
      assert dl + (sx + fy + rz) == sx + fy + (r + rz);
    } else {
      assert dl == sx + fy + r by {
        JoinRetDistinct(x, y, c', col);
      }
      assert dl + (sx + fy + rz) == sx + fy + (r + rz);
    }
  }

  lemma {:induction false} JoinFpTotal(x: Option<ShipmentProductRow>, b: seq<Option<FarmerPurchaseRow>>, c: seq<Option<ReturnRow>>, col: Column)
    ensures Total(JoinFp(x, b, c), col)
         == |b| * |c| * SpValue(x, col) + |c| * FpSide(b, col) + |b| * RetSide(c, col)
  {
    if |b| > 0 {
      var b' := b[..|b| - 1];
      var y := b[|b| - 1];
      var before, last := Total(JoinFp(x, b', c), col), Total(JoinRet(x, y, c), col);
      assert Total(JoinFp(x, b, c), col) == before + last by {
        assert JoinFp(x, b, c) == JoinFp(x, b', c) + JoinRet(x, y, c);
        TotalAppend(JoinFp(x, b', c), JoinRet(x, y, c), col);
      }
      assert before == |b'| * |c| * SpValue(x, col) + |c| * FpSide(b', col) + |b'| * RetSide(c, col) by {
        JoinFpTotal(x, b', c, col);
      }
      assert last == |c| * (SpValue(x, col) + FpValue(y, col)) + RetSide(c, col) by {
        JoinRetTotal(x, y, c, col);
      }
      assert FpSide(b, col) == FpSide(b', col) + FpValue(y, col);
      FpStep(Total(JoinFp(x, b, c), col), before, last,
        |b'|, |b|, |c|, SpValue(x, col), FpSide(b', col), FpValue(y, col), FpSide(b, col), RetSide(c, col));
    } else {
      assert Total(JoinFp(x, b, c), col) == 0 by {
        assert Cells([], col) == [];
      }
      assert FpSide(b, col) == 0;
      NoFpRows(|b|, |c|, SpValue(x, col), FpSide(b, col), RetSide(c, col));
    }
  }

  lemma {:induction false} JoinFpDistinct(x: Option<ShipmentProductRow>, b: seq<Option<FarmerPurchaseRow>>, c: seq<Option<ReturnRow>>, col: Column)
    requires |b| > 0 && |c| > 0
    ensures Distinct(Cells(JoinFp(x, b, c), col)) == SpIdOf(x, col) + FpIds(b, col) + RetIds(c, col)
  {
    var b' := b[..|b| - 1];
    var y := b[|b| - 1];
    var left, right := JoinFp(x, b', c), JoinRet(x, y, c);
    var sx, f, fy, r := SpIdOf(x, col), FpIds(b', col), FpIdOf(y, col), RetIds(c, col);
    var dl, dr := Distinct(Cells(left, col)), Distinct(Cells(right, col));
    assert Distinct(Cells(JoinFp(x, b, c), col)) == dl + dr by {
      assert JoinFp(x, b, c) == left + right;
      DistinctOfAppend(left, right, col);
    }
    assert dr == sx + fy + r by {
      JoinRetDistinct(x, y, c, col);
    }
    assert FpIds(b, col) == f + fy;
    if |b'| == 0 {
      assert dl == {} && f == {} by {
        assert Cells(left, col) == [];
      }
      assert dl + dr == sx + (f + fy) + r;
    } else {
      assert dl == sx + f + r by {
        JoinFpDistinct(x, b', c, col);
      }
      assert dl + dr == sx + (f + fy) + r;
    }
  }

  /** One more farmer-purchase row: the step of `JoinFpTotal`, over plain numbers. */
  lemma FpStep(total: int, before: int, last: int, nb: nat, nb1: nat, nc: nat, sx: int, f: int, fy: int, f1: int, r: int)
    requires total == before + last
    requires before == nb * nc * sx + nc * f + nb * r
    requires last == nc * (sx + fy) + r
    requires nb1 == nb + 1 && f1 == f + fy
    ensures total == nb1 * nc * sx + nc * f1 + nb1 * r
  {
    assert nb1 * nc * sx == nb * nc * sx + nc * sx;
  }

  /** One more shipment-product row: the step of `JoinTotal`, over plain numbers. */
  lemma SpStep(na: nat, na1: nat, nb: nat, nc: nat, s: int, sx: int, s1: int, f: int, r: int)
    requires na1 == na + 1 && s1 == s + sx
    ensures (nb * nc * s + na * nc * f + na * nb * r) + (nb * nc * sx + nc * f + nb * r)
         == nb * nc * s1 + na1 * nc * f + na1 * nb * r
  {
    assert na1 * nc * f == na * nc * f + nc * f;
    assert na1 * nb * r == na * nb * r + nb * r;
  }

  /**
   * The closed form of a summed column over the join: each child table's sum
   * is multiplied by the number of joined rows of the two other tables.
   */
  lemma {:induction false} JoinTotal(a: seq<Option<ShipmentProductRow>>, b: seq<Option<FarmerPurchaseRow>>, c: seq<Option<ReturnRow>>, col: Column)
    ensures Total(Join(a, b, c), col)
         == |b| * |c| * SpSide(a, col) + |a| * |c| * FpSide(b, col) + |a| * |b| * RetSide(c, col)
  {
    if |a| > 0 {
      var a' := a[..|a| - 1];
      var x := a[|a| - 1];
      assert Total(Join(a, b, c), col) == Total(Join(a', b, c), col) + Total(JoinFp(x, b, c), col) by {
        assert Join(a, b, c) == Join(a', b, c) + JoinFp(x, b, c);
        TotalAppend(Join(a', b, c), JoinFp(x, b, c), col);
      }
      JoinTotal(a', b, c, col);
      JoinFpTotal(x, b, c, col);
      assert SpSide(a, col) == SpSide(a', col) + SpValue(x, col);
      SpStep(|a'|, |a|, |b|, |c|, SpSide(a', col), SpValue(x, col), SpSide(a, col), FpSide(b, col), RetSide(c, col));
    } else {
      assert Cells([], col) == [];
      assert SpSide(a, col) == 0;
      NoSpRows(|a|, |b|, |c|, SpSide(a, col), FpSide(b, col), RetSide(c, col));
    }
  }

  /** The distinct non-NULL values of a column over the join: every child row is seen. */
  lemma {:induction false} JoinDistinct(a: seq<Option<ShipmentProductRow>>, b: seq<Option<FarmerPurchaseRow>>, c: seq<Option<ReturnRow>>, col: Column)
    requires |a| > 0 && |b| > 0 && |c| > 0
    ensures Distinct(Cells(Join(a, b, c), col)) == SpIds(a, col) + FpIds(b, col) + RetIds(c, col)
  {
    var a' := a[..|a| - 1];
    var x := a[|a| - 1];
    var left, right := Join(a', b, c), JoinFp(x, b, c);
    var sa, sx, f, r := SpIds(a', col), SpIdOf(x, col), FpIds(b, col), RetIds(c, col);
    var dl, dr := Distinct(Cells(left, col)), Distinct(Cells(right, col));
    assert Distinct(Cells(Join(a, b, c), col)) == dl + dr by {
      assert Join(a, b, c) == left + right;
      DistinctOfAppend(left, right, col);
    }
    assert dr == sx + f + r by {
      JoinFpDistinct(x, b, c, col);
    }
    assert SpIds(a, col) == sa + sx;
    if |a'| == 0 {
      assert dl == {} && sa == {} by {
        assert Cells(left, col) == [];
      }
      assert dl + dr == (sa + sx) + f + r;
    } else {
      assert dl == sa + f + r by {
        JoinDistinct(a', b, c, col);
      }
      assert dl + dr == (sa + sx) + f + r;
    }
  }

  // ---------------------------------------------------------------------------
  // Plain sums over the raw child rows.

  function SpTotal(rows: seq<ShipmentProductRow>, col: Column): int {
    if |rows| == 0 then 0 else SpTotal(rows[..|rows| - 1], col) + SpField(rows[|rows| - 1], col)
  }

  function FpTotal(rows: seq<FarmerPurchaseRow>, col: Column): int {
    if |rows| == 0 then 0 else FpTotal(rows[..|rows| - 1], col) + FpField(rows[|rows| - 1], col)
  }

  function RetTotal(rows: seq<ReturnRow>, col: Column): int {
    if |rows| == 0 then 0 else RetTotal(rows[..|rows| - 1], col) + RetField(rows[|rows| - 1], col)
  }

  function SpIdSet(rows: seq<ShipmentProductRow>, col: Column): set<int> {
    if |rows| == 0 then {} else SpIdSet(rows[..|rows| - 1], col) + SpIdOf(Some(rows[|rows| - 1]), col)
  }

  function FpIdSet(rows: seq<FarmerPurchaseRow>, col: Column): set<int> {
    if |rows| == 0 then {} else FpIdSet(rows[..|rows| - 1], col) + FpIdOf(Some(rows[|rows| - 1]), col)
  }

  lemma {:induction false} SpLeftSide(rows: seq<ShipmentProductRow>, col: Column)
    ensures SpSide(LeftSide(rows), col) == SpTotal(rows, col)
    ensures SpIds(LeftSide(rows), col) == SpIdSet(rows, col)
  {
    if |rows| > 0 { SpLift(rows, col); }
  }

  lemma {:induction false} SpLift(rows: seq<ShipmentProductRow>, col: Column)
    ensures SpSide(Lift(rows), col) == SpTotal(rows, col)
    ensures SpIds(Lift(rows), col) == SpIdSet(rows, col)
  {
    if |rows| > 0 {
      var rows' := rows[..|rows| - 1];
      assert Lift(rows)[..|rows| - 1] == Lift(rows');
      SpLift(rows', col);
    }
  }

  lemma {:induction false} FpLeftSide(rows: seq<FarmerPurchaseRow>, col: Column)
    ensures FpSide(LeftSide(rows), col) == FpTotal(rows, col)
    ensures FpIds(LeftSide(rows), col) == FpIdSet(rows, col)
  {
    if |rows| > 0 { FpLift(rows, col); }
  }

  lemma {:induction false} FpLift(rows: seq<FarmerPurchaseRow>, col: Column)
    ensures FpSide(Lift(rows), col) == FpTotal(rows, col)
    ensures FpIds(Lift(rows), col) == FpIdSet(rows, col)
  {
    if |rows| > 0 {
      var rows' := rows[..|rows| - 1];
      assert Lift(rows)[..|rows| - 1] == Lift(rows');
      FpLift(rows', col);
    }
  }

  lemma {:induction false} RetLeftSide(rows: seq<ReturnRow>, col: Column)
    ensures RetSide(LeftSide(rows), col) == RetTotal(rows, col)
  {
    if |rows| > 0 { RetLift(rows, col); }
  }

  lemma {:induction false} RetLift(rows: seq<ReturnRow>, col: Column)
    ensures RetSide(Lift(rows), col) == RetTotal(rows, col)
  {
    if |rows| > 0 {
      var rows' := rows[..|rows| - 1];
      assert Lift(rows)[..|rows| - 1] == Lift(rows');
      RetLift(rows', col);
    }
  }

  /** A table's rows add nothing to another table's column. */
  lemma {:induction false} SpOtherColumn(rows: seq<ShipmentProductRow>, col: Column)
    requires !OfShipmentProducts(col)
    ensures SpTotal(rows, col) == 0 && SpIdSet(rows, col) == {}
  {
    if |rows| > 0 { SpOtherColumn(rows[..|rows| - 1], col); }
  }

  lemma {:induction false} FpOtherColumn(rows: seq<FarmerPurchaseRow>, col: Column)
    requires !OfFarmerPurchases(col)
    ensures FpTotal(rows, col) == 0 && FpIdSet(rows, col) == {}
  {
    if |rows| > 0 { FpOtherColumn(rows[..|rows| - 1], col); }
  }

  lemma {:induction false} RetOtherColumn(rows: seq<ReturnRow>, col: Column)
    requires !col.ReturnQuantity?
    ensures RetTotal(rows, col) == 0
  {
    if |rows| > 0 { RetOtherColumn(rows[..|rows| - 1], col); }
  }

  // ---------------------------------------------------------------------------
  // The two joins the queries run.

  /**
   * `products p LEFT JOIN shipment_products sp ON p.id = sp.product_id
   *  LEFT JOIN farmer_purchases fp ON p.id = fp.product_id
   *  LEFT JOIN returns r ON p.id = r.product_id`, for the product with id `productId`.
   */
  function ProductJoin(t: Tables, productId: nat): seq<JoinRow> {
    Join(LeftSide(ShipmentProductsOfProduct(t.shipmentProducts, productId)),
         LeftSide(PurchasesOfProduct(t.farmerPurchases, productId)),
         LeftSide(ReturnsOfProduct(t.returnRows, productId)))
  }

  /**
   * `shipments s LEFT JOIN shipment_products sp ON s.id = sp.shipment_id
   *  LEFT JOIN farmer_purchases fp ON s.id = fp.shipment_id`. No returns table
   * takes part: its side is the single NULL row of an empty match.
   */
  function ShipmentJoin(t: Tables, shipmentId: nat): seq<JoinRow> {
    Join(LeftSide(ShipmentProductsOfShipment(t.shipmentProducts, shipmentId)),
         LeftSide(PurchasesOfShipment(t.farmerPurchases, shipmentId)),
         LeftSide([]))
  }

  /**
   * `farmers f LEFT JOIN farmer_purchases fp ON f.id = fp.farmer_id`: the
   * other two sides are the single NULL row of an empty match.
   */
  function FarmerJoin(t: Tables, farmerId: nat): seq<JoinRow> {
    Join(LeftSide([]), LeftSide(PurchasesOfFarmer(t.farmerPurchases, farmerId)), LeftSide([]))
  }

  /** `COALESCE(SUM(col), 0)` over joined rows. */
  function SumColumn(rows: seq<JoinRow>, col: Column): int {
    Coalesce(Sum(Cells(rows, col)), 0)
  }

  /** `COUNT(DISTINCT col)` over joined rows. */
  function CountDistinct(rows: seq<JoinRow>, col: Column): nat {
    |Distinct(Cells(rows, col))|
  }

  /** The closed form of a summed column over a join of three lists of matching rows. */
  lemma LeftJoinSum(sp: seq<ShipmentProductRow>, fp: seq<FarmerPurchaseRow>, rs: seq<ReturnRow>, col: Column)
    ensures SumColumn(Join(LeftSide(sp), LeftSide(fp), LeftSide(rs)), col)
         == Fanout(|fp|) * Fanout(|rs|) * SpTotal(sp, col)
          + Fanout(|sp|) * Fanout(|rs|) * FpTotal(fp, col)
          + Fanout(|sp|) * Fanout(|fp|) * RetTotal(rs, col)
  {
    var a, b, c := LeftSide(sp), LeftSide(fp), LeftSide(rs);
    CoalesceSum(Cells(Join(a, b, c), col));
    JoinTotal(a, b, c, col);
    SpLeftSide(sp, col);
    FpLeftSide(fp, col);
    RetLeftSide(rs, col);
  }

  /**
   * Fan-out of the product join: a column of one child table is summed once
   * per joined row of each of the two others.
   */
  lemma ProductJoinSum(t: Tables, productId: nat, col: Column)
    ensures var sp := ShipmentProductsOfProduct(t.shipmentProducts, productId);
            var fp := PurchasesOfProduct(t.farmerPurchases, productId);
            var rs := ReturnsOfProduct(t.returnRows, productId);
            SumColumn(ProductJoin(t, productId), col)
              == (if OfShipmentProducts(col) then Fanout(|fp|) * Fanout(|rs|) * SpTotal(sp, col)
                  else if OfFarmerPurchases(col) then Fanout(|sp|) * Fanout(|rs|) * FpTotal(fp, col)
                  else Fanout(|sp|) * Fanout(|fp|) * RetTotal(rs, col))
  {
    LeftJoinColumn(ShipmentProductsOfProduct(t.shipmentProducts, productId),
      PurchasesOfProduct(t.farmerPurchases, productId), ReturnsOfProduct(t.returnRows, productId), col);
  }

  /** Only the column's own table contributes to its sum over the join. */
  lemma LeftJoinColumn(sp: seq<ShipmentProductRow>, fp: seq<FarmerPurchaseRow>, rs: seq<ReturnRow>, col: Column)
    ensures SumColumn(Join(LeftSide(sp), LeftSide(fp), LeftSide(rs)), col)
              == (if OfShipmentProducts(col) then Fanout(|fp|) * Fanout(|rs|) * SpTotal(sp, col)
                  else if OfFarmerPurchases(col) then Fanout(|sp|) * Fanout(|rs|) * FpTotal(fp, col)
                  else Fanout(|sp|) * Fanout(|fp|) * RetTotal(rs, col))
  {
    if OfShipmentProducts(col) {
      SpColumnSum(sp, fp, rs, col);
    } else if OfFarmerPurchases(col) {
      FpColumnSum(sp, fp, rs, col);
    } else {
      RetColumnSum(sp, fp, rs, col);
    }
  }

  lemma SpColumnSum(sp: seq<ShipmentProductRow>, fp: seq<FarmerPurchaseRow>, rs: seq<ReturnRow>, col: Column)
    requires OfShipmentProducts(col)
    ensures SumColumn(Join(LeftSide(sp), LeftSide(fp), LeftSide(rs)), col) == Fanout(|fp|) * Fanout(|rs|) * SpTotal(sp, col)
  {
    LeftJoinSum(sp, fp, rs, col);
    FpOtherColumn(fp, col);
    RetOtherColumn(rs, col);
    ZeroFactor(Fanout(|sp|) * Fanout(|rs|), FpTotal(fp, col));
    ZeroFactor(Fanout(|sp|) * Fanout(|fp|), RetTotal(rs, col));
  }

  lemma FpColumnSum(sp: seq<ShipmentProductRow>, fp: seq<FarmerPurchaseRow>, rs: seq<ReturnRow>, col: Column)
    requires OfFarmerPurchases(col)
    ensures SumColumn(Join(LeftSide(sp), LeftSide(fp), LeftSide(rs)), col) == Fanout(|sp|) * Fanout(|rs|) * FpTotal(fp, col)
  {
    LeftJoinSum(sp, fp, rs, col);
    SpOtherColumn(sp, col);
    RetOtherColumn(rs, col);
    ZeroFactor(Fanout(|fp|) * Fanout(|rs|), SpTotal(sp, col));
    ZeroFactor(Fanout(|sp|) * Fanout(|fp|), RetTotal(rs, col));
  }

  lemma RetColumnSum(sp: seq<ShipmentProductRow>, fp: seq<FarmerPurchaseRow>, rs: seq<ReturnRow>, col: Column)
    requires col.ReturnQuantity?
    ensures SumColumn(Join(LeftSide(sp), LeftSide(fp), LeftSide(rs)), col) == Fanout(|sp|) * Fanout(|fp|) * RetTotal(rs, col)
  {
    LeftJoinSum(sp, fp, rs, col);
    SpOtherColumn(sp, col);
    FpOtherColumn(fp, col);
    ZeroFactor(Fanout(|fp|) * Fanout(|rs|), SpTotal(sp, col));
    ZeroFactor(Fanout(|sp|) * Fanout(|rs|), FpTotal(fp, col));
  }

  /** A product of three factors whose values are known. */
  lemma KnownProduct(x: int, y: int, z: int, a: int, b: int, c: int)
    requires x == a && y == b && z == c
    ensures x * y * z == a * b * c
  {
  }

  lemma ZeroFactor(p: int, a: int)
    requires a == 0
    ensures p * a == 0
  {
  }

  /** Fan-out of the shipment join's sums; its distinct counts see each child row once. */
  lemma ShipmentJoinAggregates(t: Tables, shipmentId: nat, col: Column)
    requires !col.ReturnQuantity?
    ensures var sp := ShipmentProductsOfShipment(t.shipmentProducts, shipmentId);
            var fp := PurchasesOfShipment(t.farmerPurchases, shipmentId);
            && SumColumn(ShipmentJoin(t, shipmentId), col)
                 == (if OfShipmentProducts(col) then Fanout(|fp|) * SpTotal(sp, col)
                     else Fanout(|sp|) * FpTotal(fp, col))
            && Distinct(Cells(ShipmentJoin(t, shipmentId), col))
                 == (if OfShipmentProducts(col) then SpIdSet(sp, col) else FpIdSet(fp, col))
  {
    ShipmentJoinSum(t, shipmentId, col);
    ShipmentJoinDistinct(t, shipmentId, col);
  }

  lemma ShipmentJoinSum(t: Tables, shipmentId: nat, col: Column)
    requires !col.ReturnQuantity?
    ensures var sp := ShipmentProductsOfShipment(t.shipmentProducts, shipmentId);
            var fp := PurchasesOfShipment(t.farmerPurchases, shipmentId);
      SumColumn(ShipmentJoin(t, shipmentId), col)
        == (if OfShipmentProducts(col) then Fanout(|fp|) * SpTotal(sp, col) else Fanout(|sp|) * FpTotal(fp, col))
  {
    var sp := ShipmentProductsOfShipment(t.shipmentProducts, shipmentId);
    var fp := PurchasesOfShipment(t.farmerPurchases, shipmentId);
    var none: seq<ReturnRow> := [];
    assert Fanout(|none|) == 1;
    if OfShipmentProducts(col) {
      SpColumnSum(sp, fp, none, col);
    } else {
      FpColumnSum(sp, fp, none, col);
    }
  }

  lemma ShipmentJoinDistinct(t: Tables, shipmentId: nat, col: Column)
    requires !col.ReturnQuantity?
    ensures var sp := ShipmentProductsOfShipment(t.shipmentProducts, shipmentId);
            var fp := PurchasesOfShipment(t.farmerPurchases, shipmentId);
      Distinct(Cells(ShipmentJoin(t, shipmentId), col))
        == (if OfShipmentProducts(col) then SpIdSet(sp, col) else FpIdSet(fp, col))
  {
    var sp := ShipmentProductsOfShipment(t.shipmentProducts, shipmentId);
    var fp := PurchasesOfShipment(t.farmerPurchases, shipmentId);
    var none: seq<ReturnRow> := [];
    var a, b, c := LeftSide(sp), LeftSide(fp), LeftSide(none);
    var ids, fids := SpIdSet(sp, col), FpIdSet(fp, col);
    assert Distinct(Cells(ShipmentJoin(t, shipmentId), col)) == SpIds(a, col) + FpIds(b, col) + RetIds(c, col) by {
      JoinDistinct(a, b, c, col);
    }
    assert SpIds(a, col) == ids by { SpLeftSide(sp, col); }
    assert FpIds(b, col) == fids by { FpLeftSide(fp, col); }
    assert RetIds(c, col) == {} by {
      assert c == [None];
      assert c[..0] == [];
    }
    if OfShipmentProducts(col) {
      assert fids == {} by { FpOtherColumn(fp, col); }
      assert ids + fids + {} == ids;
    } else {
      assert ids == {} by { SpOtherColumn(sp, col); }
      assert ids + fids + {} == fids;
    }
  }

  /** A single join does not fan out: every purchase of the farmer is summed once. */
  lemma FarmerJoinSum(t: Tables, farmerId: nat, col: Column)
    requires OfFarmerPurchases(col)
    ensures SumColumn(FarmerJoin(t, farmerId), col) == FpTotal(PurchasesOfFarmer(t.farmerPurchases, farmerId), col)
  {
    var none: seq<ShipmentProductRow> := [];
    var noReturns: seq<ReturnRow> := [];
    LeftJoinSum(none, PurchasesOfFarmer(t.farmerPurchases, farmerId), noReturns, col);
  }

  // ---------------------------------------------------------------------------
  // Plain sums over concatenated row lists.

  lemma {:induction false} SpTotalConcat(a: seq<ShipmentProductRow>, b: seq<ShipmentProductRow>, col: Column)
    ensures SpTotal(a + b, col) == SpTotal(a, col) + SpTotal(b, col)
  {
    if |b| == 0 {
      assert a + b == a;
    } else {
      assert (a + b)[..|a + b| - 1] == a + b[..|b| - 1];
      SpTotalConcat(a, b[..|b| - 1], col);
    }
  }

  lemma {:induction false} FpTotalConcat(a: seq<FarmerPurchaseRow>, b: seq<FarmerPurchaseRow>, col: Column)
    ensures FpTotal(a + b, col) == FpTotal(a, col) + FpTotal(b, col)
  {
    if |b| == 0 {
      assert a + b == a;
    } else {
      assert (a + b)[..|a + b| - 1] == a + b[..|b| - 1];
      FpTotalConcat(a, b[..|b| - 1], col);
    }
  }

  lemma {:induction false} RetTotalConcat(a: seq<ReturnRow>, b: seq<ReturnRow>, col: Column)
    ensures RetTotal(a + b, col) == RetTotal(a, col) + RetTotal(b, col)
  {
    if |b| == 0 {
      assert a + b == a;
    } else {
      assert (a + b)[..|a + b| - 1] == a + b[..|b| - 1];
      RetTotalConcat(a, b[..|b| - 1], col);
    }
  }
}
