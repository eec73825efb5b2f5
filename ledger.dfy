/**
 * The application's row store: seven append-only tables and the inserts the
 * widgets issue against them.
 *
 * The store behind `Database.execute_update` keeps an auto-increment id per
 * table and never deletes a row, so the id of the row at index `k` of a table
 * is `k + 1`; rows therefore do not carry their own id. `created_at` is the
 * store's clock at insert time, passed in as `now` and never decreasing.
 * Amounts and quantities are exact integers in one fixed-point scale.
 */
module Ledger {
  import opened Wrappers
  import opened Text
  import opened Sorting

  /** A row of `products` or of `farmers`: both hold a unique name and a creation time. */
  datatype NamedRow = NamedRow(name: string, createdAt: int)

  datatype ShipmentRow = ShipmentRow(createdAt: int, notes: string)

  datatype ShipmentProductRow = ShipmentProductRow(
    shipmentId: nat, productId: nat, unitPrice: int, quantity: int, subtotal: int)

  /** `shipmentId` is NULL for a direct warehouse sale. */
  datatype FarmerPurchaseRow = FarmerPurchaseRow(
    shipmentId: Option<nat>, farmerId: nat, productId: nat,
    quantity: int, unitPrice: int, totalPaid: int)

  datatype ReturnRow = ReturnRow(
    farmerId: nat, productId: nat, quantity: int, refundAmount: int, note: string)

  datatype TransferRow = TransferRow(
    fromFarmerId: nat, toFarmerId: nat, productId: nat, quantity: int, note: string)

  /** The contents of every table at one moment. */
  datatype Tables = Tables(
    products: seq<NamedRow>,
    farmers: seq<NamedRow>,
    shipments: seq<ShipmentRow>,
    shipmentProducts: seq<ShipmentProductRow>,
    farmerPurchases: seq<FarmerPurchaseRow>,
    returnRows: seq<ReturnRow>,
    transfers: seq<TransferRow>)

  /** What the insert behind "Add Product" / "Add Farmer" did; the message the widget then shows is not part of it. */
  datatype NameResult = Added(id: nat) | EmptyName | NameTaken

  predicate HasName(rows: seq<NamedRow>, name: string) {
    exists k :: 0 <= k < |rows| && rows[k].name == name
  }

  /** The UNIQUE constraint on `name`. */
  predicate DistinctNames(rows: seq<NamedRow>) {
    forall i, j :: 0 <= i < j < |rows| ==> rows[i].name != rows[j].name
  }

  /** A `shipment_id` the program writes: NULL (a direct sale) or the id of an existing shipment. */
  predicate ShipmentRef(ref: Option<nat>, shipmentCount: nat) {
    ref.None? || 1 <= ref.value <= shipmentCount
  }

  /**
   * Every `shipment_id` held by a child row is one the program wrote: the
   * `lastrowid` of an earlier shipment insert, or NULL for a direct sale.
   */
  predicate ShipmentRefsExist(t: Tables) {
    && (forall k :: 0 <= k < |t.shipmentProducts| ==> ShipmentRef(Some(t.shipmentProducts[k].shipmentId), |t.shipments|))
    && (forall k :: 0 <= k < |t.farmerPurchases| ==> ShipmentRef(t.farmerPurchases[k].shipmentId, |t.shipments|))
  }

  /** No row of `t` refers to the shipment id `id` yet. */
  predicate Unreferenced(t: Tables, id: nat) {
    && (forall k :: 0 <= k < |t.shipmentProducts| ==> t.shipmentProducts[k].shipmentId != id)
    && (forall k :: 0 <= k < |t.farmerPurchases| ==> t.farmerPurchases[k].shipmentId != Some(id))
  }

  /** The id the next shipment insert returns is referred to by no row yet. */
  lemma NextShipmentUnreferenced(t: Tables)
    requires ShipmentRefsExist(t)
    ensures Unreferenced(t, |t.shipments| + 1)
  {
    var id := |t.shipments| + 1;
    forall k | 0 <= k < |t.shipmentProducts| ensures t.shipmentProducts[k].shipmentId != id {
      assert ShipmentRef(Some(t.shipmentProducts[k].shipmentId), |t.shipments|);
    }
    forall k | 0 <= k < |t.farmerPurchases| ensures t.farmerPurchases[k].shipmentId != Some(id) {
      assert ShipmentRef(t.farmerPurchases[k].shipmentId, |t.shipments|);
    }
  }

  class Store {
    var products: seq<NamedRow>
    var farmers: seq<NamedRow>
    var shipments: seq<ShipmentRow>
    var shipmentProducts: seq<ShipmentProductRow>
    var farmerPurchases: seq<FarmerPurchaseRow>
    var returnRows: seq<ReturnRow>
    var transfers: seq<TransferRow>
    var clock: int

    /** The UNIQUE names, and every stored `shipment_id` naming an existing shipment or NULL. */
    ghost predicate Valid()
      reads this
    {
      DistinctNames(products) && DistinctNames(farmers) && ShipmentRefsExist(State())
    }

    function State(): Tables
      reads this
    {
      Tables(products, farmers, shipments, shipmentProducts, farmerPurchases, returnRows, transfers)
    }

    constructor (start: int)
      ensures Valid() && clock == start
      ensures State() == Tables([], [], [], [], [], [], [])
    {
      products, farmers, shipments := [], [], [];
      shipmentProducts, farmerPurchases, returnRows, transfers := [], [], [], [];
      clock := start;
    }

    /** `INSERT INTO products (name)`: fails, changing nothing, when the name is taken. */
    method InsertProduct(name: string, now: int) returns (id: Option<nat>)
      requires Valid() && clock <= now
      modifies this
      ensures Valid()
      ensures id.None? <==> HasName(old(products), name)
      ensures id.Some? ==> id.value == |old(products)| + 1 && clock == now
      ensures id.Some? ==> State() == old(State()).(products := old(products) + [NamedRow(name, now)])
      ensures id.None? ==> State() == old(State()) && clock == old(clock)
    {
      if HasName(products, name) {
        return None;
      }
      products := products + [NamedRow(name, now)];
      clock := now;
      id := Some(|products|);
    }

    /** `INSERT INTO farmers (name)`: fails, changing nothing, when the name is taken. */
    method InsertFarmer(name: string, now: int) returns (id: Option<nat>)
      requires Valid() && clock <= now
      modifies this
      ensures Valid()
      ensures id.None? <==> HasName(old(farmers), name)
      ensures id.Some? ==> id.value == |old(farmers)| + 1 && clock == now
      ensures id.Some? ==> State() == old(State()).(farmers := old(farmers) + [NamedRow(name, now)])
      ensures id.None? ==> State() == old(State()) && clock == old(clock)
    {
      if HasName(farmers, name) {
        return None;
      }
      farmers := farmers + [NamedRow(name, now)];
      clock := now;
      id := Some(|farmers|);
    }

    method InsertShipment(notes: string, now: int) returns (id: nat)
      requires Valid() && clock <= now
      modifies this
      ensures Valid() && clock == now
      ensures id == |old(shipments)| + 1
      ensures State() == old(State()).(shipments := old(shipments) + [ShipmentRow(now, notes)])
    {
      shipments := shipments + [ShipmentRow(now, notes)];
      clock := now;
      id := |shipments|;
    }

    method InsertShipmentProduct(row: ShipmentProductRow)
      requires Valid() && ShipmentRef(Some(row.shipmentId), |shipments|)
      modifies this
      ensures Valid() && clock == old(clock)
      ensures State() == old(State()).(shipmentProducts := old(shipmentProducts) + [row])
    {
      shipmentProducts := shipmentProducts + [row];
    }

    method InsertFarmerPurchase(row: FarmerPurchaseRow)
      requires Valid() && ShipmentRef(row.shipmentId, |shipments|)
      modifies this
      ensures Valid() && clock == old(clock)
      ensures State() == old(State()).(farmerPurchases := old(farmerPurchases) + [row])
    {
      farmerPurchases := farmerPurchases + [row];
    }

    method InsertReturn(row: ReturnRow)
      requires Valid()
      modifies this
      ensures Valid() && clock == old(clock)
      ensures State() == old(State()).(returnRows := old(returnRows) + [row])
    {
      returnRows := returnRows + [row];
    }

    method InsertTransfer(row: TransferRow)
      requires Valid()
      modifies this
      ensures Valid() && clock == old(clock)
      ensures State() == old(State()).(transfers := old(transfers) + [row])
    {
      transfers := transfers + [row];
    }
  }

  // ---------------------------------------------------------------------------
  // The rows an `ON parent.id = child.column` condition matches, in table order.

  function ShipmentProductsOfProduct(rows: seq<ShipmentProductRow>, productId: nat): seq<ShipmentProductRow> {
    if |rows| == 0 then []
    else
      var last := rows[|rows| - 1];
      ShipmentProductsOfProduct(rows[..|rows| - 1], productId) + (if last.productId == productId then [last] else [])
  }

  function ShipmentProductsOfShipment(rows: seq<ShipmentProductRow>, shipmentId: nat): seq<ShipmentProductRow> {
    if |rows| == 0 then []
    else
      var last := rows[|rows| - 1];
      ShipmentProductsOfShipment(rows[..|rows| - 1], shipmentId) + (if last.shipmentId == shipmentId then [last] else [])
  }

  function PurchasesOfProduct(rows: seq<FarmerPurchaseRow>, productId: nat): seq<FarmerPurchaseRow> {
    if |rows| == 0 then []
    else
      var last := rows[|rows| - 1];
      PurchasesOfProduct(rows[..|rows| - 1], productId) + (if last.productId == productId then [last] else [])
  }

  /** A NULL `shipment_id` matches no shipment. */
  function PurchasesOfShipment(rows: seq<FarmerPurchaseRow>, shipmentId: nat): seq<FarmerPurchaseRow> {
    if |rows| == 0 then []
    else
      var last := rows[|rows| - 1];
      PurchasesOfShipment(rows[..|rows| - 1], shipmentId) + (if last.shipmentId == Some(shipmentId) then [last] else [])
  }

  /** Every purchase of the farmer, from a shipment or a direct sale alike. */
  function PurchasesOfFarmer(rows: seq<FarmerPurchaseRow>, farmerId: nat): seq<FarmerPurchaseRow> {
    if |rows| == 0 then []
    else
      var last := rows[|rows| - 1];
      PurchasesOfFarmer(rows[..|rows| - 1], farmerId) + (if last.farmerId == farmerId then [last] else [])
  }

  function ReturnsOfProduct(rows: seq<ReturnRow>, productId: nat): seq<ReturnRow> {
    if |rows| == 0 then []
    else
      var last := rows[|rows| - 1];
      ReturnsOfProduct(rows[..|rows| - 1], productId) + (if last.productId == productId then [last] else [])
  }

  // Filtering distributes over concatenation.

  lemma {:induction false} ShipmentProductsOfShipmentConcat(a: seq<ShipmentProductRow>, b: seq<ShipmentProductRow>, shipmentId: nat)
    ensures ShipmentProductsOfShipment(a + b, shipmentId)
         == ShipmentProductsOfShipment(a, shipmentId) + ShipmentProductsOfShipment(b, shipmentId)
  {
    if |b| == 0 {
      assert a + b == a;
    } else {
      assert (a + b)[..|a + b| - 1] == a + b[..|b| - 1];
      ShipmentProductsOfShipmentConcat(a, b[..|b| - 1], shipmentId);
    }
  }

  lemma {:induction false} PurchasesOfShipmentConcat(a: seq<FarmerPurchaseRow>, b: seq<FarmerPurchaseRow>, shipmentId: nat)
    ensures PurchasesOfShipment(a + b, shipmentId) == PurchasesOfShipment(a, shipmentId) + PurchasesOfShipment(b, shipmentId)
  {
    if |b| == 0 {
      assert a + b == a;
    } else {
      assert (a + b)[..|a + b| - 1] == a + b[..|b| - 1];
      PurchasesOfShipmentConcat(a, b[..|b| - 1], shipmentId);
    }
  }

  // A filter keeps every row when all rows match, and none when none does.

  lemma {:induction false} AllShipmentProductsOfProduct(rows: seq<ShipmentProductRow>, productId: nat)
    requires forall k :: 0 <= k < |rows| ==> rows[k].productId == productId
    ensures ShipmentProductsOfProduct(rows, productId) == rows
  {
    if |rows| > 0 {
      AllShipmentProductsOfProduct(rows[..|rows| - 1], productId);
    }
  }

  lemma {:induction false} AllPurchasesOfProduct(rows: seq<FarmerPurchaseRow>, productId: nat)
    requires forall k :: 0 <= k < |rows| ==> rows[k].productId == productId
    ensures PurchasesOfProduct(rows, productId) == rows
  {
    if |rows| > 0 {
      AllPurchasesOfProduct(rows[..|rows| - 1], productId);
    }
  }

  lemma {:induction false} AllReturnsOfProduct(rows: seq<ReturnRow>, productId: nat)
    requires forall k :: 0 <= k < |rows| ==> rows[k].productId == productId
    ensures ReturnsOfProduct(rows, productId) == rows
  {
    if |rows| > 0 {
      AllReturnsOfProduct(rows[..|rows| - 1], productId);
    }
  }

  lemma {:induction false} NoShipmentProductsOfProduct(rows: seq<ShipmentProductRow>, productId: nat)
    requires forall k :: 0 <= k < |rows| ==> rows[k].productId != productId
    ensures ShipmentProductsOfProduct(rows, productId) == []
  {
    if |rows| > 0 {
      NoShipmentProductsOfProduct(rows[..|rows| - 1], productId);
    }
  }

  lemma {:induction false} NoPurchasesOfProduct(rows: seq<FarmerPurchaseRow>, productId: nat)
    requires forall k :: 0 <= k < |rows| ==> rows[k].productId != productId
    ensures PurchasesOfProduct(rows, productId) == []
  {
    if |rows| > 0 {
      NoPurchasesOfProduct(rows[..|rows| - 1], productId);
    }
  }

  lemma {:induction false} NoReturnsOfProduct(rows: seq<ReturnRow>, productId: nat)
    requires forall k :: 0 <= k < |rows| ==> rows[k].productId != productId
    ensures ReturnsOfProduct(rows, productId) == []
  {
    if |rows| > 0 {
      NoReturnsOfProduct(rows[..|rows| - 1], productId);
    }
  }

  // ---------------------------------------------------------------------------
  // GROUP BY parent.id ORDER BY ...: every parent row paired with its id, sorted.

  function Numbered<T(==)>(rows: seq<T>): (r: seq<(nat, T)>)
    ensures |r| == |rows|
    ensures forall k :: 0 <= k < |rows| ==> r[k] == (k + 1, rows[k])
  {
    seq(|rows|, k requires 0 <= k < |rows| => (k + 1, rows[k]))
  }

  /** The ids a grouped result carries. */
  function Ids<T>(r: seq<(nat, T)>): set<nat> {
    set i | 0 <= i < |r| :: r[i].0
  }

  /** A permutation of `Numbered(rows)` holds every row exactly once, under its own id. */
  predicate OnePerRow<T(==)>(rows: seq<T>, r: seq<(nat, T)>) {
    && |r| == |rows|
    && (forall i :: 0 <= i < |r| ==> 1 <= r[i].0 <= |rows| && r[i].1 == rows[r[i].0 - 1])
    && (forall id :: 1 <= id <= |rows| ==> id in Ids(r))
    && (forall i, j :: 0 <= i < j < |r| ==> r[i].0 != r[j].0)
  }

  lemma PermutationOfNumbered<T>(rows: seq<T>, r: seq<(nat, T)>)
    requires multiset(r) == multiset(Numbered(rows))
    ensures OnePerRow(rows, r)
  {
    var n := Numbered(rows);
    assert |r| == |rows| by {
      assert |multiset(r)| == |r| && |multiset(n)| == |n|;
    }
    forall i | 0 <= i < |r| ensures 1 <= r[i].0 <= |rows| && r[i].1 == rows[r[i].0 - 1] {
      assert r[i] in multiset(n);
      var k :| 0 <= k < |n| && n[k] == r[i];
    }
    forall id | 1 <= id <= |rows| ensures id in Ids(r) {
      assert n[id - 1] in multiset(r);
      var i :| 0 <= i < |r| && r[i] == n[id - 1];
      assert r[i].0 == id;
    }
    PermutationKeepsDistinct(n, r);
  }

  predicate ByName(a: (nat, NamedRow), b: (nat, NamedRow)) {
    NameLe(a.1.name, b.1.name)
  }

  lemma ByNameIsPreorder()
    ensures TotalPreorder(ByName)
  {
    forall a: (nat, NamedRow), b: (nat, NamedRow) ensures ByName(a, b) || ByName(b, a) {
      NameLeTotal(a.1.name, b.1.name);
    }
    forall a: (nat, NamedRow), b: (nat, NamedRow), c: (nat, NamedRow) | ByName(a, b) && ByName(b, c)
      ensures ByName(a, c)
    {
      NameLeTransitive(a.1.name, b.1.name, c.1.name);
    }
  }

  /** `... GROUP BY p.id ORDER BY p.name` over `products` or `farmers`. */
  function OrderedByName(rows: seq<NamedRow>): (r: seq<(nat, NamedRow)>)
    ensures OnePerRow(rows, r)
    ensures forall i, j :: 0 <= i < j < |r| ==> NameLe(r[i].1.name, r[j].1.name)
  {
    ByNameIsPreorder();
    var r := SortBy(Numbered(rows), ByName);
    PermutationOfNumbered(rows, r);
    r
  }

  predicate ByNewest(a: (nat, ShipmentRow), b: (nat, ShipmentRow)) {
    a.1.createdAt >= b.1.createdAt
  }

  /** `... GROUP BY s.id ORDER BY s.created_at DESC`; ties stay in id order. */
  function OrderedByNewest(rows: seq<ShipmentRow>): (r: seq<(nat, ShipmentRow)>)
    ensures OnePerRow(rows, r)
    ensures forall i, j :: 0 <= i < j < |r| ==> r[i].1.createdAt >= r[j].1.createdAt
  {
    assert TotalPreorder(ByNewest);
    var r := SortBy(Numbered(rows), ByNewest);
    PermutationOfNumbered(rows, r);
    r
  }
}
