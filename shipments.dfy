/**
 * The "Add New Shipment" dialog's in-memory draft and its commit, and the
 * shipment list (`src/shipments.py`).
 *
 * A draft is an ordered list of product entries, each with its own ordered
 * list of farmer allocations, and the index of the entry picked in the
 * products table. Saving checks the whole draft first and only then writes
 * one `shipments` row, one `shipment_products` row per entry and one
 * `farmer_purchases` row per allocation, all carrying the new shipment's id.
 */
module Shipments {
  import opened Wrappers
  import opened Ledger
  import opened Joins

  /** A farmer's share of one draft entry; `totalPaid` is `quantity * unitPrice`. */
  datatype Allocation = Allocation(
    farmerId: nat, farmerName: string, quantity: int, unitPrice: int, totalPaid: int)

  /** A product of the draft; `subtotal` is `unitPrice * quantity`. */
  datatype Entry = Entry(
    productId: nat, name: string, unitPrice: int, quantity: int, subtotal: int,
    farmers: seq<Allocation>)

  /** The outcome of "Assign to Farmer"; `remaining` is what the entry can still take. */
  datatype AssignResult = NoProductSelected | FarmerAlreadyAssigned | OverAllocated(remaining: int) | Assigned

  /** The pre-save check; `name` is the first entry whose allocations do not add up. */
  datatype SaveCheck = Ready | EmptyShipment | NotFullyAssigned(name: string)

  datatype SaveResult = Saved(shipmentId: nat) | Rejected(reason: SaveCheck)

  // ---------------------------------------------------------------------------
  // Totals over a draft.

  /** The quantity already handed out to farmers. */
  function AssignedQuantity(fs: seq<Allocation>): int {
    if |fs| == 0 then 0 else AssignedQuantity(fs[..|fs| - 1]) + fs[|fs| - 1].quantity
  }

  function PaidBy(fs: seq<Allocation>): int {
    if |fs| == 0 then 0 else PaidBy(fs[..|fs| - 1]) + fs[|fs| - 1].totalPaid
  }

  /** The purchase total: the entries' subtotals. */
  function Subtotals(es: seq<Entry>): int {
    if |es| == 0 then 0 else Subtotals(es[..|es| - 1]) + es[|es| - 1].subtotal
  }

  /** The sales total: `total_paid` of every allocation of every entry. */
  function Sales(es: seq<Entry>): int {
    if |es| == 0 then 0 else Sales(es[..|es| - 1]) + PaidBy(es[|es| - 1].farmers)
  }

  /** What the factory charges: price times quantity of every entry. */
  function Cost(es: seq<Entry>): int {
    if |es| == 0 then 0 else Cost(es[..|es| - 1]) + es[|es| - 1].unitPrice * es[|es| - 1].quantity
  }

  /** What the farmers pay: quantity times selling price of every allocation. */
  function Revenue(fs: seq<Allocation>): int {
    if |fs| == 0 then 0 else Revenue(fs[..|fs| - 1]) + fs[|fs| - 1].quantity * fs[|fs| - 1].unitPrice
  }

  function RevenueOf(es: seq<Entry>): int {
    if |es| == 0 then 0 else RevenueOf(es[..|es| - 1]) + Revenue(es[|es| - 1].farmers)
  }

  // ---------------------------------------------------------------------------
  // Invariants of a draft built by the dialog.

  predicate HasProduct(es: seq<Entry>, productId: nat) {
    exists k :: 0 <= k < |es| && es[k].productId == productId
  }

  predicate HasFarmer(fs: seq<Allocation>, farmerId: nat) {
    exists k :: 0 <= k < |fs| && fs[k].farmerId == farmerId
  }

  predicate DistinctProducts(es: seq<Entry>) {
    forall i, j :: 0 <= i < j < |es| ==> es[i].productId != es[j].productId
  }

  predicate DistinctFarmers(fs: seq<Allocation>) {
    forall i, j :: 0 <= i < j < |fs| ==> fs[i].farmerId != fs[j].farmerId
  }

  predicate PricedAllocations(fs: seq<Allocation>) {
    forall k :: 0 <= k < |fs| ==> fs[k].totalPaid == fs[k].quantity * fs[k].unitPrice
  }

  /** What every entry of a draft satisfies. */
  predicate WellFormed(e: Entry) {
    && e.subtotal == e.unitPrice * e.quantity
    && DistinctFarmers(e.farmers)
    && PricedAllocations(e.farmers)
    && AssignedQuantity(e.farmers) <= e.quantity
  }

  predicate FullyAssigned(e: Entry) {
    AssignedQuantity(e.farmers) == e.quantity
  }

  predicate FirstIncompleteAt(es: seq<Entry>, i: nat) {
    && i < |es|
    && !FullyAssigned(es[i])
    && forall k :: 0 <= k < i ==> FullyAssigned(es[k])
  }

  /** `r` is the pre-save check's verdict on `es`. */
  predicate IsSaveCheck(es: seq<Entry>, r: SaveCheck) {
    && (r == EmptyShipment <==> |es| == 0)
    && (r == Ready <==> |es| > 0 && forall i :: 0 <= i < |es| ==> FullyAssigned(es[i]))
    && (r.NotFullyAssigned? ==> exists i: nat :: i < |es| && FirstIncompleteAt(es, i) && r.name == es[i].name)
  }

  // ---------------------------------------------------------------------------
  // The rows a successful save appends.

  function ProductRow(e: Entry, shipmentId: nat): ShipmentProductRow {
    ShipmentProductRow(shipmentId, e.productId, e.unitPrice, e.quantity, e.subtotal)
  }

  function ProductRows(es: seq<Entry>, shipmentId: nat): (r: seq<ShipmentProductRow>)
    ensures |r| == |es|
  {
    if |es| == 0 then [] else ProductRows(es[..|es| - 1], shipmentId) + [ProductRow(es[|es| - 1], shipmentId)]
  }

  function AllocationRow(e: Entry, f: Allocation, shipmentId: nat): FarmerPurchaseRow {
    FarmerPurchaseRow(Some(shipmentId), f.farmerId, e.productId, f.quantity, f.unitPrice, f.totalPaid)
  }

  function AllocationRows(e: Entry, shipmentId: nat): (r: seq<FarmerPurchaseRow>)
    ensures |r| == |e.farmers|
    ensures forall k :: 0 <= k < |e.farmers| ==> r[k] == AllocationRow(e, e.farmers[k], shipmentId)
  {
    seq(|e.farmers|, k requires 0 <= k < |e.farmers| => AllocationRow(e, e.farmers[k], shipmentId))
  }

  function PurchaseRows(es: seq<Entry>, shipmentId: nat): seq<FarmerPurchaseRow> {
    if |es| == 0 then [] else PurchaseRows(es[..|es| - 1], shipmentId) + AllocationRows(es[|es| - 1], shipmentId)
  }

  /** The rows of the first `k + 1` entries: those of the first `k`, then entry `k`'s. */
  lemma SaveRowsSnoc(es: seq<Entry>, k: nat, shipmentId: nat)
    requires k < |es|
    ensures ProductRows(es[..k + 1], shipmentId) == ProductRows(es[..k], shipmentId) + [ProductRow(es[k], shipmentId)]
    ensures PurchaseRows(es[..k + 1], shipmentId) == PurchaseRows(es[..k], shipmentId) + AllocationRows(es[k], shipmentId)
  {
    assert es[..k + 1][..k] == es[..k];
  }

  /** `sum(f['quantity'] for f in farmers)`. */
  method AssignedTotal(fs: seq<Allocation>) returns (total: int)
    ensures total == AssignedQuantity(fs)
  {
    total := 0;
    var k := 0;
    while k < |fs|
      invariant 0 <= k <= |fs|
      invariant total == AssignedQuantity(fs[..k])
    {
      assert fs[..k + 1][..k] == fs[..k];
      total := total + fs[k].quantity;
      k := k + 1;
    }
    assert fs[..k] == fs;
  }

  class Draft {
    var entries: seq<Entry>
    /** `current_product_idx`: the products-table row last clicked, if any. */
    var selected: Option<nat>

    ghost predicate Valid()
      reads this
    {
      && DistinctProducts(entries)
      && (forall i :: 0 <= i < |entries| ==> WellFormed(entries[i]))
      && (selected.Some? ==> selected.value < |entries|)
    }

    constructor ()
      ensures Valid() && entries == [] && selected == None
    {
      entries := [];
      selected := None;
    }

    /** "Add Product": refused when the product is already in the draft. */
    method AddProduct(productId: nat, name: string, unitPrice: int, quantity: int) returns (added: bool)
      requires Valid() && unitPrice >= 1 && quantity >= 1
      modifies this
      ensures Valid() && selected == old(selected)
      ensures added <==> !HasProduct(old(entries), productId)
      ensures added ==> entries == old(entries) + [Entry(productId, name, unitPrice, quantity, unitPrice * quantity, [])]
      ensures !added ==> entries == old(entries)
    {
      var k := 0;
      while k < |entries|
        invariant 0 <= k <= |entries|
        invariant forall m :: 0 <= m < k ==> entries[m].productId != productId
      {
        if entries[k].productId == productId {
          return false;
        }
        k := k + 1;
      }
      entries := entries + [Entry(productId, name, unitPrice, quantity, unitPrice * quantity, [])];
      added := true;
    }

    /** A click on the products table; `row` is -1 when no row is current. */
    method SelectRow(row: int)
      requires Valid() && row < |entries|
      modifies this
      ensures Valid() && entries == old(entries)
      ensures selected == if row >= 0 then Some(row) else old(selected)
    {
      if row >= 0 {
        selected := Some(row);
      }
    }

    /**
     * "Assign to Farmer" on the selected entry, checking in the dialog's
     * order: a selection exists, the farmer is new to the entry, and the
     * entry is not over-allocated (`assigned + quantity` may equal it).
     */
    method Assign(farmerId: nat, farmerName: string, quantity: int, sellingPrice: int) returns (r: AssignResult)
      requires Valid() && quantity >= 1 && sellingPrice >= 1
      modifies this
      ensures Valid() && selected == old(selected)
      ensures r == NoProductSelected <==> old(selected).None?
      ensures old(selected).Some? ==>
        var e := old(entries)[old(selected).value];
        && (r == FarmerAlreadyAssigned <==> HasFarmer(e.farmers, farmerId))
        && (r.OverAllocated? <==> !HasFarmer(e.farmers, farmerId) && AssignedQuantity(e.farmers) + quantity > e.quantity)
        && (r.OverAllocated? ==> r.remaining == e.quantity - AssignedQuantity(e.farmers))
      ensures r == Assigned ==>
        var i := old(selected).value;
        var e := old(entries)[i];
        entries == old(entries)[i := e.(farmers := e.farmers + [Allocation(farmerId, farmerName, quantity, sellingPrice, quantity * sellingPrice)])]
      ensures r != Assigned ==> entries == old(entries)
    {
      if selected.None? {
        return NoProductSelected;
      }
      var i := selected.value;
      var e := entries[i];
      var k := 0;
      while k < |e.farmers|
        invariant 0 <= k <= |e.farmers|
        invariant forall m :: 0 <= m < k ==> e.farmers[m].farmerId != farmerId
      {
        if e.farmers[k].farmerId == farmerId {
          return FarmerAlreadyAssigned;
        }
        k := k + 1;
      }
      var taken := AssignedTotal(e.farmers);
      if taken + quantity > e.quantity {
        return OverAllocated(e.quantity - taken);
      }
      var a := Allocation(farmerId, farmerName, quantity, sellingPrice, quantity * sellingPrice);
      var e' := e.(farmers := e.farmers + [a]);
      assert e'.farmers[..|e.farmers|] == e.farmers;
      assert WellFormed(e');
      entries := entries[i := e'];
      r := Assigned;
    }

    /** The loop of `update_products_table` that sums the subtotals. */
    method PurchaseTotal() returns (total: int)
      ensures total == Subtotals(entries)
    {
      total := 0;
      var k := 0;
      while k < |entries|
        invariant 0 <= k <= |entries|
        invariant total == Subtotals(entries[..k])
      {
        assert entries[..k + 1][..k] == entries[..k];
        total := total + entries[k].subtotal;
        k := k + 1;
      }
      assert entries[..k] == entries;
    }

    /** `update_sales_total`: every allocation's `total_paid`, entry by entry. */
    method SalesTotal() returns (total: int)
      ensures total == Sales(entries)
    {
      total := 0;
      var k := 0;
      while k < |entries|
        invariant 0 <= k <= |entries|
        invariant total == Sales(entries[..k])
      {
        var fs := entries[k].farmers;
        var paid := 0;
        var m := 0;
        while m < |fs|
          invariant 0 <= m <= |fs|
          invariant paid == PaidBy(fs[..m])
        {
          assert fs[..m + 1][..m] == fs[..m];
          paid := paid + fs[m].totalPaid;
          m := m + 1;
        }
        assert fs[..m] == fs;
        assert entries[..k + 1][..k] == entries[..k];
        total := total + paid;
        k := k + 1;
      }
      assert entries[..k] == entries;
    }

    /** The checks `save_shipment` runs before its first insert. */
    method CheckComplete() returns (r: SaveCheck)
      ensures IsSaveCheck(entries, r)
    {
      if |entries| == 0 {
        return EmptyShipment;
      }
      var k := 0;
      while k < |entries|
        invariant 0 <= k <= |entries|
        invariant forall m :: 0 <= m < k ==> FullyAssigned(entries[m])
      {
        var taken := AssignedTotal(entries[k].farmers);
        if taken != entries[k].quantity {
          assert FirstIncompleteAt(entries, k);
          return NotFullyAssigned(entries[k].name);
        }
        k := k + 1;
      }
      r := Ready;
    }

    /** "Save": nothing is written unless every check passes. */
    method Save(store: Store, notes: string, now: int) returns (r: SaveResult)
      requires store.Valid() && store.clock <= now
      modifies store
      ensures store.Valid()
      ensures r.Rejected? ==> IsSaveCheck(entries, r.reason) && r.reason != Ready
      ensures r.Rejected? ==> store.State() == old(store.State()) && store.clock == old(store.clock)
      ensures r.Saved? <==> IsSaveCheck(entries, Ready)
      ensures r.Saved? ==>
        && r.shipmentId == |old(store.shipments)| + 1
        && store.clock == now
        && store.State() == old(store.State()).(
             shipments := old(store.shipments) + [ShipmentRow(now, notes)],
             shipmentProducts := old(store.shipmentProducts) + ProductRows(entries, r.shipmentId),
             farmerPurchases := old(store.farmerPurchases) + PurchaseRows(entries, r.shipmentId))
    {
      var check := CheckComplete();
      if check != Ready {
        return Rejected(check);
      }
      var id := store.InsertShipment(notes, now);
      SaveEntries(store, entries, id);
      r := Saved(id);
    }
  }

  /** The inserts `save_shipment` issues after the shipment row: entry by entry, in draft order. */
  method SaveEntries(store: Store, es: seq<Entry>, shipmentId: nat)
    requires store.Valid() && 1 <= shipmentId <= |store.shipments|
    modifies store
    ensures store.Valid() && store.clock == old(store.clock)
    ensures store.State() == old(store.State()).(
      shipmentProducts := old(store.shipmentProducts) + ProductRows(es, shipmentId),
      farmerPurchases := old(store.farmerPurchases) + PurchaseRows(es, shipmentId))
  {
    ghost var before := store.State();
    var k := 0;
    while k < |es|
      invariant 0 <= k <= |es|
      invariant store.Valid() && store.clock == old(store.clock) && |store.shipments| == |before.shipments|
      invariant store.State() == before.(
        shipmentProducts := before.shipmentProducts + ProductRows(es[..k], shipmentId),
        farmerPurchases := before.farmerPurchases + PurchaseRows(es[..k], shipmentId))
    {
      SaveRowsSnoc(es, k, shipmentId);
      SaveEntry(store, es[k], shipmentId);
      k := k + 1;
    }
    assert es[..k] == es;
  }

  /** The inserts `save_shipment` issues for one entry: its product row, then its allocations. */
  method SaveEntry(store: Store, e: Entry, shipmentId: nat)
    requires store.Valid() && 1 <= shipmentId <= |store.shipments|
    modifies store
    ensures store.Valid() && store.clock == old(store.clock)
    ensures store.State() == old(store.State()).(
      shipmentProducts := old(store.shipmentProducts) + [ProductRow(e, shipmentId)],
      farmerPurchases := old(store.farmerPurchases) + AllocationRows(e, shipmentId))
  {
    store.InsertShipmentProduct(ProductRow(e, shipmentId));
    ghost var before := store.State();
    var m := 0;
    while m < |e.farmers|
      invariant 0 <= m <= |e.farmers|
      invariant store.Valid() && store.clock == old(store.clock)
      invariant store.State() == before.(farmerPurchases := before.farmerPurchases + AllocationRows(e, shipmentId)[..m])
    {
      assert AllocationRows(e, shipmentId)[..m + 1] == AllocationRows(e, shipmentId)[..m] + [AllocationRow(e, e.farmers[m], shipmentId)];
      store.InsertFarmerPurchase(AllocationRow(e, e.farmers[m], shipmentId));
      m := m + 1;
    }
    assert AllocationRows(e, shipmentId)[..m] == AllocationRows(e, shipmentId);
  }

  // ---------------------------------------------------------------------------
  // Properties of the draft's totals.

  /** An accepted assignment raises the sales total by exactly the allocation's `total_paid`. */
  lemma {:induction false} SalesAfterAssign(es: seq<Entry>, i: nat, a: Allocation)
    requires i < |es|
    ensures Sales(es[i := es[i].(farmers := es[i].farmers + [a])]) == Sales(es) + a.totalPaid
  {
    var es' := es[i := es[i].(farmers := es[i].farmers + [a])];
    var n := |es| - 1;
    assert es'[..n] == if i < n then es[..n][i := es[i].(farmers := es[i].farmers + [a])] else es[..n];
    if i < n {
      SalesAfterAssign(es[..n], i, a);
    } else {
      var fs := es[i].farmers;
      assert (fs + [a])[..|fs|] == fs;
    }
  }

  /** An added entry raises the purchase total by exactly its subtotal. */
  lemma PurchaseAfterAdd(es: seq<Entry>, e: Entry)
    ensures Subtotals(es + [e]) == Subtotals(es) + e.subtotal
  {
    assert (es + [e])[..|es|] == es;
  }

  /** In a draft the dialog built, the purchase total is price times quantity summed over the entries. */
  lemma {:induction false} PurchaseTotalIsCost(es: seq<Entry>)
    requires forall i :: 0 <= i < |es| ==> WellFormed(es[i])
    ensures Subtotals(es) == Cost(es)
  {
    if |es| > 0 {
      PurchaseTotalIsCost(es[..|es| - 1]);
    }
  }

  lemma {:induction false} PaidIsRevenue(fs: seq<Allocation>)
    requires PricedAllocations(fs)
    ensures PaidBy(fs) == Revenue(fs)
  {
    if |fs| > 0 {
      PaidIsRevenue(fs[..|fs| - 1]);
    }
  }

  /** ... and the sales total is quantity times selling price over every allocation. */
  lemma {:induction false} SalesTotalIsRevenue(es: seq<Entry>)
    requires forall i :: 0 <= i < |es| ==> WellFormed(es[i])
    ensures Sales(es) == RevenueOf(es)
  {
    if |es| > 0 {
      SalesTotalIsRevenue(es[..|es| - 1]);
      PaidIsRevenue(es[|es| - 1].farmers);
    }
  }

  /** A save writes one purchase row per allocation. */
  lemma {:induction false} PurchaseRowsCount(es: seq<Entry>, shipmentId: nat)
    ensures |PurchaseRows(es, shipmentId)| == AllocationCount(es)
  {
    if |es| > 0 {
      PurchaseRowsCount(es[..|es| - 1], shipmentId);
    }
  }

  function AllocationCount(es: seq<Entry>): nat {
    if |es| == 0 then 0 else AllocationCount(es[..|es| - 1]) + |es[|es| - 1].farmers|
  }

  // ---------------------------------------------------------------------------
  // The shipment list (`load_shipments`).

  datatype ShipmentLine = ShipmentLine(
    id: nat, createdAt: int, notes: string, productCount: nat, farmerCount: nat, totalPaid: int)

  /** One group of the shipment list, aggregated over the literal join. */
  function ShipmentLineOf(t: Tables, id: nat, s: ShipmentRow): (line: ShipmentLine)
    ensures line.id == id && line.createdAt == s.createdAt && line.notes == s.notes
  {
    var j := ShipmentJoin(t, id);
    ShipmentLine(id, s.createdAt, s.notes,
      CountDistinct(j, SpProductId), CountDistinct(j, FpFarmerId), SumColumn(j, FpTotalPaid))
  }

  /**
   * The distinct counts see every matching row once, but `SUM(fp.total_paid)`
   * adds each purchase once per `shipment_products` row of the shipment.
   */
  lemma ShipmentLineClosedForm(t: Tables, id: nat, s: ShipmentRow)
    ensures var line := ShipmentLineOf(t, id, s);
            var sp := ShipmentProductsOfShipment(t.shipmentProducts, id);
            var fp := PurchasesOfShipment(t.farmerPurchases, id);
            && line.productCount == |SpIdSet(sp, SpProductId)|
            && line.farmerCount == |FpIdSet(fp, FpFarmerId)|
            && line.totalPaid == Fanout(|sp|) * FpTotal(fp, FpTotalPaid)
  {
    ShipmentJoinAggregates(t, id, SpProductId);
    ShipmentJoinAggregates(t, id, FpFarmerId);
    ShipmentJoinAggregates(t, id, FpTotalPaid);
  }

  /** `load_shipments`: one line per shipment, newest first. */
  function ShipmentSummary(t: Tables): (lines: seq<ShipmentLine>)
    ensures |lines| == |t.shipments|
  {
    var order := OrderedByNewest(t.shipments);
    seq(|order|, i requires 0 <= i < |order| => ShipmentLineOf(t, order[i].0, order[i].1))
  }

  /** Line `i` of the list is the group of the `i`-th shipment, newest first. */
  lemma ShipmentSummaryAt(t: Tables, i: nat)
    requires i < |t.shipments|
    ensures var order := OrderedByNewest(t.shipments);
      && 1 <= order[i].0 <= |t.shipments| && order[i].1 == t.shipments[order[i].0 - 1]
      && ShipmentSummary(t)[i] == ShipmentLineOf(t, order[i].0, order[i].1)
  {
  }

  /** Line `i` of the summary describes the shipment whose id it carries. */
  lemma ShipmentSummaryLineAt(t: Tables, i: nat)
    requires i < |t.shipments|
    ensures var line := ShipmentSummary(t)[i];
      1 <= line.id <= |t.shipments| && line == ShipmentLineOf(t, line.id, t.shipments[line.id - 1])
  {
    ShipmentSummaryAt(t, i);
    var (id, row) := OrderedByNewest(t.shipments)[i];
    assert ShipmentSummary(t)[i].id == id;
  }

  /** Every line describes the shipment whose id it carries. */
  lemma ShipmentSummaryLines(t: Tables)
    ensures var lines := ShipmentSummary(t);
      forall i :: 0 <= i < |lines| ==>
        1 <= lines[i].id <= |t.shipments| && lines[i] == ShipmentLineOf(t, lines[i].id, t.shipments[lines[i].id - 1])
  {
    forall i | 0 <= i < |t.shipments| {
      ShipmentSummaryLineAt(t, i);
    }
  }

  /** Every shipment has a line, and no two lines carry the same id. */
  lemma ShipmentSummaryOnePerShipment(t: Tables)
    ensures var lines := ShipmentSummary(t);
      && (forall id :: 1 <= id <= |t.shipments| ==> Lists(lines, id))
      && (forall i, j :: 0 <= i < j < |lines| ==> lines[i].id != lines[j].id)
  {
    var lines := ShipmentSummary(t);
    var order := OrderedByNewest(t.shipments);
    forall i | 0 <= i < |lines| ensures lines[i].id == order[i].0 {
      ShipmentSummaryAt(t, i);
    }
    forall id | 1 <= id <= |t.shipments| ensures Lists(lines, id) {
      assert id in Ids(order);
      var i :| 0 <= i < |order| && order[i].0 == id;
      assert lines[i].id == id;
    }
  }

  /** `ORDER BY s.created_at DESC`. */
  lemma ShipmentSummaryNewestFirst(t: Tables)
    ensures var lines := ShipmentSummary(t);
      forall i, j :: 0 <= i < j < |lines| ==> lines[i].createdAt >= lines[j].createdAt
  {
    var lines := ShipmentSummary(t);
    var order := OrderedByNewest(t.shipments);
    forall i | 0 <= i < |lines| ensures lines[i].createdAt == order[i].1.createdAt {
      ShipmentSummaryAt(t, i);
    }
  }

  /** A shipment no purchase refers to is listed with total 0, however many products it has. */
  lemma ShipmentWithoutPurchases(t: Tables, id: nat, s: ShipmentRow)
    requires forall k :: 0 <= k < |t.farmerPurchases| ==> t.farmerPurchases[k].shipmentId != Some(id)
    ensures ShipmentLineOf(t, id, s).totalPaid == 0
    ensures ShipmentLineOf(t, id, s).farmerCount == 0
  {
    NoPurchasesOf(t.farmerPurchases, id);
    ShipmentLineClosedForm(t, id, s);
  }

  predicate Lists(lines: seq<ShipmentLine>, id: nat) {
    exists i :: 0 <= i < |lines| && lines[i].id == id
  }

  // ---------------------------------------------------------------------------
  // A saved draft as the shipment list sees it.

  /** The tables after `Draft.Save` appended the rows of `es` under the shipment id `id`. */
  function AfterSave(t: Tables, es: seq<Entry>, id: nat): Tables {
    t.(shipmentProducts := t.shipmentProducts + ProductRows(es, id),
       farmerPurchases := t.farmerPurchases + PurchaseRows(es, id))
  }

  /** The shipment list's total with every purchase of the shipment counted once. */
  function IntendedShipmentTotal(t: Tables, id: nat): int {
    FpTotal(PurchasesOfShipment(t.farmerPurchases, id), FpTotalPaid)
  }

  lemma {:induction false} NoProductsOf(rows: seq<ShipmentProductRow>, id: nat)
    requires forall k :: 0 <= k < |rows| ==> rows[k].shipmentId != id
    ensures ShipmentProductsOfShipment(rows, id) == []
  {
    if |rows| > 0 {
      NoProductsOf(rows[..|rows| - 1], id);
    }
  }

  lemma {:induction false} NoPurchasesOf(rows: seq<FarmerPurchaseRow>, id: nat)
    requires forall k :: 0 <= k < |rows| ==> rows[k].shipmentId != Some(id)
    ensures PurchasesOfShipment(rows, id) == []
  {
    if |rows| > 0 {
      NoPurchasesOf(rows[..|rows| - 1], id);
    }
  }

  lemma {:induction false} ProductRowsOfShipment(es: seq<Entry>, id: nat)
    ensures ShipmentProductsOfShipment(ProductRows(es, id), id) == ProductRows(es, id)
  {
    if |es| > 0 {
      var es' := es[..|es| - 1];
      ProductRowsOfShipment(es', id);
      ShipmentProductsOfShipmentConcat(ProductRows(es', id), [ProductRow(es[|es| - 1], id)], id);
      assert ShipmentProductsOfShipment([ProductRow(es[|es| - 1], id)], id) == [ProductRow(es[|es| - 1], id)] by {
        assert [ProductRow(es[|es| - 1], id)][..0] == [];
      }
    }
  }

  lemma {:induction false} AllocationRowsOfShipment(e: Entry, id: nat)
    ensures PurchasesOfShipment(AllocationRows(e, id), id) == AllocationRows(e, id)
    ensures FpTotal(AllocationRows(e, id), FpTotalPaid) == PaidBy(e.farmers)
    decreases |e.farmers|
  {
    if |e.farmers| > 0 {
      var n := |e.farmers| - 1;
      var e' := e.(farmers := e.farmers[..n]);
      var rows, prev, last := AllocationRows(e, id), AllocationRows(e', id), AllocationRow(e, e.farmers[n], id);
      AllocationRowsSnoc(e, id);
      AllocationRowsOfShipment(e', id);
      assert rows[..n] == prev;
      assert PaidBy(e.farmers) == PaidBy(e'.farmers) + last.totalPaid;
    }
  }

  /** The allocation rows of an entry end in the row of its last allocation. */
  lemma AllocationRowsSnoc(e: Entry, id: nat)
    requires |e.farmers| > 0
    ensures var n := |e.farmers| - 1;
      AllocationRows(e, id) == AllocationRows(e.(farmers := e.farmers[..n]), id) + [AllocationRow(e, e.farmers[n], id)]
  {
  }

  lemma {:induction false} PurchaseRowsOfShipment(es: seq<Entry>, id: nat)
    ensures PurchasesOfShipment(PurchaseRows(es, id), id) == PurchaseRows(es, id)
    ensures FpTotal(PurchaseRows(es, id), FpTotalPaid) == Sales(es)
  {
    if |es| > 0 {
      var es' := es[..|es| - 1];
      var e := es[|es| - 1];
      PurchaseRowsOfShipment(es', id);
      AllocationRowsOfShipment(e, id);
      PurchasesOfShipmentConcat(PurchaseRows(es', id), AllocationRows(e, id), id);
      FpTotalConcat(PurchaseRows(es', id), AllocationRows(e, id), FpTotalPaid);
    }
  }

  /** The product ids a save writes are the draft's, one per entry. */
  lemma {:induction false} ProductIdsOfRows(es: seq<Entry>, id: nat)
    requires DistinctProducts(es)
    ensures forall x :: x in SpIdSet(ProductRows(es, id), SpProductId) <==> exists k :: 0 <= k < |es| && es[k].productId == x
    ensures |SpIdSet(ProductRows(es, id), SpProductId)| == |es|
  {
    ProductIdsOf(es, id);
    if |es| > 0 {
      var es' := es[..|es| - 1];
      var e := es[|es| - 1];
      assert DistinctProducts(es') by {
        forall i, j | 0 <= i < j < |es'| ensures es'[i].productId != es'[j].productId {
          assert es'[i] == es[i] && es'[j] == es[j];
        }
      }
      ProductIdsOfRows(es', id);
      var rows := ProductRows(es, id);
      assert rows[..|rows| - 1] == ProductRows(es', id);
      var before := SpIdSet(ProductRows(es', id), SpProductId);
      assert SpIdSet(rows, SpProductId) == before + {e.productId};
      assert e.productId !in before by {
        forall k | 0 <= k < |es'| ensures es'[k].productId != e.productId {
          assert es'[k] == es[k];
        }
      }
    }
  }

  lemma {:induction false} ProductIdsOf(es: seq<Entry>, id: nat)
    ensures forall x :: x in SpIdSet(ProductRows(es, id), SpProductId) <==> exists k :: 0 <= k < |es| && es[k].productId == x
  {
    if |es| > 0 {
      var es' := es[..|es| - 1];
      var e := es[|es| - 1];
      ProductIdsOf(es', id);
      var rows := ProductRows(es, id);
      assert rows[..|rows| - 1] == ProductRows(es', id);
      var before := SpIdSet(ProductRows(es', id), SpProductId);
      assert SpIdSet(rows, SpProductId) == before + {e.productId};
      forall x ensures x in SpIdSet(rows, SpProductId) <==> exists k :: 0 <= k < |es| && es[k].productId == x {
        if x in before {
          var k :| 0 <= k < |es'| && es'[k].productId == x;
          assert es[k].productId == x;
        }
        if k :| 0 <= k < |es| && es[k].productId == x {
          if k < |es'| { assert es'[k].productId == x; }
        }
      }
    }
  }

  /**
   * The shipment list's line for a freshly saved draft: one product per entry,
   * and as total the draft's sales total once per entry.
   */
  lemma SavedShipmentLine(t: Tables, es: seq<Entry>, id: nat, s: ShipmentRow)
    requires Unreferenced(t, id) && DistinctProducts(es)
    ensures var line := ShipmentLineOf(AfterSave(t, es, id), id, s);
            && line.productCount == |es|
            && line.totalPaid == Fanout(|es|) * Sales(es)
  {
    var t' := AfterSave(t, es, id);
    NoProductsOf(t.shipmentProducts, id);
    NoPurchasesOf(t.farmerPurchases, id);
    ShipmentProductsOfShipmentConcat(t.shipmentProducts, ProductRows(es, id), id);
    PurchasesOfShipmentConcat(t.farmerPurchases, PurchaseRows(es, id), id);
    ProductRowsOfShipment(es, id);
    PurchaseRowsOfShipment(es, id);
    ProductIdsOfRows(es, id);
    ShipmentLineClosedForm(t', id, s);
    assert ShipmentProductsOfShipment(t'.shipmentProducts, id) == ProductRows(es, id);
    assert PurchasesOfShipment(t'.farmerPurchases, id) == PurchaseRows(es, id);
  }

  /** Counted once per purchase, a freshly saved shipment's total is the draft's sales total. */
  lemma SavedShipmentIntendedTotal(t: Tables, es: seq<Entry>, id: nat)
    requires Unreferenced(t, id)
    ensures IntendedShipmentTotal(AfterSave(t, es, id), id) == Sales(es)
  {
    NoPurchasesOf(t.farmerPurchases, id);
    PurchasesOfShipmentConcat(t.farmerPurchases, PurchaseRows(es, id), id);
    PurchaseRowsOfShipment(es, id);
    assert PurchasesOfShipment(AfterSave(t, es, id).farmerPurchases, id) == PurchaseRows(es, id);
  }

  /**
   * A draft saved into a valid store: `Draft.Save` leaves `AfterSave` of the old
   * tables plus the new shipment row, under that row's `lastrowid`, and no
   * earlier row refers to that id, so the list shows one product per entry and
   * the sales total once per entry, where counting once gives the sales total.
   */
  lemma SavedIntoValidStore(t: Tables, es: seq<Entry>, s: ShipmentRow)
    requires ShipmentRefsExist(t) && DistinctProducts(es)
    ensures var id := |t.shipments| + 1;
            var t' := AfterSave(t.(shipments := t.shipments + [s]), es, id);
            && ShipmentLineOf(t', id, s).productCount == |es|
            && ShipmentLineOf(t', id, s).totalPaid == Fanout(|es|) * Sales(es)
            && IntendedShipmentTotal(t', id) == Sales(es)
  {
    var id := |t.shipments| + 1;
    var withRow := t.(shipments := t.shipments + [s]);
    NextShipmentUnreferenced(t);
    assert Unreferenced(withRow, id);
    SavedShipmentLine(withRow, es, id, s);
    SavedShipmentIntendedTotal(withRow, es, id);
  }

  /** Counted once per purchase, a shipment without purchases totals 0. */
  lemma IntendedShipmentTotalEmpty(t: Tables, id: nat)
    requires forall k :: 0 <= k < |t.farmerPurchases| ==> t.farmerPurchases[k].shipmentId != Some(id)
    ensures IntendedShipmentTotal(t, id) == 0
  {
    NoPurchasesOf(t.farmerPurchases, id);
  }

  /**
   * A shipment of two products, each sold to one farmer for 100: the list
   * shows 400 where the purchases add up to 200.
   */
  lemma ShipmentTotalFanOut(t: Tables)
    requires t.shipments == [ShipmentRow(0, [])]
    requires t.shipmentProducts == [ShipmentProductRow(1, 1, 50, 2, 100), ShipmentProductRow(1, 2, 50, 2, 100)]
    requires t.farmerPurchases == [FarmerPurchaseRow(Some(1), 1, 1, 2, 50, 100), FarmerPurchaseRow(Some(1), 1, 2, 2, 50, 100)]
    ensures ShipmentLineOf(t, 1, t.shipments[0]).totalPaid == 400
    ensures IntendedShipmentTotal(t, 1) == 200
  {
    FanOutExampleRows(t.shipmentProducts, t.farmerPurchases);
    ShipmentLineClosedForm(t, 1, t.shipments[0]);
  }

  lemma {:induction false} AllProductsOf(rows: seq<ShipmentProductRow>, id: nat)
    requires forall k :: 0 <= k < |rows| ==> rows[k].shipmentId == id
    ensures ShipmentProductsOfShipment(rows, id) == rows
  {
    if |rows| > 0 {
      AllProductsOf(rows[..|rows| - 1], id);
    }
  }

  lemma {:induction false} AllPurchasesOf(rows: seq<FarmerPurchaseRow>, id: nat)
    requires forall k :: 0 <= k < |rows| ==> rows[k].shipmentId == Some(id)
    ensures PurchasesOfShipment(rows, id) == rows
  {
    if |rows| > 0 {
      AllPurchasesOf(rows[..|rows| - 1], id);
    }
  }

  lemma FanOutExampleRows(sp: seq<ShipmentProductRow>, fp: seq<FarmerPurchaseRow>)
    requires sp == [ShipmentProductRow(1, 1, 50, 2, 100), ShipmentProductRow(1, 2, 50, 2, 100)]
    requires fp == [FarmerPurchaseRow(Some(1), 1, 1, 2, 50, 100), FarmerPurchaseRow(Some(1), 1, 2, 2, 50, 100)]
    ensures ShipmentProductsOfShipment(sp, 1) == sp
    ensures PurchasesOfShipment(fp, 1) == fp
    ensures FpTotal(fp, FpTotalPaid) == 200
  {
    AllProductsOf(sp, 1);
    AllPurchasesOf(fp, 1);
    assert fp[..1][..0] == [];
    assert FpTotal(fp[..1], FpTotalPaid) == FpField(fp[0], FpTotalPaid);
  }
}
