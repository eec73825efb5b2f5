/**
 * The products tab (`src/products.py`): the product summary over the
 * three-way join, and adding a product under a stripped name.
 *
 * `products.py` at the top of the repository runs the same summary query;
 * its own "Add Product" is in module `RootProducts`.
 */
module Products {
  import opened Wrappers
  import opened Text
  import opened Ledger
  import opened Joins

  datatype ProductLine = ProductLine(
    id: nat, name: string, createdAt: int, totalBought: int, totalCost: int, currentStock: int)

  /** One group of the product summary, every sum taken over the product's joined rows. */
  function ProductLineOf(t: Tables, id: nat, p: NamedRow): (line: ProductLine)
    ensures line.id == id && line.name == p.name && line.createdAt == p.createdAt
  {
    var j := ProductJoin(t, id);
    var bought := SumColumn(j, SpQuantity);
    ProductLine(id, p.name, p.createdAt, bought, SumColumn(j, SpSubtotal),
      bought - SumColumn(j, FpQuantity) - SumColumn(j, ReturnQuantity))
  }

  /**
   * The product summary in closed form: each summed column repeats once per
   * joined row of each of the two other child tables.
   */
  lemma ProductLineClosedForm(t: Tables, id: nat, p: NamedRow)
    ensures var line := ProductLineOf(t, id, p);
            var sp := ShipmentProductsOfProduct(t.shipmentProducts, id);
            var fp := PurchasesOfProduct(t.farmerPurchases, id);
            var rs := ReturnsOfProduct(t.returnRows, id);
            && line.totalBought == Fanout(|fp|) * Fanout(|rs|) * SpTotal(sp, SpQuantity)
            && line.totalCost == Fanout(|fp|) * Fanout(|rs|) * SpTotal(sp, SpSubtotal)
            && line.currentStock == line.totalBought
                 - Fanout(|sp|) * Fanout(|rs|) * FpTotal(fp, FpQuantity)
                 - Fanout(|sp|) * Fanout(|fp|) * RetTotal(rs, ReturnQuantity)
  {
    ProductJoinSum(t, id, SpQuantity);
    ProductJoinSum(t, id, SpSubtotal);
    ProductJoinSum(t, id, FpQuantity);
    ProductJoinSum(t, id, ReturnQuantity);
  }

  /** No row of any child table refers to the product. */
  predicate Inactive(t: Tables, id: nat) {
    && (forall k :: 0 <= k < |t.shipmentProducts| ==> t.shipmentProducts[k].productId != id)
    && (forall k :: 0 <= k < |t.farmerPurchases| ==> t.farmerPurchases[k].productId != id)
    && (forall k :: 0 <= k < |t.returnRows| ==> t.returnRows[k].productId != id)
  }

  /** A product nobody bought, sold or returned is listed with zeros. */
  lemma ProductWithoutActivity(t: Tables, id: nat, p: NamedRow)
    requires Inactive(t, id)
    ensures var line := ProductLineOf(t, id, p);
            line.totalBought == 0 && line.totalCost == 0 && line.currentStock == 0
  {
    NoShipmentProductsOfProduct(t.shipmentProducts, id);
    NoPurchasesOfProduct(t.farmerPurchases, id);
    NoReturnsOfProduct(t.returnRows, id);
    ProductLineClosedForm(t, id, p);
  }

  /** `load_products`: one line per product, including products with no activity, ordered by name. */
  function ProductSummary(t: Tables): (lines: seq<ProductLine>)
    ensures |lines| == |t.products|
  {
    var order := OrderedByName(t.products);
    seq(|order|, i requires 0 <= i < |order| => ProductLineOf(t, order[i].0, order[i].1))
  }

  /** Line `i` of the summary is the group of the `i`-th product in name order. */
  lemma ProductSummaryAt(t: Tables, i: nat)
    requires i < |t.products|
    ensures var order := OrderedByName(t.products);
      && 1 <= order[i].0 <= |t.products| && order[i].1 == t.products[order[i].0 - 1]
      && ProductSummary(t)[i] == ProductLineOf(t, order[i].0, order[i].1)
  {
  }

  /** Line `i` of the summary describes the product whose id it carries. */
  lemma ProductSummaryLineAt(t: Tables, i: nat)
    requires i < |t.products|
    ensures var line := ProductSummary(t)[i];
      1 <= line.id <= |t.products| && line == ProductLineOf(t, line.id, t.products[line.id - 1])
  {
    ProductSummaryAt(t, i);
    var (id, row) := OrderedByName(t.products)[i];
    assert ProductSummary(t)[i].id == id;
  }

  /** Every line describes the product whose id it carries. */
  lemma ProductSummaryLines(t: Tables)
    ensures var lines := ProductSummary(t);
      forall i :: 0 <= i < |lines| ==>
        1 <= lines[i].id <= |t.products| && lines[i] == ProductLineOf(t, lines[i].id, t.products[lines[i].id - 1])
  {
    forall i | 0 <= i < |t.products| {
      ProductSummaryLineAt(t, i);
    }
  }

  predicate ListsProduct(lines: seq<ProductLine>, id: nat) {
    exists i :: 0 <= i < |lines| && lines[i].id == id
  }

  /** Every product has a line, and no two lines carry the same id. */
  lemma ProductSummaryOnePerProduct(t: Tables)
    ensures var lines := ProductSummary(t);
      && (forall id :: 1 <= id <= |t.products| ==> ListsProduct(lines, id))
      && (forall i, j :: 0 <= i < j < |lines| ==> lines[i].id != lines[j].id)
  {
    var lines := ProductSummary(t);
    var order := OrderedByName(t.products);
    forall i | 0 <= i < |lines| ensures lines[i].id == order[i].0 {
      ProductSummaryAt(t, i);
    }
    forall id | 1 <= id <= |t.products| ensures ListsProduct(lines, id) {
      assert id in Ids(order);
      var i :| 0 <= i < |order| && order[i].0 == id;
      assert lines[i].id == id;
    }
  }

  /** `ORDER BY p.name`. */
  lemma ProductSummaryByName(t: Tables)
    ensures var lines := ProductSummary(t);
      forall i, j :: 0 <= i < j < |lines| ==> NameLe(lines[i].name, lines[j].name)
  {
    var lines := ProductSummary(t);
    var order := OrderedByName(t.products);
    forall i | 0 <= i < |lines| ensures lines[i].name == order[i].1.name {
      ProductSummaryAt(t, i);
    }
  }

  /** Transfers are recorded but no summary reads them. */
  lemma ProductSummaryIgnoresTransfers(t: Tables, transfers: seq<TransferRow>)
    ensures ProductSummary(t.(transfers := transfers)) == ProductSummary(t)
  {
    var t' := t.(transfers := transfers);
    var order := OrderedByName(t.products);
    assert OrderedByName(t'.products) == order;
    forall i | 0 <= i < |t.products| ensures ProductSummary(t')[i] == ProductSummary(t)[i] {
      ProductSummaryAt(t', i);
      ProductSummaryAt(t, i);
      ProductLineIgnoresTransfers(t, transfers, order[i].0, order[i].1);
    }
  }

  lemma ProductLineIgnoresTransfers(t: Tables, transfers: seq<TransferRow>, id: nat, p: NamedRow)
    ensures ProductLineOf(t.(transfers := transfers), id, p) == ProductLineOf(t, id, p)
  {
    assert ProductJoin(t.(transfers := transfers), id) == ProductJoin(t, id);
  }

  // ---------------------------------------------------------------------------
  // The summary with each child row counted once.

  /** Bought, cost and stock as the column headings describe them: plain sums of the product's rows. */
  function IntendedProductLine(t: Tables, id: nat, p: NamedRow): ProductLine {
    var sp := ShipmentProductsOfProduct(t.shipmentProducts, id);
    var fp := PurchasesOfProduct(t.farmerPurchases, id);
    var rs := ReturnsOfProduct(t.returnRows, id);
    var bought := SpTotal(sp, SpQuantity);
    ProductLine(id, p.name, p.createdAt, bought, SpTotal(sp, SpSubtotal),
      bought - FpTotal(fp, FpQuantity) - RetTotal(rs, ReturnQuantity))
  }

  /** The literal summary is the intended one when no child table matches more than one row. */
  lemma LiteralIsIntendedWhenSingle(t: Tables, id: nat, p: NamedRow)
    requires |ShipmentProductsOfProduct(t.shipmentProducts, id)| <= 1
    requires |PurchasesOfProduct(t.farmerPurchases, id)| <= 1
    requires |ReturnsOfProduct(t.returnRows, id)| <= 1
    ensures ProductLineOf(t, id, p) == IntendedProductLine(t, id, p)
  {
    var sp := ShipmentProductsOfProduct(t.shipmentProducts, id);
    var fp := PurchasesOfProduct(t.farmerPurchases, id);
    var rs := ReturnsOfProduct(t.returnRows, id);
    assert Fanout(|sp|) == 1 && Fanout(|fp|) == 1 && Fanout(|rs|) == 1;
    ProductLineClosedForm(t, id, p);
    var line := ProductLineOf(t, id, p);
    assert line.totalBought == SpTotal(sp, SpQuantity);
    assert line.totalCost == SpTotal(sp, SpSubtotal);
    assert line.currentStock == line.totalBought - FpTotal(fp, FpQuantity) - RetTotal(rs, ReturnQuantity);
  }

  /** Recording a return lowers the intended stock of its product by exactly the returned quantity. */
  lemma IntendedStockAfterReturn(t: Tables, id: nat, p: NamedRow, r: ReturnRow)
    ensures IntendedProductLine(t.(returnRows := t.returnRows + [r]), id, p).currentStock
         == IntendedProductLine(t, id, p).currentStock - (if r.productId == id then r.quantity else 0)
  {
    var t' := t.(returnRows := t.returnRows + [r]);
    assert t'.returnRows[..|t'.returnRows| - 1] == t.returnRows;
    var before := ReturnsOfProduct(t.returnRows, id);
    if r.productId == id {
      RetTotalConcat(before, [r], ReturnQuantity);
      assert [r][..0] == [];
    } else {
      assert before + [] == before;
    }
  }

  /** A sale lowers the intended stock of its product by exactly the quantity sold. */
  lemma IntendedStockAfterPurchase(t: Tables, id: nat, p: NamedRow, row: FarmerPurchaseRow)
    ensures IntendedProductLine(t.(farmerPurchases := t.farmerPurchases + [row]), id, p).currentStock
         == IntendedProductLine(t, id, p).currentStock - (if row.productId == id then row.quantity else 0)
    ensures IntendedProductLine(t.(farmerPurchases := t.farmerPurchases + [row]), id, p).totalBought
         == IntendedProductLine(t, id, p).totalBought
  {
    var t' := t.(farmerPurchases := t.farmerPurchases + [row]);
    assert t'.farmerPurchases[..|t'.farmerPurchases| - 1] == t.farmerPurchases;
    var before := PurchasesOfProduct(t.farmerPurchases, id);
    if row.productId == id {
      FpTotalConcat(before, [row], FpQuantity);
      assert [row][..0] == [];
    } else {
      assert before + [] == before;
    }
  }

  /** A purchase from the factory raises the intended bought total and stock by exactly its quantity. */
  lemma IntendedStockAfterShipmentProduct(t: Tables, id: nat, p: NamedRow, row: ShipmentProductRow)
    ensures var delta := if row.productId == id then row.quantity else 0;
      && IntendedProductLine(t.(shipmentProducts := t.shipmentProducts + [row]), id, p).totalBought
           == IntendedProductLine(t, id, p).totalBought + delta
      && IntendedProductLine(t.(shipmentProducts := t.shipmentProducts + [row]), id, p).currentStock
           == IntendedProductLine(t, id, p).currentStock + delta
  {
    var t' := t.(shipmentProducts := t.shipmentProducts + [row]);
    assert t'.shipmentProducts[..|t'.shipmentProducts| - 1] == t.shipmentProducts;
    var before := ShipmentProductsOfProduct(t.shipmentProducts, id);
    if row.productId == id {
      SpTotalConcat(before, [row], SpQuantity);
      assert [row][..0] == [];
    } else {
      assert before + [] == before;
    }
  }

  /**
   * Product 1 bought in two shipments of 10 each and sold once, 5 to one
   * farmer: the summary lists a stock of 10 where 15 are left.
   */
  lemma ProductStockFanOut(t: Tables)
    requires t.products == [NamedRow("seed", 0)]
    requires t.shipmentProducts == [ShipmentProductRow(1, 1, 10, 10, 100), ShipmentProductRow(2, 1, 10, 10, 100)]
    requires t.farmerPurchases == [FarmerPurchaseRow(Some(1), 1, 1, 5, 20, 100)]
    requires t.returnRows == []
    ensures ProductLineOf(t, 1, t.products[0]).totalBought == 20
    ensures ProductLineOf(t, 1, t.products[0]).currentStock == 10
    ensures IntendedProductLine(t, 1, t.products[0]).currentStock == 15
  {
    var sp := ShipmentProductsOfProduct(t.shipmentProducts, 1);
    var fp := PurchasesOfProduct(t.farmerPurchases, 1);
    var rs := ReturnsOfProduct(t.returnRows, 1);
    var p := t.products[0];
    assert ProductLineOf(t, 1, p).totalBought == 20 && ProductLineOf(t, 1, p).currentStock == 10 by {
      FanOutExample(t);
      assert RetTotal(rs, ReturnQuantity) == 0;
      ProductLineClosedForm(t, 1, p);
      KnownProduct(Fanout(|fp|), Fanout(|rs|), SpTotal(sp, SpQuantity), 1, 1, 20);
      KnownProduct(Fanout(|sp|), Fanout(|rs|), FpTotal(fp, FpQuantity), 2, 1, 5);
      KnownProduct(Fanout(|sp|), Fanout(|fp|), RetTotal(rs, ReturnQuantity), 2, 1, 0);
    }
    assert IntendedProductLine(t, 1, p).currentStock == 15 by {
      FanOutExample(t);
    }
  }

  /** The child rows of the fan-out example, and their plain sums. */
  lemma FanOutExample(t: Tables)
    requires t.shipmentProducts == [ShipmentProductRow(1, 1, 10, 10, 100), ShipmentProductRow(2, 1, 10, 10, 100)]
    requires t.farmerPurchases == [FarmerPurchaseRow(Some(1), 1, 1, 5, 20, 100)]
    requires t.returnRows == []
    ensures ShipmentProductsOfProduct(t.shipmentProducts, 1) == t.shipmentProducts
    ensures PurchasesOfProduct(t.farmerPurchases, 1) == t.farmerPurchases
    ensures ReturnsOfProduct(t.returnRows, 1) == []
    ensures SpTotal(t.shipmentProducts, SpQuantity) == 20
    ensures FpTotal(t.farmerPurchases, FpQuantity) == 5
  {
    var sp := t.shipmentProducts;
    var fp := t.farmerPurchases;
    AllShipmentProductsOfProduct(sp, 1);
    AllPurchasesOfProduct(fp, 1);
    assert sp[..1][..0] == [] && fp[..0] == [];
    assert SpTotal(sp[..1], SpQuantity) == SpField(sp[0], SpQuantity);
  }

  // ---------------------------------------------------------------------------
  // Writes.

  /**
   * A name stored by "Add Product", typed again exactly as the list shows it,
   * is refused as taken: stripping the stored name gives it back unchanged.
   */
  lemma RetypedStoredNameTaken(rows: seq<NamedRow>, typed: string, now: int)
    requires !AllSpace(typed)
    ensures var stored := Trim(typed);
            !AllSpace(stored) && HasName(rows + [NamedRow(stored, now)], Trim(stored))
  {
    TrimIdempotent(typed);
    var stored := Trim(typed);
    assert (rows + [NamedRow(stored, now)])[|rows|].name == stored;
  }

  /**
   * "Add Product": the typed name is stripped; an empty result inserts
   * nothing, and a name already taken makes the insert fail and changes nothing.
   */
  method AddProduct(store: Store, typed: string, now: int) returns (r: NameResult)
    requires store.Valid() && store.clock <= now
    modifies store
    ensures store.Valid()
    ensures r == EmptyName <==> AllSpace(typed)
    ensures r == NameTaken <==> !AllSpace(typed) && HasName(old(store.products), Trim(typed))
    ensures r.Added? ==>
      && r.id == |old(store.products)| + 1 && store.clock == now
      && store.State() == old(store.State()).(products := old(store.products) + [NamedRow(Trim(typed), now)])
    ensures !r.Added? ==> store.State() == old(store.State()) && store.clock == old(store.clock)
  {
    var name := Trim(typed);
    if name == [] {
      return EmptyName;
    }
    var id := store.InsertProduct(name, now);
    if id.None? {
      return NameTaken;
    }
    r := Added(id.value);
  }
}
