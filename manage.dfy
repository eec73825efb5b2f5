/**
 * The stock tab (`src/manage_widget.py`): the stock overview over the
 * three-way join, and the direct warehouse sale.
 */
module Manage {
  import opened Wrappers
  import opened Text
  import opened Ledger
  import opened Joins
  import opened Products
  import opened Shipments

  /** The query selects the product's name and three sums; the group's id is not part of the line. */
  datatype StockLine = StockLine(name: string, totalBought: int, totalSold: int, currentStock: int)

  function StockLineOf(t: Tables, id: nat, p: NamedRow): (line: StockLine)
    ensures line.name == p.name
  {
    var j := ProductJoin(t, id);
    var bought := SumColumn(j, SpQuantity);
    var sold := SumColumn(j, FpQuantity);
    StockLine(p.name, bought, sold, bought - sold - SumColumn(j, ReturnQuantity))
  }

  /**
   * The stock overview in closed form; the stock is the listed bought total
   * minus the listed sold total minus the returns summed over the same join.
   */
  lemma StockLineClosedForm(t: Tables, id: nat, p: NamedRow)
    ensures var line := StockLineOf(t, id, p);
            var sp := ShipmentProductsOfProduct(t.shipmentProducts, id);
            var fp := PurchasesOfProduct(t.farmerPurchases, id);
            var rs := ReturnsOfProduct(t.returnRows, id);
            && line.totalBought == Fanout(|fp|) * Fanout(|rs|) * SpTotal(sp, SpQuantity)
            && line.totalSold == Fanout(|sp|) * Fanout(|rs|) * FpTotal(fp, FpQuantity)
            && line.currentStock == line.totalBought - line.totalSold
                 - Fanout(|sp|) * Fanout(|fp|) * RetTotal(rs, ReturnQuantity)
  {
    ProductJoinSum(t, id, SpQuantity);
    ProductJoinSum(t, id, FpQuantity);
    ProductJoinSum(t, id, ReturnQuantity);
  }

  /** A product nobody bought, sold or returned is listed with zeros. */
  lemma StockWithoutActivity(t: Tables, id: nat, p: NamedRow)
    requires Inactive(t, id)
    ensures var line := StockLineOf(t, id, p);
            line.totalBought == 0 && line.totalSold == 0 && line.currentStock == 0
  {
    NoShipmentProductsOfProduct(t.shipmentProducts, id);
    NoPurchasesOfProduct(t.farmerPurchases, id);
    NoReturnsOfProduct(t.returnRows, id);
    StockLineClosedForm(t, id, p);
  }

  /** `load_stock`: one line per product, ordered by name. */
  function StockOverview(t: Tables): (lines: seq<StockLine>)
    ensures |lines| == |t.products|
  {
    var order := OrderedByName(t.products);
    seq(|order|, i requires 0 <= i < |order| => StockLineOf(t, order[i].0, order[i].1))
  }

  /** Line `i` of the overview is the group of the `i`-th product in name order. */
  lemma StockOverviewAt(t: Tables, i: nat)
    requires i < |t.products|
    ensures var order := OrderedByName(t.products);
      StockOverview(t)[i] == StockLineOf(t, order[i].0, order[i].1)
  {
  }

  /**
   * Line `i` of the stock overview is about the product of line `i` of the
   * product summary, and the two tabs agree on its bought total and stock;
   * so the overview, too, lists every product exactly once.
   */
  lemma StockOverviewMatchesProducts(t: Tables)
    ensures var lines := StockOverview(t);
            var products := ProductSummary(t);
      forall i :: 0 <= i < |lines| ==>
        && 1 <= products[i].id <= |t.products|
        && lines[i] == StockLineOf(t, products[i].id, t.products[products[i].id - 1])
        && lines[i].name == products[i].name
        && lines[i].totalBought == products[i].totalBought
        && lines[i].currentStock == products[i].currentStock
  {
    forall i | 0 <= i < |t.products| {
      StockOverviewMatchesAt(t, i);
    }
  }

  lemma StockOverviewMatchesAt(t: Tables, i: nat)
    requires i < |t.products|
    ensures var line := StockOverview(t)[i];
            var product := ProductSummary(t)[i];
      && 1 <= product.id <= |t.products|
      && line == StockLineOf(t, product.id, t.products[product.id - 1])
      && line.name == product.name
      && line.totalBought == product.totalBought
      && line.currentStock == product.currentStock
  {
    StockOverviewAt(t, i);
    ProductSummaryAt(t, i);
    var (id, row) := OrderedByName(t.products)[i];
    assert ProductSummary(t)[i].id == id && row == t.products[id - 1];
    StockLineAgrees(t, id, row);
  }

  /** A product's stock line and its summary line read the same sums. */
  lemma StockLineAgrees(t: Tables, id: nat, p: NamedRow)
    ensures var s := StockLineOf(t, id, p);
            var l := ProductLineOf(t, id, p);
      s.name == l.name && s.totalBought == l.totalBought && s.currentStock == l.currentStock
  {
  }

  /** `ORDER BY p.name`. */
  lemma StockOverviewByName(t: Tables)
    ensures var lines := StockOverview(t);
      forall i, j :: 0 <= i < j < |lines| ==> NameLe(lines[i].name, lines[j].name)
  {
    var lines := StockOverview(t);
    var order := OrderedByName(t.products);
    forall i | 0 <= i < |lines| ensures lines[i].name == order[i].1.name {
      StockOverviewAt(t, i);
    }
  }

  /**
   * The fan-out example of `Products.ProductStockFanOut`, with a return of 5
   * recorded: the listed stock falls from 10 to 0, by twice the quantity
   * returned, while the intended stock falls by 5.
   */
  lemma ReturnLowersListedStockTwice(t: Tables, r: ReturnRow)
    requires t.products == [NamedRow("seed", 0)]
    requires t.shipmentProducts == [ShipmentProductRow(1, 1, 10, 10, 100), ShipmentProductRow(2, 1, 10, 10, 100)]
    requires t.farmerPurchases == [FarmerPurchaseRow(Some(1), 1, 1, 5, 20, 100)]
    requires t.returnRows == []
    requires r == ReturnRow(1, 1, 5, 0, [])
    ensures StockLineOf(t, 1, t.products[0]).currentStock == 10
    ensures StockLineOf(t.(returnRows := [r]), 1, t.products[0]).currentStock == 0
    ensures IntendedProductLine(t, 1, t.products[0]).currentStock == 15
    ensures IntendedProductLine(t.(returnRows := [r]), 1, t.products[0]).currentStock == 10
  {
    var p := t.products[0];
    var t' := t.(returnRows := [r]);
    var sp := ShipmentProductsOfProduct(t.shipmentProducts, 1);
    var fp := PurchasesOfProduct(t.farmerPurchases, 1);
    assert StockLineOf(t, 1, p).currentStock == 10 by {
      var rs := ReturnsOfProduct(t.returnRows, 1);
      FanOutExample(t);
      assert RetTotal(rs, ReturnQuantity) == 0;
      StockLineClosedForm(t, 1, p);
      KnownProduct(Fanout(|fp|), Fanout(|rs|), SpTotal(sp, SpQuantity), 1, 1, 20);
      KnownProduct(Fanout(|sp|), Fanout(|rs|), FpTotal(fp, FpQuantity), 2, 1, 5);
      KnownProduct(Fanout(|sp|), Fanout(|fp|), RetTotal(rs, ReturnQuantity), 2, 1, 0);
    }
    assert StockLineOf(t', 1, p).currentStock == 0 by {
      var rs := ReturnsOfProduct(t'.returnRows, 1);
      ReturnedExample(t', r);
      StockLineClosedForm(t', 1, p);
      KnownProduct(Fanout(|fp|), Fanout(|rs|), SpTotal(sp, SpQuantity), 1, 1, 20);
      KnownProduct(Fanout(|sp|), Fanout(|rs|), FpTotal(fp, FpQuantity), 2, 1, 5);
      KnownProduct(Fanout(|sp|), Fanout(|fp|), RetTotal(rs, ReturnQuantity), 2, 1, 5);
    }
    assert IntendedProductLine(t, 1, p).currentStock == 15 by {
      FanOutExample(t);
    }
    assert IntendedProductLine(t', 1, p).currentStock == 10 by {
      assert t.returnRows + [r] == [r];
      IntendedStockAfterReturn(t, 1, p, r);
    }
  }

  lemma ReturnedExample(t: Tables, r: ReturnRow)
    requires t.shipmentProducts == [ShipmentProductRow(1, 1, 10, 10, 100), ShipmentProductRow(2, 1, 10, 10, 100)]
    requires t.farmerPurchases == [FarmerPurchaseRow(Some(1), 1, 1, 5, 20, 100)]
    requires r == ReturnRow(1, 1, 5, 0, []) && t.returnRows == [r]
    ensures ShipmentProductsOfProduct(t.shipmentProducts, 1) == t.shipmentProducts
    ensures PurchasesOfProduct(t.farmerPurchases, 1) == t.farmerPurchases
    ensures ReturnsOfProduct(t.returnRows, 1) == [r]
    ensures SpTotal(t.shipmentProducts, SpQuantity) == 20
    ensures FpTotal(t.farmerPurchases, FpQuantity) == 5
    ensures RetTotal([r], ReturnQuantity) == 5
  {
    FanOutExample(t.(returnRows := []));
    AllReturnsOfProduct(t.returnRows, 1);
    assert [r][..0] == [];
  }

  // ---------------------------------------------------------------------------
  // Direct warehouse sale.

  /**
   * "Sell": refused unless quantity and price are both positive; otherwise one
   * `farmer_purchases` row with no shipment and `total_paid = quantity * unit_price`.
   */
  method DirectSell(store: Store, farmerId: nat, productId: nat, quantity: int, unitPrice: int) returns (ok: bool)
    requires store.Valid()
    modifies store
    ensures store.Valid() && store.clock == old(store.clock)
    ensures ok <==> quantity > 0 && unitPrice > 0
    ensures ok ==> store.State() == old(store.State()).(
      farmerPurchases := old(store.farmerPurchases) + [DirectSale(farmerId, productId, quantity, unitPrice)])
    ensures !ok ==> store.State() == old(store.State())
  {
    var total := quantity * unitPrice;
    if quantity <= 0 || unitPrice <= 0 {
      return false;
    }
    store.InsertFarmerPurchase(FarmerPurchaseRow(None, farmerId, productId, quantity, unitPrice, total));
    ok := true;
  }

  function DirectSale(farmerId: nat, productId: nat, quantity: int, unitPrice: int): FarmerPurchaseRow {
    FarmerPurchaseRow(None, farmerId, productId, quantity, unitPrice, quantity * unitPrice)
  }

  /** A purchase without a shipment id joins no shipment, so the shipment list does not change. */
  lemma DirectSaleLeavesShipmentList(t: Tables, row: FarmerPurchaseRow)
    requires row.shipmentId.None?
    ensures ShipmentSummary(t.(farmerPurchases := t.farmerPurchases + [row])) == ShipmentSummary(t)
  {
    var t' := t.(farmerPurchases := t.farmerPurchases + [row]);
    forall id: nat ensures ShipmentJoin(t', id) == ShipmentJoin(t, id) {
      assert t'.farmerPurchases[..|t'.farmerPurchases| - 1] == t.farmerPurchases;
      assert PurchasesOfShipment(t'.farmerPurchases, id) == PurchasesOfShipment(t.farmerPurchases, id) + [];
      assert PurchasesOfShipment(t.farmerPurchases, id) + [] == PurchasesOfShipment(t.farmerPurchases, id);
    }
  }
}
