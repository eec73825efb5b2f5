/**
 * "Add Product" in `products.py` at the top of the repository: unlike the
 * widget under `src/`, it refuses only the empty string and stores the name
 * exactly as typed. Its product summary runs the same query as the one under
 * `src/`, modelled by `Products.ProductSummary`.
 */
module RootProducts {
  import opened Text
  import opened Ledger
  import opened Joins
  import opened Products

  method AddProductAsTyped(store: Store, typed: string, now: int) returns (r: NameResult)
    requires store.Valid() && store.clock <= now
    modifies store
    ensures store.Valid()
    ensures r == EmptyName <==> typed == []
    ensures r == NameTaken <==> typed != [] && HasName(old(store.products), typed)
    ensures r.Added? ==>
      && r.id == |old(store.products)| + 1 && store.clock == now
      && store.State() == old(store.State()).(products := old(store.products) + [NamedRow(typed, now)])
    ensures !r.Added? ==> store.State() == old(store.State()) && store.clock == old(store.clock)
  {
    if typed == [] {
      return EmptyName;
    }
    var id := store.InsertProduct(typed, now);
    if id.None? {
      return NameTaken;
    }
    r := Added(id.value);
  }

  /** The message box root "Add Product" ends with. */
  datatype Report = NoReport | Success | Failure

  /**
   * As written: after the INSERT, `load_products` formats each listed row's
   * `created_at` with `datetime`, which `products.py` never imports. The
   * resulting NameError reaches the bare `except:` as soon as one product is
   * listed, so a stored name is reported as a failure.
   */
  function ReportAsWritten(r: NameResult, listed: nat): Report {
    match r
    case EmptyName => NoReport
    case NameTaken => Failure
    case Added(_) => if listed > 0 then Failure else Success
  }

  /** Intended: the success message exactly when the row was stored. */
  function ReportIntended(r: NameResult): Report {
    match r
    case EmptyName => NoReport
    case NameTaken => Failure
    case Added(_) => Success
  }

  /** The two reports differ exactly for a stored name while some product is listed. */
  lemma ReportsDifferWhenStored(r: NameResult, listed: nat)
    ensures ReportAsWritten(r, listed) != ReportIntended(r) <==> r.Added? && listed > 0
    ensures r.Added? && listed > 0 ==> ReportAsWritten(r, listed) == Failure
  {
  }

  /**
   * Root "Add Product" with its message, as written: every non-empty name ends
   * in the failure message, although a new name is stored all the same.
   */
  method AddProductReportAsWritten(store: Store, typed: string, now: int) returns (m: Report)
    requires store.Valid() && store.clock <= now
    modifies store
    ensures store.Valid()
    ensures m == NoReport <==> typed == []
    ensures m == Failure <==> typed != []
    ensures typed != [] && !HasName(old(store.products), typed) ==>
      store.products == old(store.products) + [NamedRow(typed, now)] && HasName(store.products, typed)
  {
    var r := AddProductAsTyped(store, typed, now);
    if r.Added? {
      assert store.products[|store.products| - 1].name == typed;
    }
    m := ReportAsWritten(r, |store.products|);
  }

  /** Root "Add Product" with the message intended: success exactly when a new name is stored. */
  method AddProductReportIntended(store: Store, typed: string, now: int) returns (m: Report)
    requires store.Valid() && store.clock <= now
    modifies store
    ensures store.Valid()
    ensures m == NoReport <==> typed == []
    ensures m == Success <==> typed != [] && !HasName(old(store.products), typed)
    ensures m == Success <==> store.products == old(store.products) + [NamedRow(typed, now)]
    ensures m != Success ==> store.products == old(store.products)
  {
    var r := AddProductAsTyped(store, typed, now);
    m := ReportIntended(r);
  }

  /**
   * The summary query of `products.py`: one line per product, ordered by
   * name, its cost the subtotals and its stock the bought total minus the
   * sold and returned quantities, each summed over the three-way join.
   */
  lemma RootProductSummary(t: Tables)
    ensures var lines := ProductSummary(t);
      && |lines| == |t.products|
      && (forall id :: 1 <= id <= |t.products| ==> ListsProduct(lines, id))
      && (forall i, j :: 0 <= i < j < |lines| ==> lines[i].id != lines[j].id && NameLe(lines[i].name, lines[j].name))
      && forall i :: 0 <= i < |lines| ==>
           var id := lines[i].id;
           var sp := ShipmentProductsOfProduct(t.shipmentProducts, id);
           var fp := PurchasesOfProduct(t.farmerPurchases, id);
           var rs := ReturnsOfProduct(t.returnRows, id);
           && 1 <= id <= |t.products|
           && lines[i].name == t.products[id - 1].name
           && lines[i].totalCost == Fanout(|fp|) * Fanout(|rs|) * SpTotal(sp, SpSubtotal)
           && lines[i].currentStock == lines[i].totalBought
                - Fanout(|sp|) * Fanout(|rs|) * FpTotal(fp, FpQuantity)
                - Fanout(|sp|) * Fanout(|fp|) * RetTotal(rs, ReturnQuantity)
  {
    var lines := ProductSummary(t);
    ProductSummaryLines(t);
    ProductSummaryOnePerProduct(t);
    ProductSummaryByName(t);
    forall i | 0 <= i < |lines|
      ensures var id := lines[i].id;
              var sp := ShipmentProductsOfProduct(t.shipmentProducts, id);
              var fp := PurchasesOfProduct(t.farmerPurchases, id);
              var rs := ReturnsOfProduct(t.returnRows, id);
              && lines[i].totalCost == Fanout(|fp|) * Fanout(|rs|) * SpTotal(sp, SpSubtotal)
              && lines[i].currentStock == lines[i].totalBought
                   - Fanout(|sp|) * Fanout(|rs|) * FpTotal(fp, FpQuantity)
                   - Fanout(|sp|) * Fanout(|fp|) * RetTotal(rs, ReturnQuantity)
    {
      ProductLineClosedForm(t, lines[i].id, t.products[lines[i].id - 1]);
    }
  }

  /**
   * The two dialogs store the same name exactly when the typed name has no
   * surrounding whitespace; a whitespace-only name is stored here and refused
   * under `src/`.
   */
  lemma AsTypedIsStrippedIffUnpadded(typed: string)
    ensures Trim(typed) == typed <==> Unpadded(typed)
    ensures typed != [] && AllSpace(typed) ==> Trim(typed) == [] != typed
  {
    if Unpadded(typed) {
      TrimUnpadded(typed);
    }
  }
}
