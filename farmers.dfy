/**
 * The farmers tab (`src/farmers.py`): the farmer summary, adding a farmer,
 * and the transfer and return dialogs.
 */
module Farmers {
  import opened Wrappers
  import opened Text
  import opened Ledger
  import opened Joins

  datatype FarmerLine = FarmerLine(id: nat, name: string, createdAt: int, totalBought: int)

  /** One group of the farmer summary: `COALESCE(SUM(fp.total_paid), 0)` over the farmer's joined rows. */
  function FarmerLineOf(t: Tables, id: nat, f: NamedRow): (line: FarmerLine)
    ensures line.id == id && line.name == f.name && line.createdAt == f.createdAt
  {
    FarmerLine(id, f.name, f.createdAt, SumColumn(FarmerJoin(t, id), FpTotalPaid))
  }

  /**
   * A farmer's total is what every purchase with the farmer's id paid, from
   * shipments and direct sales alike, each counted once.
   */
  lemma FarmerTotalBought(t: Tables, id: nat, f: NamedRow)
    ensures FarmerLineOf(t, id, f).totalBought == FpTotal(PurchasesOfFarmer(t.farmerPurchases, id), FpTotalPaid)
  {
    FarmerJoinSum(t, id, FpTotalPaid);
  }

  lemma {:induction false} NoPurchasesOfFarmer(rows: seq<FarmerPurchaseRow>, id: nat)
    requires forall k :: 0 <= k < |rows| ==> rows[k].farmerId != id
    ensures PurchasesOfFarmer(rows, id) == []
  {
    if |rows| > 0 {
      NoPurchasesOfFarmer(rows[..|rows| - 1], id);
    }
  }

  /** A farmer who never bought anything is listed with total 0. */
  lemma FarmerWithoutPurchases(t: Tables, id: nat, f: NamedRow)
    requires forall k :: 0 <= k < |t.farmerPurchases| ==> t.farmerPurchases[k].farmerId != id
    ensures FarmerLineOf(t, id, f).totalBought == 0
  {
    NoPurchasesOfFarmer(t.farmerPurchases, id);
    FarmerTotalBought(t, id, f);
  }

  /** A new purchase row adds its `total_paid` to its own farmer's total and to no other. */
  lemma PurchaseRaisesFarmerTotal(t: Tables, id: nat, f: NamedRow, row: FarmerPurchaseRow)
    ensures FarmerLineOf(t.(farmerPurchases := t.farmerPurchases + [row]), id, f).totalBought
         == FarmerLineOf(t, id, f).totalBought + (if row.farmerId == id then row.totalPaid else 0)
  {
    var t' := t.(farmerPurchases := t.farmerPurchases + [row]);
    var rows' := t'.farmerPurchases;
    assert rows'[..|rows'| - 1] == t.farmerPurchases;
    var before := PurchasesOfFarmer(t.farmerPurchases, id);
    assert PurchasesOfFarmer(rows', id) == before + (if row.farmerId == id then [row] else []);
    FarmerTotalBought(t, id, f);
    FarmerTotalBought(t', id, f);
    if row.farmerId == id {
      var after := before + [row];
      assert after[..|after| - 1] == before;
      assert FpTotal(after, FpTotalPaid) == FpTotal(before, FpTotalPaid) + row.totalPaid;
    } else {
      assert before + [] == before;
    }
  }

  /** `load_farmers`: one line per farmer, including farmers with no purchases, ordered by name. */
  function FarmerSummary(t: Tables): (lines: seq<FarmerLine>)
    ensures |lines| == |t.farmers|
  {
    var order := OrderedByName(t.farmers);
    seq(|order|, i requires 0 <= i < |order| => FarmerLineOf(t, order[i].0, order[i].1))
  }

  /** Line `i` of the summary is the group of the `i`-th farmer in name order. */
  lemma FarmerSummaryAt(t: Tables, i: nat)
    requires i < |t.farmers|
    ensures var order := OrderedByName(t.farmers);
      && 1 <= order[i].0 <= |t.farmers| && order[i].1 == t.farmers[order[i].0 - 1]
      && FarmerSummary(t)[i] == FarmerLineOf(t, order[i].0, order[i].1)
  {
  }

  /** Line `i` of the summary describes the farmer whose id it carries. */
  lemma FarmerSummaryLineAt(t: Tables, i: nat)
    requires i < |t.farmers|
    ensures var line := FarmerSummary(t)[i];
      1 <= line.id <= |t.farmers| && line == FarmerLineOf(t, line.id, t.farmers[line.id - 1])
  {
    FarmerSummaryAt(t, i);
    var (id, row) := OrderedByName(t.farmers)[i];
    assert FarmerSummary(t)[i].id == id;
  }

  /** Every line describes the farmer whose id it carries. */
  lemma FarmerSummaryLines(t: Tables)
    ensures var lines := FarmerSummary(t);
      forall i :: 0 <= i < |lines| ==>
        1 <= lines[i].id <= |t.farmers| && lines[i] == FarmerLineOf(t, lines[i].id, t.farmers[lines[i].id - 1])
  {
    forall i | 0 <= i < |t.farmers| {
      FarmerSummaryLineAt(t, i);
    }
  }

  predicate ListsFarmer(lines: seq<FarmerLine>, id: nat) {
    exists i :: 0 <= i < |lines| && lines[i].id == id
  }

  /** Every farmer has a line, and no two lines carry the same id. */
  lemma FarmerSummaryOnePerFarmer(t: Tables)
    ensures var lines := FarmerSummary(t);
      && (forall id :: 1 <= id <= |t.farmers| ==> ListsFarmer(lines, id))
      && (forall i, j :: 0 <= i < j < |lines| ==> lines[i].id != lines[j].id)
  {
    var lines := FarmerSummary(t);
    var order := OrderedByName(t.farmers);
    forall i | 0 <= i < |lines| ensures lines[i].id == order[i].0 {
      FarmerSummaryAt(t, i);
    }
    forall id | 1 <= id <= |t.farmers| ensures ListsFarmer(lines, id) {
      assert id in Ids(order);
      var i :| 0 <= i < |order| && order[i].0 == id;
      assert lines[i].id == id;
    }
  }

  /** `ORDER BY f.name`. */
  lemma FarmerSummaryByName(t: Tables)
    ensures var lines := FarmerSummary(t);
      forall i, j :: 0 <= i < j < |lines| ==> NameLe(lines[i].name, lines[j].name)
  {
    var lines := FarmerSummary(t);
    var order := OrderedByName(t.farmers);
    forall i | 0 <= i < |lines| ensures lines[i].name == order[i].1.name {
      FarmerSummaryAt(t, i);
    }
  }

  /** Neither transfers nor returns change the farmer summary: it reads farmers and purchases only. */
  lemma FarmerSummaryIgnoresTransfersAndReturns(t: Tables, transfers: seq<TransferRow>, returnRows: seq<ReturnRow>)
    ensures FarmerSummary(t.(transfers := transfers, returnRows := returnRows)) == FarmerSummary(t)
  {
    var t' := t.(transfers := transfers, returnRows := returnRows);
    assert forall id :: FarmerJoin(t', id) == FarmerJoin(t, id);
  }

  // ---------------------------------------------------------------------------
  // Writes.

  /**
   * "Add Farmer": the typed name is stripped; an empty result inserts nothing,
   * and a name already taken makes the insert fail and changes nothing.
   */
  method AddFarmer(store: Store, typed: string, now: int) returns (r: NameResult)
    requires store.Valid() && store.clock <= now
    modifies store
    ensures store.Valid()
    ensures r == EmptyName <==> AllSpace(typed)
    ensures r == NameTaken <==> !AllSpace(typed) && HasName(old(store.farmers), Trim(typed))
    ensures r.Added? ==>
      && r.id == |old(store.farmers)| + 1 && store.clock == now
      && store.State() == old(store.State()).(farmers := old(store.farmers) + [NamedRow(Trim(typed), now)])
    ensures !r.Added? ==> store.State() == old(store.State()) && store.clock == old(store.clock)
  {
    var name := Trim(typed);
    if name == [] {
      return EmptyName;
    }
    var id := store.InsertFarmer(name, now);
    if id.None? {
      return NameTaken;
    }
    r := Added(id.value);
  }

  /** "Transfer Products": refused when both farmers are the same, otherwise one `transfers` row. */
  method Transfer(store: Store, fromId: nat, toId: nat, productId: nat, quantity: int, note: string) returns (ok: bool)
    requires store.Valid()
    modifies store
    ensures store.Valid() && store.clock == old(store.clock)
    ensures ok <==> fromId != toId
    ensures ok ==> store.State() == old(store.State()).(
      transfers := old(store.transfers) + [TransferRow(fromId, toId, productId, quantity, note)])
    ensures !ok ==> store.State() == old(store.State())
  {
    if fromId == toId {
      return false;
    }
    store.InsertTransfer(TransferRow(fromId, toId, productId, quantity, note));
    ok := true;
  }

  /** "Record Return": one `returns` row, with no check of its own. */
  method RecordReturn(store: Store, farmerId: nat, productId: nat, quantity: int, refund: int, note: string)
    requires store.Valid()
    modifies store
    ensures store.Valid() && store.clock == old(store.clock)
    ensures store.State() == old(store.State()).(
      returnRows := old(store.returnRows) + [ReturnRow(farmerId, productId, quantity, refund, note)])
  {
    store.InsertReturn(ReturnRow(farmerId, productId, quantity, refund, note));
  }

  /** A name that differs from a stored one only by surrounding whitespace is the same name to "Add Farmer". */
  lemma PaddedNameCollides(rows: seq<NamedRow>, pre: string, name: string, post: string)
    requires AllSpace(pre) && AllSpace(post) && Unpadded(name) && HasName(rows, name)
    ensures HasName(rows, Trim(pre + name + post))
  {
    TrimRemovesPadding(pre, name, post);
  }
}
