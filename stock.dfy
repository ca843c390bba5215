/**
 * `xsItemDataExists`: the current stock of every item, as the sum of its ledger debits
 * minus the sum of its ledger credits, with 0 for an item that has no ledger entries.
 */
module Stock {
  import opened Wrappers
  import opened Folds
  import opened Records

  /** One document of the `ItemTrack.aggregate` result: an item and the sums over its entries. */
  datatype TrackGroup = TrackGroup(itemId: ObjectId, totalCredit: real, totalDebit: real)

  /** An item with the `currentStock` field the enrichment adds. */
  datatype StockedItem = StockedItem(item: Item, currentStock: real)

  /** `$sum` treats a missing or non-numeric quantity as contributing nothing. */
  function Credit(e: StockMovement): real {
    e.creditQuantity.GetOr(0.0)
  }

  function Debit(e: StockMovement): real {
    e.debitQuantity.GetOr(0.0)
  }

  /** The test an entry of item `id` passes. */
  function OfItem(id: ObjectId): StockMovement -> bool {
    (e: StockMovement) => e.itemId == id
  }

  /** The `$match` stage: entries of one of the given items. */
  function OfItems(ids: set<ObjectId>): StockMovement -> bool {
    (e: StockMovement) => e.itemId in ids
  }

  /** The ledger entries of one item. */
  function EntriesOf(ledger: seq<StockMovement>, id: ObjectId): seq<StockMovement> {
    Filter(ledger, OfItem(id))
  }

  /** Debits minus credits over all of an item's entries, whatever their dates and order. */
  function Balance(ledger: seq<StockMovement>, id: ObjectId): real {
    Sum(EntriesOf(ledger, id), Debit) - Sum(EntriesOf(ledger, id), Credit)
  }

  function IdsOf(s: seq<StockMovement>): set<ObjectId> {
    set i | 0 <= i < |s| :: s[i].itemId
  }

  /** The item ids of a sequence of entries, each once, in order of first appearance. */
  function DistinctIds(s: seq<StockMovement>): (r: seq<ObjectId>)
    ensures forall i, j :: 0 <= i < j < |r| ==> r[i] != r[j]
    ensures forall k :: k in r <==> k in IdsOf(s)
  {
    if s == [] then []
    else
      var rest := DistinctIds(s[..|s| - 1]);
      assert IdsOf(s) == IdsOf(s[..|s| - 1]) + {s[|s| - 1].itemId};
      if s[|s| - 1].itemId in rest then rest else rest + [s[|s| - 1].itemId]
  }

  /**
   * The `$match`/`$group` pipeline: one group per item of `itemIds` that has entries, with
   * the sums of its credits and debits. The database leaves the order of the groups open;
   * here they come in order of first appearance.
   */
  function TrackGroups(ledger: seq<StockMovement>, itemIds: set<ObjectId>): (r: seq<TrackGroup>)
    ensures forall i, j :: 0 <= i < j < |r| ==> r[i].itemId != r[j].itemId
  {
    var ids := DistinctIds(Filter(ledger, OfItems(itemIds)));
    seq(|ids|, i requires 0 <= i < |ids| =>
      TrackGroup(ids[i], Sum(EntriesOf(ledger, ids[i]), Credit), Sum(EntriesOf(ledger, ids[i]), Debit)))
  }

  /** The `itemTrackMap` that the `reduce` builds: each group's id mapped to debit minus credit. */
  function StockMap(groups: seq<TrackGroup>): map<ObjectId, real> {
    if groups == [] then map[]
    else
      var g := groups[|groups| - 1];
      StockMap(groups[..|groups| - 1])[g.itemId := g.totalDebit - g.totalCredit]
  }

  /** The `reduce` over the aggregation result that fills `itemTrackMap`. */
  method BuildStockMap(groups: seq<TrackGroup>) returns (stock: map<ObjectId, real>)
    ensures stock == StockMap(groups)
  {
    stock := map[];
    var i := 0;
    while i < |groups|
      invariant 0 <= i <= |groups|
      invariant stock == StockMap(groups[..i])
    {
      var g := groups[i];
      assert groups[..i + 1][..i] == groups[..i];
      stock := stock[g.itemId := g.totalDebit - g.totalCredit];
      i := i + 1;
    }
    assert groups[..i] == groups;
  }

  /** The map's keys are the groups' ids. */
  lemma {:induction false} StockMapKeys(groups: seq<TrackGroup>, k: ObjectId)
    ensures k in StockMap(groups) <==> exists i :: 0 <= i < |groups| && groups[i].itemId == k
  {
    if groups != [] {
      var n := |groups| - 1;
      var init := groups[..n];
      StockMapKeys(init, k);
      if k in StockMap(init) {
        var i :| 0 <= i < |init| && init[i].itemId == k;
        assert groups[i].itemId == k;
      }
      if k != groups[n].itemId && exists i :: 0 <= i < |groups| && groups[i].itemId == k {
        var i :| 0 <= i < |groups| && groups[i].itemId == k;
        assert init[i].itemId == k;
      }
    }
  }

  /** With distinct ids, each group's id maps to its own debit minus credit. */
  lemma {:induction false} StockMapValue(groups: seq<TrackGroup>, i: int)
    requires forall i, j :: 0 <= i < j < |groups| ==> groups[i].itemId != groups[j].itemId
    requires 0 <= i < |groups|
    ensures groups[i].itemId in StockMap(groups)
    ensures StockMap(groups)[groups[i].itemId] == groups[i].totalDebit - groups[i].totalCredit
  {
    var n := |groups| - 1;
    if i < n {
      var init := groups[..n];
      assert init[i] == groups[i];
      assert groups[i].itemId != groups[n].itemId;
      StockMapValue(init, i);
    }
  }

  /** `newItems.map(...)`: each item with the stock the map gives it, or 0 when the map has none. */
  function Enrich(items: seq<Item>, stock: map<ObjectId, real>): (r: seq<StockedItem>)
    ensures |r| == |items|
    ensures forall i :: 0 <= i < |r| ==> r[i].item == items[i]
  {
    seq(|items|, i requires 0 <= i < |items| =>
      StockedItem(items[i], if items[i].id in stock then stock[items[i].id] else 0.0))
  }

  function ItemIds(items: seq<Item>): set<ObjectId> {
    set i | 0 <= i < |items| :: items[i].id
  }

  /** What `xsItemDataExists` returns for the organization's items and stock ledger. */
  function StockedItems(items: seq<Item>, ledger: seq<StockMovement>): seq<StockedItem> {
    Enrich(items, StockMap(TrackGroups(ledger, ItemIds(items))))
  }

  /** `xsItemDataExists` once its two queries have returned `items` and the ledger. */
  method ItemsWithStock(items: seq<Item>, ledger: seq<StockMovement>) returns (enriched: seq<StockedItem>)
    ensures enriched == StockedItems(items, ledger)
  {
    var groups := TrackGroups(ledger, ItemIds(items));
    var stock := BuildStockMap(groups);
    enriched := Enrich(items, stock);
  }

  /** An item of the `$match` set gets a group exactly when it has ledger entries. */
  lemma MatchedWhenEntries(ledger: seq<StockMovement>, itemIds: set<ObjectId>, id: ObjectId)
    requires id in itemIds
    ensures id in IdsOf(Filter(ledger, OfItems(itemIds))) <==> EntriesOf(ledger, id) != []
  {
    var matched := Filter(ledger, OfItems(itemIds));
    if id in IdsOf(matched) {
      var m :| 0 <= m < |matched| && matched[m].itemId == id;
      var k :| 0 <= k < |ledger| && ledger[k] == matched[m];
      assert ledger[k] in EntriesOf(ledger, id);
    } else {
      FilterAllOrNone(ledger, OfItem(id));
    }
  }

  /** Each group carries its item's balance. */
  lemma TrackGroupBalance(ledger: seq<StockMovement>, itemIds: set<ObjectId>, j: int)
    requires 0 <= j < |TrackGroups(ledger, itemIds)|
    ensures TrackGroups(ledger, itemIds)[j].totalDebit - TrackGroups(ledger, itemIds)[j].totalCredit
            == Balance(ledger, TrackGroups(ledger, itemIds)[j].itemId)
  {
  }

  /** An item has a group exactly when some matched entry belongs to it. */
  lemma TrackGroupIds(ledger: seq<StockMovement>, itemIds: set<ObjectId>, id: ObjectId)
    ensures (exists j :: 0 <= j < |TrackGroups(ledger, itemIds)| && TrackGroups(ledger, itemIds)[j].itemId == id)
            <==> id in IdsOf(Filter(ledger, OfItems(itemIds)))
  {
    var ids := DistinctIds(Filter(ledger, OfItems(itemIds)));
    var groups := TrackGroups(ledger, itemIds);
    if id in ids {
      var j :| 0 <= j < |ids| && ids[j] == id;
      assert groups[j].itemId == id;
    }
  }

  /** The stock map holds an item exactly when it has ledger entries, and then holds its balance. */
  lemma StockMapOfLedger(ledger: seq<StockMovement>, itemIds: set<ObjectId>, id: ObjectId)
    requires id in itemIds
    ensures id in StockMap(TrackGroups(ledger, itemIds)) <==> EntriesOf(ledger, id) != []
    ensures id in StockMap(TrackGroups(ledger, itemIds))
            ==> StockMap(TrackGroups(ledger, itemIds))[id] == Balance(ledger, id)
  {
    StockMapHasItem(ledger, itemIds, id);
    if id in StockMap(TrackGroups(ledger, itemIds)) {
      StockMapHoldsBalance(ledger, itemIds, id);
    }
  }

  lemma StockMapHasItem(ledger: seq<StockMovement>, itemIds: set<ObjectId>, id: ObjectId)
    requires id in itemIds
    ensures id in StockMap(TrackGroups(ledger, itemIds)) <==> EntriesOf(ledger, id) != []
  {
    StockMapKeys(TrackGroups(ledger, itemIds), id);
    TrackGroupIds(ledger, itemIds, id);
    MatchedWhenEntries(ledger, itemIds, id);
  }

  lemma StockMapHoldsBalance(ledger: seq<StockMovement>, itemIds: set<ObjectId>, id: ObjectId)
    requires id in StockMap(TrackGroups(ledger, itemIds))
    ensures StockMap(TrackGroups(ledger, itemIds))[id] == Balance(ledger, id)
  {
    var groups := TrackGroups(ledger, itemIds);
    StockMapKeys(groups, id);
    var j :| 0 <= j < |groups| && groups[j].itemId == id;
    StockMapValue(groups, j);
    TrackGroupBalance(ledger, itemIds, j);
  }

  /**
   * Every item's current stock is debits minus credits over all of its ledger entries. It
   * is 0 when the item has no entries, and nothing clamps it at 0.
   */
  lemma CurrentStockIsBalance(items: seq<Item>, ledger: seq<StockMovement>, i: int)
    requires 0 <= i < |items|
    ensures |StockedItems(items, ledger)| == |items|
    ensures StockedItems(items, ledger)[i].currentStock == Balance(ledger, items[i].id)
    ensures EntriesOf(ledger, items[i].id) == [] ==> StockedItems(items, ledger)[i].currentStock == 0.0
  {
    assert items[i].id in ItemIds(items);
    StockMapOfLedger(ledger, ItemIds(items), items[i].id);
  }

  /** Reordering the ledger changes no item's current stock: the balance is a sum. */
  lemma StockOrderIndependent(items: seq<Item>, l1: seq<StockMovement>, l2: seq<StockMovement>, i: int)
    requires 0 <= i < |items|
    requires multiset(l1) == multiset(l2)
    ensures |StockedItems(items, l1)| == |StockedItems(items, l2)| == |items|
    ensures StockedItems(items, l1)[i].currentStock == StockedItems(items, l2)[i].currentStock
  {
    var mine := OfItem(items[i].id);
    CurrentStockIsBalance(items, l1, i);
    CurrentStockIsBalance(items, l2, i);
    SumFilter(l1, mine, Debit);
    SumFilter(l2, mine, Debit);
    SumFilter(l1, mine, Credit);
    SumFilter(l2, mine, Credit);
    SumPermutation(l1, l2, Masked(mine, Debit));
    SumPermutation(l1, l2, Masked(mine, Credit));
  }

  /** `item.createdDateTime`, the instant the window filter looks at. */
  function StockedTime(x: StockedItem): int {
    x.item.createdAt
  }

  /** `(parseFloat(item.currentStock) || 0) * (parseFloat(item.costPrice) || 0)`. */
  function ValueAt(stock: real, costPrice: Option<real>): real {
    stock * costPrice.GetOr(0.0)
  }

  function StockValue(x: StockedItem): real {
    ValueAt(x.currentStock, x.item.costPrice)
  }
}
