/**
 * The inventory service: listings of the ledger, single and bulk quantity
 * updates, and adding an entry. Every mutation is followed by a recompute of
 * the owning product's `stock` from the ledger and by one history record.
 */
module InventoryService {
  import opened Wrappers
  import opened Ledger
  import opened Listing
  import opened Store

  /** An `ApiError`: an HTTP status and a message. */
  datatype ApiError = ApiError(status: nat, message: string)

  const NotFound: nat := 404
  const InternalServerError: nat := 500

  const RecordNotFound: ApiError := ApiError(NotFound, "Inventory record not found")

  /**
   * `updateInventory` populates the entry's product; when that product no longer
   * exists the populated field is null and reading its `_id` throws this TypeError,
   * which the service rethrows as a 500.
   */
  const NullProduct: ApiError := ApiError(InternalServerError, "Cannot read properties of null (reading '_id')")

  // ----- Listings -----

  /**
   * `getAllInventory`. The query sorts on `product.name`, `size`, `color`; the
   * inventory documents hold only the product's id (the name arrives later, by
   * `populate`), so the first key is missing in every document and the order is
   * by size, then color.
   */
  function GetAllInventory(entries: seq<Entry>): (r: seq<Entry>)
    ensures SortedBy(BySizeColor, r)
    ensures multiset(r) == multiset(entries)
  {
    Sort(BySizeColor, entries)
  }

  /** `getProductInventory`: exactly the product's entries, by size, then color. */
  function GetProductInventory(entries: seq<Entry>, p: ProductId): (r: seq<Entry>)
    ensures SortedBy(BySizeColor, r)
    ensures multiset(r) == multiset(EntriesOf(entries, p))
    ensures forall e :: e in r ==> e.product == p && e in entries
    ensures forall e :: e in entries && e.product == p ==> e in r
  {
    var own := EntriesOf(entries, p);
    var r := Sort(BySizeColor, own);
    assert forall e :: e in r <==> e in own by {
      forall e ensures e in r <==> e in own {
        assert e in r <==> e in multiset(r);
        assert e in own <==> e in multiset(own);
      }
    }
    assert forall e :: e in own ==> e in entries by {
      forall e | e in own ensures e in entries {
        assert e in multiset(own);
      }
    }
    r
  }

  /** `Inventory.find({ status: 'low_stock' })`, in collection order. */
  function LowStockEntries(entries: seq<Entry>): (r: seq<Entry>)
    ensures forall i :: 0 <= i < |r| ==> r[i].status == LowStock
    ensures multiset(r) <= multiset(entries)
    ensures forall e :: e in entries && e.status == LowStock ==> e in r
  {
    if entries == [] then []
    else
      var last := entries[|entries| - 1];
      var front := entries[..|entries| - 1];
      assert entries == front + [last];
      LowStockEntries(front) + (if last.status == LowStock then [last] else [])
  }

  /** `getLowStockItems`: exactly the low-stock entries, by non-decreasing quantity. */
  function GetLowStockItems(entries: seq<Entry>): (r: seq<Entry>)
    ensures forall i, j :: 0 <= i < j < |r| ==> r[i].quantity <= r[j].quantity
    ensures multiset(r) == multiset(LowStockEntries(entries))
    ensures forall e :: e in r ==> e.status == LowStock && e in entries
    ensures forall e :: e in entries && e.status == LowStock ==> e in r
  {
    var low := LowStockEntries(entries);
    var r := Sort(ByQuantity, low);
    assert forall i, j :: 0 <= i < j < |r| ==> Before(ByQuantity, r[i], r[j]);
    assert forall e :: e in r <==> e in low by {
      forall e ensures e in r <==> e in low {
        assert e in r <==> e in multiset(r);
        assert e in low <==> e in multiset(low);
      }
    }
    assert forall e :: e in low ==> e in entries by {
      forall e | e in low ensures e in entries {
        assert e in multiset(low);
      }
    }
    r
  }

  // ----- The private helpers -----

  /** `#updateProductStock`: the product's stock becomes the sum of its ledger entries. */
  method UpdateProductStock(db: Database, p: ProductId)
    requires db.Valid()
    modifies db`products
    ensures db.Valid()
    ensures db.products == Recompute(old(db.products), db.entries, p)
  {
    if p in db.products {
      db.products := db.products[p := db.products[p].(stock := StockOf(db.entries, p))];
    }
  }

  /** `#createHistoryRecord`: appends one record. */
  method CreateHistoryRecord(db: Database, record: HistoryRecord)
    requires db.Valid()
    modifies db`history
    ensures db.Valid()
    ensures db.history == old(db.history) + [record]
  {
    db.history := db.history + [record];
  }

  /** The two steps every mutation ends with: the product's stock is recomputed, then the record appended. */
  method SettleProduct(db: Database, p: ProductId, record: HistoryRecord)
    requires db.Valid()
    modifies db`products, db`history
    ensures db.Valid()
    ensures db.products == Recompute(old(db.products), db.entries, p)
    ensures db.history == old(db.history) + [record]
  {
    UpdateProductStock(db, p);
    CreateHistoryRecord(db, record);
  }

  // ----- Mutations -----

  /**
   * `updateInventory(id, quantity, userId)`. An unknown id fails NotFound and
   * changes nothing. Otherwise the quantity is written first; then, provided the
   * entry's product still exists, its stock is recomputed and one `update` record
   * carrying the new absolute quantity is appended.
   */
  method UpdateInventory(db: Database, id: EntryId, quantity: int, user: UserId)
    returns (r: Result<Entry, ApiError>)
    requires db.Valid()
    modifies db`entries, db`products, db`history
    ensures db.Valid()
    ensures Find(old(db.entries), id).None? ==>
      && r == Failure(RecordNotFound)
      && db.entries == old(db.entries) && db.products == old(db.products) && db.history == old(db.history)
    ensures Find(old(db.entries), id).Some? ==> db.entries == SetQuantity(old(db.entries), id, quantity)
    ensures Find(old(db.entries), id).Some? && Find(old(db.entries), id).value.product !in old(db.products) ==>
      r == Failure(NullProduct) && db.products == old(db.products) && db.history == old(db.history)
    ensures Find(old(db.entries), id).Some? && Find(old(db.entries), id).value.product in old(db.products) ==>
      var e := Find(old(db.entries), id).value;
      && r == Success(e.(quantity := quantity))
      && db.products == Recompute(old(db.products), db.entries, e.product)
      && db.history == old(db.history) + [HistoryRecord(e.product, Update, quantity, "Manual update", user)]
    ensures StockInSync(old(db.products), old(db.entries)) ==> StockInSync(db.products, db.entries)
  {
    var k := IndexOf(db.entries, id);
    if k.None? {
      return Failure(RecordNotFound);
    }
    var before := db.entries[k.value];
    assert Find(db.entries, id) == Some(before);
    SetQuantityKeepsKeys(db.entries, id, quantity);
    db.entries := SetQuantity(db.entries, id, quantity);
    var updated := db.entries[k.value];
    assert updated == before.(quantity := quantity);
    if updated.product !in db.products {
      r := Failure(NullProduct);
    } else {
      SettleProduct(db, updated.product, HistoryRecord(updated.product, Update, quantity, "Manual update", user));
      r := Success(updated);
    }
    if StockInSync(old(db.products), old(db.entries)) {
      UpdateKeepsSync(old(db.products), old(db.entries), id, quantity);
    }
  }

  /** The body of an `addInventory` request. */
  datatype EntryData = EntryData(
    product: ProductId,
    size: string,
    color: string,
    quantity: int,
    threshold: int,
    location: string)

  /**
   * `addInventory(data, userId)`: saves a new entry, recomputes its product's
   * stock and appends one `increase` record of the saved quantity.
   */
  method AddInventory(db: Database, data: EntryData, user: UserId) returns (saved: Entry)
    requires db.Valid()
    modifies db`entries, db`products, db`history, db`nextId
    ensures db.Valid()
    ensures saved == NewEntry(old(db.nextId), data.product, data.size, data.color,
                              data.quantity, data.threshold, data.location)
    ensures db.entries == old(db.entries) + [saved]
    ensures db.products == Recompute(old(db.products), db.entries, data.product)
    ensures db.history == old(db.history) + [HistoryRecord(data.product, Increase, data.quantity, "Initial stock", user)]
    ensures db.orders == old(db.orders)
    ensures data.product in db.products ==>
      && db.products[data.product].stock == StockOf(db.entries, data.product)
      && db.products[data.product].stock == StockOf(old(db.entries), data.product) + data.quantity
    ensures StockInSync(old(db.products), old(db.entries)) ==> StockInSync(db.products, db.entries)
  {
    var id := db.NewId();
    saved := NewEntry(id, data.product, data.size, data.color, data.quantity, data.threshold, data.location);
    AppendFresh(db.entries, saved, id);
    StockOfAppend(db.entries, saved, data.product);
    if StockInSync(db.products, db.entries) {
      AddKeepsSync(db.products, db.entries, saved);
    }
    db.entries := db.entries + [saved];
    SettleProduct(db, saved.product, HistoryRecord(saved.product, Increase, saved.quantity, "Initial stock", user));
  }

  /**
   * Overwriting one entry's quantity and recomputing its product's stock keeps
   * every product's stock equal to the sum of its entries. When the product no
   * longer exists the recompute does nothing, and the invariant still holds.
   */
  lemma UpdateKeepsSync(products: map<ProductId, Product>, entries: seq<Entry>, id: EntryId, q: int)
    requires UniqueIds(entries) && StockInSync(products, entries) && Find(entries, id).Some?
    ensures var written := SetQuantity(entries, id, q);
      StockInSync(Recompute(products, written, Find(entries, id).value.product), written)
  {
    var k := IndexOf(entries, id).value;
    forall p { StockOfSetQuantity(entries, k, q, p); }
  }

  /**
   * After a successful `updateInventory` the entry's product holds the sum of
   * its ledger, which is the old sum moved by exactly the change of that entry's
   * quantity.
   */
  lemma UpdatedStock(products: map<ProductId, Product>, entries: seq<Entry>, id: EntryId, q: int)
    requires UniqueIds(entries) && Find(entries, id).Some? && Find(entries, id).value.product in products
    ensures var e := Find(entries, id).value;
      var written := SetQuantity(entries, id, q);
      var after := Recompute(products, written, e.product);
      && after[e.product].stock == StockOf(written, e.product)
      && after[e.product].stock == StockOf(entries, e.product) + (q - e.quantity)
  {
    StockOfSetQuantity(entries, IndexOf(entries, id).value, q, Find(entries, id).value.product);
  }

  /** Saving one more entry and recomputing its product's stock keeps the invariant. */
  lemma AddKeepsSync(products: map<ProductId, Product>, entries: seq<Entry>, e: Entry)
    requires StockInSync(products, entries)
    ensures StockInSync(Recompute(products, entries + [e], e.product), entries + [e])
  {
    forall p { StockOfAppend(entries, e, p); }
  }

  /** One element of a bulk update request. */
  datatype BulkItem = BulkItem(id: EntryId, quantity: int)

  /** The ledger after the items' quantities are written in order; unknown ids change nothing. */
  function BulkEntries(entries: seq<Entry>, items: seq<BulkItem>): seq<Entry> {
    if items == [] then entries
    else
      var last := items[|items| - 1];
      SetQuantity(BulkEntries(entries, items[..|items| - 1]), last.id, last.quantity)
  }

  /** The history a bulk update appends: one `Bulk update` record per item whose id exists. */
  function BulkHistory(entries: seq<Entry>, items: seq<BulkItem>, user: UserId): seq<HistoryRecord> {
    if items == [] then []
    else
      var last := items[|items| - 1];
      BulkHistory(entries, items[..|items| - 1], user) + StepRecords(entries, last, user)
  }

  /** The record for one item: none for an unknown id. */
  function StepRecords(entries: seq<Entry>, item: BulkItem, user: UserId): seq<HistoryRecord> {
    match Find(entries, item.id)
    case None => []
    case Some(e) => [HistoryRecord(e.product, Update, item.quantity, "Bulk update", user)]
  }

  /**
   * A bulk update appends at most one record per item, each an `Update` by the
   * caller with reason `Bulk update`: one per item when every id exists, none
   * when no id does.
   */
  lemma {:induction false} BulkHistoryShape(entries: seq<Entry>, items: seq<BulkItem>, user: UserId)
    ensures var r := BulkHistory(entries, items, user);
      && |r| <= |items|
      && (forall i :: 0 <= i < |r| ==> r[i].kind == Update && r[i].reason == "Bulk update" && r[i].user == user)
      && ((forall i :: 0 <= i < |items| ==> Find(entries, items[i].id).Some?) ==> |r| == |items|)
      && ((forall i :: 0 <= i < |items| ==> Find(entries, items[i].id).None?) ==> r == [])
  {
    if items != [] {
      var front := items[..|items| - 1];
      BulkHistoryShape(entries, front, user);
      assert forall i :: 0 <= i < |front| ==> front[i] == items[i];
    }
  }

  /** Some item of the batch names an existing entry of product `p`. */
  predicate Touched(entries: seq<Entry>, items: seq<BulkItem>, p: ProductId) {
    items != [] &&
    (Touched(entries, items[..|items| - 1], p)
     || (Find(entries, items[|items| - 1].id).Some? && Find(entries, items[|items| - 1].id).value.product == p))
  }

  /** The writes of a bulk update change no id, product, size or color. */
  lemma {:induction false} BulkKeepsKeys(entries: seq<Entry>, items: seq<BulkItem>)
    ensures |BulkEntries(entries, items)| == |entries|
    ensures forall i :: 0 <= i < |entries| ==>
      var e := BulkEntries(entries, items)[i];
      e.id == entries[i].id && e.product == entries[i].product
    ensures forall id :: IndexOf(BulkEntries(entries, items), id) == IndexOf(entries, id)
  {
    if items != [] {
      var front := items[..|items| - 1];
      var last := items[|items| - 1];
      BulkKeepsKeys(entries, front);
      var mid := BulkEntries(entries, front);
      SetQuantityKeepsKeys(mid, last.id, last.quantity);
      forall id ensures IndexOf(BulkEntries(entries, items), id) == IndexOf(entries, id) {
        SameKeysSameIndex(BulkEntries(entries, items), entries, id);
      }
    }
  }

  /** Two ledgers with the same ids position by position locate every id at the same place. */
  lemma {:induction false} SameKeysSameIndex(a: seq<Entry>, b: seq<Entry>, id: EntryId)
    requires |a| == |b| && forall i :: 0 <= i < |a| ==> a[i].id == b[i].id
    ensures IndexOf(a, id) == IndexOf(b, id)
  {
    if a != [] {
      SameKeysSameIndex(a[1..], b[1..], id);
    }
  }

  /** The products after a bulk update: each item whose id exists recomputes its owner's stock. */
  function BulkProducts(products: map<ProductId, Product>, entries: seq<Entry>, items: seq<BulkItem>)
    : map<ProductId, Product>
  {
    if items == [] then products
    else
      StepProducts(BulkProducts(products, entries, items[..|items| - 1]), entries,
                   BulkEntries(entries, items), items[|items| - 1])
  }

  /** The recompute for one item, against the ledger after its write: none for an unknown id. */
  function StepProducts(products: map<ProductId, Product>, entries: seq<Entry>, written: seq<Entry>, item: BulkItem)
    : map<ProductId, Product>
  {
    match Find(entries, item.id)
    case None => products
    case Some(e) => Recompute(products, written, e.product)
  }

  /** One more item: the write, the records and the recompute of that item follow the earlier ones. */
  lemma BulkStep(products: map<ProductId, Product>, entries: seq<Entry>, items: seq<BulkItem>, i: nat, user: UserId)
    requires i < |items|
    ensures BulkEntries(entries, items[..i + 1])
         == SetQuantity(BulkEntries(entries, items[..i]), items[i].id, items[i].quantity)
    ensures BulkHistory(entries, items[..i + 1], user)
         == BulkHistory(entries, items[..i], user) + StepRecords(entries, items[i], user)
    ensures BulkProducts(products, entries, items[..i + 1])
         == StepProducts(BulkProducts(products, entries, items[..i]), entries,
                         BulkEntries(entries, items[..i + 1]), items[i])
  {
    assert items[..i + 1][..i] == items[..i];
  }

  /** Within a batch, overwriting an entry of one product leaves every other product's stock alone. */
  lemma BulkStepOther(entries: seq<Entry>, items: seq<BulkItem>, p: ProductId)
    requires UniqueIds(entries) && items != []
    requires Find(entries, items[|items| - 1].id).Some? ==> Find(entries, items[|items| - 1].id).value.product != p
    ensures StockOf(BulkEntries(entries, items), p) == StockOf(BulkEntries(entries, items[..|items| - 1]), p)
  {
    var front := items[..|items| - 1];
    var last := items[|items| - 1];
    var mid := BulkEntries(entries, front);
    BulkKeepsKeys(entries, front);
    forall j | 0 <= j < |mid| && mid[j].id == last.id
      ensures mid[j].product != p
    {
      var k := IndexOf(entries, last.id);
      assert k.Some?;
      assert entries[j].id == last.id;
      assert j == k.value;
    }
    StockOfSetQuantityOther(mid, last.id, last.quantity, p);
  }

  /**
   * After a bulk update, a product that some item touched holds the sum of its
   * ledger entries; every other product is exactly as before.
   */
  lemma {:induction false} BulkProductsSpec(products: map<ProductId, Product>, entries: seq<Entry>, items: seq<BulkItem>)
    requires UniqueIds(entries)
    ensures BulkProducts(products, entries, items).Keys == products.Keys
    ensures forall p :: p in products ==>
      BulkProducts(products, entries, items)[p]
        == if Touched(entries, items, p)
           then products[p].(stock := StockOf(BulkEntries(entries, items), p))
           else products[p]
  {
    if items != [] {
      var front := items[..|items| - 1];
      var last := items[|items| - 1];
      BulkProductsSpec(products, entries, front);
      forall p | p in products
        ensures BulkProducts(products, entries, items)[p]
          == if Touched(entries, items, p)
             then products[p].(stock := StockOf(BulkEntries(entries, items), p))
             else products[p]
      {
        var f := Find(entries, last.id);
        if f.None? || f.value.product != p {
          BulkStepOther(entries, items, p);
        }
      }
    }
  }

  /** A product no item of the batch touched keeps its stock sum in the ledger. */
  lemma {:induction false} UntouchedStock(entries: seq<Entry>, items: seq<BulkItem>, p: ProductId)
    requires UniqueIds(entries) && !Touched(entries, items, p)
    ensures StockOf(BulkEntries(entries, items), p) == StockOf(entries, p)
  {
    if items != [] {
      UntouchedStock(entries, items[..|items| - 1], p);
      BulkStepOther(entries, items, p);
    }
  }

  /** A bulk update keeps every product's stock equal to the sum of its ledger entries. */
  lemma BulkKeepsSync(products: map<ProductId, Product>, entries: seq<Entry>, items: seq<BulkItem>)
    requires UniqueIds(entries) && StockInSync(products, entries)
    ensures StockInSync(BulkProducts(products, entries, items), BulkEntries(entries, items))
  {
    BulkProductsSpec(products, entries, items);
    forall p | p in products && !Touched(entries, items, p) {
      UntouchedStock(entries, items, p);
    }
  }

  /** Which entry an item names, and that entry's product, are the same before and after earlier writes. */
  lemma StepAgrees(entries: seq<Entry>, done: seq<BulkItem>, item: BulkItem, user: UserId)
    ensures StepRecords(BulkEntries(entries, done), item, user) == StepRecords(entries, item, user)
    ensures forall products, written ::
      StepProducts(products, BulkEntries(entries, done), written, item) == StepProducts(products, entries, written, item)
  {
    BulkKeepsKeys(entries, done);
  }

  /**
   * The work for one item of a bulk update: write its quantity; if its id exists,
   * recompute the owner's stock and append one `Bulk update` record.
   */
  method UpdateBulkItem(db: Database, item: BulkItem, user: UserId)
    requires db.Valid()
    modifies db`entries, db`products, db`history
    ensures db.Valid()
    ensures db.entries == SetQuantity(old(db.entries), item.id, item.quantity)
    ensures db.history == old(db.history) + StepRecords(old(db.entries), item, user)
    ensures db.products == StepProducts(old(db.products), old(db.entries), db.entries, item)
  {
    var k := IndexOf(db.entries, item.id);
    SetQuantityKeepsKeys(db.entries, item.id, item.quantity);
    if k.None? {
      assert SetQuantity(db.entries, item.id, item.quantity) == db.entries;
      return;
    }
    var owner := db.entries[k.value].product;
    db.entries := SetQuantity(db.entries, item.id, item.quantity);
    SettleProduct(db, owner, HistoryRecord(owner, Update, item.quantity, "Bulk update", user));
  }

  /**
   * Appending records associates. Stated apart so that the bulk loop gets this
   * one instance and does not have to find it in its own, much larger context.
   */
  lemma Associate(a: seq<HistoryRecord>, b: seq<HistoryRecord>, c: seq<HistoryRecord>)
    ensures (a + b) + c == a + (b + c)
  {
  }

  /**
   * `bulkUpdateInventory(items, userId)`, with the concurrent per-item updates
   * taken in order. Each item whose id exists gets its quantity written, then its
   * product's stock recomputed, then one `Bulk update` record; an unknown id is
   * skipped. Afterwards every product some item touched holds the sum of its
   * ledger, and every other product is unchanged.
   */
  method BulkUpdateInventory(db: Database, items: seq<BulkItem>, user: UserId)
    requires db.Valid()
    modifies db`entries, db`products, db`history
    ensures db.Valid()
    ensures db.entries == BulkEntries(old(db.entries), items)
    ensures db.history == old(db.history) + BulkHistory(old(db.entries), items, user)
    ensures db.products == BulkProducts(old(db.products), old(db.entries), items)
    ensures db.products.Keys == old(db.products).Keys
    ensures forall p :: p in db.products ==>
      db.products[p] == if Touched(old(db.entries), items, p)
                        then old(db.products)[p].(stock := StockOf(db.entries, p))
                        else old(db.products)[p]
    ensures StockInSync(old(db.products), old(db.entries)) ==> StockInSync(db.products, db.entries)
  {
    if StockInSync(db.products, db.entries) {
      BulkKeepsSync(db.products, db.entries, items);
    }
    var i := 0;
    while i < |items|
      invariant 0 <= i <= |items|
      invariant db.Valid()
      invariant db.entries == BulkEntries(old(db.entries), items[..i])
      invariant db.history == old(db.history) + BulkHistory(old(db.entries), items[..i], user)
      invariant db.products == BulkProducts(old(db.products), old(db.entries), items[..i])
    {
      BulkStep(old(db.products), old(db.entries), items, i, user);
      StepAgrees(old(db.entries), items[..i], items[i], user);
      UpdateBulkItem(db, items[i], user);
      Associate(old(db.history), BulkHistory(old(db.entries), items[..i], user),
                StepRecords(old(db.entries), items[i], user));
      i := i + 1;
    }
    assert items[..i] == items;
    BulkProductsSpec(old(db.products), old(db.entries), items);
  }
}
