/**
 * The documents of the three stock collections (products, inventory entries and
 * inventory history) and the pure operations on them that the services and
 * controllers perform through the database: find an entry by id, overwrite its
 * quantity, list a product's entries, sum them, and delete them.
 *
 * The inventory collection is a sequence in insertion order whose entries have
 * distinct ids; products are kept in a map keyed by id (see Store).
 */
module Ledger {
  import opened Wrappers

  type ProductId = nat
  type EntryId = nat
  /** The authenticated actor supplied by the admin middleware; opaque here. */
  type UserId = string

  /** The fields of a product document that the modelled code reads or writes. */
  datatype Product = Product(
    name: string,
    description: string,
    category: string,
    price: int,
    stock: int,
    images: seq<string>,
    isFeatured: bool,
    order: nat)

  datatype StockStatus = InStock | LowStock

  /** One inventory document: the stock of one (product, size, color) variant. */
  datatype Entry = Entry(
    id: EntryId,
    product: ProductId,
    size: string,
    color: string,
    quantity: int,
    threshold: int,
    location: string,
    status: StockStatus)

  datatype HistoryKind = Increase | Decrease | Update

  /** One inventory-history document. */
  datatype HistoryRecord = HistoryRecord(
    product: ProductId,
    kind: HistoryKind,
    quantity: int,
    reason: string,
    user: UserId)

  /** The status a newly saved entry receives: low stock at or below its threshold. */
  function DerivedStatus(quantity: int, threshold: int): StockStatus {
    if quantity <= threshold then LowStock else InStock
  }

  /** A document built by `new Inventory({...}).save()`. */
  function NewEntry(id: EntryId, product: ProductId, size: string, color: string,
                    quantity: int, threshold: int, location: string): Entry
  {
    Entry(id, product, size, color, quantity, threshold, location, DerivedStatus(quantity, threshold))
  }

  ghost predicate UniqueIds(entries: seq<Entry>) {
    forall i, j :: 0 <= i < j < |entries| ==> entries[i].id != entries[j].id
  }

  /** The position of the entry with the given id, as `findById` locates it. */
  function IndexOf(entries: seq<Entry>, id: EntryId): (r: Option<nat>)
    ensures r.Some? ==> r.value < |entries| && entries[r.value].id == id
    ensures r.Some? ==> forall j :: 0 <= j < r.value ==> entries[j].id != id
    ensures r.None? ==> forall j :: 0 <= j < |entries| ==> entries[j].id != id
  {
    if entries == [] then None
    else if entries[0].id == id then Some(0)
    else match IndexOf(entries[1..], id)
      case None => None
      case Some(k) => Some(k + 1)
  }

  /** The entry with the given id, if there is one. */
  function Find(entries: seq<Entry>, id: EntryId): Option<Entry> {
    match IndexOf(entries, id)
    case None => None
    case Some(i) => Some(entries[i])
  }

  /** `findByIdAndUpdate(id, { quantity })`: the entry with that id gets the new quantity. */
  function SetQuantity(entries: seq<Entry>, id: EntryId, quantity: int): (r: seq<Entry>)
    ensures |r| == |entries|
    ensures forall i :: 0 <= i < |r| ==>
      r[i] == if entries[i].id == id then entries[i].(quantity := quantity) else entries[i]
  {
    if entries == [] then []
    else
      var last := entries[|entries| - 1];
      SetQuantity(entries[..|entries| - 1], id, quantity)
        + [if last.id == id then last.(quantity := quantity) else last]
  }

  /** The sum of the quantities of a product's entries: the reduce in `#updateProductStock`. */
  function StockOf(entries: seq<Entry>, p: ProductId): int {
    if entries == [] then 0
    else
      var last := entries[|entries| - 1];
      StockOf(entries[..|entries| - 1], p) + (if last.product == p then last.quantity else 0)
  }

  /** `Inventory.find({ product })`, in collection order. */
  function EntriesOf(entries: seq<Entry>, p: ProductId): (r: seq<Entry>)
    ensures forall i :: 0 <= i < |r| ==> r[i].product == p
    ensures multiset(r) <= multiset(entries)
    ensures forall e :: e in entries && e.product == p ==> e in r
  {
    if entries == [] then []
    else
      var last := entries[|entries| - 1];
      var front := entries[..|entries| - 1];
      assert entries == front + [last];
      EntriesOf(front, p) + (if last.product == p then [last] else [])
  }

  /** The sum of the quantities of a list of entries. */
  function Total(items: seq<Entry>): int {
    if items == [] then 0 else Total(items[..|items| - 1]) + items[|items| - 1].quantity
  }

  /** The stock sum is the total of the entries `find({ product })` returns. */
  lemma {:induction false} StockIsTotalOfEntries(entries: seq<Entry>, p: ProductId)
    ensures StockOf(entries, p) == Total(EntriesOf(entries, p))
  {
    if entries != [] {
      var front := entries[..|entries| - 1];
      var last := entries[|entries| - 1];
      StockIsTotalOfEntries(front, p);
      EntriesOfLast(entries, p);
      if last.product == p {
        TotalAppend(EntriesOf(front, p), last);
      }
    }
  }

  lemma EntriesOfLast(entries: seq<Entry>, p: ProductId)
    requires entries != []
    ensures var last := entries[|entries| - 1];
      EntriesOf(entries, p)
        == if last.product == p then EntriesOf(entries[..|entries| - 1], p) + [last]
           else EntriesOf(entries[..|entries| - 1], p)
  {
    var r := EntriesOf(entries[..|entries| - 1], p);
    assert r + [] == r;
  }

  lemma TotalAppend(items: seq<Entry>, e: Entry)
    ensures Total(items + [e]) == Total(items) + e.quantity
  {
    assert (items + [e])[..|items|] == items;
  }

  /** Appending an entry adds its quantity to its own product's stock and to no other. */
  lemma StockOfAppend(entries: seq<Entry>, e: Entry, p: ProductId)
    ensures StockOf(entries + [e], p) == StockOf(entries, p) + (if e.product == p then e.quantity else 0)
  {
    assert (entries + [e])[..|entries|] == entries;
  }

  /** The stock of a concatenation is the sum of the stocks of its parts. */
  lemma {:induction false} StockOfConcat(a: seq<Entry>, b: seq<Entry>, p: ProductId)
    ensures StockOf(a + b, p) == StockOf(a, p) + StockOf(b, p)
  {
    if b == [] {
      assert a + b == a;
    } else {
      var front := b[..|b| - 1];
      var last := b[|b| - 1];
      assert a + b == (a + front) + [last];
      assert b == front + [last];
      StockOfAppend(a + front, last, p);
      StockOfAppend(front, last, p);
      StockOfConcat(a, front, p);
    }
  }

  /** Overwriting the quantity of an entry of another product leaves a product's stock alone. */
  lemma {:induction false} StockOfSetQuantityOther(entries: seq<Entry>, id: EntryId, q: int, p: ProductId)
    requires forall i :: 0 <= i < |entries| && entries[i].id == id ==> entries[i].product != p
    ensures StockOf(SetQuantity(entries, id, q), p) == StockOf(entries, p)
  {
    if entries != [] {
      var front := entries[..|entries| - 1];
      StockOfSetQuantityOther(front, id, q, p);
      var r := SetQuantity(entries, id, q);
      assert r[..|r| - 1] == SetQuantity(front, id, q);
    }
  }

  /**
   * Overwriting the quantity of the (unique) entry with a given id changes its
   * product's stock by the difference between the new and the old quantity.
   */
  lemma {:induction false} StockOfSetQuantity(entries: seq<Entry>, k: nat, q: int, p: ProductId)
    requires UniqueIds(entries) && k < |entries|
    ensures StockOf(SetQuantity(entries, entries[k].id, q), p)
         == StockOf(entries, p) + (if entries[k].product == p then q - entries[k].quantity else 0)
  {
    var id := entries[k].id;
    var front := entries[..|entries| - 1];
    var r := SetQuantity(entries, id, q);
    assert r[..|r| - 1] == SetQuantity(front, id, q);
    if k == |entries| - 1 {
      StockOfSetQuantityOther(front, id, q, p);
    } else {
      StockOfSetQuantity(front, k, q, p);
    }
  }

  /** Overwriting a quantity changes no id, product, size or color. */
  lemma SetQuantityKeepsKeys(entries: seq<Entry>, id: EntryId, q: int)
    ensures forall i :: 0 <= i < |entries| ==>
      var e := SetQuantity(entries, id, q)[i];
      e.id == entries[i].id && e.product == entries[i].product
      && e.size == entries[i].size && e.color == entries[i].color
    ensures IndexOf(SetQuantity(entries, id, q), id) == IndexOf(entries, id)
  {
    var r := SetQuantity(entries, id, q);
    var a, b := IndexOf(r, id), IndexOf(entries, id);
    if a.Some? {
      assert b.Some? && b.value <= a.value;
    }
    if b.Some? {
      assert a.Some? && a.value <= b.value;
    }
  }

  /** `Inventory.deleteMany({ product })`. */
  function RemoveProduct(entries: seq<Entry>, p: ProductId): (r: seq<Entry>)
    ensures forall i :: 0 <= i < |r| ==> r[i].product != p
    ensures forall q :: StockOf(r, q) == if q == p then 0 else StockOf(entries, q)
    ensures forall q :: q != p ==> EntriesOf(r, q) == EntriesOf(entries, q)
  {
    if entries == [] then []
    else
      var last := entries[|entries| - 1];
      var front := entries[..|entries| - 1];
      var r := RemoveProduct(front, p);
      if last.product == p then r
      else
        assert (r + [last])[..|r|] == r;
        r + [last]
  }

  /** `Product.findByIdAndUpdate(p, { stock: sum })`: a no-op when the product does not exist. */
  function Recompute(products: map<ProductId, Product>, entries: seq<Entry>, p: ProductId)
    : (r: map<ProductId, Product>)
    ensures r.Keys == products.Keys
    ensures p in r ==> r[p] == products[p].(stock := StockOf(entries, p))
    ensures forall q :: q in r && q != p ==> r[q] == products[q]
  {
    if p in products then products[p := products[p].(stock := StockOf(entries, p))] else products
  }

  /** The invariant the stock aggregator maintains: every product's stock is the sum of its ledger entries. */
  ghost predicate StockInSync(products: map<ProductId, Product>, entries: seq<Entry>) {
    forall p :: p in products ==> products[p].stock == StockOf(entries, p)
  }

  /** Recomputing twice with no ledger change in between gives the same products as once. */
  lemma RecomputeIdempotent(products: map<ProductId, Product>, entries: seq<Entry>, p: ProductId)
    ensures Recompute(Recompute(products, entries, p), entries, p) == Recompute(products, entries, p)
  {
  }
}
