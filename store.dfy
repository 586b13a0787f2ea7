/**
 * The document database, with the collections the modelled services and
 * controllers read and write. Every document id (an ObjectId in the database)
 * is drawn from one counter, so a freshly allocated id is never in use.
 */
module Store {
  import opened Ledger
  import opened OrderModel

  class Database {
    var products: map<ProductId, Product>
    var entries: seq<Entry>
    var history: seq<HistoryRecord>
    var orders: map<OrderId, Order>
    var nextId: nat

    /** Ids are distinct and below the counter; order numbers are unique. */
    ghost predicate Valid()
      reads this
    {
      && UniqueIds(entries)
      && (forall i :: 0 <= i < |entries| ==> entries[i].id < nextId)
      && (forall p :: p in products ==> p < nextId)
      && (forall o :: o in orders ==> o < nextId)
      && NumbersUnique(orders)
    }

    constructor ()
      ensures Valid()
      ensures products == map[] && entries == [] && history == [] && orders == map[]
    {
      products, entries, history, orders, nextId := map[], [], [], map[], 0;
    }

    /** Allocates an id that no document holds. */
    method NewId() returns (id: nat)
      requires Valid()
      modifies this`nextId
      ensures Valid()
      ensures id == old(nextId) && nextId == id + 1
    {
      id := nextId;
      nextId := nextId + 1;
    }
  }

  /** Appending an entry with a fresh id keeps the ids distinct. */
  lemma AppendFresh(entries: seq<Entry>, e: Entry, bound: nat)
    requires UniqueIds(entries)
    requires forall i :: 0 <= i < |entries| ==> entries[i].id < bound
    requires e.id >= bound
    ensures UniqueIds(entries + [e])
  {
  }
}
