/**
 * The product controller's writes to the stock collections: `createProduct`
 * builds the sizes × colors inventory matrix and one history record,
 * `updateProduct` reconciles a new matrix with the product's existing entries,
 * and `deleteProduct` removes the product with its entries.
 *
 * The collaborators the controller awaits without their code being part of this
 * model (`convertPrice`, `handleProductImages`) are parameters: the price already
 * converted to USD and the list of validated images.
 */
module ProductController {
  import opened Wrappers
  import opened Ledger
  import opened Store
  import opened Validation

  // ----- The variant matrix -----

  /** A size as the controller uses it: its name and the stock each of its colours receives. */
  datatype SizeSpec = SizeSpec(name: string, stock: int)

  /** One element of the matrix: `{ size, color, stock }`. */
  datatype Combo = Combo(size: string, color: string, stock: int)

  /** `colors.map(color => ...)` for one size. */
  function Row(s: SizeSpec, colors: seq<string>): (r: seq<Combo>)
    ensures |r| == |colors|
    ensures forall j :: 0 <= j < |r| ==> r[j] == Combo(s.name, colors[j], s.stock)
  {
    seq(|colors|, j requires 0 <= j < |colors| => Combo(s.name, colors[j], s.stock))
  }

  /** `sizes.flatMap(size => colors.map(color => ...))`: size-major order. */
  function Combos(sizes: seq<SizeSpec>, colors: seq<string>): seq<Combo> {
    if sizes == [] then []
    else Combos(sizes[..|sizes| - 1], colors) + Row(sizes[|sizes| - 1], colors)
  }

  /**
   * n × x written as repeated addition. The matrix lemmas are stated with it so
   * that their proofs stay linear; `TimesIsProduct` ties it to `*`.
   */
  function Times(n: nat, x: int): (r: int)
    ensures x >= 0 ==> r >= 0
  {
    if n == 0 then 0 else Times(n - 1, x) + x
  }

  lemma {:induction false} TimesIsProduct(n: nat, x: int)
    ensures Times(n, x) == n * x
  {
    if n > 0 {
      TimesIsProduct(n - 1, x);
      assert n * x == (n - 1) * x + x;
    }
  }

  lemma {:induction false} TimesAdd(n: nat, a: int, b: int)
    ensures Times(n, a + b) == Times(n, a) + Times(n, b)
  {
    if n > 0 {
      TimesAdd(n - 1, a, b);
    }
  }

  lemma {:induction false} CombosLength(sizes: seq<SizeSpec>, colors: seq<string>)
    ensures |Combos(sizes, colors)| == Times(|sizes|, |colors|)
  {
    if sizes != [] {
      CombosLength(sizes[..|sizes| - 1], colors);
    }
  }

  /** Size i with colour j sits at position i × |colors| + j of the matrix, with that size's stock. */
  lemma {:induction false} CombosCover(sizes: seq<SizeSpec>, colors: seq<string>, i: nat, j: nat)
    requires i < |sizes| && j < |colors|
    ensures Times(i, |colors|) + j < |Combos(sizes, colors)|
    ensures Combos(sizes, colors)[Times(i, |colors|) + j] == Combo(sizes[i].name, colors[j], sizes[i].stock)
  {
    var front := sizes[..|sizes| - 1];
    var n := |front|;
    CombosLength(sizes, colors);
    CombosLength(front, colors);
    var r := Combos(sizes, colors);
    assert r == Combos(front, colors) + Row(sizes[n], colors);
    if i < n {
      CombosCover(front, colors, i, j);
      assert front[i] == sizes[i];
      assert r[Times(i, |colors|) + j] == Combos(front, colors)[Times(i, |colors|) + j];
    } else {
      assert i == n && Times(n, |colors|) == |Combos(front, colors)|;
      assert r[Times(n, |colors|) + j] == Row(sizes[n], colors)[j] == Combo(sizes[n].name, colors[j], sizes[n].stock);
    }
  }

  /** `sizes.reduce((total, size) => total + size.stock, 0)` */
  function SizeTotal(sizes: seq<SizeSpec>): int {
    if sizes == [] then 0 else SizeTotal(sizes[..|sizes| - 1]) + sizes[|sizes| - 1].stock
  }

  /** The sum of the stocks of a list of combinations. */
  function ComboTotal(combos: seq<Combo>): int {
    if combos == [] then 0 else ComboTotal(combos[..|combos| - 1]) + combos[|combos| - 1].stock
  }

  lemma {:induction false} ComboTotalConcat(a: seq<Combo>, b: seq<Combo>)
    ensures ComboTotal(a + b) == ComboTotal(a) + ComboTotal(b)
  {
    if b == [] {
      assert a + b == a;
    } else {
      assert (a + b)[..|a + b| - 1] == a + b[..|b| - 1];
      ComboTotalConcat(a, b[..|b| - 1]);
    }
  }

  lemma {:induction false} RowTotal(s: SizeSpec, colors: seq<string>)
    ensures ComboTotal(Row(s, colors)) == Times(|colors|, s.stock)
  {
    if colors != [] {
      var front := colors[..|colors| - 1];
      assert Row(s, colors)[..|colors| - 1] == Row(s, front);
      RowTotal(s, front);
    }
  }

  /**
   * The matrix holds every size's stock once per colour: its total is |colors|
   * times the sum of the sizes' stocks.
   */
  lemma {:induction false} CombosTotal(sizes: seq<SizeSpec>, colors: seq<string>)
    ensures ComboTotal(Combos(sizes, colors)) == Times(|colors|, SizeTotal(sizes))
  {
    if sizes != [] {
      var front := sizes[..|sizes| - 1];
      var last := sizes[|sizes| - 1];
      assert Combos(sizes, colors) == Combos(front, colors) + Row(last, colors);
      assert SizeTotal(sizes) == SizeTotal(front) + last.stock;
      CombosTotal(front, colors);
      ComboTotalConcat(Combos(front, colors), Row(last, colors));
      RowTotal(last, colors);
      TimesAdd(|colors|, SizeTotal(front), last.stock);
    } else {
      TimesAdd(|colors|, 0, 0);
    }
  }

  const MainWarehouse: string := "Main Warehouse"
  const DefaultThreshold: int := 5

  /** The entry a combination is saved as, with the controller's location and threshold. */
  function ComboEntry(id: EntryId, p: ProductId, c: Combo): Entry {
    NewEntry(id, p, c.size, c.color, c.stock, DefaultThreshold, MainWarehouse)
  }

  /** The entries `createProduct` saves for a matrix, with ids allocated from `start` in order. */
  function MatrixEntries(p: ProductId, combos: seq<Combo>, start: nat): (r: seq<Entry>)
    ensures |r| == |combos|
    ensures forall k :: 0 <= k < |r| ==> r[k] == ComboEntry(start + k, p, combos[k])
  {
    seq(|combos|, k requires 0 <= k < |combos| => ComboEntry(start + k, p, combos[k]))
  }

  /** The matrix entries add the total of the matrix to their product's stock and nothing to any other. */
  lemma {:induction false} MatrixStock(p: ProductId, combos: seq<Combo>, start: nat, q: ProductId)
    ensures StockOf(MatrixEntries(p, combos, start), q) == if q == p then ComboTotal(combos) else 0
  {
    if combos != [] {
      var front := combos[..|combos| - 1];
      var m := MatrixEntries(p, combos, start);
      assert m[..|m| - 1] == MatrixEntries(p, front, start);
      MatrixStock(p, front, start, q);
    }
  }

  // ----- createProduct -----

  /** The request body of `createProduct`: the validated fields, and those the product takes as they are. */
  datatype CreateRequest = CreateRequest(data: ProductData, isFeatured: bool, stock: int)

  /** The reply of a product endpoint. */
  datatype ProductReply =
    | Created(id: ProductId, product: Product)
    | Updated(product: Product)
    | Deleted
    | Invalid(errors: seq<ProductError>)
    | Rejected(status: nat, message: string)

  const BadRequest: nat := 400
  const NotFound: nat := 404

  /** The ids of the featured products: `Product.countDocuments({ isFeatured: true })` counts them. */
  function FeaturedIds(products: map<ProductId, Product>): set<ProductId> {
    set p | p in products && products[p].isFeatured
  }

  /** The `order` a new product receives: the number of featured products when it is featured, else 0. */
  function NewOrder(products: map<ProductId, Product>, isFeatured: bool): nat {
    if isFeatured then |FeaturedIds(products)| else 0
  }

  /** Featured products hold distinct positions below the number of featured products. */
  ghost predicate FeaturedRanked(products: map<ProductId, Product>) {
    && (forall p :: p in FeaturedIds(products) ==> products[p].order < |FeaturedIds(products)|)
    && (forall p, q :: p in FeaturedIds(products) && q in FeaturedIds(products) && p != q ==>
          products[p].order != products[q].order)
  }

  /**
   * Placing a new featured product at the current count keeps the featured
   * positions distinct and below the count, so they stay 0 … n - 1.
   */
  lemma CreateKeepsFeaturedRanked(products: map<ProductId, Product>, id: ProductId, product: Product)
    requires id !in products && FeaturedRanked(products)
    requires product.order == NewOrder(products, product.isFeatured)
    ensures FeaturedRanked(products[id := product])
  {
    FeaturedIdsInsert(products, id, product);
    if product.isFeatured {
      InsertFeaturedRanked(products, id, product);
    } else {
      var after := products[id := product];
      forall p | p in FeaturedIds(products)
        ensures after[p] == products[p]
      {
      }
    }
  }

  lemma FeaturedIdsInsert(products: map<ProductId, Product>, id: ProductId, product: Product)
    requires id !in products
    ensures FeaturedIds(products[id := product]) ==
      if product.isFeatured then FeaturedIds(products) + {id} else FeaturedIds(products)
    ensures product.isFeatured ==> |FeaturedIds(products[id := product])| == |FeaturedIds(products)| + 1
  {
    if product.isFeatured {
      assert FeaturedIds(products[id := product]) == FeaturedIds(products) + {id};
    } else {
      assert FeaturedIds(products[id := product]) == FeaturedIds(products);
    }
  }

  lemma InsertFeaturedRanked(products: map<ProductId, Product>, id: ProductId, product: Product)
    requires id !in products && FeaturedRanked(products)
    requires product.isFeatured && product.order == |FeaturedIds(products)|
    requires FeaturedIds(products[id := product]) == FeaturedIds(products) + {id}
    requires |FeaturedIds(products[id := product])| == |FeaturedIds(products)| + 1
    ensures FeaturedRanked(products[id := product])
  {
    var after, before := products[id := product], FeaturedIds(products);
    forall p | p in before + {id}
      ensures after[p].order < |before| + 1
    {
      if p != id {
        assert p in before;
      }
    }
    forall p, q | p in before + {id} && q in before + {id} && p != q
      ensures after[p].order != after[q].order
    {
      if p == id {
        assert q in before;
      } else if q == id {
        assert p in before;
      }
    }
  }

  /** The validated sizes with their stocks. */
  function StockedSizes(sizes: seq<SizeInput>): (r: seq<SizeSpec>)
    requires forall i :: 0 <= i < |sizes| ==> sizes[i].stock.Some?
    ensures |r| == |sizes|
    ensures forall i :: 0 <= i < |r| ==> r[i] == SizeSpec(sizes[i].name, sizes[i].stock.value)
  {
    seq(|sizes|, i requires 0 <= i < |sizes| => SizeSpec(sizes[i].name, sizes[i].stock.value))
  }

  function ColorNames(colors: seq<ColorInput>): (r: seq<string>)
    ensures |r| == |colors|
    ensures forall i :: 0 <= i < |r| ==> r[i] == colors[i].name
  {
    seq(|colors|, i requires 0 <= i < |colors| => colors[i].name)
  }

  /** The reason of the history record of a new product. */
  const InitialStock: string := "Initial stock"

  /**
   * The inventory loop of `createProduct` (the saves awaited together, taken in
   * order): one entry per combination, each with a fresh id.
   */
  method SaveMatrix(db: Database, p: ProductId, combos: seq<Combo>)
    requires db.Valid()
    modifies db`entries, db`nextId
    ensures db.Valid()
    ensures db.nextId == old(db.nextId) + |combos|
    ensures db.entries == old(db.entries) + MatrixEntries(p, combos, old(db.nextId))
  {
    var k := 0;
    while k < |combos|
      invariant 0 <= k <= |combos|
      invariant db.Valid()
      invariant db.nextId == old(db.nextId) + k
      invariant db.entries == old(db.entries) + MatrixEntries(p, combos[..k], old(db.nextId))
    {
      var id := db.NewId();
      var e := ComboEntry(id, p, combos[k]);
      AppendFresh(db.entries, e, id);
      assert MatrixEntries(p, combos[..k + 1], old(db.nextId))
          == MatrixEntries(p, combos[..k], old(db.nextId)) + [e];
      db.entries := db.entries + [e];
      k := k + 1;
    }
    assert combos[..k] == combos;
  }

  /** `Product.create`: the product document is saved under a fresh id. */
  method SaveProduct(db: Database, product: Product) returns (id: ProductId)
    requires db.Valid()
    modifies db`products, db`nextId
    ensures db.Valid()
    ensures id == old(db.nextId) && id !in old(db.products)
    ensures db.products == old(db.products)[id := product] && db.nextId == id + 1
  {
    id := db.NewId();
    db.products := db.products[id := product];
  }

  /**
   * `createProduct`. An invalid body is rejected with the validator's messages
   * (`ProductErrors`, which `ValidateProductData` computes) before anything is
   * written. Otherwise the product is saved with the
   * converted price, the validated images and its featured position; then one
   * inventory entry per (size, colour) with the size's stock, in the main
   * warehouse with threshold 5; then one `increase` record whose quantity is the
   * sum of the sizes' stocks, whatever the number of colours. The product's
   * `stock` is the body's, not the ledger's sum.
   */
  method CreateProduct(db: Database, req: CreateRequest, priceInUSD: int, images: seq<string>, user: UserId)
    returns (reply: ProductReply)
    requires db.Valid()
    modifies db`products, db`entries, db`history, db`nextId
    ensures db.Valid()
    ensures db.orders == old(db.orders)
    ensures reply.Invalid? || reply.Created?
    ensures reply.Invalid? <==> !ValidProduct(req.data)
    ensures reply.Invalid? ==>
      && reply.errors == ProductErrors(req.data)
      && db.products == old(db.products) && db.entries == old(db.entries)
      && db.history == old(db.history) && db.nextId == old(db.nextId)
    ensures reply.Created? ==>
      var id := old(db.nextId);
      var sizes := StockedSizes(req.data.sizes.value);
      var colors := ColorNames(req.data.colors.value);
      var product := Product(req.data.name, req.data.description, req.data.category, priceInUSD,
                             req.stock, images, req.isFeatured, NewOrder(old(db.products), req.isFeatured));
      && id !in old(db.products)
      && reply == Created(id, product)
      && db.products == old(db.products)[id := product]
      && db.entries == old(db.entries) + MatrixEntries(id, Combos(sizes, colors), id + 1)
      && db.history == old(db.history) + [HistoryRecord(id, Increase, SizeTotal(sizes), InitialStock, user)]
  {
    var errors := ProductErrors(req.data);
    ProductErrorsEmptyIff(req.data);
    if errors != [] {
      return Invalid(errors);
    }
    var order := NewOrder(db.products, req.isFeatured);
    var product := Product(req.data.name, req.data.description, req.data.category, priceInUSD,
                           req.stock, images, req.isFeatured, order);
    var sizes, colors := StockedSizes(req.data.sizes.value), ColorNames(req.data.colors.value);
    var id := SaveCreated(db, product, sizes, colors, user);
    reply := Created(id, product);
  }

  /**
   * The writes of a valid `createProduct`, in order: the product, its matrix of
   * entries, and the one `increase` record of the sizes' stock sum.
   */
  method SaveCreated(db: Database, product: Product, sizes: seq<SizeSpec>, colors: seq<string>, user: UserId)
    returns (id: ProductId)
    requires db.Valid()
    modifies db`products, db`entries, db`history, db`nextId
    ensures db.Valid()
    ensures id == old(db.nextId) && id !in old(db.products)
    ensures db.products == old(db.products)[id := product]
    ensures db.entries == old(db.entries) + MatrixEntries(old(db.nextId), Combos(sizes, colors), old(db.nextId) + 1)
    ensures db.history == old(db.history) + [HistoryRecord(id, Increase, SizeTotal(sizes), InitialStock, user)]
  {
    id := SaveProduct(db, product);
    ghost var products := db.products;
    SaveMatrix(db, id, Combos(sizes, colors));
    assert db.products == products;
    db.history := db.history + [HistoryRecord(id, Increase, SizeTotal(sizes), InitialStock, user)];
  }

  /**
   * The entries `createProduct` adds to the ledger: |sizes| × |colors| entries of
   * the new product; the one for size i and colour j, at position i × |colors| + j,
   * holds that size's stock in the main warehouse with threshold 5, and its id
   * is allocated in that same order.
   */
  lemma CreatedMatrix(id: ProductId, sizes: seq<SizeSpec>, colors: seq<string>, i: nat, j: nat)
    requires i < |sizes| && j < |colors|
    ensures var m := MatrixEntries(id, Combos(sizes, colors), id + 1);
      && |m| == Times(|sizes|, |colors|)
      && Times(i, |colors|) + j < |m|
      && m[Times(i, |colors|) + j]
         == NewEntry(id + 1 + Times(i, |colors|) + j, id, sizes[i].name, colors[j], sizes[i].stock,
                     DefaultThreshold, MainWarehouse)
  {
    var combos := Combos(sizes, colors);
    var m := MatrixEntries(id, combos, id + 1);
    CombosLength(sizes, colors);
    CombosCover(sizes, colors, i, j);
    var k := Times(i, |colors|) + j;
    assert m[k] == ComboEntry(id + 1 + k, id, combos[k]);
  }

  /**
   * The stock those entries add: |colors| times the quantity the history record
   * states, all to the new product and none to any other.
   */
  lemma CreatedStock(entries: seq<Entry>, id: ProductId, sizes: seq<SizeSpec>, colors: seq<string>, q: ProductId)
    ensures StockOf(entries + MatrixEntries(id, Combos(sizes, colors), id + 1), q)
         == StockOf(entries, q) + (if q == id then Times(|colors|, SizeTotal(sizes)) else 0)
  {
    var combos := Combos(sizes, colors);
    CombosTotal(sizes, colors);
    StockOfConcat(entries, MatrixEntries(id, combos, id + 1), q);
    MatrixStock(id, combos, id + 1, q);
  }

  /**
   * `createProduct` stores the body's `stock` without recomputing it. The new
   * product is in step with the ledger, and the rest stays so, exactly when that
   * stock is |colors| times the sum of the sizes' stocks.
   */
  lemma CreateSyncIff(products: map<ProductId, Product>, entries: seq<Entry>, id: ProductId, product: Product,
                      sizes: seq<SizeSpec>, colors: seq<string>)
    requires StockInSync(products, entries) && id !in products && StockOf(entries, id) == 0
    ensures StockInSync(products[id := product], entries + MatrixEntries(id, Combos(sizes, colors), id + 1))
        <==> product.stock == Times(|colors|, SizeTotal(sizes))
  {
    if product.stock == Times(|colors|, SizeTotal(sizes)) {
      CreateInSync(products, entries, id, product, sizes, colors);
    } else {
      CreateOutOfSync(products, entries, id, product, sizes, colors);
    }
  }

  lemma CreateInSync(products: map<ProductId, Product>, entries: seq<Entry>, id: ProductId, product: Product,
                     sizes: seq<SizeSpec>, colors: seq<string>)
    requires StockInSync(products, entries) && id !in products && StockOf(entries, id) == 0
    requires product.stock == Times(|colors|, SizeTotal(sizes))
    ensures StockInSync(products[id := product], entries + MatrixEntries(id, Combos(sizes, colors), id + 1))
  {
    var m := MatrixEntries(id, Combos(sizes, colors), id + 1);
    var after := products[id := product];
    forall q | q in after ensures after[q].stock == StockOf(entries + m, q) {
      CreatedStock(entries, id, sizes, colors, q);
      if q != id {
        assert after[q] == products[q];
      }
    }
  }

  lemma CreateOutOfSync(products: map<ProductId, Product>, entries: seq<Entry>, id: ProductId, product: Product,
                        sizes: seq<SizeSpec>, colors: seq<string>)
    requires StockOf(entries, id) == 0
    requires product.stock != Times(|colors|, SizeTotal(sizes))
    ensures !StockInSync(products[id := product], entries + MatrixEntries(id, Combos(sizes, colors), id + 1))
  {
    CreatedStock(entries, id, sizes, colors, id);
    var after := products[id := product];
    assert after[id].stock != StockOf(entries + MatrixEntries(id, Combos(sizes, colors), id + 1), id);
  }

  // ----- updateProduct: reconciliation -----

  /** The fields of `updateData` (the body without `sizes` and `colors`); `None` leaves a field alone. */
  datatype ProductPatch = ProductPatch(
    name: Option<string>,
    description: Option<string>,
    category: Option<string>,
    price: Option<int>,
    stock: Option<int>,
    images: Option<seq<string>>,
    isFeatured: Option<bool>,
    order: Option<nat>)

  /** `findByIdAndUpdate(id, updateData)`: each given field replaces the stored one. */
  function Apply(patch: ProductPatch, p: Product): (r: Product)
    ensures patch == ProductPatch(None, None, None, None, None, None, None, None) ==> r == p
    ensures r.stock == (if patch.stock.Some? then patch.stock.value else p.stock)
  {
    Product(
      patch.name.GetOr(p.name),
      patch.description.GetOr(p.description),
      patch.category.GetOr(p.category),
      patch.price.GetOr(p.price),
      patch.stock.GetOr(p.stock),
      patch.images.GetOr(p.images),
      patch.isFeatured.GetOr(p.isFeatured),
      patch.order.GetOr(p.order))
  }

  /** Every field the patch gives replaces the stored one; every field it omits is kept. */
  lemma ApplyFields(patch: ProductPatch, p: Product)
    ensures var r := Apply(patch, p);
      && r.name == (if patch.name.Some? then patch.name.value else p.name)
      && r.description == (if patch.description.Some? then patch.description.value else p.description)
      && r.category == (if patch.category.Some? then patch.category.value else p.category)
      && r.price == (if patch.price.Some? then patch.price.value else p.price)
      && r.images == (if patch.images.Some? then patch.images.value else p.images)
      && r.isFeatured == (if patch.isFeatured.Some? then patch.isFeatured.value else p.isFeatured)
      && r.order == (if patch.order.Some? then patch.order.value else p.order)
  {
  }

  /** Sending the same update twice leaves the product as the first one did. */
  lemma ApplyIdempotent(patch: ProductPatch, p: Product)
    ensures Apply(patch, Apply(patch, p)) == Apply(patch, p)
  {
  }

  /**
   * `findByIdAndUpdate` writes `stock` as given and does not recompute it: a
   * product in step with the ledger stays so exactly when the patch leaves the
   * stock alone or writes the ledger's sum.
   */
  lemma PatchSyncIff(products: map<ProductId, Product>, entries: seq<Entry>, id: ProductId, patch: ProductPatch)
    requires StockInSync(products, entries) && id in products
    ensures StockInSync(products[id := Apply(patch, products[id])], entries)
        <==> patch.stock.None? || patch.stock.value == StockOf(entries, id)
  {
    var after := products[id := Apply(patch, products[id])];
    if patch.stock.None? || patch.stock.value == StockOf(entries, id) {
      forall q | q in after ensures after[q].stock == StockOf(entries, q) {
        if q != id {
          assert after[q] == products[q];
        }
      }
    } else {
      assert after[id].stock != StockOf(entries, id);
    }
  }

  /** The reconciliation's state: the ledger, the snapshot read before the loop, the history, and the id counter. */
  datatype Recon = Recon(entries: seq<Entry>, snapshot: seq<Entry>, history: seq<HistoryRecord>, nextId: nat)

  predicate SameVariant(e: Entry, c: Combo) {
    e.size == c.size && e.color == c.color
  }

  /** `currentInventory.find(inv => inv.size === size && inv.color === color)`: the first match. */
  function FindCombo(snapshot: seq<Entry>, c: Combo): (r: Option<nat>)
    ensures r.Some? ==> r.value < |snapshot| && SameVariant(snapshot[r.value], c)
    ensures r.Some? ==> forall i :: 0 <= i < r.value ==> !SameVariant(snapshot[i], c)
    ensures r.None? ==> forall i :: 0 <= i < |snapshot| ==> !SameVariant(snapshot[i], c)
  {
    if snapshot == [] then None
    else if SameVariant(snapshot[0], c) then Some(0)
    else match FindCombo(snapshot[1..], c)
      case None => None
      case Some(k) => Some(k + 1)
  }

  function Abs(x: int): nat {
    if x < 0 then -x else x
  }

  const StockUpdate: string := "Stock update"
  const NewVariant: string := "New size/color added"

  /**
   * One combination of the reconciliation. A matching snapshot entry gets the
   * new quantity (in the snapshot and in the ledger) and, when the quantity
   * changed, one record of the size of the change; a combination with no match
   * becomes a new entry with one `increase` record of its stock.
   */
  function ReconcileStep(r: Recon, p: ProductId, c: Combo, user: UserId): Recon {
    match FindCombo(r.snapshot, c)
    case Some(k) =>
      var existing := r.snapshot[k];
      var oldQuantity := existing.quantity;
      Recon(
        SetQuantity(r.entries, existing.id, c.stock),
        r.snapshot[k := existing.(quantity := c.stock)],
        r.history + (if oldQuantity != c.stock
                     then [HistoryRecord(p, if c.stock > oldQuantity then Increase else Decrease,
                                         Abs(c.stock - oldQuantity), StockUpdate, user)]
                     else []),
        r.nextId)
    case None =>
      Recon(
        r.entries + [ComboEntry(r.nextId, p, c)],
        r.snapshot,
        r.history + [HistoryRecord(p, Increase, c.stock, NewVariant, user)],
        r.nextId + 1)
  }

  /** The combinations processed in order (the concurrent callbacks taken one after another). */
  function Reconcile(r: Recon, p: ProductId, combos: seq<Combo>, user: UserId): Recon {
    if combos == [] then r
    else ReconcileStep(Reconcile(r, p, combos[..|combos| - 1], user), p, combos[|combos| - 1], user)
  }

  /**
   * What the reconciliation keeps true: ledger ids are distinct and below the
   * counter, and each snapshot entry is an entry of the product that the ledger
   * holds exactly as the snapshot has it.
   */
  ghost predicate ReconInv(r: Recon, p: ProductId) {
    && UniqueIds(r.entries)
    && (forall i :: 0 <= i < |r.entries| ==> r.entries[i].id < r.nextId)
    && UniqueIds(r.snapshot)
    && (forall i :: 0 <= i < |r.snapshot| ==> r.snapshot[i].product == p && Find(r.entries, r.snapshot[i].id) == Some(r.snapshot[i]))
  }

  /** The signed sum of the history's changes: an `increase` adds its quantity, a `decrease` subtracts it. */
  function Net(h: seq<HistoryRecord>): int {
    if h == [] then 0
    else
      var last := h[|h| - 1];
      Net(h[..|h| - 1]) + (match last.kind case Increase => last.quantity case Decrease => -last.quantity case Update => 0)
  }

  lemma {:induction false} NetConcat(a: seq<HistoryRecord>, b: seq<HistoryRecord>)
    ensures Net(a + b) == Net(a) + Net(b)
  {
    if b == [] {
      assert a + b == a;
    } else {
      assert (a + b)[..|a + b| - 1] == a + b[..|b| - 1];
      NetConcat(a, b[..|b| - 1]);
    }
  }

  /** In a ledger with distinct ids, `Find` returns the entry at any position holding that id. */
  lemma FindAt(entries: seq<Entry>, i: nat)
    requires UniqueIds(entries) && i < |entries|
    ensures Find(entries, entries[i].id) == Some(entries[i])
  {
  }

  /** After overwriting one id's quantity, every id is found with the new quantity if it is that id, else as before. */
  lemma FindSetQuantity(entries: seq<Entry>, id: EntryId, q: int, x: EntryId)
    ensures Find(SetQuantity(entries, id, q), x)
         == match Find(entries, x)
            case None => None
            case Some(e) => Some(if x == id then e.(quantity := q) else e)
  {
    SetQuantityKeepsKeys(entries, id, q);
    var a, b := IndexOf(SetQuantity(entries, id, q), x), IndexOf(entries, x);
    if a.Some? {
      assert b.Some? && b.value <= a.value;
    }
    if b.Some? {
      assert a.Some? && a.value <= b.value;
    }
  }

  /** Appending an entry leaves every id that was present where it was; the new id is found last. */
  lemma {:induction false} IndexOfAppend(entries: seq<Entry>, e: Entry, x: EntryId)
    ensures IndexOf(entries + [e], x)
         == if IndexOf(entries, x).Some? then IndexOf(entries, x) else if e.id == x then Some(|entries|) else None
  {
    if entries != [] {
      assert (entries + [e])[1..] == entries[1..] + [e];
      IndexOfAppend(entries[1..], e, x);
    }
  }

  /** Appending an entry with an id no entry holds leaves every other id where it was. */
  lemma FindAppend(entries: seq<Entry>, e: Entry, x: EntryId)
    requires forall i :: 0 <= i < |entries| ==> entries[i].id != e.id
    ensures Find(entries + [e], x) == if x == e.id then Some(e) else Find(entries, x)
  {
    IndexOfAppend(entries, e, x);
  }

  /** The entries of one product in a ledger with distinct ids have distinct ids. */
  lemma {:induction false} EntriesOfUnique(entries: seq<Entry>, p: ProductId)
    requires UniqueIds(entries)
    ensures UniqueIds(EntriesOf(entries, p))
  {
    if entries != [] {
      var front := entries[..|entries| - 1];
      var last := entries[|entries| - 1];
      EntriesOfUnique(front, p);
      var r := EntriesOf(front, p);
      forall i | 0 <= i < |r| ensures r[i].id != last.id {
        assert r[i] in multiset(r);
        assert r[i] in front;
      }
    }
  }

  /** The invariant holds at the start: the snapshot is `Inventory.find({ product })` of a ledger with distinct ids. */
  lemma ReconInvStart(entries: seq<Entry>, history: seq<HistoryRecord>, nextId: nat, p: ProductId)
    requires UniqueIds(entries) && forall i :: 0 <= i < |entries| ==> entries[i].id < nextId
    ensures ReconInv(Recon(entries, EntriesOf(entries, p), history, nextId), p)
  {
    var snap := EntriesOf(entries, p);
    EntriesOfUnique(entries, p);
    forall i | 0 <= i < |snap|
      ensures Find(entries, snap[i].id) == Some(snap[i])
    {
      assert snap[i] in multiset(snap);
      assert snap[i] in entries;
      var j :| 0 <= j < |entries| && entries[j] == snap[i];
      FindAt(entries, j);
    }
  }

  /**
   * One reconciliation step keeps the invariant, only appends to the history,
   * changes the product's stock sum by exactly the signed change the appended
   * records state, and leaves every other product's stock sum alone.
   */
  lemma ReconcileStepSpec(r: Recon, p: ProductId, c: Combo, user: UserId)
    requires ReconInv(r, p)
    ensures var s := ReconcileStep(r, p, c, user);
      && ReconInv(s, p)
      && s.nextId >= r.nextId
      && |s.history| >= |r.history| && s.history[..|r.history|] == r.history
      && Net(s.history) - Net(r.history) == StockOf(s.entries, p) - StockOf(r.entries, p)
      && (forall q :: q != p ==> StockOf(s.entries, q) == StockOf(r.entries, q))
  {
    ReconcileStepInvariant(r, p, c, user);
    ReconcileStepNet(r, p, c, user);
    ReconcileStepStock(r, p, c, user);
  }

  /** The change one step makes to the product's stock sum. */
  function StepDelta(r: Recon, c: Combo): int {
    match FindCombo(r.snapshot, c)
    case Some(k) => c.stock - r.snapshot[k].quantity
    case None => c.stock
  }

  /** One step only appends to the history, and the records it appends sum to the step's change. */
  lemma ReconcileStepNet(r: Recon, p: ProductId, c: Combo, user: UserId)
    ensures var s := ReconcileStep(r, p, c, user);
      && |s.history| >= |r.history| && s.history[..|r.history|] == r.history
      && Net(s.history) - Net(r.history) == StepDelta(r, c)
  {
    var s := ReconcileStep(r, p, c, user);
    var extra := s.history[|r.history|..];
    assert s.history == r.history + extra;
    NetConcat(r.history, extra);
    match FindCombo(r.snapshot, c)
    case Some(k) =>
      var old_q := r.snapshot[k].quantity;
      if old_q != c.stock {
        assert Net(extra) == Net([]) + (c.stock - old_q);
      } else {
        assert extra == [];
      }
    case None =>
      assert Net(extra) == Net([]) + c.stock;
  }

  /** One step changes the product's stock sum by the step's change and no other product's. */
  lemma ReconcileStepStock(r: Recon, p: ProductId, c: Combo, user: UserId)
    requires ReconInv(r, p)
    ensures var s := ReconcileStep(r, p, c, user);
      forall q :: StockOf(s.entries, q) == StockOf(r.entries, q) + (if q == p then StepDelta(r, c) else 0)
  {
    var s := ReconcileStep(r, p, c, user);
    match FindCombo(r.snapshot, c)
    case Some(k) =>
      var existing := r.snapshot[k];
      var j := IndexOf(r.entries, existing.id).value;
      assert r.entries[j] == existing;
      forall q ensures StockOf(s.entries, q) == StockOf(r.entries, q) + (if q == p then StepDelta(r, c) else 0) {
        StockOfSetQuantity(r.entries, j, c.stock, q);
      }
    case None =>
      var e := ComboEntry(r.nextId, p, c);
      forall q ensures StockOf(s.entries, q) == StockOf(r.entries, q) + (if q == p then StepDelta(r, c) else 0) {
        StockOfAppend(r.entries, e, q);
      }
  }

  /** One step keeps the invariant and never lowers the counter. */
  lemma ReconcileStepInvariant(r: Recon, p: ProductId, c: Combo, user: UserId)
    requires ReconInv(r, p)
    ensures var s := ReconcileStep(r, p, c, user);
      ReconInv(s, p) && s.nextId >= r.nextId
  {
    if FindCombo(r.snapshot, c).Some? {
      ExistingStepInvariant(r, p, c, user);
    } else {
      NewStepInvariant(r, p, c, user);
    }
  }

  /** A step that sets the quantity of a snapshot entry keeps the invariant. */
  lemma ExistingStepInvariant(r: Recon, p: ProductId, c: Combo, user: UserId)
    requires ReconInv(r, p) && FindCombo(r.snapshot, c).Some?
    ensures var s := ReconcileStep(r, p, c, user);
      ReconInv(s, p) && s.nextId == r.nextId
  {
    var s := ReconcileStep(r, p, c, user);
    var k := FindCombo(r.snapshot, c).value;
    var existing := r.snapshot[k];
    SetQuantityKeepsKeys(r.entries, existing.id, c.stock);
    forall i | 0 <= i < |s.snapshot|
      ensures s.snapshot[i].product == p && Find(s.entries, s.snapshot[i].id) == Some(s.snapshot[i])
    {
      FindSetQuantity(r.entries, existing.id, c.stock, r.snapshot[i].id);
      if i != k {
        assert r.snapshot[i].id != existing.id;
      }
    }
  }

  /** A step that appends an entry under the counter's id keeps the invariant and raises the counter. */
  lemma NewStepInvariant(r: Recon, p: ProductId, c: Combo, user: UserId)
    requires ReconInv(r, p) && FindCombo(r.snapshot, c).None?
    ensures var s := ReconcileStep(r, p, c, user);
      ReconInv(s, p) && s.nextId == r.nextId + 1
  {
    var s := ReconcileStep(r, p, c, user);
    var e := ComboEntry(r.nextId, p, c);
    assert s.entries == r.entries + [e];
    AppendFresh(r.entries, e, r.nextId);
    forall i | 0 <= i < |s.snapshot|
      ensures Find(s.entries, s.snapshot[i].id) == Some(s.snapshot[i])
    {
      FindAppend(r.entries, e, r.snapshot[i].id);
      assert r.snapshot[i].id != e.id by {
        var j := IndexOf(r.entries, r.snapshot[i].id).value;
        assert r.entries[j].id < r.nextId;
      }
    }
  }

  /** The reconciliation keeps its invariant, never lowers the counter, and only appends to the history. */
  lemma {:induction false} ReconcileKeepsInv(r: Recon, p: ProductId, combos: seq<Combo>, user: UserId)
    requires ReconInv(r, p)
    ensures var s := Reconcile(r, p, combos, user);
      && ReconInv(s, p)
      && s.nextId >= r.nextId
      && |s.history| >= |r.history| && s.history[..|r.history|] == r.history
  {
    if combos != [] {
      var front := combos[..|combos| - 1];
      ReconcileKeepsInv(r, p, front, user);
      var m := Reconcile(r, p, front, user);
      ReconcileStepSpec(m, p, combos[|combos| - 1], user);
      var s := Reconcile(r, p, combos, user);
      assert s.history[..|r.history|] == s.history[..|m.history|][..|r.history|];
    }
  }

  /**
   * History completeness of the reconciliation: over the whole matrix, the
   * signed sum of the records it appends equals the change of the product's
   * stock sum in the ledger.
   */
  lemma {:induction false} ReconcileBalances(r: Recon, p: ProductId, combos: seq<Combo>, user: UserId)
    requires ReconInv(r, p)
    ensures var s := Reconcile(r, p, combos, user);
      Net(s.history) - Net(r.history) == StockOf(s.entries, p) - StockOf(r.entries, p)
  {
    if combos != [] {
      var front := combos[..|combos| - 1];
      ReconcileBalances(r, p, front, user);
      ReconcileKeepsInv(r, p, front, user);
      ReconcileStepSpec(Reconcile(r, p, front, user), p, combos[|combos| - 1], user);
    }
  }

  /** The reconciliation of one product leaves every other product's stock sum in the ledger alone. */
  lemma {:induction false} ReconcileOtherStock(r: Recon, p: ProductId, combos: seq<Combo>, user: UserId, q: ProductId)
    requires ReconInv(r, p) && q != p
    ensures StockOf(Reconcile(r, p, combos, user).entries, q) == StockOf(r.entries, q)
  {
    if combos != [] {
      var front := combos[..|combos| - 1];
      ReconcileOtherStock(r, p, front, user, q);
      ReconcileKeepsInv(r, p, front, user);
      ReconcileStepSpec(Reconcile(r, p, front, user), p, combos[|combos| - 1], user);
    }
  }

  /** The records the reconciliation appends: their signed sum is the change of the product's stock sum. */
  lemma AppendedBalance(r: Recon, p: ProductId, combos: seq<Combo>, user: UserId)
    requires ReconInv(r, p)
    ensures var s := Reconcile(r, p, combos, user);
      && |s.history| >= |r.history|
      && s.history == r.history + s.history[|r.history|..]
      && Net(s.history[|r.history|..]) == StockOf(s.entries, p) - StockOf(r.entries, p)
  {
    var h := Reconcile(r, p, combos, user).history;
    ReconcileAppends(r, p, combos, user);
    var tail := h[|r.history|..];
    assert h == r.history + tail;
    NetConcat(r.history, tail);
    ReconcileBalances(r, p, combos, user);
  }

  /** The reconciliation only appends to the history. */
  lemma ReconcileAppends(r: Recon, p: ProductId, combos: seq<Combo>, user: UserId)
    requires ReconInv(r, p)
    ensures var h := Reconcile(r, p, combos, user).history;
      |h| >= |r.history| && h[..|r.history|] == r.history
  {
    ReconcileKeepsInv(r, p, combos, user);
  }

  /** A ledger entry changed by one step is the product's entry for that step's variant. */
  lemma ReconcileStepKeeps(r: Recon, p: ProductId, c: Combo, user: UserId)
    requires ReconInv(r, p)
    ensures var s := ReconcileStep(r, p, c, user);
      && |s.entries| >= |r.entries|
      && forall i :: 0 <= i < |r.entries| && (r.entries[i].product != p || !SameVariant(r.entries[i], c)) ==>
           s.entries[i] == r.entries[i]
  {
    var s := ReconcileStep(r, p, c, user);
    match FindCombo(r.snapshot, c)
    case Some(k) =>
      var existing := r.snapshot[k];
      forall i | 0 <= i < |r.entries| && (r.entries[i].product != p || !SameVariant(r.entries[i], c))
        ensures s.entries[i] == r.entries[i]
      {
        if r.entries[i].id == existing.id {
          FindAt(r.entries, i);
        }
      }
    case None =>
  }

  /**
   * Entries of other products, and entries of the product whose (size, colour)
   * is not in the new matrix, are left exactly where and as they were; no entry
   * is removed.
   */
  lemma {:induction false} ReconcileLeavesOthers(r: Recon, p: ProductId, combos: seq<Combo>, user: UserId)
    requires ReconInv(r, p)
    ensures var s := Reconcile(r, p, combos, user);
      && |s.entries| >= |r.entries|
      && forall i :: 0 <= i < |r.entries| &&
           (r.entries[i].product != p || forall j :: 0 <= j < |combos| ==> !SameVariant(r.entries[i], combos[j]))
           ==> s.entries[i] == r.entries[i]
  {
    if combos != [] {
      var front := combos[..|combos| - 1];
      var m := Reconcile(r, p, front, user);
      ReconcileLeavesOthers(r, p, front, user);
      ReconcileKeepsInv(r, p, front, user);
      ReconcileStepKeeps(m, p, combos[|combos| - 1], user);
      forall i | 0 <= i < |r.entries|
        && (r.entries[i].product != p || forall j :: 0 <= j < |combos| ==> !SameVariant(r.entries[i], combos[j]))
        ensures Reconcile(r, p, combos, user).entries[i] == r.entries[i]
      {
        if r.entries[i].product == p {
          assert forall j :: 0 <= j < |front| ==> front[j] == combos[j];
          assert !SameVariant(r.entries[i], combos[|combos| - 1]);
        }
      }
    }
  }

  /**
   * A combination that matches an entry of the snapshot sets that entry's
   * quantity in the ledger; it appends no record when the quantity is unchanged,
   * and otherwise one `increase` or `decrease` record of the absolute change.
   */
  lemma ExistingVariant(r: Recon, p: ProductId, c: Combo, user: UserId)
    requires ReconInv(r, p) && FindCombo(r.snapshot, c).Some?
    ensures var e := r.snapshot[FindCombo(r.snapshot, c).value];
      var s := ReconcileStep(r, p, c, user);
      && Find(s.entries, e.id) == Some(e.(quantity := c.stock))
      && |s.entries| == |r.entries| && s.nextId == r.nextId
      && (e.quantity == c.stock ==> s.history == r.history && s.entries == r.entries)
      && (e.quantity != c.stock ==>
            s.history == r.history + [HistoryRecord(p, if c.stock > e.quantity then Increase else Decrease,
                                                    Abs(c.stock - e.quantity), StockUpdate, user)])
  {
    var e := r.snapshot[FindCombo(r.snapshot, c).value];
    ExistingStep(r, p, c, user);
    FindSetQuantity(r.entries, e.id, c.stock, e.id);
    if e.quantity == c.stock {
      var j := IndexOf(r.entries, e.id).value;
      assert r.entries[j] == e;
      forall i | 0 <= i < |r.entries| ensures SetQuantity(r.entries, e.id, c.stock)[i] == r.entries[i] {
        if r.entries[i].id == e.id { FindAt(r.entries, i); }
      }
    }
  }

  /** The state after a step whose combination matches the snapshot. */
  lemma ExistingStep(r: Recon, p: ProductId, c: Combo, user: UserId)
    requires FindCombo(r.snapshot, c).Some?
    ensures var k := FindCombo(r.snapshot, c).value;
      var e := r.snapshot[k];
      var s := ReconcileStep(r, p, c, user);
      && s.entries == SetQuantity(r.entries, e.id, c.stock) && s.nextId == r.nextId
      && s.snapshot == r.snapshot[k := e.(quantity := c.stock)]
      && (e.quantity == c.stock ==> s.history == r.history)
      && (e.quantity != c.stock ==>
            s.history == r.history + [HistoryRecord(p, if c.stock > e.quantity then Increase else Decrease,
                                                    Abs(c.stock - e.quantity), StockUpdate, user)])
  {
    var e := r.snapshot[FindCombo(r.snapshot, c).value];
    var s := ReconcileStep(r, p, c, user);
    if e.quantity == c.stock {
      assert s.history == r.history + [];
    }
  }

  /**
   * A combination with no snapshot match adds one entry of the product for that
   * variant with the combination's stock, and one `increase` record of that stock.
   */
  lemma NewVariantAdded(r: Recon, p: ProductId, c: Combo, user: UserId)
    requires ReconInv(r, p) && FindCombo(r.snapshot, c).None?
    ensures var s := ReconcileStep(r, p, c, user);
      && s.entries == r.entries + [Entry(r.nextId, p, c.size, c.color, c.stock, 5, "Main Warehouse",
                                         DerivedStatus(c.stock, 5))]
      && s.history == r.history + [HistoryRecord(p, Increase, c.stock, "New size/color added", user)]
      && StockOf(s.entries, p) == StockOf(r.entries, p) + c.stock
  {
    StockOfAppend(r.entries, ComboEntry(r.nextId, p, c), p);
  }


  /** One reconciliation step on the database, keeping the snapshot beside it. */
  method ReconcileCombo(db: Database, snapshot: seq<Entry>, p: ProductId, c: Combo, user: UserId)
    returns (snapshot': seq<Entry>)
    requires db.Valid()
    modifies db`entries, db`history, db`nextId
    ensures db.Valid()
    ensures Recon(db.entries, snapshot', db.history, db.nextId)
         == ReconcileStep(Recon(old(db.entries), snapshot, old(db.history), old(db.nextId)), p, c, user)
  {
    var found := FindCombo(snapshot, c);
    if found.Some? {
      snapshot' := UpdateVariant(db, snapshot, p, c, user);
    } else {
      snapshot' := snapshot;
      AddVariant(db, snapshot, p, c, user);
    }
  }

  /**
   * A combination the snapshot has: its ledger entry takes the new stock, and a
   * record of the change is appended when the quantity differs.
   */
  method UpdateVariant(db: Database, snapshot: seq<Entry>, p: ProductId, c: Combo, user: UserId)
    returns (snapshot': seq<Entry>)
    requires db.Valid()
    requires FindCombo(snapshot, c).Some?
    modifies db`entries, db`history
    ensures db.Valid()
    ensures var s := ReconcileStep(Recon(old(db.entries), snapshot, old(db.history), db.nextId), p, c, user);
      db.entries == s.entries && db.history == s.history && snapshot' == s.snapshot
  {
    ghost var r := Recon(db.entries, snapshot, db.history, db.nextId);
    ExistingStep(r, p, c, user);
    var k := FindCombo(snapshot, c).value;
    var existing := snapshot[k];
    var oldQuantity := existing.quantity;
    snapshot' := snapshot[k := existing.(quantity := c.stock)];
    SetQuantityKeepsKeys(db.entries, existing.id, c.stock);
    db.entries := SetQuantity(db.entries, existing.id, c.stock);
    if oldQuantity != c.stock {
      var kind := if c.stock > oldQuantity then Increase else Decrease;
      db.history := db.history + [HistoryRecord(p, kind, Abs(c.stock - oldQuantity), StockUpdate, user)];
      assert db.history == r.history + [HistoryRecord(p, kind, Abs(c.stock - oldQuantity), StockUpdate, user)];
    } else {
      assert db.history == r.history;
    }
  }

  /**
   * A combination the snapshot lacks: a new entry with the combination's stock
   * under a fresh id, and an `increase` record of that stock.
   */
  method AddVariant(db: Database, snapshot: seq<Entry>, p: ProductId, c: Combo, user: UserId)
    requires db.Valid()
    requires FindCombo(snapshot, c).None?
    modifies db`entries, db`history, db`nextId
    ensures db.Valid()
    ensures Recon(db.entries, snapshot, db.history, db.nextId)
         == ReconcileStep(Recon(old(db.entries), snapshot, old(db.history), old(db.nextId)), p, c, user)
  {
    var id := db.NewId();
    db.entries := db.entries + [ComboEntry(id, p, c)];
    db.history := db.history + [HistoryRecord(p, Increase, c.stock, NewVariant, user)];
  }

  /** The reconciliation loop over the new matrix, from the snapshot of the product's entries. */
  method ReconcileVariants(db: Database, p: ProductId, combos: seq<Combo>, user: UserId)
    requires db.Valid()
    modifies db`entries, db`history, db`nextId
    ensures db.Valid()
    ensures var s := Reconcile(Recon(old(db.entries), EntriesOf(old(db.entries), p), old(db.history), old(db.nextId)),
                               p, combos, user);
      db.entries == s.entries && db.history == s.history && db.nextId == s.nextId
  {
    var snapshot := EntriesOf(db.entries, p);
    ghost var start := Recon(db.entries, snapshot, db.history, db.nextId);
    var i := 0;
    while i < |combos|
      invariant 0 <= i <= |combos|
      invariant db.Valid()
      invariant Recon(db.entries, snapshot, db.history, db.nextId) == Reconcile(start, p, combos[..i], user)
    {
      assert combos[..i + 1][..i] == combos[..i];
      snapshot := ReconcileCombo(db, snapshot, p, combos[i], user);
      i := i + 1;
    }
    assert combos[..i] == combos;
  }

  /** The request body of `updateProduct`: the matrix, when given, and the other fields. */
  datatype UpdateRequest = UpdateRequest(patch: ProductPatch, sizes: Option<seq<SizeSpec>>, colors: Option<seq<ColorInput>>)

  /**
   * `sizes.flatMap(...)` with `colors.map(...)` inside: when `sizes` is missing the
   * call throws, and when `colors` is missing it throws as soon as there is a size.
   */
  function NewCombinations(sizes: Option<seq<SizeSpec>>, colors: Option<seq<ColorInput>>): (r: Result<seq<Combo>, string>)
    ensures r.Success? <==> sizes.Some? && (colors.Some? || sizes.value == [])
    ensures r.Success? && colors.Some? ==> r.value == Combos(sizes.value, ColorNames(colors.value))
    ensures r.Success? && colors.None? ==> r.value == []
  {
    if sizes.None? then Failure("Cannot read properties of undefined (reading 'flatMap')")
    else if colors.None? && sizes.value != [] then Failure("Cannot read properties of undefined (reading 'map')")
    else Success(Combos(sizes.value, if colors.Some? then ColorNames(colors.value) else []))
  }

  /**
   * `updateProduct`. An unknown id replies not-found and changes nothing.
   * Otherwise the other fields are stored first; then, when the body gives a
   * size or colour list, the new matrix is reconciled with the snapshot of the
   * product's entries. A matrix that cannot be built (a list missing) replies
   * 400 with the product fields already stored.
   */
  method UpdateProduct(db: Database, id: ProductId, req: UpdateRequest, user: UserId) returns (reply: ProductReply)
    requires db.Valid()
    modifies db`products, db`entries, db`history, db`nextId
    ensures db.Valid()
    ensures db.orders == old(db.orders)
    ensures id !in old(db.products) ==>
      && reply == Rejected(NotFound, "Product not found")
      && db.products == old(db.products) && db.entries == old(db.entries)
      && db.history == old(db.history) && db.nextId == old(db.nextId)
    ensures id in old(db.products) ==>
      var product := Apply(req.patch, old(db.products)[id]);
      var combos := NewCombinations(req.sizes, req.colors);
      && db.products == old(db.products)[id := product]
      && (req.sizes.None? && req.colors.None? ==>
            reply == Updated(product) && db.entries == old(db.entries) && db.history == old(db.history))
      && ((req.sizes.Some? || req.colors.Some?) && combos.Failure? ==>
            reply == Rejected(BadRequest, combos.error) && db.entries == old(db.entries) && db.history == old(db.history))
      && ((req.sizes.Some? || req.colors.Some?) && combos.Success? ==>
            var s := Reconcile(Recon(old(db.entries), EntriesOf(old(db.entries), id), old(db.history), old(db.nextId)),
                               id, combos.value, user);
            reply == Updated(product) && db.entries == s.entries && db.history == s.history)
    ensures id in old(db.products) && StockInSync(old(db.products), old(db.entries)) && req.sizes.None? && req.colors.None? ==>
      (StockInSync(db.products, db.entries) <==> req.patch.stock.None? || req.patch.stock.value == StockOf(db.entries, id))
  {
    if id !in db.products {
      return Rejected(NotFound, "Product not found");
    }
    var product := StoreFields(db, id, req.patch);
    if req.sizes.None? && req.colors.None? {
      return Updated(product);
    }
    var failure := UpdateMatrix(db, id, req.sizes, req.colors, user);
    reply := if failure.Some? then Rejected(BadRequest, failure.value) else Updated(product);
  }

  /** The first half of `updateProduct`: the patched fields are written back to the product. */
  method StoreFields(db: Database, id: ProductId, patch: ProductPatch) returns (product: Product)
    requires db.Valid() && id in db.products
    modifies db`products
    ensures db.Valid()
    ensures product == Apply(patch, old(db.products)[id]) && db.products == old(db.products)[id := product]
    ensures StockInSync(old(db.products), db.entries) ==>
      (StockInSync(db.products, db.entries) <==> patch.stock.None? || patch.stock.value == StockOf(db.entries, id))
  {
    product := Apply(patch, db.products[id]);
    db.products := db.products[id := product];
    if StockInSync(old(db.products), db.entries) {
      PatchSyncIff(old(db.products), db.entries, id, patch);
    }
  }

  /**
   * The inventory half of `updateProduct`: build the new matrix, which throws
   * when a list is missing, and reconcile it with the product's entries.
   */
  method UpdateMatrix(db: Database, id: ProductId, sizes: Option<seq<SizeSpec>>, colors: Option<seq<ColorInput>>, user: UserId)
    returns (failure: Option<string>)
    requires db.Valid()
    modifies db`entries, db`history, db`nextId
    ensures db.Valid()
    ensures NewCombinations(sizes, colors).Failure? ==>
      failure == Some(NewCombinations(sizes, colors).error)
      && db.entries == old(db.entries) && db.history == old(db.history) && db.nextId == old(db.nextId)
    ensures NewCombinations(sizes, colors).Success? ==>
      var s := Reconcile(Recon(old(db.entries), EntriesOf(old(db.entries), id), old(db.history), old(db.nextId)),
                         id, NewCombinations(sizes, colors).value, user);
      failure.None? && db.entries == s.entries && db.history == s.history && db.nextId == s.nextId
  {
    var combos := NewCombinations(sizes, colors);
    if combos.Failure? {
      return Some(combos.error);
    }
    ReconcileVariants(db, id, combos.value, user);
    failure := None;
  }

  // ----- deleteProduct -----

  /**
   * `deleteProduct`. An unknown id replies not-found and changes nothing.
   * Otherwise the product and every one of its entries are removed, other
   * products' entries stay, and one `decrease` record of the product's stored
   * `stock` is appended.
   */
  method DeleteProduct(db: Database, id: ProductId, user: UserId) returns (reply: ProductReply)
    requires db.Valid()
    modifies db`products, db`entries, db`history
    ensures db.Valid()
    ensures id !in old(db.products) ==>
      && reply == Rejected(NotFound, "Product not found")
      && db.products == old(db.products) && db.entries == old(db.entries) && db.history == old(db.history)
    ensures id in old(db.products) ==>
      && reply == Deleted
      && db.products == old(db.products) - {id}
      && db.entries == RemoveProduct(old(db.entries), id)
      && db.history == old(db.history) + [HistoryRecord(id, Decrease, old(db.products)[id].stock, "Product deleted", user)]
  {
    if id !in db.products {
      return Rejected(NotFound, "Product not found");
    }
    var product := db.products[id];
    db.products := db.products - {id};
    RemoveKeepsIds(db.entries, id, db.nextId);
    db.entries := RemoveProduct(db.entries, id);
    db.history := db.history + [HistoryRecord(id, Decrease, product.stock, "Product deleted", user)];
    reply := Deleted;
  }

  /** Removing a product's entries keeps the remaining ids distinct and below the counter. */
  lemma {:induction false} RemoveKeepsIds(entries: seq<Entry>, p: ProductId, bound: nat)
    requires UniqueIds(entries) && forall i :: 0 <= i < |entries| ==> entries[i].id < bound
    ensures UniqueIds(RemoveProduct(entries, p))
    ensures forall i :: 0 <= i < |RemoveProduct(entries, p)| ==> RemoveProduct(entries, p)[i].id < bound
    ensures forall e :: e in RemoveProduct(entries, p) ==> e in entries
  {
    if entries != [] {
      var front := entries[..|entries| - 1];
      var last := entries[|entries| - 1];
      RemoveKeepsIds(front, p, bound);
      var r := RemoveProduct(front, p);
      if last.product != p {
        forall i | 0 <= i < |r| ensures r[i].id != last.id {
          assert r[i] in front;
        }
      }
    }
  }

  /**
   * Deleting a product keeps every remaining product's stock in step with the
   * ledger when it was before, and leaves the deleted product nothing in the ledger.
   */
  lemma DeleteKeepsSync(products: map<ProductId, Product>, entries: seq<Entry>, id: ProductId)
    requires StockInSync(products, entries)
    ensures StockInSync(products - {id}, RemoveProduct(entries, id))
    ensures EntriesOf(RemoveProduct(entries, id), id) == []
  {
    EntriesOfAbsent(RemoveProduct(entries, id), id);
  }

  lemma {:induction false} EntriesOfAbsent(entries: seq<Entry>, p: ProductId)
    requires forall i :: 0 <= i < |entries| ==> entries[i].product != p
    ensures EntriesOf(entries, p) == []
  {
    if entries != [] {
      EntriesOfAbsent(entries[..|entries| - 1], p);
    }
  }
}
