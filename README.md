# Store backend stock keeping, in Dafny

This project models the stock keeping of an e-commerce store backend, with the
validators and the delivery adapter that sit around it, and proves properties
of that model. It covers:

- **The inventory ledger** (`Ledger`, `InventoryService`). One entry per
  (product, size, colour) variant holds a quantity. A product's `stock` is the
  denormalised sum of its entries' quantities. Every add, update and bulk
  update writes the ledger, recomputes the affected product's `stock` and
  appends a record to the inventory history.
- **Order creation** (`OrderController`, `OrderModel`). The request guards run
  first. Then a loop looks up each item's product, checks its stock, prices the
  line in the order currency and lowers the product's `stock` on the spot. The
  order is then stored, if the order schema and the unique index on the order
  number admit it. `updateOrderStatus` overwrites a stored order's status.
- **Product variants** (`ProductController`). `createProduct` saves the
  sizes × colours matrix of inventory entries. `updateProduct` reconciles a new
  matrix with the product's current entries and records every change.
  `deleteProduct` removes a product and its entries.
- **Validators** (`Validation`, `OrderModel`, `DeliveryController`). These are
  the product, review and colour-code checks, the order schema, and the guards
  of `createDeliveryOrder`.
- **The delivery adapter** (`DeliveryService`). It covers the per-partner
  payloads, the reading of partner replies, the delivery fee, and the guards in
  front of the call to the partner.

The document database is one `Store.Database` object:

- products and orders are maps keyed by id;
- the inventory collection is a sequence of entries with distinct ids, in
  collection order;
- the history is an append-only sequence;
- a counter hands out fresh ids.

Each service and controller operation is a method on that object with an exact
`modifies` frame. Each method's postcondition ties the new state to a pure
function of the old state. The properties are proved about those functions.

The central invariant is `Ledger.StockInSync`: every product's `stock` equals
the sum of its entries. The model shows:

- every inventory-service mutation keeps it;
- `deleteProduct` keeps it;
- `createProduct` keeps it exactly when the body's `stock` is |colours| × Σ size
  stock;
- `updateProduct` without new lists keeps it exactly when the body gives no
  `stock` or gives the ledger's sum;
- the order path breaks it by exactly the quantity ordered.

Modules: `Wrappers`, `Text` (trimming, digits, number rendering, JavaScript string length), `Pattern` (the
anchored character-class patterns the two regular expressions use), `Ledger`,
`Listing` (the sort orders of the queries), `Store`, `InventoryService`,
`OrderModel`, `OrderController`, `Validation`, `ProductController`,
`DeliveryService`, `DeliveryController`.

Where the system's design description and its code differ, the model follows
the code:

- The order path lowers `Product.stock` directly. It writes neither the ledger
  nor the history, and the aggregate drifts from the ledger
  (`OrderController.WalkLeavesLedgerBehind`).
- An order whose item loop stops early keeps the decrements already made. No
  transaction undoes them.
- `createProduct` appends one `increase` record of Σ size stock, not one record
  per entry. It stores the body's `stock` without recomputing it
  (`ProductController.CreateSyncIff`).
- `updateInventory` records the new absolute quantity, not the change.
- `bulkUpdateInventory` reports nothing per item. Unknown ids are silently
  skipped.
- `updateOrderStatus` accepts any status string
  (`OrderModel.UnlistedStatusBreaksConformance`).
- Reconciliation leaves entries whose variant left the matrix untouched.

## Model

| member | source | states |
|---|---|---|
| Ledger.IndexOf | services/inventoryService.js:32-36 | `findById` locates the first entry with the id; when it finds none, no entry has that id |
| Ledger.SetQuantity | services/inventoryService.js:32-36 | writing a quantity by id changes that entry's quantity only, and keeps the length and order of the ledger |
| Ledger.EntriesOf | services/inventoryService.js:123 | `find({ product })` returns only the product's entries, each taken from the ledger, and every one of them |
| Ledger.StockIsTotalOfEntries | services/inventoryService.js:123-124 | the stock sum equals the reduce over the entries `find({ product })` returns |
| Ledger.StockOfAppend | services/inventoryService.js:61-67 | saving one entry adds its quantity to its own product's sum and nothing to any other |
| Ledger.StockOfConcat | services/inventoryService.js:124 | the stock sum distributes over concatenated ledgers |
| Ledger.StockOfSetQuantity | services/inventoryService.js:32-43 | overwriting entry k's quantity with q changes its product's sum by q − old quantity and no other product's sum |
| Ledger.StockOfSetQuantityOther | services/inventoryService.js:97-104 | overwriting an entry of another product leaves a product's sum unchanged |
| Ledger.SetQuantityKeepsKeys | services/inventoryService.js:32-36 | a quantity write changes no id, product, size or colour |
| Ledger.RemoveProduct | controllers/productController.js:260 | `deleteMany({ product })` leaves no entry of the product, gives it a sum of 0, and keeps every other product's sum and entries |
| Ledger.Recompute | services/inventoryService.js:121-129 | `#updateProductStock` writes the product's sum into its `stock`, and only that field of that product; it does nothing when the product is missing |
| Ledger.RecomputeIdempotent | services/inventoryService.js:121-129 | recomputing twice with no ledger change in between is the same as recomputing once |
| Listing.BeforeTotal | services/inventoryService.js:23 | the sort keys order any two entries |
| Listing.BeforeTransitive | services/inventoryService.js:23 | the sort keys are transitive |
| Listing.Insert | services/inventoryService.js:88 | insertion adds exactly the one element and removes none |
| Listing.InsertSorted | services/inventoryService.js:88 | inserting into a sorted sequence keeps it sorted |
| Listing.Sort | services/inventoryService.js:88 | the result is sorted by the key and is a permutation of the input |
| InventoryService.GetAllInventory | services/inventoryService.js:8-17 | all entries, as a permutation, sorted by size then colour |
| InventoryService.GetProductInventory | services/inventoryService.js:19-28 | exactly the product's entries, as a permutation of `find({ product })`, sorted by size then colour |
| InventoryService.LowStockEntries | services/inventoryService.js:86 | the entries with status `low_stock`, every one of them and no other |
| InventoryService.GetLowStockItems | services/inventoryService.js:84-92 | exactly the `low_stock` entries, as a permutation, in non-decreasing quantity |
| InventoryService.UpdateProductStock | services/inventoryService.js:121-129 | the products become `Recompute` of the current ledger |
| InventoryService.CreateHistoryRecord | services/inventoryService.js:131-137 | the history grows by exactly the given record |
| InventoryService.UpdateInventory | services/inventoryService.js:30-59 | an unknown id fails NotFound and changes nothing; otherwise the quantity is written; a deleted owner fails 500 with the write kept; otherwise the owner's stock is recomputed from the written ledger, one `update` record of the absolute new quantity with reason `Manual update` is appended, and `StockInSync` is preserved |
| InventoryService.SettleProduct | services/inventoryService.js:121-137 | the closing steps of each mutation: the product, when it exists, gets the sum of its ledger entries as its stock, and exactly the given record is appended to the history |
| InventoryService.UpdatedStock | services/inventoryService.js:32-52 | after the write and the recompute, the owner's stock is its ledger sum, which is the old sum plus the new quantity minus the old one |
| InventoryService.UpdateKeepsSync | services/inventoryService.js:32-52 | a quantity write followed by the owner's recompute keeps every product's stock equal to its sum |
| InventoryService.AddInventory | services/inventoryService.js:61-82 | one entry with a fresh id is appended, its product's stock becomes old sum + quantity, one `increase` record of the saved quantity with reason `Initial stock` is appended, and `StockInSync` is preserved |
| InventoryService.AddKeepsSync | services/inventoryService.js:61-67 | saving an entry and recomputing its product keeps every product's stock equal to its sum |
| InventoryService.BulkHistoryShape | services/inventoryService.js:103-112 | a bulk update appends at most one `update` record per item, all with reason `Bulk update` and the caller as user: one per item when every id exists, none when none does |
| InventoryService.BulkKeepsKeys | services/inventoryService.js:96-101 | bulk writes keep every id, product and position of the ledger |
| InventoryService.BulkProductsSpec | services/inventoryService.js:94-119 | after a bulk update, each product an item touched holds its sum, and every other product is exactly as before |
| InventoryService.UntouchedStock | services/inventoryService.js:96-113 | a product no existing item names keeps its sum in the ledger |
| InventoryService.BulkKeepsSync | services/inventoryService.js:94-119 | a bulk update keeps every product's stock equal to its sum |
| InventoryService.UpdateBulkItem | services/inventoryService.js:96-112 | one item: its quantity is written; for an existing id the owner is recomputed and one `Bulk update` record appended; an unknown id changes nothing |
| InventoryService.BulkUpdateInventory | services/inventoryService.js:94-119 | the items processed in order: ledger, history and products become the bulk fold of the old state; touched products hold their sums, others are unchanged, and `StockInSync` is preserved |
| OrderModel.MobileShape | models/Order.js:76-84 | a mobile number is valid exactly when it is `+` followed by 10 to 14 digits |
| OrderModel.SecondaryMobileShape | models/Order.js:86-94 | a secondary number is valid exactly when it is empty or `+` followed by 10 to 14 digits |
| OrderModel.InsertKeepsNumbersUnique | models/Order.js:4-8 | storing an order the unique index admits keeps order numbers unique, and adds exactly one order |
| OrderModel.UnlistedStatusBreaksConformance | models/Order.js:106-110 | a status outside pending/processing/shipped/delivered/cancelled makes an order non-conforming |
| OrderModel.StatusUpdateKeepsNumbersUnique | models/Order.js:116 | changing an order's status keeps order numbers unique |
| OrderController.GuardError | controllers/orderController.js:11-26 | the request passes exactly when it has an item, an email and a mobile, a complete address and a supported currency; an empty item list is reported first, then missing contact details; every guard failure is a 400 |
| OrderController.WalkItems | controllers/orderController.js:33-59 | the loop accepts a prefix of the items, stops early exactly when it rejects one, and never adds or removes products |
| OrderController.WalkUnfold | controllers/orderController.js:33-59 | one more item is one more pass of the loop body |
| OrderController.WalkLines | controllers/orderController.js:45-54 | the order lines correspond one to one, in order, with the accepted items, each priced at product price × exchange rate |
| OrderController.WalkStock | controllers/orderController.js:56-58 | each product's stock drops by exactly the quantity the accepted items ask of it, and nothing else about any product changes |
| OrderController.WalkTotal | controllers/orderController.js:45-46 | `totalAmount` is Σ price × rate × quantity over the accepted items |
| OrderController.WalkFailure | controllers/orderController.js:34-42 | the loop stops at the first rejected item: not-found when its product is missing, else insufficient stock naming the product because the stock left is below the quantity asked |
| OrderController.WalkKeepsStockNonNegative | controllers/orderController.js:40-57 | because of the stock check, non-negative stocks stay non-negative |
| OrderController.WalkLeavesLedgerBehind | controllers/orderController.js:56-58 | from stocks in step with the ledger, each stock ends as its sum minus the accepted demand; stocks stay in step exactly when nothing was ordered |
| OrderController.FailureSticks | controllers/orderController.js:36-42 | after the loop returns at item k, the later items change nothing |
| OrderController.BuildOrder | controllers/orderController.js:62-79 | a new order has status `pending`, the number `OrderNumber(now)`, payment status `pending` for `cod` and `completed` otherwise, the loop's lines and total, the currency and rate, and the request's address, customer details and payment method |
| OrderController.OrderNumber | controllers/orderController.js:77 | the order number is `ORD` followed by digits |
| OrderController.OrderNumberInjective | controllers/orderController.js:77 | different clock readings give different order numbers |
| OrderController.VisitAccepts | controllers/orderController.js:40-58 | an item with a stored product and enough stock decrements that stock by its quantity, adds its line, and adds the line's price times its quantity to the total |
| OrderController.ReserveItem | controllers/orderController.js:34-58 | one pass of the loop body moves the loop state exactly as `Visit` does: not found, insufficient stock, or the accepted item's decrement, line and amount |
| OrderController.ReserveItems | controllers/orderController.js:29-59 | the loop's products, lines, total and early reply are those of `WalkItems` on the stored products |
| OrderController.CreateOrder | controllers/orderController.js:6-100 | a guard failure replies 400 and changes nothing; an early loop return keeps the decrements made and stores no order; otherwise the order is stored when it conforms and its number is unused, else 500 with the decrements kept; ledger and history never change |
| OrderController.SaveOrder | controllers/orderController.js:81 | the order is stored under a fresh id exactly when it conforms to the schema and its number is not taken; otherwise the save fails and nothing is stored |
| OrderController.UpdateOrderStatus | controllers/orderController.js:129-147 | an unknown id replies not-found and changes nothing; otherwise only that order's status changes, to the value given |
| Validation.HexColorShape | utils/validation.js:68-70 | a colour code is valid exactly when it is `#` followed by six hex digits |
| Validation.CollectColorErrors | utils/validation.js:39-46 | the colour loop yields exactly the per-colour messages, in order |
| Validation.CollectSizeErrors | utils/validation.js:52-59 | the size loop yields exactly the per-size messages, in order |
| Validation.EachMemberAt | utils/validation.js:39-46 | every message a `forEach` body gives for one element is among the loop's messages |
| Validation.EachMemberSource | utils/validation.js:39-46 | every message a `forEach` loop pushes was given by its body for some element, at that element's position |
| Validation.ValidateProductData | utils/validation.js:11-66 | the messages are those of every check in push order; `isValid` holds exactly when there is none, which is exactly when every field passes |
| Validation.FieldMessages | utils/validation.js:15-25 | the name, description and price messages appear exactly when that field is blank, blank, or missing or ≤ 0 |
| Validation.ColorErrorsSpec | utils/validation.js:36-47 | a missing or empty colour list gives one message and no per-colour ones; otherwise a message for each colour with a blank name and each with a bad code, and no other |
| Validation.SizeErrorsSpec | utils/validation.js:49-60 | a missing or empty size list gives one message; otherwise a message for each blank size name and each stock that is not a number or is negative, and no other |
| Validation.ColorListSilentIff | utils/validation.js:39-46 | the colour loop is silent exactly when every colour has a name and a valid code |
| Validation.SizeListSilentIff | utils/validation.js:52-59 | the size loop is silent exactly when every size has a name and a numeric stock ≥ 0 |
| Validation.ProductErrorsEmptyIff | utils/validation.js:62-65 | the error list is empty exactly when the body is valid field by field |
| Validation.ValidSizesHaveStock | utils/validation.js:49-60 | a body that validates has a non-empty size list whose stocks are all numbers ≥ 0 |
| Text.Utf16Length | utils/validation.js:81 | JavaScript's `length` counts one code unit per character below U+10000 and two for every other one, so it lies between the character count and twice that |
| Text.Utf16LengthPlain | utils/validation.js:81 | a string with no character above U+FFFF has a `length` equal to its character count |
| Text.Utf16LengthAstral | utils/validation.js:81 | a string of characters above U+FFFF has a `length` of twice its character count |
| Validation.ValidateReviewData | utils/validation.js:72-97 | a review is valid exactly when the rating is 1 to 5, the comment is non-blank and at least 10 UTF-16 code units long, and the photos, when given, are an array of at most 5; each message appears exactly when its check fails, the "must be an array" one exactly when `photos` is given but is not an array |
| Validation.AstralCommentLongEnough | utils/validation.js:81 | a comment of five emoji passes the length check, since `length` counts each as two code units |
| ProductController.CombosLength | controllers/productController.js:137-148 | the matrix has (number of sizes) × (number of colours) combinations |
| ProductController.CombosCover | controllers/productController.js:137-148 | the matrix is the sizes-by-colours grid in size-major order: size i with colour j sits at position i × (number of colours) + j, carrying size i's stock |
| ProductController.CombosTotal | controllers/productController.js:137-148 | the matrix's stock total is the number of colours times the sum of the sizes' stocks |
| ProductController.MatrixEntries | controllers/productController.js:139-146 | entry k of the saved matrix is combination k with a fresh id, location `Main Warehouse` and threshold 5 |
| ProductController.MatrixStock | controllers/productController.js:137-150 | the saved matrix adds its total to its product's sum and nothing to any other |
| ProductController.CreateKeepsFeaturedRanked | controllers/productController.js:131 | giving a new featured product the count of featured products keeps the featured positions distinct and below the count |
| ProductController.SaveMatrix | controllers/productController.js:137-150 | the inventory saves append the matrix entries in order with consecutive fresh ids |
| ProductController.SaveProduct | controllers/productController.js:123-131 | the product is stored under a fresh id that no product held, and nothing else in the catalogue changes |
| ProductController.SaveCreated | controllers/productController.js:131-159 | the writes of a valid body, in order: the product under a fresh id, its matrix of entries with the following ids, then one `increase` record of the sizes' stock sum with reason `Initial stock` |
| ProductController.CreateProduct | controllers/productController.js:112-166 | an invalid body replies with the validator's messages and writes nothing; otherwise the reply carries the new id and the product with the converted price, the images and its featured position, and the writes are those of `SaveCreated` |
| ProductController.CreatedMatrix | controllers/productController.js:137-150 | the created entries number (sizes) × (colours); the one at position i × (number of colours) + j is size i with colour j, that size's stock, threshold 5, location `Main Warehouse`, and the id allocated at that position |
| ProductController.CreatedStock | controllers/productController.js:137-159 | the created entries raise the new product's sum by the number of colours times the quantity the history record states, and no other product's sum |
| ProductController.CreateSyncIff | controllers/productController.js:127-150 | the new product is in step with the ledger exactly when the body's `stock` is the number of colours times the sum of the sizes' stocks |
| ProductController.Apply | controllers/productController.js:171-178 | an empty update leaves the product as it was; the stored `stock` becomes the body's `stock` when one is given and is otherwise kept |
| ProductController.ApplyFields | controllers/productController.js:171-178 | every other field the body gives replaces the stored one, and every field it omits is kept |
| ProductController.ApplyIdempotent | controllers/productController.js:171-178 | sending the same update twice leaves the product as the first one did |
| ProductController.PatchSyncIff | controllers/productController.js:171-178 | a product in step with the ledger stays so after the update exactly when the body gives no `stock` or gives the ledger's sum |
| ProductController.FindCombo | controllers/productController.js:201-203 | the match found is the first snapshot entry with the same size and colour: it matches, no earlier entry matches, and none matches when nothing is found |
| ProductController.ReconcileStepNet | controllers/productController.js:205-237 | one combination only appends to the history, and the records it appends sum to its change of stock (new minus old quantity, or the whole stock for a new variant) |
| ProductController.ReconcileStepStock | controllers/productController.js:205-229 | one combination changes the product's stock sum in the ledger by that same change and no other product's sum |
| ProductController.ReconcileStepInvariant | controllers/productController.js:200-237 | one combination keeps ledger ids distinct and below the counter, and keeps every snapshot entry in the ledger as the snapshot holds it |
| ProductController.ReconcileStepSpec | controllers/productController.js:200-239 | one combination keeps the reconciliation invariant, only appends to the history, changes the product's sum by the signed sum of the records it appends, and leaves every other product's sum alone |
| ProductController.ReconInvStart | controllers/productController.js:186-187 | the snapshot `Inventory.find({ product })` taken from a ledger whose ids are distinct and below the counter satisfies the reconciliation invariant |
| ProductController.ReconcileKeepsInv | controllers/productController.js:199-240 | the whole reconciliation keeps its invariant, never lowers the id counter and only appends to the history |
| ProductController.ReconcileBalances | controllers/productController.js:199-240 | the signed sum of the records appended equals the change of the product's stock sum |
| ProductController.AppendedBalance | controllers/productController.js:199-240 | the history is the old history plus the appended records, whose signed sum is the change of the product's sum |
| ProductController.ReconcileOtherStock | controllers/productController.js:199-240 | other products' stock sums are unchanged |
| ProductController.ReconcileLeavesOthers | controllers/productController.js:190-240 | entries of other products, and of variants not in the new matrix, stay exactly where and as they were; no entry is removed |
| ProductController.ExistingVariant | controllers/productController.js:205-219 | a matched variant's entry gets the new stock; an unchanged quantity appends no record, a changed one appends one `increase` or `decrease` record of the absolute difference between the new and old quantities, with reason `Stock update` |
| ProductController.NewVariantAdded | controllers/productController.js:220-237 | an unmatched variant adds one entry (main warehouse, threshold 5) and one `increase` record of its stock with reason `New size/color added` |
| ProductController.ReconcileCombo | controllers/productController.js:200-239 | one loop step on the database is `ReconcileStep` and keeps the store's id invariants |
| ProductController.UpdateVariant | controllers/productController.js:205-219 | a matched combination overwrites its entry's quantity and appends a record only when the quantity changed, as `ReconcileStep` states; ids stay distinct |
| ProductController.AddVariant | controllers/productController.js:220-237 | an unmatched combination appends one entry under a fresh id and one `increase` record, as `ReconcileStep` states |
| ProductController.ReconcileVariants | controllers/productController.js:186-240 | the loop over the matrix from the snapshot of the product's entries is `Reconcile` |
| ProductController.NewCombinations | controllers/productController.js:190-196 | the matrix can be built exactly when `sizes` is given and `colors` is given or `sizes` is empty |
| ProductController.UpdateProduct | controllers/productController.js:169-248 | an unknown id replies 404 and changes nothing; otherwise the fields are stored first, then the new matrix is reconciled, or the reply is 400 with the fields kept when a list is missing; with neither list given, a product in step with the ledger stays so exactly when the body gives no `stock` or gives the ledger's sum |
| ProductController.StoreFields | controllers/productController.js:171-178 | the product under the id becomes `Apply` of the body and nothing else in the catalogue changes; stock sync is kept exactly as `PatchSyncIff` says |
| ProductController.UpdateMatrix | controllers/productController.js:186-240 | a missing list fails with its message and writes nothing; otherwise the ledger, history and counter become those of `Reconcile` from the snapshot of the product's entries |
| ProductController.DeleteProduct | controllers/productController.js:251-275 | an unknown id replies 404 and changes nothing; otherwise the product and all its entries are removed and one `decrease` record of its stored `stock` is appended |
| ProductController.RemoveKeepsIds | controllers/productController.js:260 | deleting a product's entries keeps the remaining ids distinct |
| ProductController.DeleteKeepsSync | controllers/productController.js:253-260 | deletion keeps every remaining product in step with the ledger and leaves the deleted product no entries |
| DeliveryService.FormatOrderForCompany | services/deliveryService.js:33-78 | THREE_MINDS and ARAMEX payloads are built exactly when the fields they read through are present; any other code fails with `Unsupported delivery company: <code>` |
| DeliveryService.ThreeMindsPayload | services/deliveryService.js:36-53 | the mobile keeps exactly its digits, the name is first + " " + last, cost is the total, the order type is "1", and missing coordinates take the fixed defaults |
| DeliveryService.AramexPayload | services/deliveryService.js:56-73 | reference is the order number, cash on delivery is the total, weight is 1 |
| DeliveryService.ParseResponse | services/deliveryService.js:80-104 | THREE_MINDS succeeds exactly when the reply has no error; ARAMEX takes the reply's `success`; both report a non-empty status; any other code gives `success: false` with `Unknown delivery company response format` |
| DeliveryService.ParsedStatus | services/deliveryService.js:85-94 | the partner's status is passed through, and `pending` stands in when it is absent |
| DeliveryService.TotalWeightConcat | services/deliveryService.js:119 | the weight sum distributes over concatenated item lists |
| DeliveryService.UnweighedItems | services/deliveryService.js:119 | items without a weight count 0 |
| DeliveryService.DeliveryFee | services/deliveryService.js:106-134 | a missing company fails `Delivery company not found`; every mode but `weight` costs the base price; `weight` costs the base price times the sum of the item weights |
| DeliveryService.WeightFeeAdditive | services/deliveryService.js:117-120 | under weight pricing the fee of an order is the sum of the fees of any split of its items |
| DeliveryService.WeightFeeUnits | services/deliveryService.js:117-120 | under weight pricing an order with no items costs 0, and a one-item order costs the base price times its weight, or 0 when the item has no weight |
| DeliveryService.SendOrderToDelivery | services/deliveryService.js:5-31 | a missing or inactive company fails before any payload is built; something is posted exactly when the company is active and formatting succeeds; an answer is parsed with the company's code; every failure carries a non-empty message |
| DeliveryService.UnpostedIgnoresNetwork | services/deliveryService.js:7-17 | a send that fails before posting fails with the generic message, whatever the network would say |
| DeliveryController.Screen | controllers/deliveryController.js:62-81 | a missing company id is refused first; a missing order then makes the handler throw; then a missing street or mobile is refused, then a mobile with fewer than 10 digits; a request goes on to the service exactly when it has a company id, an order, a street and a mobile with at least 10 digits |
| DeliveryController.FailureText | controllers/deliveryController.js:93 | the error text of an unsuccessful send is never empty |
| DeliveryController.CreateDeliveryOrder | controllers/deliveryController.js:60-102 | a refused request is a 400 with its message; a missing order is a 500 `Failed to create delivery order` carrying the runtime's TypeError text; the order is sent, with `orderStatus: processing`, exactly when the guards pass and the service reports success; any other outcome is a 500 `Failed to create delivery order` |
| DeliveryController.GuardsComeFirst | controllers/deliveryController.js:64-84 | a request the guards stop, by a 400 or by the crash on a missing order, posts nothing, and its reply depends on neither the companies nor the network |
| DeliveryController.ValidRequestReachesService | controllers/deliveryController.js:64-84 | a request that passes the guards is never a 400 and posts what the service posts |
| DeliveryController.PostedMobileHasTenDigits | controllers/deliveryController.js:76-84 | a THREE_MINDS payload that gets posted carries a mobile number of at least 10 digits, all digits |

## Left out

- I/O: the database driver, `populate`, HTTP responses beyond status and message, logging, and the partner HTTP call. The call's outcome is a parameter of `DeliveryService.SendOrderToDelivery` and `DeliveryController.CreateDeliveryOrder`.
- Storage failures. No save, update or delete fails for storage reasons, so the 500 replies those would give are not modelled.
- Concurrency. The `Promise.all` fan-outs of `bulkUpdateInventory`, `createProduct` and `updateProduct` are taken item by item, in order. Interleavings, lost updates and duplicate combinations saved in parallel are not modelled.
- Floating point and coercion. Prices, exchange rates, weights and fees are integers. `parseFloat`, `isNaN` and JavaScript's loose comparisons are reduced to "is a number" as an `Option`.
- The clock. `Date.now()` in the order number is the parameter `now`.
- Schemas not part of this model: models/Inventory.js, models/Product.js and models/InventoryHistory.js. An entry's `status` is derived from quantity and threshold when it is created and is never re-derived afterwards.
- InventoryService.UpdateInventory: does not model the schema validators that `runValidators` would apply to a negative quantity. The Inventory schema is not part of this model.
- InventoryService.AddInventory: does not model the 400 `Error adding inventory record` that a save rejected by the Inventory schema gives. The schema is not part of this model.
- InventoryService.GetAllInventory: the sort on `product.name` is not modelled. That path is not a field of an inventory document at the time of sorting, so only size and colour order the result.
- `convertPrice`, `SUPPORTED_CURRENCIES`, `handleProductImages` and `validateImageUrl` belong to code that is not part of this model. Their results are parameters: the stored price, the validated images and a map of exchange rates.
- ProductController.CreateProduct: does not model the 400 reply a failing image upload or price conversion would give. Those collaborators are not part of this model.
- `getProducts`, `searchProducts`, `getProductById`, and the inventory controller (a thin wrapper over the service).
- The delivery company CRUD handlers, `calculateDeliveryFee`'s HTTP wrapper and `getDeliveryStatus`. They are plain persistence with no rules beyond a not-found reply.
- DeliveryService.FormatOrderForCompany: a missing first or last name renders as the text `undefined` in JavaScript. The model has the empty string there instead.
- DeliveryService.ParseResponse: a partner `error` that is a falsy value other than the empty string (`0`, `false`, `null`) is not modelled.
- DeliveryController.Screen: an `order` that is `null` rather than absent is treated as absent. JavaScript's TypeError would then say `null` instead of `undefined`.
- Announcements, settings, backgrounds, routing, authentication and server start-up are outside the modelled core.
