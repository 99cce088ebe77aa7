/**
 * The order handlers: creating an order from requested line items (stock
 * check, stock decrement, total, then the writes), replacing an order's
 * status, and deleting an order together with its order items.
 */
module OrderController {
  import opened Models

  /** One entry of the request's `orderItems`: a product and how many of it. */
  datatype LineItem = LineItem(product: Id, quantity: nat)

  /** The body of an order-creation request. */
  datatype OrderRequest = OrderRequest(
    orderItems: seq<LineItem>,
    shipping: Shipping,
    status: string,
    user: Id)

  /**
   * A product document as the stock check loads it: only its stock and price
   * are selected. `modified` is the document's change tracking: assigning a
   * stock different from the loaded one marks it, and saving an unmarked
   * document writes nothing.
   */
  datatype Selected = Selected(id: Id, countInStock: int, price: int, modified: bool)

  const INSUFFICIENT_STOCK := HttpError(500, "Quantity of product in stock less than quantity in order!")
  const ORDER_NOT_FOUND := HttpError(500, "Order was not found!")
  const ORDER_NOT_FOUND_ON_DELETE := HttpError(404, "Order was not found!")

  // ---------------------------------------------------------------------------
  // Specification of order creation

  /** The stored product exists and its stock covers the line item. */
  predicate Fits(stored: map<Id, Product>, item: LineItem)
  {
    item.product in stored && stored[item.product].countInStock - item.quantity >= 0
  }

  predicate AllFit(stored: map<Id, Product>, items: seq<LineItem>)
  {
    forall k :: 0 <= k < |items| ==> Fits(stored, items[k])
  }

  /** Every line item names a stored product. */
  predicate Known(stored: map<Id, Product>, items: seq<LineItem>)
  {
    forall k :: 0 <= k < |items| ==> items[k].product in stored
  }

  /**
   * The verdict of the stock-check loop, `None` when every line item passes.
   * Each item is checked against the stock as stored, in request order; the
   * first item whose product is missing (the handler then reads a field of
   * `null` and throws) or whose stock would go below zero decides the error.
   */
  function StockCheck(stored: map<Id, Product>, items: seq<LineItem>): (r: Option<HttpError>)
    ensures r == None <==> AllFit(stored, items)
    ensures r != None ==> r == Some(SOMETHING_WENT_WRONG) || r == Some(INSUFFICIENT_STOCK)
  {
    if |items| == 0 then None
    else if items[0].product !in stored then Some(SOMETHING_WENT_WRONG)
    else if stored[items[0].product].countInStock - items[0].quantity < 0 then Some(INSUFFICIENT_STOCK)
    else
      var r := StockCheck(stored, items[1..]);
      assert AllFit(stored, items[1..]) ==> AllFit(stored, items) by {
        if AllFit(stored, items[1..]) {
          forall k | 0 < k < |items| ensures Fits(stored, items[k]) {
            assert items[k] == items[1..][k - 1];
          }
        }
      }
      r
  }

  /** A rejected request reports the first line item that does not fit: missing product or short stock. */
  lemma {:induction false} StockCheckReportsFirstMisfit(stored: map<Id, Product>, items: seq<LineItem>, j: nat)
    requires j < |items| && !Fits(stored, items[j])
    requires forall k :: 0 <= k < j ==> Fits(stored, items[k])
    ensures StockCheck(stored, items)
         == Some(if items[j].product in stored then INSUFFICIENT_STOCK else SOMETHING_WENT_WRONG)
  {
    if j > 0 {
      StockCheckReportsFirstMisfit(stored, items[1..], j - 1);
      assert Fits(stored, items[0]);
    }
  }

  /** Every product the request names has a price of at least 0. */
  predicate PricesNonNegative(stored: map<Id, Product>, items: seq<LineItem>)
    requires Known(stored, items)
  {
    forall k :: 0 <= k < |items| ==> stored[items[k].product].price >= 0
  }

  /**
   * The order total: the sum of quantity times stored price, over the line
   * items in request order. No product with a negative price, no negative
   * total.
   */
  function Total(stored: map<Id, Product>, items: seq<LineItem>): (t: int)
    requires Known(stored, items)
    ensures PricesNonNegative(stored, items) ==> t >= 0
  {
    if |items| == 0 then 0
    else
      var last := items[|items| - 1];
      assert PricesNonNegative(stored, items) ==> PricesNonNegative(stored, items[..|items| - 1]);
      Total(stored, items[..|items| - 1]) + last.quantity * stored[last.product].price
  }

  /** Extending the request by one line item adds that item's quantity times its stored price. */
  lemma TotalStep(stored: map<Id, Product>, items: seq<LineItem>, i: nat)
    requires i < |items| && Known(stored, items[..i + 1])
    ensures Known(stored, items[..i])
    ensures Total(stored, items[..i + 1]) == Total(stored, items[..i]) + items[i].quantity * stored[items[i].product].price
  {
    assert items[..i + 1][..i] == items[..i];
    assert items[..i + 1][i] == items[i];
  }

  /** The total of a concatenation of requests is the sum of their totals. */
  lemma {:induction false} TotalAppend(stored: map<Id, Product>, a: seq<LineItem>, b: seq<LineItem>)
    requires Known(stored, a) && Known(stored, b)
    ensures Known(stored, a + b)
    ensures Total(stored, a + b) == Total(stored, a) + Total(stored, b)
    decreases |b|
  {
    assert forall k :: 0 <= k < |a + b| ==> (a + b)[k] == (if k < |a| then a[k] else b[k - |a|]);
    if |b| > 0 {
      var init := b[..|b| - 1];
      TotalAppend(stored, a, init);
      assert (a + b)[..|a + b| - 1] == a + init;
    } else {
      assert a + b == a;
    }
  }

  /**
   * The products after the handler's final saves. The k-th save writes back
   * the k-th selected document, whose stock is the STORED stock minus the k-th
   * quantity; only `countInStock` is written. Later saves of the same product
   * overwrite earlier ones. A line item of quantity 0 leaves its copy's stock
   * as loaded, so the copy is unmodified and its save writes nothing.
   */
  function StockAfter(stored: map<Id, Product>, items: seq<LineItem>): (m: map<Id, Product>)
    requires Known(stored, items)
    ensures m.Keys == stored.Keys
  {
    if |items| == 0 then stored
    else
      var m := StockAfter(stored, items[..|items| - 1]);
      var last := items[|items| - 1];
      if last.quantity == 0 then m
      else m[last.product := m[last.product].(countInStock := stored[last.product].countInStock - last.quantity)]
  }

  /** The saves change the stock of a product and nothing else of it. */
  lemma {:induction false} StockAfterOnlyStock(stored: map<Id, Product>, items: seq<LineItem>, p: Id)
    requires Known(stored, items) && p in stored
    ensures StockAfter(stored, items)[p] == stored[p].(countInStock := StockAfter(stored, items)[p].countInStock)
  {
    if |items| > 0 {
      StockAfterOnlyStock(stored, items[..|items| - 1], p);
    }
  }

  /** A product no line item of non-zero quantity names keeps its stored record. */
  lemma {:induction false} StockAfterUntouched(stored: map<Id, Product>, items: seq<LineItem>, p: Id)
    requires Known(stored, items) && p in stored
    requires forall k :: 0 <= k < |items| ==> items[k].product != p || items[k].quantity == 0
    ensures StockAfter(stored, items)[p] == stored[p]
  {
    if |items| > 0 {
      StockAfterUntouched(stored, items[..|items| - 1], p);
    }
  }

  /**
   * A product's stock after the saves is its stored stock minus the quantity
   * of the LAST line item of non-zero quantity naming it; nothing else of the
   * product changes. For a product named once this is exactly its own
   * quantity.
   */
  lemma {:induction false} StockAfterLastOccurrence(stored: map<Id, Product>, items: seq<LineItem>, j: nat)
    requires Known(stored, items) && j < |items| && items[j].quantity > 0
    requires forall k :: j < k < |items| && items[k].product == items[j].product ==> items[k].quantity == 0
    ensures StockAfter(stored, items)[items[j].product]
         == stored[items[j].product].(countInStock := stored[items[j].product].countInStock - items[j].quantity)
  {
    if j < |items| - 1 {
      var init := items[..|items| - 1];
      assert init[j] == items[j];
      assert forall k :: j < k < |init| ==> init[k] == items[k];
      StockAfterLastOccurrence(stored, init, j);
    } else {
      StockAfterOnlyStock(stored, items[..|items| - 1], items[j].product);
    }
  }

  /** When every line item fits, no product the request names ends with negative stock. */
  lemma {:induction false} StockAfterNonNegative(stored: map<Id, Product>, items: seq<LineItem>)
    requires AllFit(stored, items)
    ensures Known(stored, items)
    ensures forall k :: 0 <= k < |items| ==> StockAfter(stored, items)[items[k].product].countInStock >= 0
  {
    assert Known(stored, items) by {
      forall k | 0 <= k < |items| ensures items[k].product in stored {
        assert Fits(stored, items[k]);
      }
    }
    if |items| > 0 {
      var init := items[..|items| - 1];
      assert AllFit(stored, init) by {
        forall k | 0 <= k < |init| ensures Fits(stored, init[k]) {
          assert init[k] == items[k];
        }
      }
      StockAfterNonNegative(stored, init);
      assert Fits(stored, items[|items| - 1]);
      var last := items[|items| - 1];
      forall k | 0 <= k < |items|
        ensures StockAfter(stored, items)[items[k].product].countInStock >= 0
      {
        var q := items[k].product;
        if last.quantity != 0 && last.product == q {
          assert Fits(stored, last);
        } else if k < |items| - 1 {
          assert items[k] == init[k];
        } else if exists i :: 0 <= i < |init| && init[i].product == q {
          var i :| 0 <= i < |init| && init[i].product == q;
          assert StockAfter(stored, init)[init[i].product].countInStock >= 0;
        } else {
          StockAfterUntouched(stored, init, q);
          assert Fits(stored, items[k]);
        }
      }
    }
  }

  /**
   * Two line items for one product are each checked against the stored stock,
   * not against the stock left by the first: both pass whenever each quantity
   * alone fits, even when together they exceed the stock. The customer is
   * charged for both, and the stock written back is reduced by the second
   * quantity only, or by the first when the second is 0 and its save writes
   * nothing.
   */
  lemma RepeatedProductCheckedAgainstStoredStock(stored: map<Id, Product>, p: Id, a: nat, b: nat)
    requires p in stored
    requires stored[p].countInStock - a >= 0 && stored[p].countInStock - b >= 0
    ensures StockCheck(stored, [LineItem(p, a), LineItem(p, b)]) == None
    ensures Total(stored, [LineItem(p, a), LineItem(p, b)]) == a * stored[p].price + b * stored[p].price
    ensures StockAfter(stored, [LineItem(p, a), LineItem(p, b)])[p].countInStock
         == stored[p].countInStock - (if b > 0 then b else a)
  {
    var items := [LineItem(p, a), LineItem(p, b)];
    assert items[..1] == [LineItem(p, a)] && items[..1][..0] == [];
    assert Total(stored, items[..1]) == a * stored[p].price;
    assert StockAfter(stored, items[..1])[p].countInStock == stored[p].countInStock - a;
    assert AllFit(stored, items) by {
      assert Fits(stored, items[0]) && Fits(stored, items[1]);
    }
  }

  /** The identifiers handed to the new order items: consecutive from `base`, one per line item. */
  function ItemIds(base: Id, n: nat): (ids: seq<Id>)
    ensures |ids| == n
    ensures forall i, j :: 0 <= i < j < n ==> ids[i] < ids[j]
    ensures forall i :: 0 <= i < n ==> base <= ids[i] < base + n
  {
    seq(n, k => base + k)
  }

  /** The order-item records written for a request: the k-th line item under id `base + k`. */
  function ItemRecords(base: Id, items: seq<LineItem>): (m: map<Id, OrderItem>)
    ensures forall x :: x in m ==> base <= x < base + |items|
  {
    if |items| == 0 then map[]
    else
      var last := items[|items| - 1];
      ItemRecords(base, items[..|items| - 1])[base + |items| - 1 := OrderItem(last.quantity, last.product)]
  }

  /** The record under `base + k` is the k-th line item's. */
  lemma {:induction false} ItemRecordAt(base: Id, items: seq<LineItem>, k: nat)
    requires k < |items|
    ensures base + k in ItemRecords(base, items)
    ensures ItemRecords(base, items)[base + k] == OrderItem(items[k].quantity, items[k].product)
  {
    if k < |items| - 1 {
      var init := items[..|items| - 1];
      ItemRecordAt(base, init, k);
      assert init[k] == items[k];
    }
  }

  /** Exactly the ids `base` to `base + |items| - 1` are written. */
  lemma {:induction false} ItemRecordKeys(base: Id, items: seq<LineItem>)
    ensures forall x :: x in ItemRecords(base, items) <==> base <= x < base + |items|
  {
    if |items| > 0 {
      ItemRecordKeys(base, items[..|items| - 1]);
    }
  }

  /**
   * The order's id list names, in request order, one record per line item,
   * holding that item's product and quantity, and no other record is written.
   */
  lemma OrderItemsFollowRequest(base: Id, items: seq<LineItem>)
    ensures |ItemIds(base, |items|)| == |items|
    ensures forall k :: 0 <= k < |items| ==>
      ItemIds(base, |items|)[k] in ItemRecords(base, items)
      && ItemRecords(base, items)[ItemIds(base, |items|)[k]] == OrderItem(items[k].quantity, items[k].product)
    ensures forall x :: x in ItemRecords(base, items) <==> x in ItemIds(base, |items|)
  {
    var ids := ItemIds(base, |items|);
    forall k | 0 <= k < |items|
      ensures ids[k] in ItemRecords(base, items)
      ensures ItemRecords(base, items)[ids[k]] == OrderItem(items[k].quantity, items[k].product)
    {
      ItemRecordAt(base, items, k);
    }
    ItemRecordKeys(base, items);
    forall x | x in ItemRecords(base, items) ensures x in ids {
      assert ids[x - base] == x;
    }
  }

  /** The ids a list names. */
  function Elements(ids: seq<Id>): set<Id>
  {
    set x | x in ids
  }

  function ItemSaves(ids: seq<Id>): seq<Write>
  {
    seq(|ids|, k requires 0 <= k < |ids| => SaveOrderItem(ids[k]))
  }

  /** The product writes of the final loop: one per line item of non-zero quantity, in request order. */
  function ProductSaves(items: seq<LineItem>): (w: seq<Write>)
    ensures |w| <= |items|
    ensures forall i :: 0 <= i < |w| ==> w[i].SaveProduct?
  {
    if |items| == 0 then []
    else
      var last := items[|items| - 1];
      ProductSaves(items[..|items| - 1]) + (if last.quantity == 0 then [] else [SaveProduct(last.product)])
  }

  /** In the writes of an accepted order every order-item save precedes the order save, which precedes every product save. */
  lemma WritesOrdered(ids: seq<Id>, orderId: Id, items: seq<LineItem>)
    ensures var w := ItemSaves(ids) + [SaveOrder(orderId)] + ProductSaves(items);
      && (forall i, j :: 0 <= i < |w| && 0 <= j < |w| && w[i].SaveOrderItem? && !w[j].SaveOrderItem? ==> i < j)
      && (forall i, j :: 0 <= i < |w| && 0 <= j < |w| && w[i].SaveOrder? && w[j].SaveProduct? ==> i < j)
      && w[|ids|] == SaveOrder(orderId)
  {
  }

  // ---------------------------------------------------------------------------
  // Handlers

  /** What the stock-check loop hands to the saves: the new order items, the decremented product copies, their ids, the total. */
  datatype Resolved = Resolved(orderItems: seq<OrderItem>, products: seq<Selected>, ids: seq<Id>, totalPrice: int)

  /** The k-th order item holds the k-th line item's quantity and product. */
  predicate ItemsFor(items: seq<LineItem>, orderItems: seq<OrderItem>)
  {
    && |orderItems| == |items|
    && forall k :: 0 <= k < |items| ==> orderItems[k] == OrderItem(items[k].quantity, items[k].product)
  }

  /**
   * The k-th selected copy is the k-th line item's stored product with that
   * item's quantity taken off, marked modified exactly when the quantity is
   * not 0.
   */
  predicate SelectedFor(stored: map<Id, Product>, items: seq<LineItem>, products: seq<Selected>)
  {
    && |products| == |items|
    && forall k :: 0 <= k < |items| ==>
      && items[k].product in stored
      && products[k] == Selected(items[k].product,
           stored[items[k].product].countInStock - items[k].quantity,
           stored[items[k].product].price,
           items[k].quantity != 0)
  }

  /** Accepting line item `i` extends every loop invariant of `ResolveLineItems` by one item. */
  lemma ResolveStep(stored: map<Id, Product>, items: seq<LineItem>, i: nat,
                    orderItems: seq<OrderItem>, products: seq<Selected>)
    requires i < |items| && Fits(stored, items[i])
    requires AllFit(stored, items[..i]) && ItemsFor(items[..i], orderItems) && SelectedFor(stored, items[..i], products)
    ensures AllFit(stored, items[..i + 1]) && Known(stored, items[..i + 1])
    ensures ItemsFor(items[..i + 1], orderItems + [OrderItem(items[i].quantity, items[i].product)])
    ensures SelectedFor(stored, items[..i + 1], products + [Selected(items[i].product,
      stored[items[i].product].countInStock - items[i].quantity, stored[items[i].product].price, items[i].quantity != 0)])
  {
    var next := items[..i + 1];
    assert forall k :: 0 <= k < i ==> next[k] == items[..i][k];
    assert next[i] == items[i];
    assert AllFit(stored, next) by {
      forall k | 0 <= k < |next| ensures Fits(stored, next[k]) {
        if k < i {
          assert Fits(stored, items[..i][k]);
        }
      }
    }
  }

  /**
   * The loop of `createOrder`: for each line item in request order, build the
   * order item and take an id for it, read the product from the store, reject
   * the request if the product is missing or its stock would go below zero,
   * otherwise decrement the loaded copy and add quantity times price to the
   * total. Nothing is written. The store is read afresh at each item, but as
   * nothing has been written yet every item sees the stored stock.
   */
  method ResolveLineItems(db: Store, items: seq<LineItem>) returns (r: Result<Resolved, HttpError>)
    ensures StockCheck(db.products, items).Some? ==> r == Failure(StockCheck(db.products, items).value)
    ensures StockCheck(db.products, items) == None ==>
      && r.Success?
      && Known(db.products, items)
      && r.value.totalPrice == Total(db.products, items)
      && r.value.ids == ItemIds(db.nextId, |items|)
      && ItemsFor(items, r.value.orderItems)
      && SelectedFor(db.products, items, r.value.products)
  {
    var base := db.nextId;
    var orderItemsIdsResolved: seq<Id> := [];
    var products: seq<Selected> := [];
    var orderItems: seq<OrderItem> := [];
    var totalPrice := 0;

    var i := 0;
    while i < |items|
      invariant 0 <= i <= |items|
      invariant StockCheck(db.products, items) == StockCheck(db.products, items[i..])
      invariant AllFit(db.products, items[..i]) && Known(db.products, items[..i])
      invariant totalPrice == Total(db.products, items[..i])
      invariant orderItemsIdsResolved == ItemIds(base, i)
      invariant ItemsFor(items[..i], orderItems)
      invariant SelectedFor(db.products, items[..i], products)
    {
      var item := items[i];
      var newOrderItem := OrderItem(item.quantity, item.product);
      var newId := base + i;
      assert items[i..][1..] == items[i + 1..];
      if item.product !in db.products {
        // `product` is null and reading its stock throws
        return Failure(SOMETHING_WENT_WRONG);
      }
      var stored := db.products[item.product];
      var product := Selected(item.product, stored.countInStock, stored.price, false);
      if product.countInStock - item.quantity >= 0 {
        var newStock := product.countInStock - item.quantity;
        product := product.(countInStock := newStock, modified := newStock != stored.countInStock);
        assert product == Selected(item.product, stored.countInStock - item.quantity, stored.price, item.quantity != 0);
        ResolveStep(db.products, items, i, orderItems, products);
        orderItems := orderItems + [newOrderItem];
        products := products + [product];
      } else {
        return Failure(INSUFFICIENT_STOCK);
      }
      TotalStep(db.products, items, i);
      totalPrice := totalPrice + item.quantity * product.price;
      orderItemsIdsResolved := orderItemsIdsResolved + [newId];
      i := i + 1;
    }
    assert items[..i] == items;
    return Success(Resolved(orderItems, products, orderItemsIdsResolved, totalPrice));
  }

  /** The save loop over the new order items, in order. */
  method SaveOrderItems(db: Store, base: Id, items: seq<LineItem>, ids: seq<Id>, orderItems: seq<OrderItem>)
    requires ids == ItemIds(base, |items|) && ItemsFor(items, orderItems)
    modifies db
    ensures db.orderItems == old(db.orderItems) + ItemRecords(base, items)
    ensures db.log == old(db.log) + ItemSaves(ids)
    ensures db.products == old(db.products) && db.orders == old(db.orders)
    ensures db.categories == old(db.categories) && db.nextId == old(db.nextId)
  {
    var k := 0;
    while k < |orderItems|
      invariant 0 <= k <= |orderItems|
      invariant db.orderItems == old(db.orderItems) + ItemRecords(base, items[..k])
      invariant db.log == old(db.log) + ItemSaves(ids[..k])
      invariant db.products == old(db.products) && db.orders == old(db.orders)
      invariant db.categories == old(db.categories) && db.nextId == old(db.nextId)
    {
      assert items[..k + 1][..k] == items[..k];
      assert ItemSaves(ids[..k + 1]) == ItemSaves(ids[..k]) + [SaveOrderItem(ids[k])];
      db.orderItems := db.orderItems[ids[k] := orderItems[k]];
      db.log := db.log + [SaveOrderItem(ids[k])];
      k := k + 1;
    }
    assert items[..k] == items && ids[..k] == ids;
  }

  /** The save loop over the decremented product copies, in order: each modified copy writes its stock back. */
  method SaveProducts(db: Store, items: seq<LineItem>, products: seq<Selected>)
    requires SelectedFor(db.products, items, products)
    modifies db
    ensures Known(old(db.products), items)
    ensures db.products == StockAfter(old(db.products), items)
    ensures db.log == old(db.log) + ProductSaves(items)
    ensures db.orderItems == old(db.orderItems) && db.orders == old(db.orders)
    ensures db.categories == old(db.categories) && db.nextId == old(db.nextId)
  {
    ghost var stored := db.products;
    var j := 0;
    while j < |products|
      invariant 0 <= j <= |products|
      invariant SelectedFor(stored, items, products)
      invariant Known(stored, items[..j])
      invariant db.products == StockAfter(stored, items[..j])
      invariant db.log == old(db.log) + ProductSaves(items[..j])
      invariant db.orderItems == old(db.orderItems) && db.orders == old(db.orders)
      invariant db.categories == old(db.categories) && db.nextId == old(db.nextId)
    {
      assert items[..j + 1][..j] == items[..j] && items[..j + 1][j] == items[j];
      assert products[j].id == items[j].product;
      assert products[j].countInStock == stored[items[j].product].countInStock - items[j].quantity;
      assert products[j].modified == (items[j].quantity != 0);
      if products[j].modified {
        db.products := db.products[products[j].id := db.products[products[j].id].(countInStock := products[j].countInStock)];
        db.log := db.log + [SaveProduct(products[j].id)];
      }
      j := j + 1;
    }
    assert items[..j] == items;
  }

  /**
   * `createOrder`: resolve the line items (nothing is written if one is
   * rejected), then save the order items, then the order, then the products.
   * `orderSaved` is the store's answer to the order save; when it fails the
   * order items stay saved and nothing else is written.
   */
  method CreateOrder(db: Store, req: OrderRequest, orderSaved: bool) returns (r: Result<(Id, Order), HttpError>)
    requires db.Valid()
    modifies db
    ensures db.Valid()
    ensures StockCheck(old(db.products), req.orderItems).Some? ==>
      && r == Failure(StockCheck(old(db.products), req.orderItems).value)
      && unchanged(db)
    ensures StockCheck(old(db.products), req.orderItems) == None ==>
      var base := old(db.nextId);
      var n := |req.orderItems|;
      && db.orderItems == old(db.orderItems) + ItemRecords(base, req.orderItems)
      && db.categories == old(db.categories)
      && db.nextId == base + n + 1
      && (orderSaved ==>
        && Known(old(db.products), req.orderItems)
        && r == Success((base + n,
             Order(ItemIds(base, n), req.shipping, req.status, Total(old(db.products), req.orderItems), req.user)))
        && db.orders == old(db.orders)[base + n := r.value.1]
        && db.products == StockAfter(old(db.products), req.orderItems)
        && db.log == old(db.log) + ItemSaves(ItemIds(base, n)) + [SaveOrder(base + n)] + ProductSaves(req.orderItems))
      && (!orderSaved ==>
        && r == Failure(SOMETHING_WENT_WRONG)
        && db.orders == old(db.orders)
        && db.products == old(db.products)
        && db.log == old(db.log) + ItemSaves(ItemIds(base, n)))
  {
    var items := req.orderItems;
    var base := db.nextId;
    var resolved := ResolveLineItems(db, items);
    if resolved.Failure? {
      return Failure(resolved.error);
    }
    var Resolved(orderItems, products, ids, totalPrice) := resolved.value;

    // the ids of the order items and of the order are taken
    db.nextId := base + |items| + 1;
    ItemRecordKeys(base, items);
    SaveOrderItems(db, base, items, ids, orderItems);

    var orderId := base + |items|;
    var order := Order(ids, req.shipping, req.status, totalPrice, req.user);
    if !orderSaved {
      return Failure(SOMETHING_WENT_WRONG);
    }
    db.orders := db.orders[orderId := order];
    db.log := db.log + [SaveOrder(orderId)];

    SaveProducts(db, items, products);
    return Success((orderId, order));
  }

  /**
   * `updateOrder`: the order's status is replaced and every other field is
   * kept. A malformed id makes the lookup throw; an unknown one is reported.
   */
  method UpdateOrderStatus(db: Store, param: PathParam, status: string) returns (r: Result<Order, HttpError>)
    requires db.Valid()
    modifies db
    ensures db.Valid()
    ensures param.Malformed? ==> r == Failure(SOMETHING_WENT_WRONG) && unchanged(db)
    ensures param.Parsed? && param.id !in old(db.orders) ==> r == Failure(ORDER_NOT_FOUND) && unchanged(db)
    ensures param.Parsed? && param.id in old(db.orders) ==>
      var before := old(db.orders)[param.id];
      && r.Success?
      && r.value.status == status
      && r.value.orderItems == before.orderItems
      && r.value.shipping == before.shipping
      && r.value.totalPrice == before.totalPrice
      && r.value.user == before.user
      && db.orders == old(db.orders)[param.id := r.value]
      && db.products == old(db.products) && db.orderItems == old(db.orderItems)
      && db.categories == old(db.categories) && db.nextId == old(db.nextId)
      && db.log == old(db.log) + [UpdateOrder(param.id)]
  {
    if param.Malformed? {
      return Failure(SOMETHING_WENT_WRONG);
    }
    if param.id !in db.orders {
      return Failure(ORDER_NOT_FOUND);
    }
    var order := db.orders[param.id].(status := status);
    db.orders := db.orders[param.id := order];
    db.log := db.log + [UpdateOrder(param.id)];
    return Success(order);
  }

  /**
   * `deleteOrder`: the order is removed, then every order item its id list
   * names, in list order. Products are never touched. A malformed id makes the
   * lookup fail (500); an unknown one gives 404.
   */
  method DeleteOrderCascade(db: Store, param: PathParam) returns (r: Result<Order, HttpError>)
    requires db.Valid()
    modifies db
    ensures db.Valid()
    ensures param.Malformed? ==> r == Failure(SOMETHING_WENT_WRONG) && unchanged(db)
    ensures param.Parsed? && param.id !in old(db.orders) ==> r == Failure(ORDER_NOT_FOUND_ON_DELETE) && unchanged(db)
    ensures param.Parsed? && param.id in old(db.orders) ==>
      var doc := old(db.orders)[param.id];
      && r == Success(doc)
      && db.orders == old(db.orders) - {param.id}
      && db.orderItems == old(db.orderItems) - Elements(doc.orderItems)
      && db.products == old(db.products)
      && db.categories == old(db.categories) && db.nextId == old(db.nextId)
      && db.log == old(db.log) + [DeleteOrder(param.id)]
           + seq(|doc.orderItems|, k requires 0 <= k < |doc.orderItems| => DeleteOrderItem(doc.orderItems[k]))
  {
    if param.Malformed? {
      return Failure(SOMETHING_WENT_WRONG);
    }
    if param.id !in db.orders {
      return Failure(ORDER_NOT_FOUND_ON_DELETE);
    }
    var doc := db.orders[param.id];
    db.orders := db.orders - {param.id};
    db.log := db.log + [DeleteOrder(param.id)];
    ghost var logged := db.log;

    var ids := doc.orderItems;
    var k := 0;
    while k < |ids|
      invariant 0 <= k <= |ids|
      invariant db.orderItems == old(db.orderItems) - Elements(ids[..k])
      invariant db.log == logged + seq(k, i requires 0 <= i < k => DeleteOrderItem(ids[i]))
      invariant db.orders == old(db.orders) - {param.id}
      invariant db.products == old(db.products)
      invariant db.categories == old(db.categories) && db.nextId == old(db.nextId)
    {
      assert Elements(ids[..k + 1]) == Elements(ids[..k]) + {ids[k]} by {
        assert ids[..k + 1] == ids[..k] + [ids[k]];
      }
      db.orderItems := db.orderItems - {ids[k]};
      db.log := db.log + [DeleteOrderItem(ids[k])];
      k := k + 1;
    }
    assert ids[..k] == ids;
    return Success(doc);
  }

  /**
   * Two requests against one product priced 10: two units out of a stock of 5
   * give a total of 20 and leave 3; two units out of a stock of 1 are refused
   * and nothing changes.
   */
  method CreateOrderExamples()
  {
    var db := new Store();
    var p := Product("P1", "", "", "", [], "", 10, 0, 5, 0, 0, false);
    db.categories, db.products, db.nextId := {0}, map[1 := p], 2;
    var shipping := Shipping("", "", "", "", "", "", "");
    var req := OrderRequest([LineItem(1, 2)], shipping, "Pending", 0);
    assert req.orderItems[..0] == [];
    assert StockCheck(db.products, req.orderItems) == None by {
      assert Fits(db.products, req.orderItems[0]);
    }
    var r := CreateOrder(db, req, true);
    assert r.Success? && r.value.1.totalPrice == 20;
    assert db.products[1].countInStock == 3;
    assert db.orders.Keys == {3} && db.orderItems.Keys == {2};

    db.products := map[1 := p.(countInStock := 1)];
    ghost var ordersBefore := db.orders;
    r := CreateOrder(db, req, true);
    assert r == Failure(INSUFFICIENT_STOCK);
    assert db.products[1].countInStock == 1 && db.orders == ordersBefore;
  }
}
