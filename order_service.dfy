/**
 * The order lifecycle (`OrderService`): turning the caller's cart into an
 * order, advancing and cancelling orders, and listing them newest first.
 */
module OrderService {
  import opened Common
  import opened Calendar
  import opened Queries
  import opened OrderStatus
  import opened Store
  import opened CartService

  /**
   * The two accepted payment methods. Their text lives in a constants class
   * that is not part of this model; only their being distinct matters here.
   */
  const PAY_ON_DELIVERY: string := "PAY_ON_DELIVERY"
  const PAYPAL: string := "PAYPAL"

  /** The payment-method check of `AddOrder`. */
  predicate IsPaymentMethod(paymentMethod: string)
  {
    paymentMethod == PAY_ON_DELIVERY || paymentMethod == PAYPAL
  }

  /** PayPal orders start as Processing, all others as Pending. */
  function InitialStatus(paymentMethod: string): (s: Status)
    ensures Rank(s) <= Rank(Processing)
    ensures s != Delivered && s != Canceled
    ensures s == Processing <==> paymentMethod == PAYPAL
  {
    if paymentMethod == PAYPAL then Processing else Pending
  }

  /** The order items made from cart lines, each at its model's current price. */
  function Snapshot(lines: seq<CartItem>, models: map<int, Model>): (items: seq<OrderItem>)
    requires Priced(lines, models)
    ensures |items| == |lines|
    ensures forall k :: 0 <= k < |lines| ==>
              items[k] == OrderItem(lines[k].modelId, lines[k].quantity, models[lines[k].modelId].price)
    decreases |lines|
  {
    if lines == [] then []
    else
      var last := lines[|lines| - 1];
      Snapshot(lines[..|lines| - 1], models) + [OrderItem(last.modelId, last.quantity, models[last.modelId].price)]
  }

  /** The sum of cost times quantity over order items. */
  function ItemsTotal(items: seq<OrderItem>): real
    decreases |items|
  {
    if items == [] then 0.0
    else ItemsTotal(items[..|items| - 1]) + items[|items| - 1].cost * items[|items| - 1].quantity as real
  }

  /** The total quantity the lines order of one model. */
  function QuantityOf(lines: seq<CartItem>, modelId: int): int
    decreases |lines|
  {
    if lines == [] then 0
    else QuantityOf(lines[..|lines| - 1], modelId)
         + (if lines[|lines| - 1].modelId == modelId then lines[|lines| - 1].quantity else 0)
  }

  /** No two lines are for the same model. */
  predicate DistinctModels(lines: seq<CartItem>)
  {
    forall i, j :: 0 <= i < j < |lines| ==> lines[i].modelId != lines[j].modelId
  }

  /** An order's cost is the cart's total: the items add up to the price snapshot. */
  lemma {:induction false} SnapshotTotal(lines: seq<CartItem>, models: map<int, Model>)
    requires Priced(lines, models)
    ensures ItemsTotal(Snapshot(lines, models)) == CartTotal(lines, models)
    decreases |lines|
  {
    if lines != [] {
      var init := lines[..|lines| - 1];
      SnapshotTotal(init, models);
      var items := Snapshot(lines, models);
      assert items[..|items| - 1] == Snapshot(init, models);
    }
  }

  /** With one line per model, a model's ordered quantity is its line's quantity. */
  lemma {:induction false} QuantityOfLine(lines: seq<CartItem>, k: int)
    requires DistinctModels(lines)
    requires 0 <= k < |lines|
    ensures QuantityOf(lines, lines[k].modelId) == lines[k].quantity
    decreases |lines|
  {
    var init := lines[..|lines| - 1];
    if k < |lines| - 1 {
      QuantityOfLine(init, k);
    } else {
      QuantityOfAbsent(init, lines[k].modelId);
    }
  }

  /** A model that no line orders has an ordered quantity of zero. */
  lemma {:induction false} QuantityOfAbsent(lines: seq<CartItem>, modelId: int)
    requires forall i :: 0 <= i < |lines| ==> lines[i].modelId != modelId
    ensures QuantityOf(lines, modelId) == 0
    decreases |lines|
  {
    if lines != [] {
      QuantityOfAbsent(lines[..|lines| - 1], modelId);
    }
  }

  /** A user's cart has one line per model. */
  lemma UserCartDistinctModels(carts: seq<CartItem>, models: map<int, Model>, next: int, user: UserId)
    requires CartsWellFormed(carts, models, next)
    ensures DistinctModels(UserCart(carts, user))
  {
    UserCartWellFormed(carts, models, next, user);
    var lines := UserCart(carts, user);
    forall i, j | 0 <= i < j < |lines| ensures lines[i].modelId != lines[j].modelId {
      assert lines[i] in lines && lines[j] in lines;
      assert DistinctLines(lines[i], lines[j]);
    }
  }

  /** The catalogue after each line's quantity is taken from its model's stock, line by line. */
  function Destocked(models: map<int, Model>, lines: seq<CartItem>): (r: map<int, Model>)
    ensures r.Keys == models.Keys
    decreases |lines|
  {
    if lines == [] then models
    else
      var rest := Destocked(models, lines[..|lines| - 1]);
      var last := lines[|lines| - 1];
      if last.modelId in rest
      then rest[last.modelId := rest[last.modelId].(available := rest[last.modelId].available - last.quantity)]
      else rest
  }

  /**
   * Taking the lines from stock changes nothing but availability, and each
   * model's stock drops by the total quantity the lines order of it.
   */
  lemma {:induction false} DestockedAvailable(models: map<int, Model>, lines: seq<CartItem>)
    ensures forall m :: m in models ==>
              Destocked(models, lines)[m] == models[m].(available := models[m].available - QuantityOf(lines, m))
    decreases |lines|
  {
    if lines != [] {
      DestockedAvailable(models, lines[..|lines| - 1]);
    }
  }

  /** With one line per model, each line's model loses exactly that line's quantity. */
  lemma DestockedLine(models: map<int, Model>, lines: seq<CartItem>, k: int)
    requires DistinctModels(lines) && Priced(lines, models)
    requires 0 <= k < |lines|
    ensures Destocked(models, lines)[lines[k].modelId].available == models[lines[k].modelId].available - lines[k].quantity
  {
    DestockedAvailable(models, lines);
    QuantityOfLine(lines, k);
  }

  /** One more line of the cart: each running quantity extends by that line alone. */
  lemma PrefixStep(lines: seq<CartItem>, models: map<int, Model>, i: int)
    requires Priced(lines, models)
    requires 0 <= i < |lines|
    ensures Priced(lines[..i], models) && Priced(lines[..i + 1], models)
    ensures CartTotal(lines[..i + 1], models) == CartTotal(lines[..i], models) + LineTotal(lines[i], models)
    ensures Snapshot(lines[..i + 1], models)
            == Snapshot(lines[..i], models) + [OrderItem(lines[i].modelId, lines[i].quantity, models[lines[i].modelId].price)]
    ensures var m := Destocked(models, lines[..i]);
            && lines[i].modelId in m && m[lines[i].modelId].price == models[lines[i].modelId].price
            && CartTotal(lines[..i + 1], models)
               == CartTotal(lines[..i], models) + m[lines[i].modelId].price * lines[i].quantity as real
    ensures var m := Destocked(models, lines[..i]);
            Destocked(models, lines[..i + 1])
            == m[lines[i].modelId := m[lines[i].modelId].(available := m[lines[i].modelId].available - lines[i].quantity)]
  {
    assert lines[..i + 1][..i] == lines[..i];
    CartTotalStep(lines, models, i);
    DestockedAvailable(models, lines[..i]);
  }

  /** The order `AddOrder` stores for a non-empty cart. */
  function PlacedOrder(orderId: int, user: UserId, deliveryAddress: string, note: Option<string>,
                       paymentMethod: string, now: DateTime, lines: seq<CartItem>, models: map<int, Model>): (o: Order)
    requires Priced(lines, models)
    ensures o.status == InitialStatus(paymentMethod) && o.deliveredDate.None?
    ensures o.totalCost == ItemsTotal(o.items)
    ensures forall k :: 0 <= k < |o.items| ==> o.items[k].modelId in models
  {
    SnapshotTotal(lines, models);
    Order(orderId, user, deliveryAddress, note, now, None, paymentMethod, InitialStatus(paymentMethod),
          CartTotal(lines, models), Snapshot(lines, models))
  }

  /** Appending an order with the next identity keeps the orders well formed. */
  lemma AppendOrderWellFormed(orders: seq<Order>, models: map<int, Model>, next: int, order: Order)
    requires OrdersWellFormed(orders, models, next)
    requires order.orderId == next && order.status != Delivered
    requires forall k :: 0 <= k < |order.items| ==> order.items[k].modelId in models
    ensures OrdersWellFormed(orders + [order], models, next + 1)
  {
  }

  /**
   * The loop of `AddOrder` over the caller's cart lines: each line becomes an
   * order item at its model's price, adds price times quantity to the
   * running total, and takes its quantity from the model's stock.
   */
  method TakeFromStock(lines: seq<CartItem>, models0: map<int, Model>)
      returns (items: seq<OrderItem>, totalCost: real, models: map<int, Model>)
    requires Priced(lines, models0)
    ensures items == Snapshot(lines, models0)
    ensures totalCost == CartTotal(lines, models0)
    ensures models == Destocked(models0, lines)
  {
    models := models0;
    items := [];
    totalCost := 0.0;
    var i := 0;
    while i < |lines|
      invariant 0 <= i <= |lines|
      invariant items == Snapshot(lines[..i], models0)
      invariant totalCost == CartTotal(lines[..i], models0)
      invariant models == Destocked(models0, lines[..i])
    {
      items, totalCost, models := TakeLine(lines, models0, i, items, totalCost, models);
      i := i + 1;
    }
    assert lines[..|lines|] == lines;
  }

  /** One turn of that loop: line `i` is ordered, priced and taken from stock. */
  method TakeLine(lines: seq<CartItem>, models0: map<int, Model>, i: int, items: seq<OrderItem>, totalCost: real,
                  models: map<int, Model>)
      returns (items': seq<OrderItem>, totalCost': real, models': map<int, Model>)
    requires Priced(lines, models0) && 0 <= i < |lines|
    requires items == Snapshot(lines[..i], models0)
    requires totalCost == CartTotal(lines[..i], models0)
    requires models == Destocked(models0, lines[..i])
    ensures items' == Snapshot(lines[..i + 1], models0)
    ensures totalCost' == CartTotal(lines[..i + 1], models0)
    ensures models' == Destocked(models0, lines[..i + 1])
  {
    PrefixStep(lines, models0, i);
    var line := lines[i];
    var model := models[line.modelId];
    totalCost' := totalCost + model.price * line.quantity as real;
    models' := models[line.modelId := model.(available := model.available - line.quantity)];
    items' := items + [OrderItem(line.modelId, line.quantity, model.price)];
  }

  /**
   * Placing an order keeps the schema constraints: taking stock keeps the
   * catalogue's keys and products, the order has the next identity and
   * stored models, and the other users' cart lines stay well formed.
   */
  lemma PlaceOrderWellFormed(models: map<int, Model>, products: map<int, Product>, carts: seq<CartItem>,
                             nextCart: int, orders: seq<Order>, nextOrder: int, user: UserId, order: Order)
    requires ModelsWellFormed(models, products)
    requires CartsWellFormed(carts, models, nextCart)
    requires OrdersWellFormed(orders, models, nextOrder)
    requires order.orderId == nextOrder && order.status != Delivered
    requires forall k :: 0 <= k < |order.items| ==> order.items[k].modelId in models
    ensures var m := Destocked(models, UserCart(carts, user));
            && ModelsWellFormed(m, products)
            && CartsWellFormed(OtherUsersCarts(carts, user), m, nextCart)
            && OrdersWellFormed(orders + [order], m, nextOrder + 1)
  {
    var m := Destocked(models, UserCart(carts, user));
    DestockedAvailable(models, UserCart(carts, user));
    assert CartsWellFormed(carts, m, nextCart);
    UserCartWellFormed(carts, m, nextCart, user);
    assert OrdersWellFormed(orders, m, nextOrder);
    AppendOrderWellFormed(orders, m, nextOrder, order);
  }

  /** Rewriting one order's status fields keeps the orders well formed. */
  lemma ReplaceOrderWellFormed(orders: seq<Order>, models: map<int, Model>, next: int, i: int, o: Order)
    requires OrdersWellFormed(orders, models, next)
    requires 0 <= i < |orders|
    requires o.orderId == orders[i].orderId && o.items == orders[i].items
    requires o.status == Delivered ==> o.deliveredDate.Some?
    ensures OrdersWellFormed(orders[i := o], models, next)
  {
  }

  /**
   * The tables after the caller's cart becomes an order: the order with the
   * given identity holds one item per cart line at the model's price of the
   * moment and costs the cart's total, each model's stock drops by the
   * quantity ordered, and the caller's cart lines are gone. The schema
   * constraints hold of the result.
   */
  method PlanOrder(models0: map<int, Model>, products: map<int, Product>, carts0: seq<CartItem>, nextCart: int,
                   orders0: seq<Order>, orderId: int, user: UserId, deliveryAddress: string, note: Option<string>,
                   paymentMethod: string, now: DateTime)
      returns (orders: seq<Order>, models: map<int, Model>, carts: seq<CartItem>)
    requires ModelsWellFormed(models0, products)
    requires CartsWellFormed(carts0, models0, nextCart)
    requires OrdersWellFormed(orders0, models0, orderId)
    ensures Priced(UserCart(carts0, user), models0)
    ensures orders == orders0 + [PlacedOrder(orderId, user, deliveryAddress, note, paymentMethod, now,
                                             UserCart(carts0, user), models0)]
    ensures models == Destocked(models0, UserCart(carts0, user))
    ensures carts == OtherUsersCarts(carts0, user)
    ensures ModelsWellFormed(models, products)
    ensures CartsWellFormed(carts, models, nextCart)
    ensures OrdersWellFormed(orders, models, orderId + 1)
  {
    var lines := UserCart(carts0, user);
    UserCartWellFormed(carts0, models0, nextCart, user);
    var items, totalCost;
    items, totalCost, models := TakeFromStock(lines, models0);
    var order := Order(orderId, user, deliveryAddress, note, now, None, paymentMethod,
                       InitialStatus(paymentMethod), totalCost, items);
    assert order == PlacedOrder(orderId, user, deliveryAddress, note, paymentMethod, now, lines, models0);
    PlaceOrderWellFormed(models0, products, carts0, nextCart, orders0, orderId, user, order);
    orders := orders0 + [order];
    carts := OtherUsersCarts(carts0, user);
  }

  /** `SaveChangesAsync` for a placed order: the new tables replace the old ones. */
  method CommitOrder(db: Db, models: map<int, Model>, orders: seq<Order>, carts: seq<CartItem>)
    requires db.Valid()
    requires ModelsWellFormed(models, db.products)
    requires CartsWellFormed(carts, models, db.nextCartItemId)
    requires OrdersWellFormed(orders, models, db.nextOrderId + 1)
    modifies db`orders, db`nextOrderId, db`models, db`carts
    ensures db.Valid()
    ensures db.models == models && db.orders == orders && db.carts == carts
    ensures db.nextOrderId == old(db.nextOrderId) + 1
  {
    db.models, db.orders, db.nextOrderId, db.carts := models, orders, db.nextOrderId + 1, carts;
  }

  /**
   * `AddOrder`: BadRequest for an unknown payment method, then Unauthorized
   * without a caller, then BadRequest on an empty cart, each changing nothing;
   * otherwise the tables become those `PlanOrder` computes, so the caller is
   * left with no cart lines.
   */
  method AddOrder(db: Db, caller: Option<UserId>, deliveryAddress: string, note: Option<string>,
                  paymentMethod: string, now: DateTime) returns (r: Response, orderId: int)
    requires db.Valid()
    modifies db`orders, db`nextOrderId, db`models, db`carts
    ensures db.Valid()
    ensures !IsPaymentMethod(paymentMethod) ==> r == BadRequest
    ensures IsPaymentMethod(paymentMethod) && caller.None? ==> r == Unauthorized
    ensures IsPaymentMethod(paymentMethod) && caller.Some? ==>
              r == (if UserCart(old(db.carts), caller.value) == [] then BadRequest else Ok)
    ensures r != Ok ==> && db.orders == old(db.orders) && db.nextOrderId == old(db.nextOrderId)
                        && db.models == old(db.models) && db.carts == old(db.carts)
    ensures r == Ok ==> caller.Some? && Priced(UserCart(old(db.carts), caller.value), old(db.models))
    ensures r == Ok ==> var lines := UserCart(old(db.carts), caller.value);
              && orderId == old(db.nextOrderId) && db.nextOrderId == orderId + 1
              && db.orders == old(db.orders) + [PlacedOrder(orderId, caller.value, deliveryAddress, note,
                                                            paymentMethod, now, lines, old(db.models))]
              && db.models == Destocked(old(db.models), lines)
              && db.carts == OtherUsersCarts(old(db.carts), caller.value)
    ensures r == Ok ==> forall c :: c in db.carts ==> c.userId != caller.value
  {
    orderId := 0;
    if !IsPaymentMethod(paymentMethod) {
      return BadRequest, orderId;
    }
    if caller.None? {
      return Unauthorized, orderId;
    }
    if UserCart(db.carts, caller.value) == [] {
      return BadRequest, orderId;
    }
    orderId := db.nextOrderId;
    var orders, models, carts := PlanOrder(db.models, db.products, db.carts, db.nextCartItemId, db.orders, orderId,
                                           caller.value, deliveryAddress, note, paymentMethod, now);
    CommitOrder(db, models, orders, carts);
    r := Ok;
  }

  /** The position of an order by identity (`Orders.FindAsync(orderId)`). */
  function OrderIndex(orders: seq<Order>, orderId: int): (r: Option<nat>)
    ensures r.Some? ==> r.value < |orders| && orders[r.value].orderId == orderId
    ensures r.None? ==> forall j :: 0 <= j < |orders| ==> orders[j].orderId != orderId
  {
    IndexWhere(orders, (o: Order) => o.orderId == orderId)
  }

  /** The position of one of the caller's orders (`userExist.Orders.FirstOrDefault(...)`). */
  function UserOrderIndex(orders: seq<Order>, user: UserId, orderId: int): (r: Option<nat>)
    ensures r.Some? ==> r.value < |orders| && orders[r.value].orderId == orderId && orders[r.value].userId == user
    ensures r.None? ==> forall j :: 0 <= j < |orders| ==> orders[j].orderId != orderId || orders[j].userId != user
  {
    IndexWhere(orders, (o: Order) => o.userId == user && o.orderId == orderId)
  }

  /**
   * The status change `UpdateOrderStatus` allows: any move except a strictly
   * backward one in rank.
   */
  predicate MayMoveTo(current: Status, target: Status)
    ensures MayMoveTo(current, target) <==>
              !(IndexOf(ValidStatus, Label(current)) > IndexOf(ValidStatus, Label(target)))
  {
    !(Rank(current) > Rank(target))
  }

  /**
   * Re-applying a status is allowed, Canceled is reachable from every status,
   * and of two different statuses exactly one may move to the other.
   */
  lemma MayMoveToIsForwardOnly(a: Status, b: Status)
    ensures MayMoveTo(a, a) && MayMoveTo(a, Canceled)
    ensures a != b ==> (MayMoveTo(a, b) <==> !MayMoveTo(b, a))
    ensures MayMoveTo(a, b) <==> Rank(a) <= Rank(b)
  {
    RanksIncrease();
    if a != b && Rank(a) == Rank(b) {
      RankInjective(a, b);
    }
  }

  /** `SaveChangesAsync` for edited orders: the new order table replaces the old one. */
  method SaveOrders(db: Db, orders: seq<Order>)
    requires db.Valid()
    requires OrdersWellFormed(orders, db.models, db.nextOrderId)
    modifies db`orders
    ensures db.Valid()
    ensures db.orders == orders
  {
    db.orders := orders;
  }

  /**
   * `UpdateOrderStatus`: NotFound for an unknown order, BadRequest for a label
   * outside `ValidStatus` or a strictly backward move; otherwise the status
   * becomes the target, and the delivery date is stamped exactly when the
   * target is Delivered.
   */
  method UpdateOrderStatus(db: Db, orderId: int, statusText: string, now: DateTime) returns (r: Response)
    requires db.Valid()
    modifies db`orders
    ensures db.Valid()
    ensures OrderIndex(old(db.orders), orderId).None? ==> r == NotFound
    ensures OrderIndex(old(db.orders), orderId).Some? && statusText !in ValidStatus ==> r == BadRequest
    ensures OrderIndex(old(db.orders), orderId).Some? && statusText in ValidStatus ==>
              var current := old(db.orders)[OrderIndex(old(db.orders), orderId).value].status;
              r == (if MayMoveTo(current, Parse(statusText).value) then Ok else BadRequest)
    ensures r != Ok ==> db.orders == old(db.orders)
    ensures r == Ok ==> OrderIndex(old(db.orders), orderId).Some? && Parse(statusText).Some?
    ensures r == Ok ==> var i := OrderIndex(old(db.orders), orderId).value;
              var target := Parse(statusText).value;
              db.orders == old(db.orders)[i := old(db.orders)[i].(
                             status := target,
                             deliveredDate := if target == Delivered then Some(now) else old(db.orders)[i].deliveredDate)]
  {
    var found := OrderIndex(db.orders, orderId);
    if found.None? {
      return NotFound;
    }
    var parsed := Parse(statusText);
    if parsed.None? {
      return BadRequest;
    }
    var i := found.value;
    var order := db.orders[i];
    var target := parsed.value;
    if IndexOf(ValidStatus, Label(order.status)) > IndexOf(ValidStatus, statusText) {
      return BadRequest;
    }
    order := order.(status := target);
    if statusText == DELIVERED {
      order := order.(deliveredDate := Some(now));
    }
    ReplaceOrderWellFormed(db.orders, db.models, db.nextOrderId, i, order);
    SaveOrders(db, db.orders[i := order]);
    r := Ok;
  }

  /**
   * `CancelOrder`: NotFound unless the order is one of the caller's,
   * BadRequest unless it is Pending or Processing; otherwise only its status
   * changes, to Canceled. Stock is not given back.
   */
  method CancelOrder(db: Db, caller: Option<UserId>, orderId: int) returns (r: Response)
    requires db.Valid()
    modifies db`orders
    ensures db.Valid()
    ensures caller.None? ==> r == Unauthorized
    ensures caller.Some? && UserOrderIndex(old(db.orders), caller.value, orderId).None? ==> r == NotFound
    ensures caller.Some? && UserOrderIndex(old(db.orders), caller.value, orderId).Some? ==>
              var status := old(db.orders)[UserOrderIndex(old(db.orders), caller.value, orderId).value].status;
              r == (if status == Pending || status == Processing then Ok else BadRequest)
    ensures r != Ok ==> db.orders == old(db.orders)
    ensures r == Ok ==> caller.Some? && UserOrderIndex(old(db.orders), caller.value, orderId).Some?
    ensures r == Ok ==> var i := UserOrderIndex(old(db.orders), caller.value, orderId).value;
              db.orders == old(db.orders)[i := old(db.orders)[i].(status := Canceled)]
  {
    if caller.None? {
      return Unauthorized;
    }
    var found := UserOrderIndex(db.orders, caller.value, orderId);
    if found.None? {
      return NotFound;
    }
    var i := found.value;
    if db.orders[i].status != Pending && db.orders[i].status != Processing {
      return BadRequest;
    }
    var order := db.orders[i].(status := Canceled);
    ReplaceOrderWellFormed(db.orders, db.models, db.nextOrderId, i, order);
    SaveOrders(db, db.orders[i := order]);
    r := Ok;
  }

  /** Orders sorted by order date, newest first (`OrderByDescending(o => o.OrderDate)`). */
  function NewestFirst(orders: seq<Order>): (r: seq<Order>)
    ensures multiset(r) == multiset(orders)
    ensures forall i, j :: 0 <= i < j < |r| ==> NotBefore(r[i].orderDate, r[j].orderDate)
  {
    var key := (o: Order) => o.orderDate;
    NotBeforeIsTotalPreorder();
    SortBySorted(orders, key, NotBefore);
    SortBy(orders, key, NotBefore)
  }

  /** An order passes the status filter: no filter, or its label equals it. */
  predicate MatchesStatus(o: Order, status: Option<string>)
  {
    IsNullOrEmpty(status) || Label(o.status) == status.value
  }

  /**
   * `GetAllOrdersOfCurrenUser`: exactly the caller's orders whose status label
   * equals the filter (all of them for a null or empty filter), newest first.
   */
  function GetAllOrdersOfCurrentUser(orders: seq<Order>, caller: Option<UserId>, status: Option<string>)
    : (r: (Response, seq<Order>))
    ensures caller.None? ==> r == (Unauthorized, [])
    ensures caller.Some? ==> r.0 == Ok
    ensures caller.Some? ==> forall o :: o in r.1 <==> o in orders && o.userId == caller.value && MatchesStatus(o, status)
    ensures caller.Some? ==>
              (forall o :: multiset(r.1)[o] == if o.userId == caller.value && MatchesStatus(o, status) then multiset(orders)[o] else 0)
    ensures forall i, j :: 0 <= i < j < |r.1| ==> NotBefore(r.1[i].orderDate, r.1[j].orderDate)
  {
    if caller.None? then (Unauthorized, [])
    else
      var mine := Filter(orders, (o: Order) => o.userId == caller.value && MatchesStatus(o, status));
      var sorted := NewestFirst(mine);
      assert forall o :: o in sorted <==> o in multiset(mine);
      (Ok, sorted)
  }

  /** `GetAllUserOrders`: every order, newest first. */
  function GetAllUserOrders(orders: seq<Order>): (r: seq<Order>)
    ensures multiset(r) == multiset(orders)
    ensures forall i, j :: 0 <= i < j < |r| ==> NotBefore(r[i].orderDate, r[j].orderDate)
  {
    NewestFirst(orders)
  }
}
