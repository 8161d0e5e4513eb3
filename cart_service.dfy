/**
 * The cart store: adding a model to the caller's cart, changing or removing
 * a line, listing the cart and previewing its total (`CartService`).
 */
module CartService {
  import opened Common
  import opened Queries
  import opened Store

  /** The caller's cart (`userExist.CartItems`), in table order. */
  function UserCart(carts: seq<CartItem>, user: UserId): (r: seq<CartItem>)
    ensures |r| <= |carts|
    ensures forall c :: c in r <==> c in carts && c.userId == user
  {
    Filter(carts, (c: CartItem) => c.userId == user)
  }

  /** The lines that remain when the caller's cart is emptied (`RemoveRange(userCart)`). */
  function OtherUsersCarts(carts: seq<CartItem>, user: UserId): (r: seq<CartItem>)
    ensures forall c :: c in r <==> c in carts && c.userId != user
  {
    Filter(carts, (c: CartItem) => c.userId != user)
  }

  /** A cart's lines stay well formed when some of them are dropped. */
  lemma UserCartWellFormed(carts: seq<CartItem>, models: map<int, Model>, next: int, user: UserId)
    requires CartsWellFormed(carts, models, next)
    ensures CartsWellFormed(UserCart(carts, user), models, next)
    ensures CartsWellFormed(OtherUsersCarts(carts, user), models, next)
  {
    FilteredCartsWellFormed(carts, models, next, (c: CartItem) => c.userId == user);
    FilteredCartsWellFormed(carts, models, next, (c: CartItem) => c.userId != user);
  }

  lemma FilteredCartsWellFormed(carts: seq<CartItem>, models: map<int, Model>, next: int, p: CartItem -> bool)
    requires CartsWellFormed(carts, models, next)
    ensures CartsWellFormed(Filter(carts, p), models, next)
  {
    FilterPairwise(carts, p, DistinctLines);
    var r := Filter(carts, p);
    forall i | 0 <= i < |r| ensures r[i].cartItemId < next && r[i].modelId in models {
      assert r[i] in carts;
    }
  }

  /** The caller's line for a model (`FirstOrDefault(c => c.ModelId == modelId)`). */
  function LineIndex(carts: seq<CartItem>, user: UserId, modelId: int): (r: Option<nat>)
    ensures r.Some? ==> r.value < |carts| && carts[r.value].userId == user && carts[r.value].modelId == modelId
    ensures r.Some? ==> forall j :: 0 <= j < r.value ==> carts[j].userId != user || carts[j].modelId != modelId
    ensures r.None? ==> forall j :: 0 <= j < |carts| ==> carts[j].userId != user || carts[j].modelId != modelId
  {
    IndexWhere(carts, (c: CartItem) => c.userId == user && c.modelId == modelId)
  }

  /** The caller's line with a given identity (`FirstOrDefault(c => c.CartItemId == cartId)`). */
  function OwnLineIndex(carts: seq<CartItem>, user: UserId, cartId: int): (r: Option<nat>)
    ensures r.Some? ==> r.value < |carts| && carts[r.value].userId == user && carts[r.value].cartItemId == cartId
    ensures r.None? ==> forall j :: 0 <= j < |carts| ==> carts[j].userId != user || carts[j].cartItemId != cartId
  {
    IndexWhere(carts, (c: CartItem) => c.userId == user && c.cartItemId == cartId)
  }

  /** Any user's line with a given identity (`CartItems.FindAsync(cartId)`). */
  function LineById(carts: seq<CartItem>, cartId: int): (r: Option<nat>)
    ensures r.Some? ==> r.value < |carts| && carts[r.value].cartItemId == cartId
    ensures r.None? ==> forall j :: 0 <= j < |carts| ==> carts[j].cartItemId != cartId
  {
    IndexWhere(carts, (c: CartItem) => c.cartItemId == cartId)
  }

  /**
   * The cart after a successful add: the caller's existing line for the model
   * grows by `quantity`, or a new line `freshId` holding `quantity` is appended.
   */
  function AddedToCart(carts: seq<CartItem>, freshId: int, user: UserId, modelId: int, quantity: int)
    : (r: seq<CartItem>)
    ensures var found := LineIndex(carts, user, modelId);
            var k := if found.Some? then found.value else |carts|;
            && |r| == (if found.Some? then |carts| else |carts| + 1)
            && LineIndex(r, user, modelId) == Some(k)
            && r[k] == CartItem(if found.Some? then carts[k].cartItemId else freshId, user, modelId,
                                quantity + (if found.Some? then carts[k].quantity else 0))
            && (forall j :: 0 <= j < |carts| && j != k ==> r[j] == carts[j])
  {
    match LineIndex(carts, user, modelId)
    case None =>
      var r := carts + [CartItem(freshId, user, modelId, quantity)];
      assert r[|carts|].userId == user && r[|carts|].modelId == modelId;
      assert forall j :: 0 <= j < |carts| ==> r[j] == carts[j];
      r
    case Some(i) =>
      var r := carts[i := carts[i].(quantity := carts[i].quantity + quantity)];
      assert r[i].userId == user && r[i].modelId == modelId;
      assert forall j :: 0 <= j < i ==> r[j] == carts[j];
      r
  }

  /** Adding keeps the cart well formed: still one line per (user, model). */
  lemma AddedToCartWellFormed(carts: seq<CartItem>, models: map<int, Model>, next: int,
                              user: UserId, modelId: int, quantity: int)
    requires CartsWellFormed(carts, models, next)
    requires modelId in models
    ensures LineIndex(carts, user, modelId).None? ==>
              CartsWellFormed(AddedToCart(carts, next, user, modelId, quantity), models, next + 1)
    ensures LineIndex(carts, user, modelId).Some? ==>
              CartsWellFormed(AddedToCart(carts, next, user, modelId, quantity), models, next)
  {
    var r := AddedToCart(carts, next, user, modelId, quantity);
    if LineIndex(carts, user, modelId).None? {
      forall i, j | 0 <= i < j < |r| ensures DistinctLines(r[i], r[j]) {
        if j < |carts| { assert DistinctLines(carts[i], carts[j]); }
      }
    } else {
      var k := LineIndex(carts, user, modelId).value;
      forall i, j | 0 <= i < j < |r| ensures DistinctLines(r[i], r[j]) {
        assert DistinctLines(carts[i], carts[j]);
      }
    }
  }

  /**
   * Adding the same (user, model) pair twice has the effect of one add of the
   * summed quantity: a single line, whose quantity is the sum of both calls.
   */
  lemma AddTwiceAccumulates(carts: seq<CartItem>, id1: int, id2: int, user: UserId, modelId: int, a: int, b: int)
    ensures AddedToCart(AddedToCart(carts, id1, user, modelId, a), id2, user, modelId, b)
         == AddedToCart(carts, id1, user, modelId, a + b)
  {
    var once := AddedToCart(carts, id1, user, modelId, a);
    match LineIndex(carts, user, modelId)
    case None =>
      assert once[|carts|].userId == user && once[|carts|].modelId == modelId;
      assert forall j :: 0 <= j < |carts| ==> once[j] == carts[j];
      assert LineIndex(once, user, modelId) == Some(|carts|);
    case Some(i) =>
      assert forall j :: 0 <= j < i ==> once[j] == carts[j];
      assert once[i].userId == user && once[i].modelId == modelId;
  }

  /**
   * `AddToCart`: NotFound for an unknown model, BadRequest when the stock is
   * below the requested quantity (the quantity already in the cart is not
   * counted), otherwise the line is added or grown. Failures change nothing.
   */
  method AddToCart(db: Db, caller: Option<UserId>, modelId: int, quantity: int) returns (r: Response)
    requires db.Valid()
    modifies db`carts, db`nextCartItemId
    ensures db.Valid()
    ensures caller.None? ==> r == Unauthorized
    ensures caller.Some? && modelId !in db.models ==> r == NotFound
    ensures caller.Some? && modelId in db.models && db.models[modelId].available < quantity ==> r == BadRequest
    ensures caller.Some? && modelId in db.models && db.models[modelId].available >= quantity ==> r == Ok
    ensures r != Ok ==> db.carts == old(db.carts) && db.nextCartItemId == old(db.nextCartItemId)
    ensures r == Ok ==> db.carts == AddedToCart(old(db.carts), old(db.nextCartItemId), caller.value, modelId, quantity)
    ensures r == Ok ==> db.nextCartItemId == if LineIndex(old(db.carts), caller.value, modelId).None?
                                             then old(db.nextCartItemId) + 1 else old(db.nextCartItemId)
  {
    if caller.None? {
      return Unauthorized;
    }
    if modelId !in db.models {
      return NotFound;
    }
    if db.models[modelId].available < quantity {
      return BadRequest;
    }
    var user := caller.value;
    AddedToCartWellFormed(db.carts, db.models, db.nextCartItemId, user, modelId, quantity);
    var carts := AddedToCart(db.carts, db.nextCartItemId, user, modelId, quantity);
    var next := if LineIndex(db.carts, user, modelId).None? then db.nextCartItemId + 1 else db.nextCartItemId;
    SaveCartsAndNext(db, carts, next);
    r := Ok;
  }

  /** `SaveChangesAsync` after an add: the new cart table and the identity counter. */
  method SaveCartsAndNext(db: Db, carts: seq<CartItem>, next: int)
    requires db.Valid()
    requires CartsWellFormed(carts, db.models, next)
    modifies db`carts, db`nextCartItemId
    ensures db.Valid()
    ensures db.carts == carts && db.nextCartItemId == next
  {
    db.carts, db.nextCartItemId := carts, next;
  }

  /**
   * `EditCart`: NotFound unless the line is the caller's and the model exists;
   * otherwise only that line's quantity is overwritten, with no stock check.
   */
  method EditCart(db: Db, caller: Option<UserId>, cartId: int, modelId: int, quantity: int) returns (r: Response)
    requires db.Valid()
    modifies db`carts
    ensures db.Valid()
    ensures caller.None? ==> r == Unauthorized
    ensures caller.Some? && OwnLineIndex(old(db.carts), caller.value, cartId).None? ==> r == NotFound
    ensures caller.Some? && OwnLineIndex(old(db.carts), caller.value, cartId).Some? ==>
              r == (if modelId in db.models then Ok else NotFound)
    ensures r != Ok ==> db.carts == old(db.carts)
    ensures r == Ok ==> caller.Some? && OwnLineIndex(old(db.carts), caller.value, cartId).Some?
    ensures r == Ok ==> var i := OwnLineIndex(old(db.carts), caller.value, cartId).value;
              db.carts == old(db.carts)[i := old(db.carts)[i].(quantity := quantity)]
  {
    if caller.None? {
      return Unauthorized;
    }
    var found := OwnLineIndex(db.carts, caller.value, cartId);
    if found.None? {
      return NotFound;
    }
    if modelId !in db.models {
      return NotFound;
    }
    var i := found.value;
    db.carts := db.carts[i := db.carts[i].(quantity := quantity)];
    assert forall a, b :: 0 <= a < b < |db.carts| ==> DistinctLines(old(db.carts)[a], old(db.carts)[b]);
    r := Ok;
  }

  /** The cart table without its `i`-th line, the other lines in order. */
  function WithoutLine(carts: seq<CartItem>, i: int): (r: seq<CartItem>)
    requires 0 <= i < |carts|
    ensures |r| == |carts| - 1
    ensures forall k :: 0 <= k < |r| ==> r[k] == carts[if k < i then k else k + 1]
  {
    carts[..i] + carts[i + 1..]
  }

  /**
   * Removing a line keeps the cart table well formed and removes exactly the
   * lines with that line's identity, which is only that line.
   */
  lemma RemovedLineWellFormed(carts: seq<CartItem>, models: map<int, Model>, next: int, i: int)
    requires CartsWellFormed(carts, models, next)
    requires 0 <= i < |carts|
    ensures CartsWellFormed(WithoutLine(carts, i), models, next)
    ensures forall c :: c in WithoutLine(carts, i) <==> c in carts && c.cartItemId != carts[i].cartItemId
  {
    var r := WithoutLine(carts, i);
    forall a, b | 0 <= a < b < |r| ensures DistinctLines(r[a], r[b]) {
      assert r[a] == carts[if a < i then a else a + 1];
      assert r[b] == carts[if b < i then b else b + 1];
    }
    forall c | c in carts && c.cartItemId != carts[i].cartItemId ensures c in r {
      var k :| 0 <= k < |carts| && carts[k] == c;
      assert r[if k < i then k else k - 1] == c;
    }
    forall k | 0 <= k < |r| ensures r[k].cartItemId != carts[i].cartItemId {
      assert DistinctLines(carts[if k < i then k else i], carts[if k < i then i else k + 1]);
    }
  }

  /** `SaveChangesAsync` for edited cart lines: the new cart table replaces the old one. */
  method SaveCarts(db: Db, carts: seq<CartItem>)
    requires db.Valid()
    requires CartsWellFormed(carts, db.models, db.nextCartItemId)
    modifies db`carts
    ensures db.Valid()
    ensures db.carts == carts
  {
    db.carts := carts;
  }

  /**
   * `RemoveCartItem`: NotFound for an unknown identity; otherwise exactly that
   * line is removed, whoever owns it, and the other lines keep their order.
   */
  method RemoveCartItem(db: Db, caller: Option<UserId>, cartId: int) returns (r: Response)
    requires db.Valid()
    modifies db`carts
    ensures db.Valid()
    ensures caller.None? ==> r == Unauthorized
    ensures caller.Some? ==> r == (if LineById(old(db.carts), cartId).Some? then Ok else NotFound)
    ensures r != Ok ==> db.carts == old(db.carts)
    ensures r == Ok ==> var i := LineById(old(db.carts), cartId).value;
              db.carts == old(db.carts)[..i] + old(db.carts)[i + 1..]
    ensures r == Ok ==> forall c :: c in db.carts <==> c in old(db.carts) && c.cartItemId != cartId
  {
    if caller.None? {
      return Unauthorized;
    }
    var found := LineById(db.carts, cartId);
    if found.None? {
      return NotFound;
    }
    var i := found.value;
    RemovedLineWellFormed(db.carts, db.models, db.nextCartItemId, i);
    SaveCarts(db, WithoutLine(db.carts, i));
    r := Ok;
  }

  /** A line's cost at the model's current price (`Model.Price * Quantity`). */
  function LineTotal(line: CartItem, models: map<int, Model>): real
    requires line.modelId in models
  {
    models[line.modelId].price * line.quantity as real
  }

  /** The sum of price times quantity over the lines, added up in line order. */
  function CartTotal(lines: seq<CartItem>, models: map<int, Model>): real
    requires Priced(lines, models)
    decreases |lines|
  {
    if lines == [] then 0.0
    else CartTotal(lines[..|lines| - 1], models) + LineTotal(lines[|lines| - 1], models)
  }

  /** Lines with non-negative prices and quantities have a non-negative total. */
  lemma {:induction false} CartTotalNonNegative(lines: seq<CartItem>, models: map<int, Model>)
    requires Priced(lines, models)
    requires forall i :: 0 <= i < |lines| ==> lines[i].quantity >= 0 && models[lines[i].modelId].price >= 0.0
    ensures CartTotal(lines, models) >= 0.0
    decreases |lines|
  {
    if lines != [] {
      var last := lines[|lines| - 1];
      CartTotalNonNegative(lines[..|lines| - 1], models);
      assert models[last.modelId].price * last.quantity as real >= 0.0;
    }
  }

  /** One more line adds that line's cost to the running total. */
  lemma CartTotalStep(lines: seq<CartItem>, models: map<int, Model>, i: int)
    requires Priced(lines, models)
    requires 0 <= i < |lines|
    ensures Priced(lines[..i], models) && Priced(lines[..i + 1], models)
    ensures CartTotal(lines[..i + 1], models) == CartTotal(lines[..i], models) + LineTotal(lines[i], models)
  {
    assert lines[..i + 1][..i] == lines[..i];
  }

  /** One line of the cart listing and of the checkout detail. */
  datatype CartLineView = CartLineView(
    cartItemId: int,
    modelId: int,
    price: real,
    available: int,
    quantity: int,
    total: real)

  function LineView(line: CartItem, models: map<int, Model>): (v: CartLineView)
    requires line.modelId in models
    ensures v.total == v.price * v.quantity as real
    ensures v.total == LineTotal(line, models)
  {
    var m := models[line.modelId];
    CartLineView(line.cartItemId, line.modelId, m.price, m.available, line.quantity, line.quantity as real * m.price)
  }

  /** The projection of the caller's lines, each with its total. */
  function LineViews(lines: seq<CartItem>, models: map<int, Model>): (r: seq<CartLineView>)
    requires Priced(lines, models)
    ensures |r| == |lines|
    ensures forall i :: 0 <= i < |r| ==>
              && r[i].cartItemId == lines[i].cartItemId && r[i].modelId == lines[i].modelId
              && r[i].quantity == lines[i].quantity && r[i].price == models[lines[i].modelId].price
              && r[i].total == r[i].quantity as real * r[i].price
  {
    seq(|lines|, i requires 0 <= i < |lines| => LineView(lines[i], models))
  }

  /** `GetAllCarts`: the caller's lines with their totals; an empty cart lists nothing. */
  function GetAllCarts(carts: seq<CartItem>, models: map<int, Model>, caller: Option<UserId>)
    : (r: (Response, seq<CartLineView>))
    requires Priced(carts, models)
    ensures caller.None? ==> r == (Unauthorized, [])
    ensures caller.Some? ==> r.0 == Ok && |r.1| == |UserCart(carts, caller.value)|
    ensures caller.Some? ==> r.1 == LineViews(UserCart(carts, caller.value), models)
    ensures caller.Some? && UserCart(carts, caller.value) == [] ==> r.1 == []
  {
    if caller.None? then (Unauthorized, [])
    else
      var lines := UserCart(carts, caller.value);
      (Ok, LineViews(lines, models))
  }

  /**
   * `Checkout`: BadRequest on an empty cart; otherwise the lines with their
   * totals and the grand total, accumulated line by line. Changes nothing.
   */
  method Checkout(db: Db, caller: Option<UserId>) returns (r: Response, detail: seq<CartLineView>, total: real)
    requires db.Valid()
    ensures caller.None? ==> r == Unauthorized
    ensures caller.Some? ==> (r == BadRequest <==> UserCart(db.carts, caller.value) == [])
    ensures caller.Some? && UserCart(db.carts, caller.value) != [] ==> r == Ok
    ensures r == Ok ==> caller.Some? && var lines := UserCart(db.carts, caller.value);
              lines != [] && Priced(lines, db.models)
              && detail == LineViews(lines, db.models)
              && total == CartTotal(lines, db.models)
  {
    if caller.None? {
      return Unauthorized, [], 0.0;
    }
    var lines := UserCart(db.carts, caller.value);
    if lines == [] {
      return BadRequest, [], 0.0;
    }
    UserCartWellFormed(db.carts, db.models, db.nextCartItemId, caller.value);
    var models := db.models;
    total := 0.0;
    var i := 0;
    while i < |lines|
      invariant 0 <= i <= |lines|
      invariant Priced(lines, models)
      invariant total == CartTotal(lines[..i], models)
    {
      CartTotalStep(lines, models, i);
      total := total + LineTotal(lines[i], models);
      i := i + 1;
    }
    assert lines[..|lines|] == lines;
    detail := LineViews(lines, models);
    r := Ok;
  }
}
