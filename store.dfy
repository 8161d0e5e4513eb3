/**
 * The entities of the shop and the in-memory database that holds them.
 * `Db` stands for the ORM's database context: every service reads and
 * writes its tables. Tables that the services iterate or filter are
 * sequences of rows in table order; models and products, which are only
 * looked up by key, are maps. Identity columns are drawn from `next…Id`
 * counters.
 */
module Store {
  import opened Common
  import opened Calendar
  import opened Queries
  import opened OrderStatus
  import opened Compression

  /** A purchasable variant of a product, with its unit price and stock. */
  datatype Model = Model(productId: int, price: real, available: int)

  /**
   * A product's average rating. `NotANumber` is the IEEE value the source
   * stores when it divides zero by zero.
   */
  datatype Rating = Score(value: real) | NotANumber

  datatype Product = Product(voteStar: Rating)

  /** One line of a user's cart. */
  datatype CartItem = CartItem(cartItemId: int, userId: UserId, modelId: int, quantity: int)

  /** A purchased quantity of a model, at the unit price paid. */
  datatype OrderItem = OrderItem(modelId: int, quantity: int, cost: real)

  datatype Order = Order(
    orderId: int,
    userId: UserId,
    deliveryAddress: string,
    note: Option<string>,
    orderDate: DateTime,
    deliveredDate: Option<DateTime>,
    paymentMethod: string,
    status: Status,
    totalCost: real,
    items: seq<OrderItem>)

  datatype Feedback = Feedback(
    feedbackId: int,
    userId: UserId,
    orderId: int,
    productId: int,
    title: string,
    content: string,
    star: int,
    isAnonymous: bool,
    allowEdit: bool,
    creationDate: DateTime)

  datatype User = User(
    id: UserId,
    email: string,
    firstName: string,
    lastName: string,
    phoneNumber: Option<string>,
    gender: Option<string>,
    dob: Option<DateTime>,
    avatar: Option<string>,
    address: Option<string>,
    isActivated: bool,
    roles: set<string>)

  datatype Post = Post(
    postId: int,
    userId: UserId,
    title: string,
    content: Blob,
    thumbnail: Option<string>,
    creationDate: DateTime,
    latestUpdate: DateTime)

  /** Every model belongs to a stored product. */
  predicate ModelsWellFormed(models: map<int, Model>, products: map<int, Product>)
  {
    forall m :: m in models ==> models[m].productId in products
  }

  /** Two cart lines have different identities and are not for the same (user, model) pair. */
  predicate DistinctLines(a: CartItem, b: CartItem)
  {
    a.cartItemId != b.cartItemId && (a.userId != b.userId || a.modelId != b.modelId)
  }

  /** Every cart line refers to a stored model. */
  predicate Priced(lines: seq<CartItem>, models: map<int, Model>)
  {
    forall i :: 0 <= i < |lines| ==> lines[i].modelId in models
  }

  /**
   * Cart lines have distinct identities below the next identity, refer to
   * stored models, and a user has at most one line per model.
   */
  predicate CartsWellFormed(carts: seq<CartItem>, models: map<int, Model>, next: int)
  {
    && (forall i :: 0 <= i < |carts| ==> carts[i].cartItemId < next)
    && Priced(carts, models)
    && Pairwise(carts, DistinctLines)
  }

  /** Orders have distinct identities, items of stored models, and a delivery date once delivered. */
  predicate OrdersWellFormed(orders: seq<Order>, models: map<int, Model>, next: int)
  {
    && (forall i :: 0 <= i < |orders| ==> orders[i].orderId < next)
    && (forall i, j :: 0 <= i < j < |orders| ==> orders[i].orderId != orders[j].orderId)
    && (forall i :: 0 <= i < |orders| ==> orders[i].status == Delivered ==> orders[i].deliveredDate.Some?)
    && (forall i, k :: 0 <= i < |orders| && 0 <= k < |orders[i].items| ==> orders[i].items[k].modelId in models)
  }

  /** Feedbacks have distinct identities and rate stored products. */
  predicate FeedbacksWellFormed(feedbacks: seq<Feedback>, products: map<int, Product>, next: int)
  {
    && (forall i :: 0 <= i < |feedbacks| ==> feedbacks[i].feedbackId < next && feedbacks[i].productId in products)
    && (forall i, j :: 0 <= i < j < |feedbacks| ==> feedbacks[i].feedbackId != feedbacks[j].feedbackId)
  }

  predicate UsersWellFormed(users: seq<User>)
  {
    forall i, j :: 0 <= i < j < |users| ==> users[i].id != users[j].id
  }

  predicate PostsWellFormed(posts: seq<Post>, next: int)
  {
    && (forall i :: 0 <= i < |posts| ==> posts[i].postId < next)
    && (forall i, j :: 0 <= i < j < |posts| ==> posts[i].postId != posts[j].postId)
  }

  class Db {
    var models: map<int, Model>
    var products: map<int, Product>
    var carts: seq<CartItem>
    var orders: seq<Order>
    var feedbacks: seq<Feedback>
    var users: seq<User>
    var posts: seq<Post>
    var nextCartItemId: int
    var nextOrderId: int
    var nextFeedbackId: int
    var nextPostId: int

    /** The referential and uniqueness constraints of the schema. */
    ghost predicate Valid()
      reads this
    {
      && ModelsWellFormed(models, products)
      && CartsWellFormed(carts, models, nextCartItemId)
      && OrdersWellFormed(orders, models, nextOrderId)
      && FeedbacksWellFormed(feedbacks, products, nextFeedbackId)
      && UsersWellFormed(users)
      && PostsWellFormed(posts, nextPostId)
    }

    /** A database with the given catalogue and directory and no activity yet. */
    constructor (models: map<int, Model>, products: map<int, Product>, users: seq<User>)
      requires ModelsWellFormed(models, products) && UsersWellFormed(users)
      ensures Valid()
      ensures this.models == models && this.products == products && this.users == users
      ensures carts == [] && orders == [] && feedbacks == [] && posts == []
    {
      this.models, this.products, this.users := models, products, users;
      carts, orders, feedbacks, posts := [], [], [], [];
      nextCartItemId, nextOrderId, nextFeedbackId, nextPostId := 1, 1, 1, 1;
    }
  }

  /** `OrderByDescending` on dates sorts by `NotBefore`, a total preorder. */
  lemma NotBeforeIsTotalPreorder()
    ensures TotalPreorder(NotBefore)
  {
    forall a, b, c | NotBefore(a, b) && NotBefore(b, c) ensures NotBefore(a, c) {
      BeforeIsStrictTotalOrder(c, b, a);
      if a != b && b != c {
        BeforeIsStrictTotalOrder(b, a, c);
      }
    }
  }
}
