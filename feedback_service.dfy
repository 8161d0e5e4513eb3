/**
 * Product feedback (`FeedbackService`): a customer rates a product of one of
 * their delivered orders within a month of delivery, may edit the feedback
 * within a month of writing it, and every change recomputes the product's
 * average rating, `VoteStar`, rounded to one decimal.
 */
module FeedbackService {
  import opened Common
  import opened Calendar
  import opened Queries
  import opened OrderStatus
  import opened Store
  import opened OrderService

  /**
   * The integer nearest to `y`, ties going to the even neighbour
   * (`MidpointRounding.ToEven`, the default of `Math.Round`).
   */
  function RoundHalfEven(y: real): (k: int)
    ensures -0.5 <= k as real - y <= 0.5
    ensures (k as real - y == 0.5 || k as real - y == -0.5) ==> k % 2 == 0
  {
    var f := y.Floor;
    var frac := y - f as real;
    if frac < 0.5 then f
    else if frac > 0.5 then f + 1
    else if f % 2 == 0 then f
    else f + 1
  }

  /** `Math.Round(x, 1)`: `x` rounded to tenths, ties to even tenths. */
  function Round1(x: real): (r: real)
    ensures -0.05 <= r - x <= 0.05
    ensures (r * 10.0).Floor as real == r * 10.0
    ensures (r - x == 0.05 || r - x == -0.05) ==> (r * 10.0).Floor % 2 == 0
  {
    var k := RoundHalfEven(x * 10.0);
    TenthsScale(k, x);
    k as real / 10.0
  }

  /** Scaling by ten between tenths and whole numbers, kept apart from the rounding. */
  lemma TenthsScale(k: int, x: real)
    ensures (k as real / 10.0) * 10.0 == k as real
    ensures ((k as real / 10.0) * 10.0).Floor == k
    ensures k as real / 10.0 - x == 0.05 <==> k as real - x * 10.0 == 0.5
    ensures k as real / 10.0 - x == -0.05 <==> k as real - x * 10.0 == -0.5
  {
  }

  /** Rounding a value that lies between two integers stays between them. */
  lemma Round1Bounds(x: real, lo: int, hi: int)
    requires lo as real <= x <= hi as real
    ensures lo as real <= Round1(x) <= hi as real
  {
    var y := x * 10.0;
    var k := RoundHalfEven(y);
    var f := y.Floor;
    assert 10 * lo <= f;
    if k != f {
      assert k == f + 1 && f as real < y;
      assert f < 10 * hi;
    }
  }

  /** A value already in tenths is left as it is; so rounding twice is rounding once. */
  lemma Round1Idempotent(x: real)
    ensures Round1(Round1(x)) == Round1(x)
  {
    var k := RoundHalfEven(x * 10.0);
    assert Round1(x) * 10.0 == k as real;
    assert RoundHalfEven(k as real) == k;
  }

  /** A feedback's star if it rates the product, else nothing. */
  function StarOf(f: Feedback, productId: int): int
  {
    if f.productId == productId then f.star else 0
  }

  /** One vote if the feedback rates the product, else none. */
  function VoteOf(f: Feedback, productId: int): nat
  {
    if f.productId == productId then 1 else 0
  }

  /** The sum of the stars given to a product. */
  function SumStars(feedbacks: seq<Feedback>, productId: int): int
    decreases |feedbacks|
  {
    if feedbacks == [] then 0
    else
      var last := feedbacks[|feedbacks| - 1];
      SumStars(feedbacks[..|feedbacks| - 1], productId) + StarOf(last, productId)
  }

  /** The number of feedbacks on a product. */
  function CountFor(feedbacks: seq<Feedback>, productId: int): (n: nat)
    ensures n <= |feedbacks|
    ensures n == 0 <==> forall i :: 0 <= i < |feedbacks| ==> feedbacks[i].productId != productId
    decreases |feedbacks|
  {
    if feedbacks == [] then 0
    else
      var last := feedbacks[|feedbacks| - 1];
      CountFor(feedbacks[..|feedbacks| - 1], productId) + VoteOf(last, productId)
  }

  /** The mean star of a product that has feedback. */
  function MeanStar(feedbacks: seq<Feedback>, productId: int): real
    requires CountFor(feedbacks, productId) > 0
  {
    SumStars(feedbacks, productId) as real / CountFor(feedbacks, productId) as real
  }

  /**
   * The rating a product should carry given the feedback table: the mean
   * star rounded to tenths, and not a number when it has no feedback.
   */
  function AverageOf(feedbacks: seq<Feedback>, productId: int): (r: Rating)
    ensures r.NotANumber? <==> CountFor(feedbacks, productId) == 0
  {
    if CountFor(feedbacks, productId) == 0 then NotANumber
    else Score(Round1(MeanStar(feedbacks, productId)))
  }

  /**
   * The recomputation of `AddFeedback` and `EditFeedback`: the given star
   * when no feedback on the product is stored, the rounded mean otherwise.
   */
  function Revote(feedbacks: seq<Feedback>, productId: int, star: int): (r: Rating)
    ensures r.Score?
    ensures CountFor(feedbacks, productId) > 0 ==> r == AverageOf(feedbacks, productId)
  {
    if CountFor(feedbacks, productId) == 0 then Score(star as real)
    else Score(Round1(MeanStar(feedbacks, productId)))
  }

  /**
   * The recomputation of `RemoveFeedback` from the sum and count that
   * exclude the removed feedback. In double arithmetic a zero count gives
   * 0.0 / 0, which is not a number. The caller only reaches a zero count
   * with a zero sum; a nonzero sum over zero would be an infinity.
   */
  function RevoteWithout(totalStar: int, totalVote: int): (r: Rating)
    requires totalVote == 0 ==> totalStar == 0
    ensures r.NotANumber? <==> totalVote == 0
  {
    if totalVote == 0 then NotANumber
    else Score(Round1(totalStar as real / totalVote as real))
  }

  /** A product without feedback has a star sum of zero. */
  lemma {:induction false} SumWithoutFeedback(feedbacks: seq<Feedback>, productId: int)
    requires CountFor(feedbacks, productId) == 0
    ensures SumStars(feedbacks, productId) == 0
    decreases |feedbacks|
  {
    if feedbacks != [] {
      SumWithoutFeedback(feedbacks[..|feedbacks| - 1], productId);
    }
  }

  /** Appending a feedback adds its star and one vote to its product, and nothing to the others. */
  lemma AppendFeedback(feedbacks: seq<Feedback>, f: Feedback, productId: int)
    ensures SumStars(feedbacks + [f], productId) == SumStars(feedbacks, productId) + StarOf(f, productId)
    ensures CountFor(feedbacks + [f], productId) == CountFor(feedbacks, productId) + VoteOf(f, productId)
  {
    assert (feedbacks + [f])[..|feedbacks|] == feedbacks;
  }

  /** Removing a row other than the last commutes with dropping the last row. */
  lemma RemoveBeforeLast<T>(s: seq<T>, k: int)
    requires 0 <= k < |s| - 1
    ensures s[..k] + s[k + 1..] == (s[..|s| - 1][..k] + s[..|s| - 1][k + 1..]) + [s[|s| - 1]]
  {
  }

  /**
   * Removing the feedback at `k` takes its star and its vote away from its
   * product and leaves the other products' sums and counts as they were.
   */
  lemma {:induction false} RemoveFeedbackCounts(feedbacks: seq<Feedback>, k: int, productId: int)
    requires 0 <= k < |feedbacks|
    ensures SumStars(feedbacks[..k] + feedbacks[k + 1..], productId)
            == SumStars(feedbacks, productId) - StarOf(feedbacks[k], productId)
    ensures CountFor(feedbacks[..k] + feedbacks[k + 1..], productId)
            == CountFor(feedbacks, productId) - VoteOf(feedbacks[k], productId)
    decreases |feedbacks|
  {
    var n := |feedbacks| - 1;
    var init := feedbacks[..n];
    var rest := feedbacks[..k] + feedbacks[k + 1..];
    assert SumStars(feedbacks, productId) == SumStars(init, productId) + StarOf(feedbacks[n], productId);
    assert CountFor(feedbacks, productId) == CountFor(init, productId) + VoteOf(feedbacks[n], productId);
    if k == n {
      assert rest == init;
    } else {
      var shorter := init[..k] + init[k + 1..];
      RemoveFeedbackCounts(init, k, productId);
      assert init[k] == feedbacks[k];
      RemoveBeforeLast(feedbacks, k);
      AppendFeedback(shorter, feedbacks[n], productId);
    }
  }

  /** Rewriting the feedback at `k` in place swaps its star for the new one. */
  lemma {:induction false} ReplaceFeedbackCounts(feedbacks: seq<Feedback>, k: int, f: Feedback)
    requires 0 <= k < |feedbacks| && f.productId == feedbacks[k].productId
    ensures SumStars(feedbacks[k := f], f.productId) == SumStars(feedbacks, f.productId) - feedbacks[k].star + f.star
    ensures CountFor(feedbacks[k := f], f.productId) == CountFor(feedbacks, f.productId)
    decreases |feedbacks|
  {
    var n := |feedbacks| - 1;
    assert feedbacks[k := f][..n] == if k == n then feedbacks[..n] else feedbacks[..n][k := f];
    if k < n {
      ReplaceFeedbackCounts(feedbacks[..n], k, f);
    }
  }

  lemma ScaleStep(a: int, c: int)
    ensures a * (c + 1) == a * c + a
  {
  }

  /** If every star of a product lies in [lo, hi], so does their sum, scaled by the count. */
  lemma {:induction false} StarSumBounds(feedbacks: seq<Feedback>, productId: int, lo: int, hi: int)
    requires forall i :: 0 <= i < |feedbacks| && feedbacks[i].productId == productId ==>
               lo <= feedbacks[i].star <= hi
    ensures lo * CountFor(feedbacks, productId) <= SumStars(feedbacks, productId)
            <= hi * CountFor(feedbacks, productId)
    decreases |feedbacks|
  {
    if feedbacks != [] {
      var n := |feedbacks| - 1;
      var init := feedbacks[..n];
      assert forall i :: 0 <= i < |init| ==> init[i] == feedbacks[i];
      StarSumBounds(init, productId, lo, hi);
      var c0, s0 := CountFor(init, productId), SumStars(init, productId);
      if feedbacks[n].productId == productId {
        assert CountFor(feedbacks, productId) == c0 + 1;
        assert SumStars(feedbacks, productId) == s0 + feedbacks[n].star;
        ScaleStep(lo, c0);
        ScaleStep(hi, c0);
      }
    }
  }

  lemma MeanBetween(s: int, n: int, lo: int, hi: int)
    requires n > 0 && lo * n <= s <= hi * n
    ensures lo as real <= s as real / n as real <= hi as real
  {
    assert (lo * n) as real == lo as real * n as real;
    assert (hi * n) as real == hi as real * n as real;
  }

  /**
   * With every star of a product in [lo, hi] (1 to 5 in the shop), a rated
   * product's average lies in [lo, hi] too.
   */
  lemma AverageBounds(feedbacks: seq<Feedback>, productId: int, lo: int, hi: int)
    requires forall i :: 0 <= i < |feedbacks| && feedbacks[i].productId == productId ==>
               lo <= feedbacks[i].star <= hi
    requires CountFor(feedbacks, productId) > 0
    ensures AverageOf(feedbacks, productId).Score?
    ensures lo as real <= AverageOf(feedbacks, productId).value <= hi as real
  {
    StarSumBounds(feedbacks, productId, lo, hi);
    var n := CountFor(feedbacks, productId);
    var s := SumStars(feedbacks, productId);
    MeanBetween(s, n, lo, hi);
    Round1Bounds(s as real / n as real, lo, hi);
  }

  /**
   * The incremental formula of `RemoveFeedback` (sum minus the removed star
   * over count minus one) agrees with recomputing the average from the
   * remaining feedbacks, including the not-a-number case.
   */
  lemma RemovalRating(feedbacks: seq<Feedback>, k: int, totalStar: int, totalVote: int)
    requires 0 <= k < |feedbacks|
    requires totalStar == SumStars(feedbacks, feedbacks[k].productId) - feedbacks[k].star
    requires totalVote == CountFor(feedbacks, feedbacks[k].productId) - 1
    ensures totalVote == 0 ==> totalStar == 0
    ensures RevoteWithout(totalStar, totalVote) == AverageOf(feedbacks[..k] + feedbacks[k + 1..], feedbacks[k].productId)
  {
    var p := feedbacks[k].productId;
    var rest := feedbacks[..k] + feedbacks[k + 1..];
    RemoveFeedbackCounts(feedbacks, k, p);
    RevoteFromTotals(rest, p, totalStar, totalVote);
  }

  lemma RevoteFromTotals(feedbacks: seq<Feedback>, productId: int, totalStar: int, totalVote: int)
    requires totalStar == SumStars(feedbacks, productId) && totalVote == CountFor(feedbacks, productId)
    ensures totalVote == 0 ==> totalStar == 0
    ensures RevoteWithout(totalStar, totalVote) == AverageOf(feedbacks, productId)
  {
  }

  /** A feedback window of one month from `start`, closed once that month has passed. */
  predicate WindowClosed(start: DateTime, now: DateTime)
    ensures WindowClosed(start, now) ==> Before(start, now)
  {
    BeforeIsStrictTotalOrder(start, AddOneMonth(start), now);
    Before(AddOneMonth(start), now)
  }

  /** The window is open at its start and closes only strictly after it. */
  lemma WindowOpensAtStart(start: DateTime, now: DateTime)
    ensures !WindowClosed(start, start)
    ensures WindowClosed(start, now) ==> Before(start, now)
  {
    BeforeIsStrictTotalOrder(start, AddOneMonth(start), now);
    BeforeIsStrictTotalOrder(start, AddOneMonth(start), start);
  }

  /** The position of the first item of an order whose model belongs to the product. */
  function ItemOfProduct(items: seq<OrderItem>, models: map<int, Model>, productId: int): (r: Option<nat>)
    ensures r.Some? ==> r.value < |items| && items[r.value].modelId in models
                        && models[items[r.value].modelId].productId == productId
    ensures r.None? ==> forall k :: 0 <= k < |items| && items[k].modelId in models ==>
                          models[items[k].modelId].productId != productId
  {
    IndexWhere(items, (it: OrderItem) => it.modelId in models && models[it.modelId].productId == productId)
  }

  /** The position of a feedback by identity (`Feedbacks.FindAsync(feedbackId)`). */
  function FeedbackIndex(feedbacks: seq<Feedback>, feedbackId: int): (r: Option<nat>)
    ensures r.Some? ==> r.value < |feedbacks| && feedbacks[r.value].feedbackId == feedbackId
    ensures r.None? ==> forall j :: 0 <= j < |feedbacks| ==> feedbacks[j].feedbackId != feedbackId
  {
    IndexWhere(feedbacks, (f: Feedback) => f.feedbackId == feedbackId)
  }

  /** The position of one of the caller's feedbacks by identity. */
  function UserFeedbackIndex(feedbacks: seq<Feedback>, user: UserId, feedbackId: int): (r: Option<nat>)
    ensures r.Some? ==> r.value < |feedbacks| && feedbacks[r.value].feedbackId == feedbackId
                        && feedbacks[r.value].userId == user
    ensures r.None? ==> forall j :: 0 <= j < |feedbacks| ==>
                          feedbacks[j].feedbackId != feedbackId || feedbacks[j].userId != user
  {
    IndexWhere(feedbacks, (f: Feedback) => f.feedbackId == feedbackId && f.userId == user)
  }

  /** Why `AddFeedback` turns a request down, if it does; `Ok` when it is accepted. */
  function AddFeedbackVerdict(orders: seq<Order>, models: map<int, Model>, user: UserId, orderId: int,
                              productId: int, now: DateTime): (r: Response)
    ensures r == Ok || r == BadRequest
    ensures r == Ok ==> UserOrderIndex(orders, user, orderId).Some?
                        && orders[UserOrderIndex(orders, user, orderId).value].status == Delivered
  {
    match UserOrderIndex(orders, user, orderId)
    case None => BadRequest
    case Some(i) =>
      var order := orders[i];
      if order.status != Delivered then BadRequest
      else if order.deliveredDate.Some? && WindowClosed(order.deliveredDate.value, now) then BadRequest
      else if ItemOfProduct(order.items, models, productId).None? then BadRequest
      else Ok
  }

  /**
   * Feedback is accepted only on a delivered order of the caller, within a
   * month of its delivery, for a product among its items.
   */
  lemma AddFeedbackAccepts(orders: seq<Order>, models: map<int, Model>, user: UserId, orderId: int,
                           productId: int, now: DateTime)
    ensures AddFeedbackVerdict(orders, models, user, orderId, productId, now) == Ok <==>
              exists i :: 0 <= i < |orders| && UserOrderIndex(orders, user, orderId) == Some(i)
                && orders[i].status == Delivered
                && !(orders[i].deliveredDate.Some? && WindowClosed(orders[i].deliveredDate.value, now))
                && exists k :: 0 <= k < |orders[i].items| && orders[i].items[k].modelId in models
                     && models[orders[i].items[k].modelId].productId == productId
  {
    match UserOrderIndex(orders, user, orderId)
    case None =>
    case Some(i) =>
      match ItemOfProduct(orders[i].items, models, productId)
      case None =>
      case Some(k) =>
  }

  /** A product's rating is set to the given value; the catalogue's keys do not change. */
  function Rerated(products: map<int, Product>, productId: int, rating: Rating): (r: map<int, Product>)
    requires productId in products
    ensures r.Keys == products.Keys
  {
    products[productId := products[productId].(voteStar := rating)]
  }

  /** Removing a row keeps the feedback table well formed, over any catalogue with the same keys. */
  lemma RemovedFeedbackWellFormed(feedbacks: seq<Feedback>, products: map<int, Product>, next: int, i: int,
                                  rerated: map<int, Product>)
    requires FeedbacksWellFormed(feedbacks, products, next) && 0 <= i < |feedbacks|
    requires rerated.Keys == products.Keys
    ensures FeedbacksWellFormed(feedbacks[..i] + feedbacks[i + 1..], rerated, next)
  {
    var rest := feedbacks[..i] + feedbacks[i + 1..];
    assert forall a :: 0 <= a < |rest| ==> rest[a] == feedbacks[if a < i then a else a + 1];
    forall a | 0 <= a < |rest| ensures rest[a].productId in rerated {
      assert rest[a].productId in products.Keys;
    }
  }

  /** `SaveChangesAsync` for feedback changes: the new feedback and product tables replace the old. */
  method SaveFeedbacks(db: Db, feedbacks: seq<Feedback>, products: map<int, Product>, next: int)
    requires db.Valid()
    requires products.Keys == db.products.Keys
    requires FeedbacksWellFormed(feedbacks, products, next)
    modifies db`feedbacks, db`products, db`nextFeedbackId
    ensures db.Valid()
    ensures db.feedbacks == feedbacks && db.products == products && db.nextFeedbackId == next
  {
    assert ModelsWellFormed(db.models, products);
    db.feedbacks, db.products, db.nextFeedbackId := feedbacks, products, next;
  }

  /** `SaveChangesAsync` for changes to stored feedbacks: the identity counter is not touched. */
  method ReplaceFeedbacks(db: Db, feedbacks: seq<Feedback>, products: map<int, Product>)
    requires db.Valid()
    requires products.Keys == db.products.Keys
    requires FeedbacksWellFormed(feedbacks, products, db.nextFeedbackId)
    modifies db`feedbacks, db`products
    ensures db.Valid()
    ensures db.feedbacks == feedbacks && db.products == products
  {
    assert ModelsWellFormed(db.models, products);
    db.feedbacks, db.products := feedbacks, products;
  }

  /**
   * `AddFeedback`: Unauthorized without a caller; BadRequest unless the order
   * is the caller's, Delivered, within a month of delivery, and holds the
   * product, changing nothing. Otherwise an editable feedback with the next
   * identity is appended and the product's rating becomes the rounded mean
   * of all its feedbacks.
   */
  method AddFeedback(db: Db, caller: Option<UserId>, orderId: int, productId: int, title: string,
                     content: string, star: int, isAnonymous: bool, now: DateTime)
      returns (r: Response, feedbackId: int)
    requires db.Valid()
    modifies db`feedbacks, db`products, db`nextFeedbackId
    ensures db.Valid()
    ensures caller.None? ==> r == Unauthorized
    ensures caller.Some? ==> r == AddFeedbackVerdict(db.orders, db.models, caller.value, orderId, productId, now)
    ensures r != Ok ==> db.feedbacks == old(db.feedbacks) && db.products == old(db.products)
                        && db.nextFeedbackId == old(db.nextFeedbackId)
    ensures r == Ok ==> caller.Some? && feedbackId == old(db.nextFeedbackId) && db.nextFeedbackId == feedbackId + 1
    ensures r == Ok ==> db.feedbacks == old(db.feedbacks) + [Feedback(feedbackId, caller.value, orderId, productId,
                                                                      title, content, star, isAnonymous, true, now)]
    ensures r == Ok ==> productId in old(db.products)
                        && db.products == old(db.products)[productId := old(db.products)[productId].(
                                            voteStar := AverageOf(db.feedbacks, productId))]
    ensures r == Ok ==> db.products[productId].voteStar.Score?
  {
    feedbackId := 0;
    if caller.None? {
      return Unauthorized, feedbackId;
    }
    r := AddFeedbackVerdict(db.orders, db.models, caller.value, orderId, productId, now);
    if r != Ok {
      return r, feedbackId;
    }
    var order := db.orders[UserOrderIndex(db.orders, caller.value, orderId).value];
    var item := order.items[ItemOfProduct(order.items, db.models, productId).value];
    assert productId in db.products;

    feedbackId := db.nextFeedbackId;
    var feedback := Feedback(feedbackId, caller.value, orderId, productId, title, content, star, isAnonymous, true, now);
    var feedbacks := db.feedbacks + [feedback];
    AppendFeedback(db.feedbacks, feedback, productId);
    var rating := Revote(feedbacks, productId, star);
    assert rating == AverageOf(feedbacks, productId);
    SaveFeedbacks(db, feedbacks, Rerated(db.products, productId, rating), feedbackId + 1);
  }

  /**
   * `EditFeedback`: Unauthorized without a caller, NotFound unless the
   * feedback is the caller's, BadRequest once a month has passed since it
   * was written. Otherwise its title, content, star and anonymity are
   * overwritten, it is marked as no longer editable, and the product's rating
   * becomes the rounded mean of its feedbacks.
   */
  method EditFeedback(db: Db, caller: Option<UserId>, feedbackId: int, title: string, content: string,
                      star: int, isAnonymous: bool, now: DateTime) returns (r: Response)
    requires db.Valid()
    modifies db`feedbacks, db`products
    ensures db.Valid()
    ensures caller.None? ==> r == Unauthorized
    ensures caller.Some? && UserFeedbackIndex(old(db.feedbacks), caller.value, feedbackId).None? ==> r == NotFound
    ensures caller.Some? && UserFeedbackIndex(old(db.feedbacks), caller.value, feedbackId).Some? ==>
              var f := old(db.feedbacks)[UserFeedbackIndex(old(db.feedbacks), caller.value, feedbackId).value];
              r == (if WindowClosed(f.creationDate, now) then BadRequest else Ok)
    ensures r != Ok ==> db.feedbacks == old(db.feedbacks) && db.products == old(db.products)
    ensures r == Ok ==> caller.Some? && UserFeedbackIndex(old(db.feedbacks), caller.value, feedbackId).Some?
    ensures r == Ok ==> var i := UserFeedbackIndex(old(db.feedbacks), caller.value, feedbackId).value;
              var f := old(db.feedbacks)[i];
              && db.feedbacks == old(db.feedbacks)[i := f.(title := title, content := content, star := star,
                                                          isAnonymous := isAnonymous, allowEdit := false)]
              && f.productId in old(db.products)
              && db.products == old(db.products)[f.productId := old(db.products)[f.productId].(
                                   voteStar := AverageOf(db.feedbacks, f.productId))]
              && db.products[f.productId].voteStar.Score?
  {
    if caller.None? {
      return Unauthorized;
    }
    var found := UserFeedbackIndex(db.feedbacks, caller.value, feedbackId);
    if found.None? {
      return NotFound;
    }
    var i := found.value;
    var f := db.feedbacks[i];
    if WindowClosed(f.creationDate, now) {
      return BadRequest;
    }
    var edited := f.(title := title, content := content, star := star, isAnonymous := isAnonymous, allowEdit := false);
    var feedbacks := db.feedbacks[i := edited];
    assert feedbacks[i].productId == f.productId;
    var rating := Revote(feedbacks, f.productId, star);
    assert rating == AverageOf(feedbacks, f.productId);
    ReplaceFeedbacks(db, feedbacks, Rerated(db.products, f.productId, rating));
    r := Ok;
  }

  /**
   * `RemoveFeedback`: NotFound for an unknown identity. The product's rating
   * is recomputed from the sum and count without the feedback; when no other
   * feedback rates the product that is 0.0 / 0, not a number, which the
   * rating column (a SQL Server `float`) cannot store, so the save fails, the
   * `catch` answers 500 and nothing is saved. Otherwise the row is removed
   * and the rating becomes the rounded mean of the remaining feedbacks. No
   * caller is checked.
   */
  method RemoveFeedback(db: Db, feedbackId: int) returns (r: Response)
    requires db.Valid()
    modifies db`feedbacks, db`products
    ensures db.Valid()
    ensures FeedbackIndex(old(db.feedbacks), feedbackId).None? ==> r == NotFound
    ensures FeedbackIndex(old(db.feedbacks), feedbackId).Some? ==>
              var p := old(db.feedbacks)[FeedbackIndex(old(db.feedbacks), feedbackId).value].productId;
              r == (if CountFor(old(db.feedbacks), p) == 1 then ServerError else Ok)
    ensures r != Ok ==> db.feedbacks == old(db.feedbacks) && db.products == old(db.products)
    ensures r == Ok ==> var i := FeedbackIndex(old(db.feedbacks), feedbackId).value;
              var p := old(db.feedbacks)[i].productId;
              && db.feedbacks == old(db.feedbacks)[..i] + old(db.feedbacks)[i + 1..]
              && p in old(db.products)
              && db.products == old(db.products)[p := old(db.products)[p].(voteStar := AverageOf(db.feedbacks, p))]
              && db.products[p].voteStar.Score?
  {
    var found := FeedbackIndex(db.feedbacks, feedbackId);
    if found.None? {
      return NotFound;
    }
    var i := found.value;
    var f := db.feedbacks[i];
    var p := f.productId;
    var totalStar := SumStars(db.feedbacks, p) - f.star;
    var totalVote := CountFor(db.feedbacks, p) - 1;
    RemovalRating(db.feedbacks, i, totalStar, totalVote);
    var rating := RevoteWithout(totalStar, totalVote);
    if rating.NotANumber? {
      return ServerError;
    }
    var products := Rerated(db.products, p, rating);
    RemovedFeedbackWellFormed(db.feedbacks, db.products, db.nextFeedbackId, i, products);
    ReplaceFeedbacks(db, db.feedbacks[..i] + db.feedbacks[i + 1..], products);
    r := Ok;
  }

  /** Who a listed feedback is shown as: a placeholder for anonymous feedback, else its author. */
  datatype Author = Anonymous | Named(userId: UserId)

  /** One entry of a product's feedback listing. */
  datatype FeedbackView = FeedbackView(
    feedbackId: int,
    author: Author,
    title: string,
    content: string,
    star: int,
    creationDate: DateTime)

  function ViewOf(f: Feedback): (v: FeedbackView)
    ensures v.feedbackId == f.feedbackId && v.star == f.star && v.creationDate == f.creationDate
    ensures v.author == Anonymous <==> f.isAnonymous
    ensures !f.isAnonymous ==> v.author == Named(f.userId)
    ensures v.title == f.title && v.content == f.content
  {
    FeedbackView(f.feedbackId, if f.isAnonymous then Anonymous else Named(f.userId), f.title, f.content, f.star,
                 f.creationDate)
  }

  /** Feedbacks sorted by creation date, newest first. */
  function FeedbacksNewestFirst(feedbacks: seq<Feedback>): (r: seq<Feedback>)
    ensures multiset(r) == multiset(feedbacks)
    ensures forall i, j :: 0 <= i < j < |r| ==> NotBefore(r[i].creationDate, r[j].creationDate)
  {
    var key := (f: Feedback) => f.creationDate;
    NotBeforeIsTotalPreorder();
    SortBySorted(feedbacks, key, NotBefore);
    SortBy(feedbacks, key, NotBefore)
  }

  /** Exactly the product's feedbacks, newest first. */
  function ProductFeedbacks(feedbacks: seq<Feedback>, productId: int): (r: seq<Feedback>)
    ensures forall f :: f in r <==> f in feedbacks && f.productId == productId
    ensures forall f :: multiset(r)[f] == if f.productId == productId then multiset(feedbacks)[f] else 0
    ensures forall i, j :: 0 <= i < j < |r| ==> NotBefore(r[i].creationDate, r[j].creationDate)
  {
    var mine := Filter(feedbacks, (f: Feedback) => f.productId == productId);
    var sorted := FeedbacksNewestFirst(mine);
    assert forall f :: f in sorted <==> f in multiset(mine);
    sorted
  }

  /**
   * `GetFeedbackByProductId`: the product's feedbacks, newest first, each
   * shown with its author unless it is anonymous.
   */
  function GetFeedbackByProductId(feedbacks: seq<Feedback>, productId: int): (r: seq<FeedbackView>)
    ensures |r| == |ProductFeedbacks(feedbacks, productId)|
    ensures forall i :: 0 <= i < |r| ==> r[i] == ViewOf(ProductFeedbacks(feedbacks, productId)[i])
    ensures forall i, j :: 0 <= i < j < |r| ==> NotBefore(r[i].creationDate, r[j].creationDate)
  {
    var sorted := ProductFeedbacks(feedbacks, productId);
    seq(|sorted|, i requires 0 <= i < |sorted| => ViewOf(sorted[i]))
  }
}
