# GlassECommerce order, cart, feedback, user and post services in Dafny

This project models the business core of the GlassECommerce back end, an
ASP.NET shop for glasses: the order-status vocabulary, and the cart, order,
feedback, user and post services. Each service operation looks up a record,
checks a few rules, changes some fields and saves. In the model:

- The database context is the class `Store.Db`. It holds the tables the
  services touch: models with price and stock, products with their average
  rating, cart lines, orders with their items, feedbacks, users and posts.
  It also holds the identity counters.
- `Db.Valid()` states the schema's referential and uniqueness constraints.
  Every state-changing operation keeps it.
- Every state-changing operation is a method whose `modifies` clause names
  the tables it may write. Its `ensures` gives the HTTP outcome as a
  `Response` (`Ok`, `NotFound`, `BadRequest`, `Unauthorized`, `ServerError`)
  and the whole new state, including which tables stay as they were.
- Queries are functions. Their contracts state membership, multiplicity,
  order and paging.

The logged-in user (`GetCurrentLoggedInUser`) is a parameter
`caller: Option<UserId>`; `None` means nobody is logged in. The clock
(`DateTime.Now`) is a `now` parameter. `Created` and `NoContent` responses
are modelled as `Ok`.

Module layout, following the source:

| module | file | models |
|---|---|---|
| `Common` | common.dfy | `Option`, `Response`, `IsNullOrEmpty` |
| `Calendar` | calendar.dfy | dates, their order, `AddMonths(1)` with day clamping |
| `Queries` | queries.dfy | LINQ `FirstOrDefault`, `Where`, `OrderBy`, `Skip`/`Take` |
| `OrderStatus` | order_status.dfy | Common/OrderStatus.cs |
| `Compression` | compression.dfy | the round trip of Common/CompressionHelper.cs, which loses a leading U+FEFF |
| `Store` | store.dfy | the entities and the database context |
| `CartService` | cart_service.dfy | Services/CartService.cs |
| `OrderService` | order_service.dfy | Services/OrderService.cs |
| `FeedbackService` | feedback_service.dfy | Services/FeedbackService.cs |
| `UserService` | user_service.dfy | Services/UserService.cs |
| `PostService` | post_service.dfy | Services/PostService.cs |

Where the documented behaviour and the code disagree, the model follows
the code:

- `UpdateOrderStatus` rejects only a move to a status with a strictly
  smaller index in `ValidStatus`. Setting an order to the status it already
  has is accepted, and so is a move from any status to Canceled.
- When `RemoveFeedback` removes a product's last feedback, the recomputed
  rating is 0.0 / 0 in double arithmetic: NaN, not a division error.
  `VoteStar` is a `double`, and the SQL Server provider stores doubles in
  `float` columns (as Migrations/20240424073407_editModelEntity.cs:35-38 does
  for a price). A SQL Server `float` cannot hold NaN.
  So the single `SaveChangesAsync` fails, the `catch` answers 500, and
  neither the removal nor the rating is saved. The model answers
  `ServerError` and changes nothing. `FeedbackService.RemovalRating` still
  proves that the C# arithmetic gives `Rating.NotANumber` in that case.
- A post body is stored as the UTF-8 bytes of the description and read back
  by a `StreamReader` that detects byte-order marks. A description that
  starts with U+FEFF therefore reads back without that character
  (`Compression.RoundTripExactly`).
- The thumbnail expression in `AddPost` and `EditPost` stores exactly the
  value supplied, including the empty string (`PostService.ThumbnailRule`).
- `EditFeedback` does not look at `AllowEdit`; that check is commented out
  in the code. It only requires that the month since creation has not
  passed.

## Model

| member | source | states |
|---|---|---|
| OrderStatus.ValidStatusLists | Common/OrderStatus.cs:5-10 | `ValidStatus` lists the five labels Pending, Processing, Delivering, Delivered, Canceled, in that order and without repetition; every status has a label in the list |
| OrderStatus.IndexOf | Common/OrderStatus.cs:5 | `List.IndexOf`: the first position of the label, or -1 exactly when it is absent |
| OrderStatus.Rank | Services/OrderService.cs:180 | a status's rank is the index of its label in `ValidStatus` |
| OrderStatus.RanksIncrease | Common/OrderStatus.cs:5 | ranks run 0 to 4 from Pending to Canceled |
| OrderStatus.RankInjective | Common/OrderStatus.cs:5 | different statuses have different ranks |
| OrderStatus.Parse | Services/OrderService.cs:177 | a text parses as a status exactly when it is in `ValidStatus`, and then its label is that text |
| OrderStatus.ParseLabel | Common/OrderStatus.cs:5-10 | parsing a status's label gives the status back |
| Calendar.DaysInMonth | Services/FeedbackService.cs:45 | every month has 28 to 31 days |
| Calendar.AddOneMonth | Services/FeedbackService.cs:45 | `AddMonths(1)` keeps a valid date valid, is strictly later and keeps the time of day |
| Calendar.BeforeIsStrictTotalOrder | Services/FeedbackService.cs:45 | `<` on dates is irreflexive, asymmetric, transitive and total on distinct dates |
| Calendar.AddOneMonthClampReordersDeadlines | Services/FeedbackService.cs:106 | day clamping makes January 30 and January 31 share the deadline February 29 (2024), so a later start does not always give a later deadline |
| Queries.IndexWhere | Services/CartService.cs:31 | `FirstOrDefault`: the first position that satisfies the predicate, or none when no position does |
| Queries.Filter | Services/OrderService.cs:31 | `Where`: every row of the result satisfies the predicate, and each row occurs as often as in the input if it satisfies the predicate, and not at all otherwise |
| Queries.FilterConcat | Services/OrderService.cs:31 | `Where` over two runs of rows is the filtered first run followed by the filtered second run, so rows keep their input order |
| Queries.FilterPairwise | Services/CartService.cs:63 | a pairwise relation that holds in a table still holds after filtering it |
| Queries.InsertSorted | Services/OrderService.cs:30-31 | inserting into a sorted sequence under a total preorder keeps it sorted |
| Queries.SortBySorted | Services/OrderService.cs:30-31 | `OrderBy` under a total preorder yields a sorted permutation of its input |
| Queries.PageStart | Services/UserService.cs:25 | the skip count is (page - 1) × size for page > 0 and 0 otherwise |
| Queries.PagesAbut | Services/PostService.cs:38-41 | page `n + 1` starts exactly where page `n` ends, for `n` ≥ 1 |
| Queries.Window | Services/UserService.cs:29-30 | `Skip(skip).Take(take)`: at most `take` rows, exactly the consecutive rows from the clamped skip on, and no fewer than `take` unless the input ends |
| Queries.Page | Services/PostService.cs:38-41 | a page holds at most `size` rows, exactly the consecutive rows from the page start, each taken from the input |
| Store.NotBeforeIsTotalPreorder | Services/OrderService.cs:30 | "not earlier than" on dates is total and transitive, so `OrderByDescending` on dates is well defined |
| CartService.UserCart | Services/CartService.cs:63 | the caller's cart is exactly the cart lines with the caller's user id |
| CartService.OtherUsersCarts | Services/OrderService.cs:118 | after `RemoveRange` of the caller's cart, exactly the other users' lines remain |
| CartService.UserCartWellFormed | Services/CartService.cs:63 | the caller's lines and the other users' lines are each well-formed carts |
| CartService.LineIndex | Services/CartService.cs:31 | the caller's first line for the model, or none when the caller has no line for it |
| CartService.OwnLineIndex | Services/CartService.cs:106 | the caller's line with the given id, or none |
| CartService.LineById | Services/CartService.cs:154 | `FindAsync(cartId)`: the line with the id, of any user, or none |
| CartService.AddedToCart | Services/CartService.cs:31-48 | after an add, the caller's line for the model is found at its old position, or appended under the fresh id when there was none. Its quantity is the old quantity (0 for a new line) plus the requested amount. Every other line is unchanged |
| CartService.AddedToCartWellFormed | Services/CartService.cs:31-48 | adding to a cart keeps the cart well formed: distinct ids below the next id, stored models, and at most one line per (user, model). Stated under the next id plus one when a line is appended, and under the same next id otherwise |
| CartService.AddTwiceAccumulates | Services/CartService.cs:34-48 | adding a model twice leaves one line whose quantity is the sum of both amounts |
| CartService.AddToCart | Services/CartService.cs:23-57 | Unauthorized, NotFound for an unknown model, or BadRequest when stock is below the quantity, each changing nothing. Otherwise the cart becomes the added-to cart, the next line id advances exactly when a line is appended, and the schema constraints hold |
| CartService.EditCart | Services/CartService.cs:102-124 | Unauthorized; NotFound unless the line is the caller's; NotFound for an unknown model. Otherwise only that line's quantity is replaced |
| CartService.WithoutLine | Services/CartService.cs:158 | removing row `i` shifts the later rows down by one |
| CartService.RemovedLineWellFormed | Services/CartService.cs:158 | removing a line keeps the cart well formed, and exactly the lines with other ids remain |
| CartService.RemoveCartItem | Services/CartService.cs:150-168 | Unauthorized; NotFound for an unknown id; otherwise exactly the line with that id is removed, whoever owns it |
| CartService.CartTotalNonNegative | Services/CartService.cs:65-69 | the cart total of lines with non-negative prices and quantities is non-negative |
| CartService.CartTotalStep | Services/CartService.cs:66-69 | the running total over one more line adds that line's price × quantity |
| CartService.LineView | Services/CartService.cs:96 | a line's total is its price × quantity |
| CartService.LineViews | Services/CartService.cs:74-97 | one view per line, in order, with its id, model, quantity, current price and total |
| CartService.GetAllCarts | Services/CartService.cs:125-149 | Unauthorized without a caller; otherwise exactly the views of the caller's lines (`LineViews`: one per line, in order, each total = price × quantity), and an empty list for an empty cart |
| CartService.Checkout | Services/CartService.cs:59-100 | Unauthorized; BadRequest exactly when the cart is empty, and Ok whenever it is not. On Ok: the line views and the total accumulated by the loop, which equals the cart total; changes nothing |
| OrderService.InitialStatus | Services/OrderService.cs:98 | a new order is Processing exactly when paid by PayPal and Pending otherwise; it is never Delivered or Canceled |
| OrderService.Snapshot | Services/OrderService.cs:103-112 | one order item per cart line, in order, with the line's model and quantity and the model's price as cost |
| OrderService.SnapshotTotal | Services/OrderService.cs:113 | the items' cost × quantity sums to the cart total |
| OrderService.QuantityOfLine | Services/OrderService.cs:114 | in a cart with one line per model, the quantity ordered of a line's model is that line's quantity |
| OrderService.QuantityOfAbsent | Services/OrderService.cs:114 | a model with no line is ordered in quantity 0 |
| OrderService.UserCartDistinctModels | Services/CartService.cs:31-48 | a well-formed cart has one line per model for each user |
| OrderService.Destocked | Services/OrderService.cs:114 | taking stock keeps the catalogue's keys |
| OrderService.DestockedAvailable | Services/OrderService.cs:114 | after taking stock, every model's availability has dropped by exactly the quantity ordered of it, and nothing else about it changes |
| OrderService.DestockedLine | Services/OrderService.cs:114 | each ordered model's availability drops by exactly its line's quantity |
| OrderService.PrefixStep | Services/OrderService.cs:103-117 | one more line extends the items by its snapshot, adds its price × quantity to the total, and takes its quantity from the stock of its model |
| OrderService.PlacedOrder | Services/OrderService.cs:91-100 | the stored order has the initial status, no delivery date, stored models, and a total equal to the sum of its items |
| OrderService.AppendOrderWellFormed | Services/OrderService.cs:101-102 | appending an order with the next id keeps the order table well formed |
| OrderService.TakeFromStock | Services/OrderService.cs:103-117 | the loop yields the snapshot items, the cart total, and the stock with every line's quantity taken |
| OrderService.TakeLine | Services/OrderService.cs:105-115 | one turn of the loop extends the items, the total and the stock update by one line |
| OrderService.PlaceOrderWellFormed | Services/OrderService.cs:101-120 | placing the order keeps every schema constraint: products of models, other users' cart lines, and the order table with the new order |
| OrderService.ReplaceOrderWellFormed | Services/OrderService.cs:182-186 | rewriting an order with its id and items kept, and a delivery date when it is Delivered, keeps the order table well formed |
| OrderService.PlanOrder | Services/OrderService.cs:91-118 | the new orders, models and carts of a placed order, each well formed |
| OrderService.AddOrder | Services/OrderService.cs:79-146 | BadRequest for an unknown payment method; Unauthorized; BadRequest for an empty cart; each changes nothing. Otherwise: the order is appended with the next id; every ordered model's stock drops by its line quantity; the caller's cart is emptied; other carts are kept |
| OrderService.OrderIndex | Services/OrderService.cs:175 | `FindAsync(orderId)`: the order with the id, or none |
| OrderService.UserOrderIndex | Services/OrderService.cs:154 | the caller's order with the id, or none |
| OrderService.MayMoveTo | Services/OrderService.cs:180 | a move is allowed exactly when the index in `ValidStatus` of the current label is not greater than that of the target label |
| OrderService.MayMoveToIsForwardOnly | Services/OrderService.cs:180-181 | a move is allowed exactly when the rank does not decrease; staying and cancelling are always allowed; between two distinct statuses exactly one direction is allowed |
| OrderService.UpdateOrderStatus | Services/OrderService.cs:170-212 | NotFound; BadRequest for a label outside `ValidStatus`; BadRequest for a backward move; each changes nothing. Otherwise the status is set, and the delivery date is stamped exactly when the target is Delivered |
| OrderService.CancelOrder | Services/OrderService.cs:148-168 | Unauthorized; NotFound unless the order is the caller's; BadRequest unless Pending or Processing; otherwise only the status changes, to Canceled |
| OrderService.NewestFirst | Services/OrderService.cs:30-31 | orders reordered by date, newest first, as a permutation |
| OrderService.GetAllOrdersOfCurrentUser | Services/OrderService.cs:26-52 | Unauthorized without a caller; otherwise exactly the caller's orders that match the status filter, each as often as in the table, newest first; an empty filter matches all |
| OrderService.GetAllUserOrders | Services/OrderService.cs:54-77 | all orders, newest first, as a permutation |
| FeedbackService.RoundHalfEven | Services/FeedbackService.cs:74 | the nearest integer, within one half, and even on a tie |
| FeedbackService.Round1 | Services/FeedbackService.cs:74 | `Math.Round(x, 1)` is a whole number of tenths within 0.05 of `x`, and on a tie the even number of tenths |
| FeedbackService.Round1Bounds | Services/FeedbackService.cs:74 | rounding a value between two integers stays between them |
| FeedbackService.Round1Idempotent | Services/FeedbackService.cs:74 | rounding twice is rounding once |
| FeedbackService.CountFor | Services/FeedbackService.cs:72 | the count is at most the table size, and 0 exactly when no feedback rates the product |
| FeedbackService.AverageOf | Services/FeedbackService.cs:68-75 | the rating is not a number exactly when the product has no feedback |
| FeedbackService.Revote | Services/FeedbackService.cs:68-75 | the rating of `AddFeedback` and `EditFeedback` is always a number, and the rounded mean whenever the product has feedback |
| FeedbackService.RevoteWithout | Services/FeedbackService.cs:155-158 | the rating of `RemoveFeedback` is not a number exactly when no vote remains |
| FeedbackService.SumWithoutFeedback | Services/FeedbackService.cs:157 | a product without feedback has star sum 0 |
| FeedbackService.AppendFeedback | Services/FeedbackService.cs:64-68 | appending a feedback adds its star and one vote to its own product only |
| FeedbackService.RemoveFeedbackCounts | Services/FeedbackService.cs:157-158 | removing a feedback takes its star and vote from its product only |
| FeedbackService.ReplaceFeedbackCounts | Services/FeedbackService.cs:110-124 | editing a feedback in place swaps its old star for the new one and keeps the count |
| FeedbackService.StarSumBounds | Services/FeedbackService.cs:71-72 | with every star in [lo, hi], the sum lies between lo × count and hi × count |
| FeedbackService.AverageBounds | Services/FeedbackService.cs:68-75 | with every star in [lo, hi], the average rating of a rated product is a number in [lo, hi] |
| FeedbackService.RemovalRating | Services/FeedbackService.cs:155-159 | the formula (sum − star) / (count − 1) equals the rounded mean of the remaining feedbacks, or not a number when none remain |
| FeedbackService.WindowClosed | Services/FeedbackService.cs:45 | the one-month window closes only strictly after its start |
| FeedbackService.WindowOpensAtStart | Services/FeedbackService.cs:45 | the one-month window is open at its start and closes only after it |
| FeedbackService.ItemOfProduct | Services/FeedbackService.cs:48 | an order item whose model belongs to the product, or none |
| FeedbackService.FeedbackIndex | Services/FeedbackService.cs:153 | `FindAsync(feedbackId)`: the feedback with the id, or none |
| FeedbackService.UserFeedbackIndex | Services/FeedbackService.cs:103 | the caller's feedback with the id, or none |
| FeedbackService.AddFeedbackVerdict | Services/FeedbackService.cs:42-49 | the gate of `AddFeedback` answers Ok or BadRequest, and Ok only for a delivered order of the caller |
| FeedbackService.AddFeedbackAccepts | Services/FeedbackService.cs:42-49 | a feedback is accepted exactly on a delivered order of the caller, within a month of delivery, that holds the product |
| FeedbackService.Rerated | Services/FeedbackService.cs:76 | re-rating a product keeps the catalogue's keys |
| FeedbackService.RemovedFeedbackWellFormed | Services/FeedbackService.cs:161 | removing a feedback keeps the table well formed |
| FeedbackService.AddFeedback | Services/FeedbackService.cs:38-96 | Unauthorized; BadRequest unless the order is the caller's and Delivered, is within a month of delivery, and holds the product; each changes nothing. Otherwise an editable feedback with the next id is appended, and the product's rating becomes the rounded mean of its feedbacks, a number |
| FeedbackService.EditFeedback | Services/FeedbackService.cs:98-147 | Unauthorized; NotFound unless the feedback is the caller's; BadRequest after a month from creation. Otherwise title, content, star and anonymity are overwritten, editing is closed, and the product's rating becomes the rounded mean |
| FeedbackService.RemoveFeedback | Services/FeedbackService.cs:149-170 | NotFound for an unknown id. ServerError, changing nothing, when it is its product's only feedback. Otherwise exactly that feedback is removed, and its product's rating becomes the rounded mean of the rest, a number |
| FeedbackService.ViewOf | Services/FeedbackService.cs:27-35 | a listed feedback keeps id, title, content, star and date; it hides its author exactly when anonymous, and otherwise shows the author's user id |
| FeedbackService.FeedbacksNewestFirst | Services/FeedbackService.cs:25 | feedbacks reordered by creation date, newest first, as a permutation |
| FeedbackService.ProductFeedbacks | Services/FeedbackService.cs:24-25 | exactly the product's feedbacks, each as often as in the table, newest first |
| FeedbackService.GetFeedbackByProductId | Services/FeedbackService.cs:23-36 | one view per feedback of the product, newest first |
| UserService.StrLeTotal | Services/UserService.cs:28 | ordinal string order is total |
| UserService.StrLeTransitive | Services/UserService.cs:28 | ordinal string order is transitive |
| UserService.StrLeAntisymmetric | Services/UserService.cs:28 | ordinal string order is antisymmetric, so the order by id is unique |
| UserService.StrLeIsTotalPreorder | Services/UserService.cs:28 | ordinal string order is a total preorder |
| UserService.UsersById | Services/UserService.cs:28 | the users reordered by id, as a permutation |
| UserService.GetAllUsers | Services/UserService.cs:21-48 | at most 20 users in ascending id order, exactly the run of the ordered directory from (page − 1) × 20, or from 0 for a page below 1 |
| UserService.NonPositivePageIsFirst | Services/UserService.cs:25 | a page below 1 lists the same users as page 1 |
| UserService.UserIndex | Services/UserService.cs:52 | `FindByIdAsync`: the user with the id, or none |
| UserService.EmailIndex | Services/UserService.cs:144 | `FindByEmailAsync`: a user with the address, or none when no user has it |
| UserService.GetUserById | Services/UserService.cs:50-67 | NotFound exactly when no user has the id; otherwise that user |
| UserService.WithProfile | Services/UserService.cs:76-82 | the seven profile fields are overwritten; id, e-mail, activation and roles are kept |
| UserService.WithActivationToggled | Services/UserService.cs:130 | the activation flag is negated and nothing else changes |
| UserService.ToggleTwiceRestores | Services/UserService.cs:130 | toggling a user twice gives the user back |
| UserService.ReplaceUserWellFormed | Services/UserService.cs:83 | rewriting a user without changing the id keeps ids distinct |
| UserService.EditUser | Services/UserService.cs:69-103 | NotFound for an unknown id, changing nothing; otherwise only that user's profile fields change |
| UserService.ToggleUserStatus | Services/UserService.cs:123-140 | NotFound for an unknown id, changing nothing; otherwise only that user's activation flag is negated |
| UserService.ToggleUserStatusTwice | Services/UserService.cs:123-140 | toggling the same user twice restores the directory |
| UserService.ChangeUserRole | Services/UserService.cs:141-150 | BadRequest before any lookup for a role other than ADMIN and CUSTOMER; NotFound for an unknown address; otherwise the user's roles become exactly the given one |
| PostService.ThumbnailRule | Services/PostService.cs:89 | the stored thumbnail is always the supplied value, absent, empty or not |
| PostService.ViewOfPost | Services/PostService.cs:48-57 | a listed post shows its fields and its decompressed body |
| PostService.PostsNewestFirst | Services/PostService.cs:35 | posts reordered by creation date, newest first, as a permutation |
| PostService.PostPage | Services/PostService.cs:30-43 | for page > 0, at most 10 posts, exactly the run of the newest-first list from 10 × (page − 1); otherwise every post |
| PostService.GetAllPosts | Services/PostService.cs:28-60 | one view per post of the page, in order; every post for a page below 1, at most 10 otherwise |
| PostService.PostIndex | Services/PostService.cs:64 | `FindAsync(postId)`: the post with the id, or none |
| PostService.GetPostById | Services/PostService.cs:62-77 | NotFound exactly when no post has the id; otherwise that post's view |
| PostService.NewPost | Services/PostService.cs:83-92 | a new post has the given author, title and thumbnail, a body that decompresses to the description less a leading U+FEFF (to the description itself when it does not start with U+FEFF), and both dates now |
| PostService.EditedPost | Services/PostService.cs:118-121 | an edit sets thumbnail, title, body and update time, and keeps id, author and creation date; the body decompresses to the description less a leading U+FEFF |
| PostService.AddPost | Services/PostService.cs:79-111 | a new post with the next id is appended and nothing else changes |
| PostService.AddedPostReadsBack | Services/PostService.cs:83-101 | a post just added is found by its id and reads back with the description it was written from, less a leading U+FEFF; exactly that description when it does not start with U+FEFF |
| PostService.EditPost | Services/PostService.cs:113-139 | only the given post changes, as an edit |
| PostService.RemovePost | Services/PostService.cs:141-157 | NotFound for an unknown id, changing nothing; otherwise exactly that post is removed and no post with the id remains |
| PostService.RemovedPostWellFormed | Services/PostService.cs:147 | removing a post keeps the table well formed and leaves no post with its id |
| Compression.CompressString | Common/CompressionHelper.cs:8-37 | decompressing a compressed text gives the text back, less a leading U+FEFF, which the reader takes for a UTF-8 byte-order mark |
| Compression.RoundTripExactly | Common/CompressionHelper.cs:10-33 | the round trip returns the text exactly when the text does not start with U+FEFF |
| Compression.LeadingBomIsDropped | Common/CompressionHelper.cs:10-33 | U+FEFF followed by "abc" reads back as "abc" |

## Left out

- I/O, the ORM and the HTTP layer are not modelled. Response bodies and messages are not modelled; only the status is. Created and NoContent are `Ok`.
- Authentication is the `caller` parameter. `RemoveFeedback`, `RemoveCartItem`'s ownership and all of `UserService` take no caller, as in the code.
- Exceptions and the 500 responses of the `catch` blocks are not modelled, except the failed save of `RemoveFeedback` on a product's last feedback. Transactions and concurrent requests are not modelled either. Each operation is atomic in the model; the code saves in several steps.
- Money and ratings are exact rationals (`real`), not IEEE doubles. Rounding (`Math.Round(x, 1)`, to even) is exact; double representation error is not modelled.
- Quantities and stock are unbounded integers; the code's 32-bit overflow is not modelled. Stock can go negative in the model, as in the code: `AddOrder` subtracts without a floor, and `AddToCart` checks the stock but not the quantity already in the cart.
- `ChangePassword` is not modelled; it depends on the identity store's password hashing.
- `UserService.ChangeUserRole`: e-mail lookup is exact. The identity store's normalisation of addresses is not modelled.
- `FeedbackService.RevoteWithout`: requires a zero sum when the count is zero. A nonzero sum over zero votes would be an infinity in double arithmetic, which `Rating` does not represent; `RemoveFeedback` never reaches it.
- `UserService.GetAllUsers` orders ids by code point, while C# ordinal comparison orders them by UTF-16 code unit; the two differ only when a character in U+E000–U+FFFF meets one above U+FFFF. A database collation may order them otherwise. The `Role` column (the first of the user's roles) is not modelled; it depends on the identity store's role order.
- Sorting stability: `SortBy` is a stable insertion sort, and ties between equal dates keep table order. The database's ordering of ties is not modelled.
- `Compression.CompressString`: GZip and Base64 are not modelled; only the round trip is. Strings here are sequences of Unicode scalar values, so a C# string holding an unpaired surrogate, which UTF-8 encoding replaces with U+FFFD, cannot be written.
- Views that name a user show the user id. The user's display text (`User.ToString()`) and the anonymous placeholder text are not modelled.
- `PostService.AddPost` reads the clock once for both dates. The code reads it twice, and the two readings may differ by a few ticks.
- `FeedbackService.AddFeedback` uses one `now` both for the delivery-window check and for the creation date. The code reads the clock twice (Services/FeedbackService.cs:45 and 63).
- `UserService.EmailIndex` returns the first user with the address. The identity store's lookup expects at most one user and fails on a duplicate address. `UsersWellFormed` does not make addresses unique, so that failure is not modelled.
- `Calendar.AddOneMonth` has no upper bound on the year. `DateTime.AddMonths` throws past the year 9999, which is not modelled.
- `OrderService.AddOrder`: the two payment-method texts live in a constants class that is not part of this model. The texts used here are placeholders; only their being distinct matters.
- `PostService.EditPost` takes the id of a stored post. The lookup that produces the post entity happens in the controller, which is not part of this model.
- The request validation attributes of the DTOs (star range, required fields) are not part of this model. The star range appears as a hypothesis of `FeedbackService.AverageBounds`.
- `OrderService.AddOrder`: the order is saved once. The code saves it first with total 0 and then updates it.
- `CartService.EditCart` checks the model id but does not change the line's model, as in the code.
- Notifications sent by `CancelOrder` are not modelled.
