# Fitness club web app: store, subscriptions, community and profile core

A Dafny model of the business logic underneath a Django fitness-club site.
The database is an abstract state: products, orders and order items; subscription plans and user subscriptions; likes and comments on achievement posts; user profiles.
Each request handler is an operation on that state. The payment provider is not modelled: session creation is a success flag, and a webhook receives a verified event or nothing.

- `common.dfy`
  - `Keys`: the primary-key types.
  - `Wrappers`: `Option`.
  - `Money`: money as integer hundredths. It also holds the `DecimalField` digit bounds and the conversion `int(price * 100)` to cents.
  - `Payments`: line items, session metadata and events, exchanged with the provider.
- `store_models.dfy`: product, review, order and order-item records, with their column bounds and uniqueness rules.
- `store_views.dfy`: the add-to-cart gate, the review gate of the product page and checkout. It also holds the store webhook and `fulfill_order`:
  - `StoreDb.FulfilOrder` is a loop over the cart, proved against the function `FulfilOrderSpec`.
  - Module `StoreFulfilment` holds the properties of fulfilment, including how it falls short.
- `subscription_models.dfy`: plans, the table with its one-active-subscription-per-user constraint, and `UserSubscription.save`.
- `subscription_views.dfy`: `subscribe`, `subscription_success`, the subscription webhook and `fulfill_subscription`. Its properties are in module `SubscriptionFulfilment`.
- `community.dfy`: the like toggle (`get_or_create` followed by `delete`) and `post_detail`.
- `profile.dfy`: `get_or_create` on the profile table, the age formula and the calendar facts it is checked against.

Dates are whole day numbers, or `Date(year, month, day)` records where the age is computed. The clock is a `now`/`today` parameter.

## Behaviour as coded

The model follows the code where it differs from the design description of the system:

- `duration_days` is a `PositiveIntegerField`, which accepts 0. A zero-day plan is therefore allowed, not only durations > 0.
- An order's total is the cart total computed before any item is written. When a cart product no longer exists, the item loop stops there and the exception is swallowed. The paid order then has fewer items than its total accounts for (`FulfilNotAtomic`, `PartialOrderTotalMismatch`). Total = Σ item price × quantity holds only when every product exists (`FulfilCompleteTotal`).
- Both webhooks answer a bad signature with 400, not with an "unauthorized" status.
- `fulfill_order` swallows only a missing user or product, a missing key and bad JSON. A cart total beyond the ten digits of `Order.total` raises before the order is written. An item with a negative quantity or a price beyond eight digits raises after the paid order and the items before it are written. Either is answered with 500 (`FulfilTotalOverflowFails`, `FulfilRefusedItemFails`).
- Not every fulfilment error is swallowed. Metadata missing `user_id`/`cart` (store) or `plan_id`/`user_id` (subscriptions) raises `KeyError` in the webhook, outside any handler, and is answered with 500. An active subscription that already exists makes `fulfill_subscription`'s insert raise `IntegrityError`, also answered with 500.
- A missing or inactive plan in `subscribe` is a redirect with an error notice, not a 404.
- `AddToCartForm` refuses a quantity outside 1..10 (nothing is added). It does not clamp the quantity.
- `UserSubscription.start_date` has `auto_now_add`, so the insert overwrites any start date given with the insert time. `save` computes a missing end date from the start date given, before that overwrite.
- Three pages fail on every object they find: the product page, the post page and the profile page. Each is modelled twice, as written and as intended (see Findings).

## Model

| member | source | states |
|---|---|---|
| Money.FitsDecimalRange | store/models.py:21 | A `DecimalField(max_digits=d, decimal_places=2)` holds exactly the amounts strictly between -10^d and 10^d hundredths (both directions) |
| Money.DigitCountBound | store/models.py:21 | An amount needs at most d digits iff it is below 10^d (induction on d) |
| Money.UnitAmountExact | store/views.py:116 | `int(price * 100)` of a price with at most two decimals is exact: the result times 10^places is the coefficient times 100 |
| Money.UnitAmountOfHundredths | store/views.py:116 | A stored two-decimal amount converts to exactly its number of cents |
| Money.UnitAmount | store/views.py:116 | `int(price * 100)` truncates toward zero: scaled back by 10^places, the cents lie between zero and the exact amount and within one unit of it, for either sign |
| StoreModels.ProductPriceBound | store/models.py:21 | A valid product's price is below 1,000,000.00 in magnitude |
| StoreModels.InsertProduct | store/models.py:16-24 | A product row is accepted iff its price fits eight digits, its stock is non-negative and neither its id nor its slug is taken; an accepted row is added under its id, every existing row is kept as it was, and the catalog stays valid with the slug unique |
| StoreModels.InsertReview | store/models.py:32-40 | A review is accepted iff its rating passes the non-negative column check and the user has not reviewed that product; the table keeps (product, user) unique and the new row is appended |
| StoreViews.AddToCart | store/views.py:61-75 | A missing product is 404; `cart.add` is called with exactly the submitted quantity iff the form accepts it (an integer in 1..10); an inactive product is still found |
| StoreViews.ProductDetail | store/views.py:38-58 | As intended (reviews read through `reviews`): the page is shown iff the id exists with that slug and is active; `can_review` holds iff the user is signed in and some item of a paid order of theirs is for the product |
| StoreViews.ProductDetailAsCoded | store/views.py:42-43 | As written: a product that is not found is 404, and every product that is found ends in an error, so the page is never shown |
| StoreViews.ProductDetailNeverShown | store/views.py:42-58 | Every page the intended view shows is an error as written, and the two agree on exactly the 404s |
| StoreViews.HasPaidFor | store/views.py:47-51 | The review gate's query: some order item for the product belongs to a paid order of the user |
| StoreViews.LineItemOf | store/views.py:112-119 | A cart line becomes a "usd" line item with its name and quantity and its captured price in cents |
| StoreViews.LineItems | store/views.py:112-119 | One line item per cart line, in cart order, each with the line's price in cents and quantity |
| StoreViews.Checkout | store/views.py:99-138 | An empty cart is refused; a session is requested iff the cart is non-empty and the request is a POST, with the cart's line items and metadata holding the user and the serialized cart; the outcome is a redirect iff the provider succeeds |
| StoreViews.Serialize | store/views.py:129 | The serialized cart decodes again, and reading it back gives every line's product, quantity and price in cart order |
| StoreViews.ReadEntries | store/views.py:213-218 | The cart entries are read iff every entry has both `quantity` and `price` (otherwise KeyError); the entries keep the cart order and values |
| StoreModels.ValidOrder | store/models.py:50 | An order's total fits `DecimalField(max_digits=10, decimal_places=2)` |
| StoreModels.ValidOrderItem | store/models.py:61-62 | An item's quantity passes the non-negative column check and its price fits `DecimalField(max_digits=8, decimal_places=2)` |
| StoreViews.EntryFits | store/views.py:229-234 | The item written for a cart entry passes the quantity and price column checks |
| StoreViews.ProcessedCount | store/views.py:227-234 | The item loop writes exactly the entries before the first whose product does not exist or whose item the columns refuse |
| StoreViews.FulfilOrderFails | store/views.py:215-236 | An exception escapes `fulfill_order`: the cart total does not fit the order's column, or the loop reaches an existing product whose item is refused |
| StoreViews.CartTotal | store/views.py:215-218 | The order total Σ price × quantity over the cart; it is never negative when no line has a negative price or quantity |
| StoreViews.FulfilOrderSpec | store/views.py:204-236 | Fulfilment only appends: users and products are kept, at most one order is added, earlier orders and items are kept, and when no order is added nothing changes (an unknown user, bad JSON, a missing key or a total beyond ten digits) |
| StoreViews.StoreDispatch | store/views.py:186-199 | A bad signature is rejected; only `checkout.session.completed` is acted on; fulfilment gets the metadata's user, cart and the payment intent; a missing key is a KeyError |
| StoreViews.WebhookStatus | store/views.py:186-201 | The webhook answers 400 exactly for a bad signature, 500 exactly for a missing metadata key or a fulfilment that raises (`FulfilOrderFails`), and 200 for every other event |
| StoreViews.StoreDb.FulfilOrder | store/views.py:204-236 | The tables after fulfilment equal `FulfilOrderSpec` of the tables before: no change for an unknown user, bad JSON, a missing key or a refused total, otherwise one paid order with the cart total and one item per entry up to the first missing product or refused item; the result is false exactly when an exception escapes (`FulfilOrderFails`); consistency and the column bounds are kept |
| StoreViews.StoreDb.StripeWebhook | store/views.py:178-201 | Answers `WebhookStatus` of the tables before: 400 for a bad signature, 500 for a missing metadata key or a fulfilment that raises, else 200; fulfils only completed checkouts |
| StoreFulfilment.FulfilRejectsBadInput | store/views.py:211-236 | Fulfilment leaves the store unchanged iff the user is unknown, the JSON is undecodable, a key is missing or the cart total does not fit ten digits |
| StoreFulfilment.FulfilCreatesPaidOrder | store/views.py:215-225 | Exactly one order is appended, paid, for the user, with the cart total and the payment intent; earlier orders and items are untouched |
| StoreFulfilment.FulfilCopiesCartPrices | store/views.py:227-234 | Each new item belongs to the new order and copies its cart entry's product, quantity and price, in cart order |
| StoreFulfilment.FulfilIgnoresCatalogPrices | store/views.py:227-234 | Catalog prices play no part: catalogs with the same product ids give the same orders and items |
| StoreViews.FulfilPreservesValid | store/views.py:220-234 | Fulfilment keeps orders numbered by position, every item pointing at an existing order, every order's total within ten digits and every item's quantity non-negative and price within eight digits |
| StoreFulfilment.ItemsForTotal | store/views.py:215-218 | The items written for a list of entries sum to the entries' Σ price × quantity |
| StoreFulfilment.FulfilCompleteTotal | store/views.py:215-234 | When every cart product exists and every item is accepted, nothing escapes and the new order's total equals the sum of its items' price × quantity |
| StoreFulfilment.FulfilNotAtomic | store/views.py:227-236 | A missing product at position j leaves a paid order with at most j of its items |
| StoreFulfilment.PartialOrderTotalMismatch | store/views.py:215-236 | Concretely: a 10.00 + 5.00 cart whose second product is gone is recorded as a paid 15.00 order with 10.00 of items, and the webhook answers 200 |
| StoreFulfilment.FulfilTotalOverflowFails | store/views.py:215-225 | A cart total beyond ten digits raises before anything is written: the store is unchanged and the webhook answers 500 |
| StoreFulfilment.FulfilRefusedItemFails | store/views.py:220-234 | An existing product whose item is refused, at position j, raises after the paid order and the j items before it are written |
| StoreFulfilment.FulfilReplayDuplicates | store/views.py:220-225 | A completed payment delivered twice records two paid orders with the same payment intent and total |
| StoreFulfilment.FulfilEntitlesReview | store/views.py:229-234 | Every product the loop records afterwards passes the review gate `HasPaidFor` for the buyer; the page that would show it fails as written (see Findings) |
| StoreFulfilment.ChargedIsCartTotal | store/views.py:112-119 | What the provider is asked to charge for a cart's line items equals the cart's Σ price × quantity (induction) |
| StoreFulfilment.ChargedIsRecordedTotal | store/views.py:112-130 | When a checkout's session completes, one order is recorded whose total equals the amount charged, whether or not the products still exist; if that amount exceeds ten digits nothing is recorded and the webhook answers 500 |
| StoreFulfilment.ChargedMatchesRecorded | store/views.py:215-234 | When every cart product still exists and every line's quantity and price fit their columns, a charge within ten digits is answered 200 and the items recorded for that order sum to it |
| SubscriptionModels.ValidPlanTable | subscriptions/models.py:5-10 | The plan table is keyed by plan id and every plan fits its price column and has a non-negative duration |
| SubscriptionModels.PlanPriceBound | subscriptions/models.py:8 | A valid plan's price is below 10,000.00 in magnitude |
| SubscriptionModels.InsertSubscription | subscriptions/models.py:28-31 | An insert is refused iff the row is active and the user already has an active row; an accepted row is appended and at most one active row per user is kept |
| SubscriptionModels.SubscriptionTable.Insert | subscriptions/models.py:28-31 | The table method applies `InsertSubscription` and keeps at most one active subscription per user |
| SubscriptionModels.UserSubscription.Save | subscriptions/models.py:33-36 | A missing end date becomes start date + plan duration and a given end date is kept. Without a plan it raises, and without a start date it raises, both before the start date is touched. Otherwise the start date is stamped with the insert time; a null plan or payment reference then violates NOT NULL, and the row is inserted iff the active constraint allows |
| SubscriptionViews.PlanLineItem | subscriptions/views.py:49-56 | The session's single line item is the plan's name and price in cents, quantity 1 |
| SubscriptionModels.HasActive | subscriptions/views.py:37-42 | The guard's query: some subscription row of the user is active |
| SubscriptionViews.Subscribe | subscriptions/views.py:31-70 | A missing or inactive plan is refused. A user with an active subscription is sent to the profile. A session is requested iff the plan is offered and the user has none active, with one line item and metadata holding the user and the plan; the redirect to the provider happens iff, in addition, the provider succeeds |
| SubscriptionViews.SubscriptionSuccess | subscriptions/views.py:78-88 | Without a plan id, back to the plans; otherwise to the profile, with a notice that depends on whether the plan exists; nothing is written |
| SubscriptionViews.FulfilSubscriptionSpec | subscriptions/views.py:126-148 | A subscription is created iff the plan and the user exist, the payment intent is not null and the user has no active subscription; the created row is the user's, active, and the insert appends it |
| SubscriptionViews.FulfilSubscription | subscriptions/views.py:126-148 | The table after fulfilment is the old one, plus the row `FulfilSubscriptionSpec` creates, if any; the one-active constraint is kept |
| SubscriptionViews.SubscriptionDispatch | subscriptions/views.py:108-121 | A bad signature is rejected; only `checkout.session.completed` is acted on, with the metadata's plan and user and the payment intent |
| SubscriptionViews.SubscriptionWebhook | subscriptions/views.py:100-123 | Answers 400 for a bad signature, 500 for a missing metadata key or a refused insert, else 200; only a created subscription changes the table |
| SubscriptionFulfilment.FulfilSubscriptionPeriod | subscriptions/views.py:138-148 | The created subscription is active, belongs to the user and is for the plan looked up; it runs from now to now + plan duration and records the payment intent; on a table keyed by plan id it is for the plan paid for and ends no earlier than it starts |
| SubscriptionFulfilment.FulfilSubscriptionOutcomes | subscriptions/views.py:132-148 | Dropped iff the plan or the user is unknown. It fails with IntegrityError iff both exist and the payment intent is null or the user already has an active subscription |
| SubscriptionFulfilment.FulfilSubscriptionKeepsOneActive | subscriptions/views.py:141-148 | A created subscription keeps at most one active subscription per user |
| SubscriptionFulfilment.ConcurrentCheckoutsSecondRefused | subscriptions/views.py:37-44 | Two checkouts opened before either is paid both pass the active-subscription guard; the first payment creates a subscription and the second is refused by the database |
| SubscriptionFulfilment.ReplayedSubscriptionRefused | subscriptions/views.py:126-148 | A replayed subscription payment is refused by the database instead of creating a second subscription |
| Community.IndexOf | community/views.py:60-63 | The lookup finds the first row holding the pair |
| Community.Toggle | community/views.py:60-66 | A pair that is not liked gets its row appended; a liked pair loses exactly one row holding it, and every other row stays |
| Community.ToggleKeepsUnique | community/models.py:33-36 | Toggling a like keeps (post, user) unique among the likes |
| Community.ToggleFlipsPair | community/views.py:60-66 | After a toggle the liked pairs are the old ones with exactly this pair flipped: removed if it was liked, added if not |
| Community.ToggleLeavesOthers | community/views.py:60-66 | Every other (post, user) pair keeps its state |
| Community.ToggleTwiceRestoresRows | community/views.py:60-66 | A like that did not exist is undone exactly, row for row, by a second toggle |
| Community.ToggleTwiceRestoresPairs | community/views.py:60-66 | Toggling twice restores the set of liked pairs, whichever state the pair started in |
| Community.LikeCount | community/views.py:37 | `post.likes.count()` is at most the number of rows, and zero exactly when no row is on the post |
| Community.LikeCountIsLikers | community/views.py:37 | Under the uniqueness constraint a post's like count is the number of distinct users who like it (induction) |
| Community.ToggleLikeCount | community/views.py:56-68 | A toggle changes the post's like count by exactly one, down if it was liked and up if not, and no other post's count |
| Community.CommunityDb.GetOrCreateLike | community/views.py:60-63 | Returns the existing row for the pair, or appends one iff there was none; uniqueness is kept |
| Community.CommunityDb.DeleteLike | community/views.py:65-66 | Removes exactly the row at the given position, keeping uniqueness |
| Community.CommunityDb.LikePost | community/views.py:55-68 | A missing post is 404 and changes nothing; otherwise the likes become the toggle of the pair; comments and posts are untouched |
| Community.CommunityDb.PostDetail | community/views.py:11-38 | As intended (comments ordered by `created_on`): a missing post is 404. A comment is saved iff the request is an authenticated POST with a valid form, attached to this post and user. Otherwise the page is rendered: `user_has_liked` holds iff the user is signed in and a like for the pair exists, and `like_count` is the post's number of likes |
| Community.PostDetailAsCoded | community/views.py:12-13 | As written: a missing post is 404, and every post that is found ends in an error; no comment is saved and no page is rendered |
| Profiles.Age | core/views.py:25-30 | The age is the number of completed years: the anniversary it names has been reached and the next has not |
| Profiles.AgeUnique | core/views.py:27-30 | No other count of years has that property |
| Profiles.AgeOnBirthday | core/views.py:29 | The comparison is strict: on the birthday the age is the full year difference |
| Profiles.AgeBeforeBirthday | core/views.py:29 | On every date before this year's birthday the age is the year difference minus one |
| Profiles.AgeDayBeforeBirthday | core/views.py:27-30 | On the calendar day before a birthday, including 31 December before a 1 January birthday, the age is the year difference minus one |
| Profiles.AgeLeapDayBirthday | core/views.py:27-30 | Someone born on 29 February turns a year older on 1 March in a common year, and on 29 February in a leap year |
| Profiles.PreviousDay | core/views.py:27-30 | The day before a date is a valid date before it, and every valid date before it is on or before that day |
| Profiles.AgeNonNegative | core/views.py:27-30 | Anyone born on or before today has a non-negative age |
| Profiles.FindProfile | core/views.py:20 | The lookup succeeds iff the user has a profile, and returns that user's row |
| Profiles.ProfileDb.GetOrCreate | core/views.py:20 | A profile is created iff the user has none. Afterwards the user has exactly one profile, the one returned |
| Profiles.ProfileDb.Profile | core/views.py:18-22 | As written: the user's profile is created iff absent, then the view fails; no age is produced |
| Profiles.ProfileDb.ProfileWithAge | core/views.py:18-36 | As intended (orders read through `orders`): yields the user's single profile, creating a blank one only if absent. An age is given iff a date of birth is set, and then it is the completed years at today's date |

## Findings

| source | as written | input that shows it | evidently intended | confidence | as-written member | corrected member |
|---|---|---|---|---|---|---|
| store/views.py:43 | `product.productreview_set` is read, but the review's foreign key sets `related_name='reviews'` (store/models.py:33), so the accessor does not exist and the view raises | any active product requested with its own id and slug | read the reviews through `product.reviews`, so the page is shown with `can_review` | not executed; high: the accessor is replaced by the related name | StoreViews.ProductDetailAsCoded | StoreViews.ProductDetail |
| core/views.py:22 | `request.user.order_set` is read, but the order's foreign key sets `related_name='orders'` (store/models.py:47), so the view raises after `get_or_create` | any signed-in user opening the profile page | read the orders through `request.user.orders`, so the page shows the profile and the age | not executed; high: the accessor is replaced by the related name | Profiles.ProfileDb.Profile | Profiles.ProfileDb.ProfileWithAge |
| community/views.py:13 | the comments are ordered by `created_at`, but `Comment` declares `created_on` (community/models.py:21), so the queryset refuses the field | any existing post, by GET or POST | order by `-created_on` | not executed; high from Django 3.1, which checks `order_by` names where the queryset is built; earlier versions fail only when the page iterates the comments | Community.PostDetailAsCoded | Community.CommunityDb.PostDetail |

## Left out

- The payment provider: creating a checkout session is a success flag, and webhook signature verification is its outcome (an event, or none). URLs, API keys and the session object are not modelled.
- The session cart: store/cart.py is not part of this model. Checkout receives the cart's lines (product, name, quantity, captured price). `cart.add`, `cart.remove`, `cart.clear` and `order_success`/`remove_from_cart`, which only call them, are left out.
- StoreViews.Serialize: `json.dumps` of the cart followed by `json.loads` in the webhook is taken to give back the same entries in the same order. String product keys and the price's JSON form are not modelled.
- StoreViews.StoreDb.FulfilOrder: a non-numeric product id, and a quantity beyond the backend's integer range, which would also raise, are not modelled.
- StoreViews.StoreDb.FulfilOrder: cart prices with more than two decimals, which the database would round on save, are not modelled. Prices are held as hundredths.
- Money.UnitAmount: `Decimal` arithmetic is modelled exactly, so the decimal context's precision limit plays no part.
- Listing and form-only views are left out: `products`, `cart_view`, `orders`, `order_detail`, `order_cancel`, `plans`, `subscription_cancel`, `posts`, `create_post`, `index`, `profile_edit`. They read or render without business logic.
- The comment list and the subscription and order lists on pages are left out. So is their ordering, except where it makes a view fail (see Findings).
- Community.PostDetailAsCoded: follows the framework from Django 3.1 on, where the unknown field fails at line 13. With an earlier version the failure waits for the template, so a valid comment POST would still be saved and redirected; that variant is not modelled.
- Profiles.ProfileDb.Profile: assumes `ATOMIC_REQUESTS` is off, the framework's default; the project settings are not part of this model. With it on, the profile created before the failure would be rolled back.
- StoreFulfilment.FulfilRefusedItemFails: the order that stays behind assumes `ATOMIC_REQUESTS` is off; with it on, the 500 rolls the order back. Likewise `FulfilTotalOverflowFails` rests on Django refusing a total beyond ten digits when it formats the decimal, since SQLite does not enforce a numeric column's precision, and `ConcurrentCheckoutsSecondRefused` and `ReplayedSubscriptionRefused` rest on the conditional unique constraint of subscriptions/models.py:30, which MySQL does not create.
- StoreModels.InsertProduct: the category foreign key, the 255-character name and the 50-character slug are not checked. Whether the database refuses a missing category or an over-long string depends on the backend, so the model leaves them out.
- StoreModels.InsertReview: the 1 to 5 choices on `rating` are checked by model and form validation, which the insert does not run; the insert refuses only a negative rating. The backend's upper bound on a small integer is not modelled.
- SubscriptionViews.SubscriptionSuccess: `plan_id` comes from the query string. An empty value counts as absent, which is the None case here. A non-numeric value makes the lookup raise `ValueError`, answered with 500; that case is not modelled, since the plan id is a parsed integer or None.
- Community.CommunityDb.PostDetail: community/forms.py is not part of this model. The comment form's validation is a parameter: the cleaned content, or none when the form is invalid.
- Reviews: no handler in the core creates a review, so `InsertReview` models only the table's checks and `ProductDetail` models the gate.
- Templates, flash messages and redirect targets are reduced to the response constructors. Authentication (`login_required`) is reduced to a user id, or none for an anonymous visitor.
- Real time: timestamps are day numbers, and `timezone.now()`/`date.today()` are parameters. Time zones, `auto_now` fields and `created_on` columns are left out.
- Image, country, bio, height, weight and fitness-goal fields are left out. No logic reads them.
- Concurrency: requests are applied one after another. A race appears only as an interleaving of whole operations, as in `ConcurrentCheckoutsSecondRefused`.
