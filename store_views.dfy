/**
 * The store's request handlers: the add-to-cart gate, the review gate of the
 * product page, checkout (cart to provider line items), the payment webhook and
 * order fulfilment. The session cart itself is not modelled; handlers receive
 * its lines.
 */
module StoreViews {
  import opened Keys
  import opened Wrappers
  import opened Money
  import opened Payments
  import opened StoreModels

  // ---------------------------------------------------------------- add_to_cart

  datatype AddToCartResponse = ProductNotFound | Added(product: ProductId, quantity: int) | FormInvalid

  /**
   * add_to_cart: the product is looked up by id alone (an inactive product is
   * found too), then `cart.add` runs only when AddToCartForm accepts the
   * quantity. `submitted` is None when the field is absent or not an integer.
   */
  function AddToCart(products: map<ProductId, Product>, product: ProductId, submitted: Option<int>): (r: AddToCartResponse)
    ensures r.ProductNotFound? <==> product !in products
    ensures r.Added? <==> product in products && submitted.Some? && 1 <= submitted.value <= 10
    ensures r.Added? ==> r.product == product && r.quantity == submitted.value
  {
    if product !in products then ProductNotFound
    else if submitted.Some? && 1 <= submitted.value <= 10 then Added(product, submitted.value)
    else FormInvalid
  }

  // ------------------------------------------------------------- product_detail

  datatype StoreState = StoreState(
    users: set<UserId>, products: map<ProductId, Product>,
    orders: seq<Order>, items: seq<OrderItem>)

  /**
   * Every row fits its column bounds, orders are numbered by position and
   * every item belongs to an existing order.
   */
  predicate ValidStore(s: StoreState)
  {
    && ValidCatalog(s.products)
    && (forall i | 0 <= i < |s.orders| :: s.orders[i].id == i && ValidOrder(s.orders[i]))
    && (forall k | 0 <= k < |s.items| :: s.items[k].order < |s.orders| && ValidOrderItem(s.items[k]))
  }

  /** Some item of a paid order of `user` is for `product`. */
  predicate HasPaidFor(s: StoreState, user: UserId, product: ProductId)
  {
    exists k | 0 <= k < |s.items| ::
      && s.items[k].product == product
      && s.items[k].order < |s.orders|
      && s.orders[s.items[k].order].user == user
      && s.orders[s.items[k].order].isPaid
  }

  datatype DetailResponse =
    | DetailNotFound                          // get_object_or_404
    | DetailFailed                            // an exception escapes the view: 500
    | Detail(product: Product, canReview: bool)

  /**
   * product_detail as the view intends it: only an active product with
   * matching id and slug is shown; `can_review` holds for a signed-in user who
   * has paid for it.
   */
  function ProductDetail(s: StoreState, id: ProductId, slug: string, user: Option<UserId>): (r: DetailResponse)
    ensures r.Detail? <==> id in s.products && s.products[id].slug == slug && s.products[id].isActive
    ensures r.Detail? ==> r.product == s.products[id]
    ensures r.Detail? ==> (r.canReview <==> user.Some? && HasPaidFor(s, user.value, id))
  {
    if id in s.products && s.products[id].slug == slug && s.products[id].isActive then
      Detail(s.products[id], user.Some? && HasPaidFor(s, user.value, id))
    else DetailNotFound
  }

  /**
   * product_detail as written: once the product is found, the reviews are read
   * through `productreview_set`, an accessor the review's foreign key does not
   * define (it is named `reviews`), so the view raises before the page or
   * `can_review` is produced.
   */
  function ProductDetailAsCoded(s: StoreState, id: ProductId, slug: string, user: Option<UserId>): (r: DetailResponse)
    ensures r.DetailNotFound? <==> !(id in s.products && s.products[id].slug == slug && s.products[id].isActive)
    ensures !r.Detail?
  {
    if id in s.products && s.products[id].slug == slug && s.products[id].isActive then DetailFailed
    else DetailNotFound
  }

  /** Every page the intended view would show fails as written; only the 404s agree. */
  lemma ProductDetailNeverShown(s: StoreState, id: ProductId, slug: string, user: Option<UserId>)
    ensures ProductDetail(s, id, slug, user).Detail? <==> ProductDetailAsCoded(s, id, slug, user).DetailFailed?
    ensures ProductDetail(s, id, slug, user).DetailNotFound? <==> ProductDetailAsCoded(s, id, slug, user).DetailNotFound?
  {
  }

  // ------------------------------------------------------------------- checkout

  /** One line of the session cart as it is iterated: product, name, quantity and the price captured when it was added. */
  datatype CartLine = CartLine(product: ProductId, name: string, quantity: int, price: int)

  /** One element of the `line_items` comprehension. */
  function LineItemOf(line: CartLine): (item: LineItem)
    ensures item == LineItem(Currency, line.name, line.price, line.quantity)
  {
    UnitAmountOfHundredths(line.price);
    LineItem(Currency, line.name, UnitAmount(FromHundredths(line.price)), line.quantity)
  }

  /** The `line_items` comprehension: one item per cart line, in cart order, its unit amount the line's price in cents. */
  function LineItems(cart: seq<CartLine>): (items: seq<LineItem>)
    ensures |items| == |cart|
    ensures forall i | 0 <= i < |cart| ::
      items[i] == LineItem(Currency, cart[i].name, cart[i].price, cart[i].quantity)
  {
    if cart == [] then [] else [LineItemOf(cart[0])] + LineItems(cart[1..])
  }

  /** A cart entry once both of its keys have been read. */
  datatype CartEntry = CartEntry(product: ProductId, quantity: int, price: int)

  /** Reads `item['quantity']` and `item['price']` of every entry; None where one of them raises KeyError. */
  function ReadEntries(json: seq<(ProductId, RawItem)>): (r: Option<seq<CartEntry>>)
    ensures r.Some? <==> forall i | 0 <= i < |json| :: json[i].1.quantity.Some? && json[i].1.price.Some?
    ensures r.Some? ==> |r.value| == |json|
    ensures r.Some? ==> forall i | 0 <= i < |json| ::
      r.value[i] == CartEntry(json[i].0, json[i].1.quantity.value, json[i].1.price.value)
  {
    if json == [] then Some([])
    else
      var raw := json[0].1;
      if raw.quantity.None? || raw.price.None? then None
      else
        match ReadEntries(json[1..])
        case None => None
        case Some(rest) => Some([CartEntry(json[0].0, raw.quantity.value, raw.price.value)] + rest)
  }

  /** The entries of a cart: product, quantity and price of each line. */
  function EntriesOf(cart: seq<CartLine>): seq<CartEntry>
  {
    seq(|cart|, i requires 0 <= i < |cart| => CartEntry(cart[i].product, cart[i].quantity, cart[i].price))
  }

  /**
   * The `cart` metadata, `json.dumps(cart.cart)`. It decodes again, and the
   * webhook reads back every line's product, quantity and price.
   */
  function Serialize(cart: seq<CartLine>): (data: CartData)
    ensures data.Json? && ReadEntries(data.items) == Some(EntriesOf(cart))
  {
    var json := seq(|cart|, i requires 0 <= i < |cart| =>
      (cart[i].product, RawItem(Some(cart[i].quantity), Some(cart[i].price))));
    assert forall i | 0 <= i < |json| :: json[i].1.quantity.Some? && json[i].1.price.Some?;
    assert ReadEntries(json).value == EntriesOf(cart);
    Json(json)
  }

  datatype CheckoutResponse =
    | EmptyCart                               // warning, redirect to the product list
    | CheckoutPage                            // GET: the confirmation page
    | SessionCreated(request: SessionRequest) // redirect to the provider
    | SessionFailed(request: SessionRequest)  // the provider raised: error notice, back to the cart

  /** checkout: an empty cart is refused before anything else; a POST asks the provider for a session. */
  function Checkout(user: UserId, cart: seq<CartLine>, isPost: bool, providerFails: bool): (r: CheckoutResponse)
    ensures r.EmptyCart? <==> cart == []
    ensures (r.SessionCreated? || r.SessionFailed?) <==> cart != [] && isPost
    ensures r.SessionCreated? <==> cart != [] && isPost && !providerFails
    ensures (r.SessionCreated? || r.SessionFailed?) ==>
      && |r.request.items| == |cart|
      && (forall i | 0 <= i < |cart| ::
            r.request.items[i].unitAmount == cart[i].price && r.request.items[i].quantity == cart[i].quantity)
      && r.request.metadata == SessionMetadata(Some(user), Some(Serialize(cart)), None)
    ensures (r.SessionCreated? || r.SessionFailed?) ==> r.request.items == LineItems(cart)
  {
    if cart == [] then EmptyCart
    else if !isPost then CheckoutPage
    else
      var request := SessionRequest(LineItems(cart), SessionMetadata(Some(user), Some(Serialize(cart)), None));
      if providerFails then SessionFailed(request) else SessionCreated(request)
  }

  /** What the provider charges for a list of line items. */
  function Charged(items: seq<LineItem>): int
  {
    if items == [] then 0 else items[0].unitAmount * items[0].quantity + Charged(items[1..])
  }

  // -------------------------------------------------------------- fulfill_order

  /** `total = sum(price * quantity)` over the cart entries: never negative when no line is. */
  function CartTotal(entries: seq<CartEntry>): (total: int)
    ensures (forall i | 0 <= i < |entries| :: entries[i].price >= 0 && entries[i].quantity >= 0) ==> total >= 0
  {
    if entries == [] then 0 else entries[0].price * entries[0].quantity + CartTotal(entries[1..])
  }

  /** Σ price × quantity over order items. */
  function ItemsTotal(items: seq<OrderItem>): int
  {
    if items == [] then 0 else items[0].price * items[0].quantity + ItemsTotal(items[1..])
  }

  /** The item written for this entry passes the quantity and price column checks of an order item. */
  predicate EntryFits(e: CartEntry)
  {
    e.quantity >= 0 && FitsDecimal(e.price, 8)
  }

  /**
   * How many items the loop writes: the position of the first entry whose
   * product does not exist or whose item the columns refuse.
   */
  function ProcessedCount(products: map<ProductId, Product>, entries: seq<CartEntry>): (k: nat)
    ensures k <= |entries|
    ensures forall i | 0 <= i < k :: entries[i].product in products && EntryFits(entries[i])
    ensures k < |entries| ==> entries[k].product !in products || !EntryFits(entries[k])
  {
    if entries == [] || entries[0].product !in products || !EntryFits(entries[0]) then 0
    else 1 + ProcessedCount(products, entries[1..])
  }

  /** The items written for `entries`, each copying the entry's quantity and price. */
  function ItemsFor(order: nat, entries: seq<CartEntry>): seq<OrderItem>
  {
    seq(|entries|, i requires 0 <= i < |entries| =>
      OrderItem(order, entries[i].product, entries[i].quantity, entries[i].price))
  }

  /**
   * fulfill_order raises an exception it does not catch: the cart total does
   * not fit `Order.total`, or the loop reaches an existing product whose item
   * the columns refuse (a negative quantity, a price beyond eight digits).
   */
  predicate FulfilOrderFails(s: StoreState, user: UserId, data: CartData)
  {
    && user in s.users && data.Json? && ReadEntries(data.items).Some?
    && var entries := ReadEntries(data.items).value;
       var k := ProcessedCount(s.products, entries);
       !FitsDecimal(CartTotal(entries), 10) || (k < |entries| && entries[k].product in s.products)
  }

  /**
   * The database after fulfill_order: an unknown user, undecodable JSON, a
   * missing key or a total the order's column refuses leave it as it was;
   * otherwise one paid order is added, then one item per entry up to the
   * first entry whose product does not exist or whose item is refused.
   */
  function FulfilOrderSpec(s: StoreState, user: UserId, data: CartData, paymentIntent: Option<string>): (r: StoreState)
    ensures r.users == s.users && r.products == s.products
    ensures |s.orders| <= |r.orders| <= |s.orders| + 1 && r.orders[..|s.orders|] == s.orders
    ensures |s.items| <= |r.items| && r.items[..|s.items|] == s.items
    ensures |r.orders| == |s.orders| ==> r == s
  {
    if user !in s.users || data.Unparsable? then s
    else
      match ReadEntries(data.items)
      case None => s
      case Some(entries) =>
        if !FitsDecimal(CartTotal(entries), 10) then s
        else
        var id := |s.orders|;
        s.(orders := s.orders + [Order(id, user, CartTotal(entries), true, paymentIntent)],
           items := s.items + ItemsFor(id, entries[..ProcessedCount(s.products, entries)]))
  }

  // ------------------------------------------------------------- stripe_webhook

  datatype StoreAction =
    | Reject                                                         // construct_event raised
    | Ignore                                                         // another event type
    | MissingKey                                                     // metadata lacks 'user_id' or 'cart'
    | Fulfil(user: UserId, cart: CartData, paymentIntent: Option<string>)

  /** The store webhook's dispatch on the verified event. */
  function StoreDispatch(event: Option<Event>): (a: StoreAction)
    ensures a.Reject? <==> event.None?
    ensures a.Ignore? <==> event.Some? && event.value.kind != CheckoutCompleted
    ensures a.Fulfil? <==>
      event.Some? && event.value.kind == CheckoutCompleted
      && event.value.metadata.userId.Some? && event.value.metadata.cart.Some?
    ensures a.Fulfil? ==>
      a == Fulfil(event.value.metadata.userId.value, event.value.metadata.cart.value, event.value.paymentIntent)
  {
    match event
    case None => Reject
    case Some(e) =>
      if e.kind != CheckoutCompleted then Ignore
      else if e.metadata.userId.None? || e.metadata.cart.None? then MissingKey
      else Fulfil(e.metadata.userId.value, e.metadata.cart.value, e.paymentIntent)
  }

  /**
   * The webhook's answer on the tables `s`: 400 for a bad signature, 500 when
   * a metadata key is missing or fulfilment raises, 200 otherwise.
   */
  function WebhookStatus(s: StoreState, a: StoreAction): (status: int)
    ensures status == BadRequest <==> a.Reject?
    ensures status == ServerError <==> a.MissingKey? || (a.Fulfil? && FulfilOrderFails(s, a.user, a.cart))
    ensures status == Ok <==> a.Ignore? || (a.Fulfil? && !FulfilOrderFails(s, a.user, a.cart))
  {
    match a
    case Reject => BadRequest
    case MissingKey => ServerError
    case Ignore => Ok
    case Fulfil(user, cart, _) => if FulfilOrderFails(s, user, cart) then ServerError else Ok
  }

  function ApplyStore(s: StoreState, a: StoreAction): StoreState
  {
    if a.Fulfil? then FulfilOrderSpec(s, a.user, a.cart, a.paymentIntent) else s
  }

  lemma ItemsForSnoc(order: nat, entries: seq<CartEntry>, i: nat)
    requires i < |entries|
    ensures ItemsFor(order, entries[..i + 1]) ==
      ItemsFor(order, entries[..i]) + [OrderItem(order, entries[i].product, entries[i].quantity, entries[i].price)]
  {
  }

  /** FulfilOrderSpec on a well-formed request, unfolded. */
  lemma FulfilSpecAfterItems(s: StoreState, user: UserId, data: CartData, paymentIntent: Option<string>, entries: seq<CartEntry>)
    requires user in s.users && data.Json? && ReadEntries(data.items) == Some(entries)
    requires FitsDecimal(CartTotal(entries), 10)
    ensures FulfilOrderSpec(s, user, data, paymentIntent) ==
      s.(orders := s.orders + [Order(|s.orders|, user, CartTotal(entries), true, paymentIntent)],
         items := s.items + ItemsFor(|s.orders|, entries[..ProcessedCount(s.products, entries)]))
  {
  }

  /** Fulfilment keeps the tables consistent. */
  lemma FulfilPreservesValid(s: StoreState, user: UserId, data: CartData, paymentIntent: Option<string>)
    requires ValidStore(s)
    ensures ValidStore(FulfilOrderSpec(s, user, data, paymentIntent))
  {
  }

  /** The store's tables. */
  class StoreDb {
    var users: set<UserId>
    var products: map<ProductId, Product>
    var orders: seq<Order>
    var items: seq<OrderItem>

    function State(): StoreState
      reads this
    {
      StoreState(users, products, orders, items)
    }

    ghost predicate Valid()
      reads this
    {
      ValidStore(State())
    }

    constructor (users: set<UserId>, products: map<ProductId, Product>)
      requires ValidCatalog(products)
      ensures Valid() && State() == StoreState(users, products, [], [])
    {
      this.users := users;
      this.products := products;
      orders := [];
      items := [];
    }

    /**
     * fulfill_order: create the paid order, then its items one by one; a
     * lookup, parse or key error ends it silently. `ok` is false when a
     * database error escapes instead.
     */
    method FulfilOrder(user: UserId, data: CartData, paymentIntent: Option<string>) returns (ok: bool)
      requires Valid()
      modifies this
      ensures Valid()
      ensures State() == FulfilOrderSpec(old(State()), user, data, paymentIntent)
      ensures ok <==> !FulfilOrderFails(old(State()), user, data)
    {
      if user !in users || data.Unparsable? {
        return true;
      }
      var read := ReadEntries(data.items);
      if read.None? {
        return true;
      }
      var entries := read.value;
      // Order.objects.create: the total is refused before anything is written
      if !FitsDecimal(CartTotal(entries), 10) {
        return false;
      }
      ghost var s0 := State();
      var id := |orders|;
      orders := orders + [Order(id, user, CartTotal(entries), true, paymentIntent)];
      var i := 0;
      // Product.DoesNotExist at entry i is swallowed, a refused item is not:
      // either way the order keeps the items written before it
      while i < |entries| && entries[i].product in products && EntryFits(entries[i])
        invariant i <= ProcessedCount(products, entries)
        invariant users == s0.users && products == s0.products
        invariant orders == s0.orders + [Order(id, user, CartTotal(entries), true, paymentIntent)]
        invariant items == s0.items + ItemsFor(id, entries[..i])
      {
        var e := entries[i];
        ItemsForSnoc(id, entries, i);
        items := items + [OrderItem(id, e.product, e.quantity, e.price)];
        i := i + 1;
      }
      assert i == ProcessedCount(products, entries);
      ok := !(i < |entries| && entries[i].product in products);
      FulfilSpecAfterItems(s0, user, data, paymentIntent, entries);
      FulfilPreservesValid(s0, user, data, paymentIntent);
    }

    /** stripe_webhook (store). */
    method StripeWebhook(event: Option<Event>) returns (status: int)
      requires Valid()
      modifies this
      ensures Valid()
      ensures status == WebhookStatus(old(State()), StoreDispatch(event))
      ensures State() == ApplyStore(old(State()), StoreDispatch(event))
    {
      var action := StoreDispatch(event);
      var ok := true;
      if action.Fulfil? {
        ok := FulfilOrder(action.user, action.cart, action.paymentIntent);
      }
      status := if action.Reject? then BadRequest else if action.MissingKey? || !ok then ServerError else Ok;
    }
  }
}

/** What fulfilment promises, and what it does not. */
module StoreFulfilment {
  import opened Keys
  import opened Wrappers
  import opened Money
  import opened Payments
  import opened StoreModels
  import opened StoreViews

  /** A request that gets past the lookups, the key reads and the order's total column. */
  predicate Fulfillable(s: StoreState, user: UserId, data: CartData)
  {
    user in s.users && data.Json? && ReadEntries(data.items).Some? && FitsDecimal(CartTotal(ReadEntries(data.items).value), 10)
  }

  /** An unknown user, undecodable JSON, a missing key or a refused total changes nothing; anything else adds an order. */
  lemma FulfilRejectsBadInput(s: StoreState, user: UserId, data: CartData, paymentIntent: Option<string>)
    ensures FulfilOrderSpec(s, user, data, paymentIntent) == s <==> !Fulfillable(s, user, data)
  {
  }

  /** Exactly one order is added, paid, holding the payment intent and the cart total; nothing before it changes. */
  lemma FulfilCreatesPaidOrder(s: StoreState, user: UserId, data: CartData, paymentIntent: Option<string>)
    requires Fulfillable(s, user, data)
    ensures var r := FulfilOrderSpec(s, user, data, paymentIntent);
      && |r.orders| == |s.orders| + 1
      && r.orders[..|s.orders|] == s.orders
      && r.orders[|s.orders|] == Order(|s.orders|, user, CartTotal(ReadEntries(data.items).value), true, paymentIntent)
      && r.users == s.users && r.products == s.products
      && r.items[..|s.items|] == s.items
  {
  }

  /**
   * One item per entry the loop gets through, in cart order, each copying the
   * entry's quantity and price (never the catalog's), and all belonging to the
   * new order.
   */
  lemma FulfilCopiesCartPrices(s: StoreState, user: UserId, data: CartData, paymentIntent: Option<string>)
    requires Fulfillable(s, user, data)
    ensures var entries := ReadEntries(data.items).value;
      var k := ProcessedCount(s.products, entries);
      var r := FulfilOrderSpec(s, user, data, paymentIntent);
      && |r.items| == |s.items| + k
      && forall i | 0 <= i < k ::
           r.items[|s.items| + i] == OrderItem(|s.orders|, data.items[i].0,
                                                data.items[i].1.quantity.value, data.items[i].1.price.value)
  {
  }

  /** The catalog's current prices play no part: two catalogs with the same products give the same orders and items. */
  lemma FulfilIgnoresCatalogPrices(s1: StoreState, s2: StoreState, user: UserId, data: CartData, paymentIntent: Option<string>)
    requires s1.users == s2.users && s1.orders == s2.orders && s1.items == s2.items
    requires s1.products.Keys == s2.products.Keys
    ensures FulfilOrderSpec(s1, user, data, paymentIntent).orders == FulfilOrderSpec(s2, user, data, paymentIntent).orders
    ensures FulfilOrderSpec(s1, user, data, paymentIntent).items == FulfilOrderSpec(s2, user, data, paymentIntent).items
  {
  }

  lemma {:induction false} ItemsForTotal(order: nat, entries: seq<CartEntry>)
    ensures ItemsTotal(ItemsFor(order, entries)) == CartTotal(entries)
  {
    if entries != [] {
      assert ItemsFor(order, entries)[1..] == ItemsFor(order, entries[1..]);
      ItemsForTotal(order, entries[1..]);
    }
  }

  /**
   * When every product exists and every item is accepted, nothing escapes and
   * the order's total is the sum of its items' price × quantity.
   */
  lemma FulfilCompleteTotal(s: StoreState, user: UserId, data: CartData, paymentIntent: Option<string>)
    requires Fulfillable(s, user, data)
    requires forall e | e in ReadEntries(data.items).value :: e.product in s.products && EntryFits(e)
    ensures !FulfilOrderFails(s, user, data)
    ensures var r := FulfilOrderSpec(s, user, data, paymentIntent);
      && |r.orders| == |s.orders| + 1 && |s.items| <= |r.items|
      && ItemsTotal(r.items[|s.items|..]) == r.orders[|s.orders|].total
  {
    var entries := ReadEntries(data.items).value;
    var r := FulfilOrderSpec(s, user, data, paymentIntent);
    var k := ProcessedCount(s.products, entries);
    assert k == |entries|;
    assert entries[..k] == entries;
    assert r.items[|s.items|..] == ItemsFor(|s.orders|, entries);
    ItemsForTotal(|s.orders|, entries);
  }

  /** Fulfilment is not all-or-nothing: a missing product leaves the paid order with only the items before it. */
  lemma FulfilNotAtomic(s: StoreState, user: UserId, data: CartData, paymentIntent: Option<string>, j: nat)
    requires Fulfillable(s, user, data)
    requires j < |data.items| && data.items[j].0 !in s.products
    ensures var r := FulfilOrderSpec(s, user, data, paymentIntent);
      && |r.orders| == |s.orders| + 1 && r.orders[|s.orders|].isPaid
      && |r.items| - |s.items| <= j < |data.items|
  {
  }

  /**
   * A concrete partial order: a cart of 10.00 and 5.00 whose second product is
   * gone is recorded as 15.00 with 10.00 of items, and the webhook answers 200.
   */
  lemma PartialOrderTotalMismatch()
    ensures var s := StoreState({1}, map[7 := Product(7, 1, "bar", "bar", 1000, 3, true)], [], []);
      var data := Json([(7, RawItem(Some(1), Some(1000))), (8, RawItem(Some(1), Some(500)))]);
      var r := FulfilOrderSpec(s, 1, data, Some("pi_1"));
      && |r.orders| == 1 && r.orders[0].total == 1500 && r.orders[0].isPaid
      && |r.items| == 1 && ItemsTotal(r.items) == 1000
      && WebhookStatus(s, Fulfil(1, data, Some("pi_1"))) == Ok
  {
    FitsDecimalRange(1500, 10);
    FitsDecimalRange(1000, 8);
    assert Pow10(4) == 10_000 by { assert Pow10(2) == 100 by { assert Pow10(1) == 10; } }
    assert Pow10(8) >= 10_000 && Pow10(10) >= 10_000;
  }

  /** A cart total beyond the ten digits of `Order.total` raises before anything is written: 500, and no order. */
  lemma FulfilTotalOverflowFails(s: StoreState, user: UserId, data: CartData, paymentIntent: Option<string>)
    requires user in s.users && data.Json? && ReadEntries(data.items).Some?
    requires !FitsDecimal(CartTotal(ReadEntries(data.items).value), 10)
    ensures FulfilOrderFails(s, user, data)
    ensures FulfilOrderSpec(s, user, data, paymentIntent) == s
  {
  }

  /**
   * An item the columns refuse, reached at position j, raises after the paid
   * order and the j items before it are written: the webhook answers 500 and
   * the order stays, short of its items.
   */
  lemma FulfilRefusedItemFails(s: StoreState, user: UserId, data: CartData, paymentIntent: Option<string>, j: nat)
    requires Fulfillable(s, user, data)
    requires var entries := ReadEntries(data.items).value;
      && j < |entries|
      && (forall i | 0 <= i < j :: entries[i].product in s.products && EntryFits(entries[i]))
      && entries[j].product in s.products && !EntryFits(entries[j])
    ensures FulfilOrderFails(s, user, data)
    ensures var r := FulfilOrderSpec(s, user, data, paymentIntent);
      && |r.orders| == |s.orders| + 1 && r.orders[|s.orders|].isPaid
      && |r.items| == |s.items| + j
  {
  }

  /** No duplicate check: delivering the same completed payment twice records two paid orders with the same intent. */
  lemma FulfilReplayDuplicates(s: StoreState, user: UserId, data: CartData, paymentIntent: Option<string>)
    requires Fulfillable(s, user, data)
    ensures var r := FulfilOrderSpec(FulfilOrderSpec(s, user, data, paymentIntent), user, data, paymentIntent);
      && |r.orders| == |s.orders| + 2
      && r.orders[|s.orders|].paymentIntent == r.orders[|s.orders| + 1].paymentIntent == paymentIntent
      && r.orders[|s.orders|].isPaid && r.orders[|s.orders| + 1].isPaid
      && r.orders[|s.orders|].total == r.orders[|s.orders| + 1].total
  {
  }

  /** Every product the loop recorded can afterwards be reviewed by the buyer. */
  lemma FulfilEntitlesReview(s: StoreState, user: UserId, data: CartData, paymentIntent: Option<string>, i: nat)
    requires ValidStore(s) && Fulfillable(s, user, data)
    requires i < ProcessedCount(s.products, ReadEntries(data.items).value)
    ensures HasPaidFor(FulfilOrderSpec(s, user, data, paymentIntent), user, data.items[i].0)
  {
    var r := FulfilOrderSpec(s, user, data, paymentIntent);
    FulfilCopiesCartPrices(s, user, data, paymentIntent);
    var k := |s.items| + i;
    assert r.items[k].order == |s.orders| && r.orders[|s.orders|].user == user && r.orders[|s.orders|].isPaid;
    assert r.items[k].product == data.items[i].0;
  }

  lemma {:induction false} ChargedIsCartTotal(cart: seq<CartLine>)
    ensures Charged(LineItems(cart)) == CartTotal(EntriesOf(cart))
  {
    if cart != [] {
      assert LineItems(cart)[1..] == LineItems(cart[1..]);
      assert EntriesOf(cart)[1..] == EntriesOf(cart[1..]);
      ChargedIsCartTotal(cart[1..]);
    }
  }

  /**
   * Checkout and fulfilment agree: when the completed session of a checkout
   * comes back to the webhook, one order is recorded and its total is what
   * the provider was asked to charge, whether or not the products still
   * exist; unless that amount is beyond the order's ten digits, when nothing
   * is recorded and the webhook answers 500.
   */
  lemma ChargedIsRecordedTotal(s: StoreState, user: UserId, cart: seq<CartLine>, paymentIntent: Option<string>)
    requires user in s.users && cart != []
    ensures var c := Checkout(user, cart, true, false);
      && c.SessionCreated?
      && var a := StoreDispatch(Some(Event(CheckoutCompleted, c.request.metadata, paymentIntent)));
      && var r := ApplyStore(s, a);
      && (FitsDecimal(Charged(c.request.items), 10) ==>
            |r.orders| == |s.orders| + 1 && r.orders[|s.orders|].total == Charged(c.request.items))
      && (!FitsDecimal(Charged(c.request.items), 10) ==> r == s && WebhookStatus(s, a) == ServerError)
  {
    ChargedIsCartTotal(cart);
  }

  /**
   * When every product of the cart still exists and every line's item is
   * accepted, the webhook answers 200 and the items recorded for that order
   * also add up to what the provider was asked to charge.
   */
  lemma ChargedMatchesRecorded(s: StoreState, user: UserId, cart: seq<CartLine>, paymentIntent: Option<string>)
    requires user in s.users && cart != []
    requires forall i | 0 <= i < |cart| ::
      cart[i].product in s.products && cart[i].quantity >= 0 && FitsDecimal(cart[i].price, 8)
    ensures var c := Checkout(user, cart, true, false);
      && c.SessionCreated?
      && var a := StoreDispatch(Some(Event(CheckoutCompleted, c.request.metadata, paymentIntent)));
      && var r := ApplyStore(s, a);
      && (FitsDecimal(Charged(c.request.items), 10) ==>
            WebhookStatus(s, a) == Ok && ItemsTotal(r.items[|s.items|..]) == Charged(c.request.items))
  {
    var data := Serialize(cart);
    ChargedIsCartTotal(cart);
    if FitsDecimal(Charged(Checkout(user, cart, true, false).request.items), 10) {
      FulfilCompleteTotal(s, user, data, paymentIntent);
    }
  }
}
