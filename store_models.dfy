/**
 * The store's records: products, reviews, orders and order items, with the
 * bounds their fields declare and the uniqueness the database enforces.
 * Amounts are in hundredths (see Money).
 */
module StoreModels {
  import opened Keys
  import opened Wrappers
  import opened Money

  datatype Product = Product(
    id: ProductId, category: int, name: string, slug: string,
    price: int, stock: int, isActive: bool)

  /** price: DecimalField(max_digits = 8, decimal_places = 2); stock: PositiveIntegerField. */
  predicate ValidProduct(p: Product)
  {
    FitsDecimal(p.price, 8) && p.stock >= 0
  }

  /** A product's price is below 1,000,000.00 in magnitude. */
  lemma ProductPriceBound(p: Product)
    requires ValidProduct(p)
    ensures -100_000_000 < p.price < 100_000_000
  {
    FitsDecimalRange(p.price, 8);
    assert Pow10(8) == 100_000_000 by {
      assert Pow10(4) == 10_000 by { assert Pow10(2) == 100 by { assert Pow10(1) == 10; } }
    }
  }

  /** The product table, keyed by id: every row is valid, filed under its own id, and no two rows share a slug. */
  predicate ValidCatalog(products: map<ProductId, Product>)
  {
    && (forall id | id in products :: products[id].id == id && ValidProduct(products[id]))
    && (forall a, b | a in products && b in products && a != b :: products[a].slug != products[b].slug)
  }

  /**
   * The database's insert into the product table: refused when the row breaks
   * a column bound (numeric precision, the non-negative check on stock), or
   * when the id or, by `slug unique=True`, the slug is taken.
   */
  function InsertProduct(products: map<ProductId, Product>, p: Product): (r: Option<map<ProductId, Product>>)
    requires ValidCatalog(products)
    ensures r.Some? <==> ValidProduct(p) && p.id !in products && forall q | q in products.Values :: q.slug != p.slug
    ensures r.Some? ==> ValidCatalog(r.value) && r.value.Keys == products.Keys + {p.id} && r.value[p.id] == p
    ensures r.Some? ==> forall k | k in products :: r.value[k] == products[k]
  {
    if !ValidProduct(p) || p.id in products || exists q | q in products.Values :: q.slug == p.slug then None
    else Some(products[p.id := p])
  }

  datatype ProductReview = ProductReview(product: ProductId, user: UserId, rating: int, review: string)

  /**
   * rating: PositiveSmallIntegerField, whose column check refuses negative
   * values. The 1 to 5 choices are checked by model and form validation,
   * not by the database.
   */
  predicate ValidReview(r: ProductReview)
  {
    r.rating >= 0
  }

  /** `unique_together = ('product', 'user')`. */
  predicate ReviewsUnique(reviews: seq<ProductReview>)
  {
    forall i, j | 0 <= i < j < |reviews| ::
      (reviews[i].product, reviews[i].user) != (reviews[j].product, reviews[j].user)
  }

  predicate HasReviewed(reviews: seq<ProductReview>, product: ProductId, user: UserId)
  {
    exists i | 0 <= i < |reviews| :: reviews[i].product == product && reviews[i].user == user
  }

  /**
   * The database's insert into the review table: a negative rating breaks the
   * column check, and a second review of one product by one user breaks
   * `unique_together`.
   */
  function InsertReview(reviews: seq<ProductReview>, r: ProductReview): (res: Option<seq<ProductReview>>)
    requires ReviewsUnique(reviews)
    ensures res.Some? <==> ValidReview(r) && !HasReviewed(reviews, r.product, r.user)
    ensures res.Some? ==> ReviewsUnique(res.value) && res.value == reviews + [r]
  {
    if !ValidReview(r) || HasReviewed(reviews, r.product, r.user) then None else Some(reviews + [r])
  }

  /** `stripe_payment_intent_id` is nullable, hence the Option. */
  datatype Order = Order(id: nat, user: UserId, total: int, isPaid: bool, paymentIntent: Option<string>)

  /** total: DecimalField(max_digits = 10, decimal_places = 2). */
  predicate ValidOrder(o: Order)
  {
    FitsDecimal(o.total, 10)
  }

  /** `order` is the id of the order the item belongs to; `price` is the unit price paid. */
  datatype OrderItem = OrderItem(order: nat, product: ProductId, quantity: int, price: int)

  /** quantity: PositiveIntegerField, whose column check refuses negative values; price: DecimalField(max_digits = 8, decimal_places = 2). */
  predicate ValidOrderItem(i: OrderItem)
  {
    i.quantity >= 0 && FitsDecimal(i.price, 8)
  }
}
