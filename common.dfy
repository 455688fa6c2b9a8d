/** Primary keys of the tables the handlers touch. Django gives every table an integer `id`. */
module Keys {
  type UserId = int
  type ProductId = int
  type PlanId = int
  type PostId = int
}

module Wrappers {
  datatype Option<+T> = None | Some(value: T)
}

/**
 * Decimal amounts. Every money field in the schema is a DecimalField with
 * decimal_places = 2, so a stored amount is held here as an integer number of
 * hundredths; a Python Decimal of arbitrary precision appears only where the
 * code converts an amount for the payment provider.
 */
module Money {

  function Pow10(n: nat): (r: nat)
    ensures r >= 1
  {
    if n == 0 then 1 else 10 * Pow10(n - 1)
  }

  function Abs(x: int): nat
  {
    if x < 0 then -x else x
  }

  /** Number of decimal digits needed to write n (zero needs none). */
  function DigitCount(n: nat): nat
  {
    if n == 0 then 0 else 1 + DigitCount(n / 10)
  }

  /**
   * An amount of `hundredths` fits a DecimalField(max_digits = digits,
   * decimal_places = 2): its digits, counted with the two decimals, number at
   * most `digits`.
   */
  predicate FitsDecimal(hundredths: int, digits: nat)
  {
    DigitCount(Abs(hundredths)) <= digits
  }

  lemma {:induction false} DigitCountBound(n: nat, d: nat)
    ensures DigitCount(n) <= d <==> n < Pow10(d)
  {
    if n == 0 {
    } else if d == 0 {
      assert DigitCount(n) == 1 + DigitCount(n / 10);
    } else {
      DigitCountBound(n / 10, d - 1);
      assert DigitCount(n) == 1 + DigitCount(n / 10);
      assert Pow10(d) == 10 * Pow10(d - 1);
      assert n / 10 < Pow10(d - 1) <==> n < 10 * Pow10(d - 1);
    }
  }

  /** A field with max_digits = d and two decimals holds exactly the amounts strictly between -10^d and 10^d hundredths. */
  lemma FitsDecimalRange(hundredths: int, digits: nat)
    ensures FitsDecimal(hundredths, digits) <==> 0 - Pow10(digits) < hundredths < Pow10(digits)
  {
    DigitCountBound(Abs(hundredths), digits);
  }

  /** A Python Decimal: coefficient × 10^-places. */
  datatype Decimal = Decimal(coefficient: int, places: nat)

  /** The Decimal that a decimal_places = 2 field yields for an amount in hundredths. */
  function FromHundredths(hundredths: int): Decimal
  {
    Decimal(hundredths, 2)
  }

  /** Integer division rounding toward zero, as Python's int() does with a Decimal: the quotient never overshoots a. */
  function TruncDiv(a: int, b: nat): (q: int)
    requires b > 0
    ensures a >= 0 ==> 0 <= q * b <= a < q * b + b
    ensures a < 0 ==> q * b - b < a <= q * b <= 0
  {
    if a >= 0 then DivBounds(a, b); a / b else DivBounds(-a, b); -((-a) / b)
  }

  lemma DivBounds(a: nat, b: nat)
    requires b > 0
    ensures 0 <= (a / b) * b <= a < (a / b) * b + b
  {
    assert a == (a / b) * b + a % b;
  }

  /**
   * `int(price * 100)`: the amount in cents sent to the payment provider,
   * price × 100 truncated toward zero. Scaled back by 10^places, it lies
   * between zero and the exact amount and within one unit of it.
   */
  function UnitAmount(price: Decimal): (cents: int)
    ensures var exact, unit := price.coefficient * 100, Pow10(price.places);
      && (exact >= 0 ==> 0 <= cents * unit <= exact < cents * unit + unit)
      && (exact < 0 ==> cents * unit - unit < exact <= cents * unit <= 0)
  {
    TruncDiv(price.coefficient * 100, Pow10(price.places))
  }

  /** A price with at most two decimals converts to cents exactly. */
  lemma UnitAmountExact(price: Decimal)
    requires price.places <= 2
    ensures UnitAmount(price) * Pow10(price.places) == price.coefficient * 100
    ensures UnitAmount(price) == price.coefficient * Pow10(2 - price.places)
  {
    var c := price.coefficient;
    if price.places == 0 {
      assert Pow10(0) == 1;
    } else if price.places == 1 {
      assert Pow10(1) == 10;
      if c * 100 >= 0 {
        assert (c * 100) / 10 == c * 10;
      } else {
        assert (-(c * 100)) / 10 == -c * 10;
      }
    } else {
      assert Pow10(2) == 100 by { assert Pow10(1) == 10; }
      if c * 100 >= 0 {
        assert (c * 100) / 100 == c;
      } else {
        assert (-(c * 100)) / 100 == -c;
      }
    }
  }

  /** What a two-decimal field holds converts to exactly its hundredths. */
  lemma UnitAmountOfHundredths(hundredths: int)
    ensures UnitAmount(FromHundredths(hundredths)) == hundredths
  {
  }
}

/**
 * What crosses the boundary with the payment provider: the line items of a
 * hosted checkout session, the metadata the session carries back, and the
 * signed events the provider delivers to the webhooks. The provider itself is
 * not modelled: signature verification is given as its outcome, session
 * creation as whether it succeeded.
 */
module Payments {
  import opened Keys
  import opened Wrappers

  /** One entry of `line_items`: currency, product name, `unit_amount` in cents, quantity. */
  datatype LineItem = LineItem(currency: string, name: string, unitAmount: int, quantity: int)

  const Currency: string := "usd"

  /** The arguments of a checkout session request; only whether it is made, and with what, is observed. */
  datatype SessionRequest = SessionRequest(items: seq<LineItem>, metadata: SessionMetadata)

  /** The one event type both webhooks act on. */
  const CheckoutCompleted: string := "checkout.session.completed"

  /** One value of the JSON cart object: its 'quantity' and 'price' keys, None where the key is absent. */
  datatype RawItem = RawItem(quantity: Option<int>, price: Option<int>)

  /** The `cart` metadata string as json.loads reads it: an object from product id to item, or a decode error. */
  datatype CartData = Unparsable | Json(items: seq<(ProductId, RawItem)>)

  /** `session.metadata`; each key may be absent. */
  datatype SessionMetadata = SessionMetadata(userId: Option<UserId>, cart: Option<CartData>, planId: Option<PlanId>)

  /** A verified event: its `type`, the completed session's metadata and `payment_intent`. */
  datatype Event = Event(kind: string, metadata: SessionMetadata, paymentIntent: Option<string>)

  /** HTTP statuses the webhooks answer with; an exception escaping the view is answered with 500. */
  const BadRequest: int := 400
  const Ok: int := 200
  const ServerError: int := 500
}
