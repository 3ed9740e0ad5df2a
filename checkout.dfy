/**
 * The checkout facade (internal/facade/checkout_facade.go): one order runs
 * through inventory validation, stock reservation, payment creation, the
 * decorator chain, a strategy executed with retries, the loyalty update,
 * the receipt and the stored transaction, and every stage that fails
 * releases what it has to and reports a `PAYMENT_FAILED` error.
 *
 * The stages are stated as functions of the repository's maps and of the
 * payment outcome; the facade's methods are proved against them. The two
 * events a checkout emits are returned instead of being handed to a
 * goroutine.
 */
module Checkout {
  import opened AppErrors
  import opened Domain
  import Payments
  import Decorators
  import Strategies
  import Factories
  import opened Repository
  import opened Services
  import Observers

  // ---------------------------------------------------------------- inventory

  /** A line whose product exists with at least the line's quantity in stock. */
  predicate Stocked(products: map<string, Product>, item: CartItem)
  {
    item.productId in products && products[item.productId].stock >= item.quantity
  }

  /**
   * `validateInventory`: the lines are checked in order; a missing product
   * fails as an inventory error around the lookup's error, a short one with
   * the product's name.
   */
  function InventoryCheck(products: map<string, Product>, items: seq<CartItem>): (o: Outcome)
    ensures o.Pass? <==> forall j :: 0 <= j < |items| ==> Stocked(products, items[j])
    ensures o.Fail? ==> IsErrorCode(o.error, InventoryError)
  {
    if items == [] then Pass
    else
      match Availability(products, items[0].productId, items[0].quantity)
      case Err(e) => Fail(Wrap(e, InventoryError, "failed to check inventory"))
      case Ok(available) =>
        if !available then Fail(NewInventoryError("insufficient inventory for product " + items[0].product.name))
        else
          var rest := InventoryCheck(products, items[1..]);
          assert forall j :: 1 <= j < |items| ==> items[j] == items[1..][j - 1];
          rest
  }

  /** The products a stage leaves and the error it stopped at, if any. */
  datatype Staged = Staged(products: map<string, Product>, err: Option<Error>)

  /**
   * `reserveInventory`: each line's stock is reserved in order; the first
   * refusal stops the loop, keeps the reservations already made and is
   * wrapped as an inventory error.
   */
  function ReserveAll(products: map<string, Product>, items: seq<CartItem>): (r: Staged)
    ensures r.products.Keys == products.Keys
    ensures r.err.Some? ==> IsErrorCode(r.err.value, InventoryError)
  {
    if items == [] then Staged(products, None)
    else
      match Reserved(products, items[0].productId, items[0].quantity)
      case Err(e) => Staged(products, Some(Wrap(e, InventoryError, "failed to reserve inventory")))
      case Ok(next) => ReserveAll(next, items[1..])
  }

  /** `rollbackInventory`: each line's quantity is released; a line whose product is missing is skipped. */
  function ReleaseAll(products: map<string, Product>, items: seq<CartItem>): (r: map<string, Product>)
    ensures r.Keys == products.Keys
  {
    if items == [] then products
    else ReleaseAll(StoredAfter(products, Released(products, items[0].productId, items[0].quantity)), items[1..])
  }

  /** The total quantity the lines ask of one product. */
  function Demand(items: seq<CartItem>, productId: string): int
  {
    if items == [] then 0
    else (if items[0].productId == productId then items[0].quantity else 0) + Demand(items[1..], productId)
  }

  /** A reservation that goes through takes each product's whole demand off its stock, and changes nothing else. */
  lemma {:induction false} ReserveAllEffect(products: map<string, Product>, items: seq<CartItem>)
    requires ReserveAll(products, items).err.None?
    ensures forall k :: k in products ==>
      ReserveAll(products, items).products[k] == products[k].(stock := products[k].stock - Demand(items, k))
  {
    if items != [] {
      var next := Reserved(products, items[0].productId, items[0].quantity).value;
      ReserveAllEffect(next, items[1..]);
    }
  }

  /** A rollback gives every product back its whole demand. */
  lemma {:induction false} ReleaseAllEffect(products: map<string, Product>, items: seq<CartItem>)
    ensures forall k :: k in products ==>
      ReleaseAll(products, items)[k] == products[k].(stock := products[k].stock + Demand(items, k))
  {
    if items != [] {
      var next := StoredAfter(products, Released(products, items[0].productId, items[0].quantity));
      ReleaseAllEffect(next, items[1..]);
    }
  }

  /** Rolling back a reservation that went through restores every product exactly. */
  lemma ReleaseUndoesReserve(products: map<string, Product>, items: seq<CartItem>)
    requires ReserveAll(products, items).err.None?
    ensures ReleaseAll(ReserveAll(products, items).products, items) == products
  {
    var reserved := ReserveAll(products, items).products;
    ReserveAllEffect(products, items);
    ReleaseAllEffect(reserved, items);
    var back := ReleaseAll(reserved, items);
    assert back.Keys == products.Keys;
    forall k | k in products
      ensures back[k] == products[k]
    {
    }
  }

  /** A stage whose lines pass validation and name distinct products reserves every one of them. */
  lemma {:induction false} CheckedDistinctReserves(products: map<string, Product>, items: seq<CartItem>)
    requires InventoryCheck(products, items).Pass? && DistinctProducts(items)
    ensures ReserveAll(products, items).err.None?
  {
    if items != [] {
      var next := Reserved(products, items[0].productId, items[0].quantity).value;
      assert Stocked(products, items[0]);
      forall j | 0 <= j < |items[1..]|
        ensures Stocked(next, items[1..][j])
      {
        assert Stocked(products, items[j + 1]);
        assert items[j + 1].productId != items[0].productId;
      }
      CheckedDistinctReserves(next, items[1..]);
    }
  }

  /**
   * Two lines for the same product pass validation one line at a time,
   * after which the reservation refuses the second and the first line's
   * stock stays taken: a reservation failure is not rolled back.
   */
  lemma SplitLinesPassCheckAndLeak()
    ensures var p := Product("p1", "Mouse", "", 10.0, "M-1", 3, "");
            var line := CartItem("p1", p, 2, 10.0);
            var products := map["p1" := p];
            InventoryCheck(products, [line, line]).Pass? &&
            ReserveAll(products, [line, line]).err.Some? &&
            ReserveAll(products, [line, line]).products["p1"].stock == 1
  {
    var p := Product("p1", "Mouse", "", 10.0, "M-1", 3, "");
    var line := CartItem("p1", p, 2, 10.0);
    var products := map["p1" := p];
    assert [line, line][1..] == [line];
    var next := Reserved(products, "p1", 2).value;
    assert next["p1"].stock == 1;
    assert ReserveAll(next, [line]).err.Some?;
  }

  // ---------------------------------------------------------------- payment creation

  /** The fixed credentials `createPayment` fills in for each known method; any other method gets none. */
  function CheckoutConfig(paymentMethod: string): (c: Factories.PaymentConfig)
    ensures paymentMethod !in {"credit_card", "paypal", "crypto"} ==> c == Factories.PaymentConfig("", "", "", "", "", "", "", "")
  {
    if paymentMethod == "credit_card" then
      Factories.PaymentConfig("4532015112830366", "John Doe", "12/25", "123", "", "", "", "")
    else if paymentMethod == "paypal" then
      Factories.PaymentConfig("", "", "", "", "user@example.com", "password", "", "")
    else if paymentMethod == "crypto" then
      Factories.PaymentConfig("", "", "", "", "", "", "1A1zP1eP5QGefi2DMPTfTL5SLmv7DivfNa", "BTC")
    else Factories.PaymentConfig("", "", "", "", "", "", "", "")
  }

  /** The instrument the facade builds for a payment method. */
  function BasePayment(paymentMethod: string): Result<Payments.Instrument>
  {
    Factories.CreatePayment(paymentMethod, CheckoutConfig(paymentMethod))
  }

  /** Every supported method gets all the fields its factory asks for; an unsupported method is an invalid payment. */
  lemma CheckoutConfigComplete(paymentMethod: string)
    ensures Factories.IsSupportedPayment(paymentMethod) ==>
      var fields := Factories.RequiredFields(paymentMethod, CheckoutConfig(paymentMethod));
      Factories.FirstMissing(fields) == |fields|
    ensures !Factories.IsSupportedPayment(paymentMethod) ==>
      BasePayment(paymentMethod).Err? && IsErrorCode(BasePayment(paymentMethod).error, InvalidPayment)
  {
  }

  /** `executePaymentStrategy`: an empty strategy name means "instant", and the factory gets no parameters. */
  function StrategyFor(options: CheckoutOptions): (r: Result<Strategies.Strategy>)
    ensures options.paymentStrategy == "" ==> r == Ok(Strategies.Instant(1.0, 10000.0))
    ensures r.Ok? ==> Retryable(r.value)
  {
    var name := if options.paymentStrategy == "" then "instant" else options.paymentStrategy;
    Factories.StrategyDefaults();
    var r := Factories.CreateStrategy(name, map[]);
    if r.Ok? then Factories.CreatedStrategyName(name, map[]); r else r
  }

  // ---------------------------------------------------------------- retries

  /** The strategies one payment can run again: instant, or deferred over a positive number of installments. */
  predicate Retryable(s: Strategies.Strategy)
  {
    s.Instant? || (s.Deferred? && s.installments > 0)
  }

  /** What one attempt of a retryable strategy returns on the given histories. */
  function Attempt(s: Strategies.Strategy, p: Decorators.Payment, amount: real, env: Payments.Env,
                   h: Decorators.Histories): Result<Payments.ResultView>
    requires Retryable(s) && Payments.ValidEnv(env) && Decorators.WellFormed(p) && Decorators.Detectors(p) <= h.Keys
  {
    if s.Instant? then Strategies.InstantOutcome(s, p, amount, env, h)
    else Strategies.DeferredOutcome(s, p, amount, env, h)
  }

  /** The attempts one per environment, all on the same histories: a failed attempt records nothing. */
  function Attempts(s: Strategies.Strategy, p: Decorators.Payment, amount: real, envs: seq<Payments.Env>,
                    h: Decorators.Histories): (outs: seq<Result<Payments.ResultView>>)
    requires Retryable(s) && Decorators.WellFormed(p) && Decorators.Detectors(p) <= h.Keys
    requires forall j :: 0 <= j < |envs| ==> Payments.ValidEnv(envs[j])
    ensures |outs| == |envs|
    ensures forall j {:trigger Attempt(s, p, amount, envs[j], h)} :: 0 <= j < |envs| ==>
      outs[j] == Attempt(s, p, amount, envs[j], h)
  {
    seq(|envs|, j requires 0 <= j < |envs| => Attempt(s, p, amount, envs[j], h))
  }

  /** The errors on which `executeWithRetry` gives up at once. */
  predicate Stops(e: Error)
  {
    IsErrorCode(e, FraudDetected) || IsErrorCode(e, InvalidPayment)
  }

  predicate Decides(o: Result<Payments.ResultView>)
  {
    o.Ok? || Stops(o.error)
  }

  /** The attempt that ends the loop: the first success or stopping error, else the last attempt. */
  function Decisive(outs: seq<Result<Payments.ResultView>>): (k: nat)
    requires |outs| > 0
    ensures k < |outs|
    ensures forall j :: 0 <= j < k ==> !Decides(outs[j])
    ensures k < |outs| - 1 ==> Decides(outs[k])
  {
    if |outs| == 1 || Decides(outs[0]) then 0
    else
      var k := 1 + Decisive(outs[1..]);
      assert forall j :: 1 <= j < |outs| ==> outs[j] == outs[1..][j - 1];
      k
  }

  /** No attempt before the `n`-th decides. */
  predicate Undecided(outs: seq<Result<Payments.ResultView>>, n: nat)
  {
    n <= |outs| && forall j :: 0 <= j < n ==> !Decides(outs[j])
  }

  lemma UndecidedStep(outs: seq<Result<Payments.ResultView>>, n: nat)
    requires Undecided(outs, n) && n < |outs| && !Decides(outs[n])
    ensures Undecided(outs, n + 1)
  {
  }

  /** The deciding attempt is the one the loop stops at. */
  lemma {:induction false} DecisiveIs(outs: seq<Result<Payments.ResultView>>, k: nat)
    requires k < |outs| && Undecided(outs, k)
    requires Decides(outs[k]) || k == |outs| - 1
    ensures Decisive(outs) == k
  {
    if k > 0 {
      assert !Decides(outs[0]);
      assert Undecided(outs[1..], k - 1) by {
        forall j | 0 <= j < k - 1
          ensures !Decides(outs[1..][j])
        {
          assert outs[1..][j] == outs[j + 1];
        }
      }
      DecisiveIs(outs[1..], k - 1);
    }
  }

  /** What the retry loop returns: the deciding attempt's outcome. */
  function Retried(outs: seq<Result<Payments.ResultView>>): (r: Result<Payments.ResultView>)
    requires |outs| > 0
    ensures exists k ::
              0 <= k < |outs| && r == outs[k] &&
              (forall j :: 0 <= j < k ==> !Decides(outs[j])) && (Decides(r) || k == |outs| - 1)
  {
    outs[Decisive(outs)]
  }

  /**
   * The errors of an instant or deferred attempt never stop the loop: the
   * amount check's errors carry no code and every payment error comes back
   * wrapped as `PAYMENT_FAILED`, so a fraud rejection is tried again.
   */
  lemma AttemptErrorsNeverStop(s: Strategies.Strategy, p: Decorators.Payment, amount: real, env: Payments.Env,
                               h: Decorators.Histories)
    requires Retryable(s) && Payments.ValidEnv(env) && Decorators.WellFormed(p) && Decorators.Detectors(p) <= h.Keys
    ensures Attempt(s, p, amount, env, h).Err? ==> !Stops(Attempt(s, p, amount, env, h).error)
  {
  }

  /** Hence the retry loop returns the first successful attempt, or the last attempt's error when none succeeds. */
  lemma {:induction false} RetriedIsFirstSuccessOrLast(outs: seq<Result<Payments.ResultView>>)
    requires |outs| > 0
    requires forall j :: 0 <= j < |outs| && outs[j].Err? ==> !Stops(outs[j].error)
    ensures Retried(outs).Ok? <==> exists j :: 0 <= j < |outs| && outs[j].Ok?
    ensures Retried(outs).Ok? ==> forall j :: 0 <= j < Decisive(outs) ==> outs[j].Err?
    ensures Retried(outs).Err? ==> Retried(outs) == outs[|outs| - 1]
  {
    var k := Decisive(outs);
    if outs[k].Err? {
      assert !Decides(outs[k]);
      assert k == |outs| - 1;
      forall j | 0 <= j < |outs|
        ensures outs[j].Err?
      {
        if j < k {
          assert !Decides(outs[j]);
        }
      }
    }
  }

  /** One call of the strategy's `Execute` on a retryable strategy: attempt number `i` of `outs`. */
  method RunAttempt(s: Strategies.Strategy, p: Decorators.Payment, amount: real, envs: seq<Payments.Env>, i: nat,
                    ghost h: Decorators.Histories, ghost outs: seq<Result<Payments.ResultView>>)
    returns (r: Payments.PaymentResult?, err: Option<Error>)
    requires Retryable(s) && Decorators.WellFormed(p) && i < |envs|
    requires forall j :: 0 <= j < |envs| ==> Payments.ValidEnv(envs[j])
    requires Decorators.HistoriesOf(Decorators.Detectors(p)) == h
    requires outs == Attempts(s, p, amount, envs, h)
    modifies Decorators.Detectors(p)
    ensures Payments.Delivers(r, err, outs[i])
    ensures r != null ==> fresh(r)
    ensures forall d :: d in Decorators.Detectors(p) ==>
      d.transactionHistory == if r != null then Decorators.Recorded(h[d], envs[i].now) else h[d]
    ensures r == null ==> Decorators.HistoriesOf(Decorators.Detectors(p)) == h
  {
    Decorators.DetectorsAllocated(p);
    assert outs[i] == Attempt(s, p, amount, envs[i], h);
    r, err := Strategies.Execute(s, p, amount, [envs[i]]);
  }

  /**
   * `executeWithRetry`: the strategy runs up to `retryAttempts + 1` times,
   * once per environment, until an attempt succeeds or fails with a fraud
   * or invalid-payment error. A negative count runs nothing and returns
   * neither a result nor an error. Only the successful attempt records the
   * transaction in the chain's fraud detectors.
   */
  method ExecuteWithRetry(s: Strategies.Strategy, p: Decorators.Payment, amount: real, retryAttempts: int,
                          envs: seq<Payments.Env>, ghost h: Decorators.Histories,
                          ghost outs: seq<Result<Payments.ResultView>>)
    returns (r: Payments.PaymentResult?, err: Option<Error>)
    requires Retryable(s) && Decorators.WellFormed(p)
    requires |envs| == if retryAttempts < 0 then 0 else retryAttempts + 1
    requires forall j :: 0 <= j < |envs| ==> Payments.ValidEnv(envs[j])
    requires Decorators.HistoriesOf(Decorators.Detectors(p)) == h
    requires outs == Attempts(s, p, amount, envs, h)
    modifies Decorators.Detectors(p)
    ensures retryAttempts < 0 ==> r == null && err.None?
    ensures retryAttempts >= 0 ==> Payments.Delivers(r, err, Retried(outs))
    ensures r != null ==> fresh(r)
    ensures retryAttempts >= 0 ==> forall d :: d in Decorators.Detectors(p) ==>
      d.transactionHistory == if r != null then Decorators.Recorded(h[d], envs[Decisive(outs)].now) else h[d]
  {
    var lastErr: Option<Error> := None;
    var attempt := 0;
    while attempt <= retryAttempts
      invariant 0 <= attempt <= |envs|
      invariant retryAttempts >= 0 ==> attempt <= retryAttempts + 1
      invariant Decorators.HistoriesOf(Decorators.Detectors(p)) == h
      invariant Undecided(outs, attempt)
      invariant attempt == 0 ==> lastErr.None?
      invariant attempt > 0 ==> outs[attempt - 1].Err? && lastErr == Some(outs[attempt - 1].error)
    {
      var result, e := RunAttempt(s, p, amount, envs, attempt, h, outs);
      if e.None? {
        DecisiveIs(outs, attempt);
        return result, None;
      }
      assert outs[attempt].Err? && e == Some(outs[attempt].error) && result == null;
      lastErr := e;
      if IsErrorCode(e.value, FraudDetected) || IsErrorCode(e.value, InvalidPayment) {
        DecisiveIs(outs, attempt);
        return null, lastErr;
      }
      UndecidedStep(outs, attempt);
      attempt := attempt + 1;
    }
    if retryAttempts >= 0 {
      DecisiveIs(outs, |envs| - 1);
    }
    return null, lastErr;
  }

  // ---------------------------------------------------------------- completion

  /** The value stored under `key` when it is a `float64`, else 0. */
  function MetaReal(m: Metadata, key: string): (v: real)
    ensures key in m && m[key].MReal? ==> v == m[key].r
    ensures !(key in m && m[key].MReal?) ==> v == 0.0
  {
    if key in m && m[key].MReal? then m[key].r else 0.0
  }

  /** The value stored under `key` when it is an `int`, else 0. */
  function MetaInt(m: Metadata, key: string): (v: int)
    ensures key in m && m[key].MInt? ==> v == m[key].i
    ensures !(key in m && m[key].MInt?) ==> v == 0
  {
    if key in m && m[key].MInt? then m[key].i else 0
  }

  /**
   * `updateLoyaltyPoints`: the points earned and redeemed are read from
   * the payment's metadata, and the customer's balance is updated only when
   * either is positive.
   */
  function LoyaltyUpdate(customers: map<string, Customer>, customerId: string, meta: Metadata)
    : (r: Result<map<string, Customer>>)
    ensures MetaInt(meta, "loyalty_points_earned") <= 0 && MetaInt(meta, "loyalty_points_redeemed") <= 0 ==>
      r == Ok(customers)
  {
    var earned := MetaInt(meta, "loyalty_points_earned");
    var redeemed := MetaInt(meta, "loyalty_points_redeemed");
    if earned > 0 || redeemed > 0 then WithPoints(customers, customerId, earned, redeemed) else Ok(customers)
  }

  /** A loyalty update changes, at most, the balance of the paying customer, by earned minus redeemed. */
  lemma LoyaltyUpdateMovesBalance(customers: map<string, Customer>, customerId: string, meta: Metadata)
    ensures var after := StoredAfter(customers, LoyaltyUpdate(customers, customerId, meta));
      after.Keys == customers.Keys &&
      (forall k :: k in customers && k != customerId ==> after[k] == customers[k]) &&
      (customerId in customers &&
       (MetaInt(meta, "loyalty_points_earned") > 0 || MetaInt(meta, "loyalty_points_redeemed") > 0) ==>
        after[customerId].loyaltyPoints == customers[customerId].loyaltyPoints +
          MetaInt(meta, "loyalty_points_earned") - MetaInt(meta, "loyalty_points_redeemed"))
  {
  }

  /** One receipt line: the line's price and quantity, and their product. */
  function ReceiptLine(item: CartItem): ReceiptItem
  {
    ReceiptItem(item.productId, item.product.name, item.product.sku, item.quantity, item.price,
                item.price * item.quantity as real)
  }

  /** The sum of the receipt lines' totals. */
  function LinesTotal(lines: seq<ReceiptItem>): real
  {
    if lines == [] then 0.0 else LinesTotal(lines[..|lines| - 1]) + lines[|lines| - 1].total
  }

  /** The receipt lines add up to the cart's total. */
  lemma {:induction false} LinesAddUp(items: seq<CartItem>, lines: seq<ReceiptItem>)
    requires |lines| == |items| && forall j :: 0 <= j < |items| ==> lines[j] == ReceiptLine(items[j])
    ensures LinesTotal(lines) == Total(items)
  {
    if items != [] {
      var n := |items| - 1;
      LinesAddUp(items[..n], lines[..n]);
    }
  }

  /**
   * `generateReceipt` with its lines given: the subtotal is the cart's
   * total, the adjustments are read from the payment's metadata (0 when
   * absent or of another type) and the total is what the payment charged.
   */
  function ReceiptOf(receiptId: string, transactionId: string, customer: Customer, lines: seq<ReceiptItem>,
                     subtotal: real, v: Payments.ResultView, now: int): (r: Receipt)
    ensures r.total == v.amount && r.paymentMethod == v.paymentMethod
    ensures r.customerId == customer.id && r.transactionId == transactionId
    ensures r.items == lines && r.subtotal == subtotal && r.appliedDecorators == v.appliedDecorators
    ensures r.discount == MetaReal(v.metadata, "discount_amount") && r.tax == MetaReal(v.metadata, "tax_amount")
    ensures r.cashback == MetaReal(v.metadata, "cashback_amount")
    ensures r.loyaltyPoints == MetaInt(v.metadata, "loyalty_points_earned")
  {
    Receipt(receiptId, transactionId, customer.id, customer.name, customer.email, lines, subtotal,
            MetaReal(v.metadata, "discount_amount"), MetaReal(v.metadata, "tax_amount"),
            MetaReal(v.metadata, "cashback_amount"), MetaInt(v.metadata, "loyalty_points_earned"),
            v.amount, v.paymentMethod, v.metadata, v.appliedDecorators, now)
  }

  /** The receipt's lines, one per cart line in order. */
  function LinesOf(items: seq<CartItem>): (lines: seq<ReceiptItem>)
    ensures |lines| == |items|
    ensures forall j :: 0 <= j < |items| ==> lines[j] == ReceiptLine(items[j])
  {
    seq(|items|, j requires 0 <= j < |items| => ReceiptLine(items[j]))
  }

  /**
   * The receipt of a paid cart: its lines add up to its subtotal, which is
   * the cart's total, and its total is what the payment charged.
   */
  lemma ReceiptOfCart(receiptId: string, transactionId: string, customer: Customer, items: seq<CartItem>,
                      v: Payments.ResultView, now: int)
    ensures var r := ReceiptOf(receiptId, transactionId, customer, LinesOf(items), Total(items), v, now);
      |r.items| == |items| && LinesTotal(r.items) == r.subtotal == Total(items) && r.total == v.amount
  {
    ReceiptAddsUp(items);
  }

  /** The receipt's lines add up to the cart's total. */
  lemma ReceiptAddsUp(items: seq<CartItem>)
    ensures LinesTotal(LinesOf(items)) == Total(items)
  {
    LinesAddUp(items, LinesOf(items));
  }

  /** The loop of `generateReceipt` that builds the lines. */
  method ReceiptLines(items: seq<CartItem>) returns (lines: seq<ReceiptItem>)
    ensures lines == LinesOf(items)
  {
    lines := [];
    var i := 0;
    while i < |items|
      invariant 0 <= i <= |items|
      invariant |lines| == i
      invariant forall j :: 0 <= j < i ==> lines[j] == ReceiptLine(items[j])
    {
      lines := lines + [ReceiptLine(items[i])];
      i := i + 1;
    }
  }

  /** The transaction `ProcessOrder` starts from: pending, for the cart's total, with the order's metadata. */
  function PendingTransaction(transactionId: string, customer: Customer, items: seq<CartItem>,
                              options: CheckoutOptions, now: int): Transaction
  {
    Transaction(transactionId, customer.id, Total(items), Pending, options.paymentMethod, map[], options.metadata,
                "", None, now)
  }

  /** The transaction after a successful payment: completed, with the payment's metadata as its details. */
  function CompletedTransaction(t: Transaction, v: Payments.ResultView, now: int): (c: Transaction)
    ensures c.status == Completed && c.id == t.id && c.amount == t.amount
  {
    t.(status := Completed, processedAt := Some(now), paymentDetails := v.metadata)
  }

  /** The error `handleError` returns: the stage's error under `PAYMENT_FAILED` and the stage's message. */
  function Reported(err: Error, message: string): (e: Error)
    ensures IsErrorCode(e, PaymentFailed) && Unwrap(e) == Some(err)
  {
    Wrap(err, PaymentFailed, message)
  }

  /** Whatever a stage failed with, the caller sees `PAYMENT_FAILED`; the stage's own code is one unwrap away. */
  lemma ReportedHidesStageCode(err: Error, message: string)
    requires IsErrorCode(err, InventoryError)
    ensures !IsErrorCode(Reported(err, message), InventoryError)
    ensures IsErrorCode(Unwrap(Reported(err, message)).value, InventoryError)
  {
  }

  function StartedEvent(t: Transaction, stamp: string): (e: Observers.Event)
    ensures e.kind == Observers.PaymentStarted && e.transactionId == t.id
  {
    Observers.Event(Observers.PaymentStarted, t.id, t.customerId, t.amount, t.paymentMethod, None, None, map[], stamp)
  }

  /** The success event carries what the payment charged, not the cart's total. */
  function SucceededEvent(t: Transaction, v: Payments.ResultView, stamp: string): (e: Observers.Event)
    ensures e.kind == Observers.PaymentSuccess && e.transactionId == t.id && e.amount == v.amount
  {
    Observers.Event(Observers.PaymentSuccess, t.id, t.customerId, v.amount, v.paymentMethod, Some(v), None, map[],
                    stamp)
  }

  function FailedEvent(t: Transaction, err: Error, stamp: string): (e: Observers.Event)
    ensures e.kind == Observers.PaymentFailed && e.transactionId == t.id && e.error == Some(err)
  {
    Observers.Event(Observers.PaymentFailed, t.id, t.customerId, t.amount, t.paymentMethod, None, Some(err), map[],
                    stamp)
  }

  // ---------------------------------------------------------------- the facade

  /** The messages `handleError` reports a failed stage under. */
  const ValidationFailedMessage := "inventory validation failed"
  const ReservationFailedMessage := "inventory reservation failed"
  const CreationFailedMessage := "payment creation failed"
  const DecorationFailedMessage := "decorator application failed"
  const ProcessingFailedMessage := "payment processing failed"

  /** What one checkout draws from the id generator and the clock, and one environment per payment attempt. */
  datatype World = World(transactionId: string, receiptId: string, now: int, stamp: string,
                         envs: seq<Payments.Env>)

  /** The error an outcome carries, if any. */
  function FailureOf(o: Outcome): (e: Option<Error>)
    ensures e.Some? <==> o.Fail?
    ensures o.Fail? ==> e == Some(o.error)
  {
    if o.Fail? then Some(o.error) else None
  }

  /**
   * What `createPayment` and `applyDecorators` build: the instrument's
   * error, the first failing decorator's error under its name, or a chain
   * around the instrument with the enabled decorators' names in order,
   * each layer configured as its decorator's builder says.
   */
  ghost predicate BuiltAs(settings: Factories.DecoratorSettings, options: CheckoutOptions, customer: Customer,
                          now: int, built: Result<Decorators.Payment>)
  {
    var base := BasePayment(options.paymentMethod);
    var names := options.enabledDecorators;
    var k := Factories.FirstFailing(names, settings, options, Some(customer), now);
    if base.Err? then built == Err(base.error)
    else if k < |names| then
      built == Err(Factories.ChainError(names[k], Factories.FeatureError(names[k], settings, options, Some(customer), now).value))
    else
      built.Ok? && Decorators.Innermost(built.value) == base.value &&
      Decorators.Names(built.value) == Factories.AddedNames(names, |names|, settings, options, Some(customer), now) &&
      Factories.Folded(built.value, Decorators.Base(base.value), names, |names|, settings, options, Some(customer), now) &&
      Decorators.WellFormed(built.value)
  }

  /**
   * What `executePaymentStrategy` yields for a built chain: the strategy
   * factory's error, or the order's strategy run with retries.
   */
  ghost predicate StrategyRun(options: CheckoutOptions, chain: Decorators.Payment, amount: real, envs: seq<Payments.Env>,
                          h: Decorators.Histories, paid: Result<Payments.ResultView>)
    requires forall j :: 0 <= j < |envs| ==> Payments.ValidEnv(envs[j])
  {
    h.Keys == Decorators.Detectors(chain) &&
    match StrategyFor(options)
    case Err(e) => paid == Err(e)
    case Ok(s) => Decorators.WellFormed(chain) && |envs| > 0 && paid == Retried(Attempts(s, chain, amount, envs, h))
  }

  /**
   * The histories `after` the chain's detectors hold once the strategy has
   * run from histories `h`: a successful run records the deciding
   * attempt's time in each of them, and a failed one leaves them as they
   * were.
   */
  ghost predicate HistoriesAfter(options: CheckoutOptions, chain: Decorators.Payment, amount: real,
                                 envs: seq<Payments.Env>, h: Decorators.Histories,
                                 paid: Result<Payments.ResultView>, after: Decorators.Histories)
    requires forall j :: 0 <= j < |envs| ==> Payments.ValidEnv(envs[j])
  {
    h.Keys == Decorators.Detectors(chain) && after.Keys == h.Keys &&
    if paid.Err? then after == h
    else
      match StrategyFor(options)
      case Err(_) => false
      case Ok(s) =>
        Decorators.WellFormed(chain) && |envs| > 0 &&
        forall d :: d in h ==> after[d] == Decorators.Recorded(h[d], envs[Decisive(Attempts(s, chain, amount, envs, h))].now)
  }

  /**
   * What the payment stages of `ProcessOrder` yield, with the message
   * `handleError` reports a failure under: a failed build, the strategy
   * factory's error, or the strategy run with retries on the built chain.
   * The histories its fraud detectors held when the strategy started are
   * named, and so are those they hold afterwards: the detectors are new
   * objects, so every history starts empty.
   */
  ghost predicate PaidAs(settings: Factories.DecoratorSettings, options: CheckoutOptions, customer: Customer,
                         amount: real, now: int, envs: seq<Payments.Env>, built: Result<Decorators.Payment>,
                         h: Decorators.Histories, after: Decorators.Histories, paid: Result<Payments.ResultView>,
                         message: string)
    requires forall j :: 0 <= j < |envs| ==> Payments.ValidEnv(envs[j])
  {
    BuiltAs(settings, options, customer, now, built) &&
    match built
    case Err(e) =>
      paid == Err(e) && h == map[] && after == map[] &&
      message == if BasePayment(options.paymentMethod).Err? then CreationFailedMessage
                 else DecorationFailedMessage
    case Ok(chain) =>
      message == ProcessingFailedMessage && StrategyRun(options, chain, amount, envs, h, paid) &&
      (forall d :: d in h ==> h[d] == map[]) && HistoriesAfter(options, chain, amount, envs, h, paid, after)
  }

  /** A failed payment releases the reserved stock and reports the failure under the stage's message. */
  ghost predicate RolledBack(reserved: map<string, Product>, customers0: map<string, Customer>,
                             transactions0: map<string, Transaction>, items: seq<CartItem>, t: Transaction,
                             stamp: string, e: Error, message: string,
                             products: map<string, Product>, customers: map<string, Customer>,
                             transactions: map<string, Transaction>, cartItems: seq<CartItem>,
                             receipt: Option<Receipt>, err: Option<Error>, last: Observers.Event)
  {
    products == ReleaseAll(reserved, items) && customers == customers0 && transactions == transactions0 &&
    cartItems == items && receipt.None? && err == Some(Reported(e, message)) && last == FailedEvent(t, e, stamp)
  }

  /**
   * A successful payment keeps the reservation, applies the loyalty points,
   * stores the completed transaction (neither step's error stops the
   * checkout), empties the cart and returns the receipt.
   */
  ghost predicate Fulfilled(reserved: map<string, Product>, customers0: map<string, Customer>,
                            transactions0: map<string, Transaction>, items: seq<CartItem>, customer: Customer,
                            t: Transaction, w: World, v: Payments.ResultView,
                            products: map<string, Product>, customers: map<string, Customer>,
                            transactions: map<string, Transaction>, cartItems: seq<CartItem>,
                            receipt: Option<Receipt>, last: Observers.Event)
  {
    products == reserved &&
    customers == StoredAfter(customers0, LoyaltyUpdate(customers0, customer.id, v.metadata)) &&
    transactions == StoredAfter(transactions0,
                                Inserted(transactions0, t.id, CompletedTransaction(t, v, w.now), "transaction")) &&
    cartItems == [] &&
    receipt == Some(ReceiptOf(w.receiptId, t.id, customer, LinesOf(items), Total(items), v, w.now)) &&
    last == SucceededEvent(t, v, w.stamp)
  }

  /** After a successful reservation, the payment's outcome decides between a rollback and a fulfilled order. */
  ghost predicate Settled(reserved: map<string, Product>, customers0: map<string, Customer>,
                          transactions0: map<string, Transaction>, items: seq<CartItem>, customer: Customer,
                          t: Transaction, w: World, paid: Result<Payments.ResultView>, message: string,
                          products: map<string, Product>, customers: map<string, Customer>,
                          transactions: map<string, Transaction>, cartItems: seq<CartItem>,
                          receipt: Option<Receipt>, err: Option<Error>, last: Observers.Event)
  {
    match paid
    case Err(e) =>
      RolledBack(reserved, customers0, transactions0, items, t, w.stamp, e, message,
                 products, customers, transactions, cartItems, receipt, err, last)
    case Ok(v) =>
      err.None? &&
      Fulfilled(reserved, customers0, transactions0, items, customer, t, w, v,
                products, customers, transactions, cartItems, receipt, last)
  }

  /**
   * What the stages from the reservation on leave: a failed reservation
   * keeps the lines it reserved before failing, and after a successful one
   * the payment stages settle the order.
   */
  ghost predicate ReservedAndSettled(settings: Factories.DecoratorSettings, products0: map<string, Product>,
                                     customers0: map<string, Customer>, transactions0: map<string, Transaction>,
                                     items: seq<CartItem>, customer: Customer, options: CheckoutOptions, w: World,
                                     t: Transaction, built: Result<Decorators.Payment>, h: Decorators.Histories,
                                     after: Decorators.Histories, paid: Result<Payments.ResultView>, message: string,
                                     products: map<string, Product>, customers: map<string, Customer>,
                                     transactions: map<string, Transaction>, cartItems: seq<CartItem>,
                                     receipt: Option<Receipt>, err: Option<Error>, last: Observers.Event)
    requires forall j :: 0 <= j < |w.envs| ==> Payments.ValidEnv(w.envs[j])
  {
    var reserved := ReserveAll(products0, items);
    if reserved.err.Some? then
      products == reserved.products && customers == customers0 && transactions == transactions0 &&
      cartItems == items && receipt.None? && err == Some(Reported(reserved.err.value, ReservationFailedMessage)) &&
      last == FailedEvent(t, reserved.err.value, w.stamp)
    else
      PaidAs(settings, options, customer, Total(items), w.now, w.envs, built, h, after, paid, message) &&
      Settled(reserved.products, customers0, transactions0, items, customer, t, w, paid, message,
              products, customers, transactions, cartItems, receipt, err, last)
  }

  /**
   * What `ProcessOrder` leaves for its pending transaction `t`: a failed
   * validation changes nothing; otherwise the reservation and the payment
   * stages decide. `last` is the event that follows the started event.
   */
  ghost predicate CheckedOut(settings: Factories.DecoratorSettings, products0: map<string, Product>,
                             customers0: map<string, Customer>, transactions0: map<string, Transaction>,
                             items: seq<CartItem>, customer: Customer, options: CheckoutOptions, w: World,
                             t: Transaction, built: Result<Decorators.Payment>, h: Decorators.Histories,
                             after: Decorators.Histories, paid: Result<Payments.ResultView>, message: string,
                             products: map<string, Product>, customers: map<string, Customer>,
                             transactions: map<string, Transaction>, cartItems: seq<CartItem>,
                             receipt: Option<Receipt>, err: Option<Error>, last: Observers.Event)
    requires forall j :: 0 <= j < |w.envs| ==> Payments.ValidEnv(w.envs[j])
  {
    match InventoryCheck(products0, items)
    case Fail(e) =>
      products == products0 && customers == customers0 && transactions == transactions0 && cartItems == items &&
      receipt.None? && err == Some(Reported(e, ValidationFailedMessage)) && last == FailedEvent(t, e, w.stamp)
    case Pass =>
      ReservedAndSettled(settings, products0, customers0, transactions0, items, customer, options, w, t, built, h,
                         after, paid, message, products, customers, transactions, cartItems, receipt, err, last)
  }

  class CheckoutFacade {
    const settings: Factories.DecoratorSettings
    const retryAttempts: int
    const repo: MemoryRepository
    const inventory: InventoryService
    const customers: CustomerService

    /** Both services work on the facade's repository. */
    predicate Wired()
    {
      inventory.repo == repo && customers.repo == repo
    }

    /** `NewCheckoutFacade`: the services are built over the one repository. */
    constructor (settings: Factories.DecoratorSettings, retryAttempts: int, repo: MemoryRepository)
      ensures this.settings == settings && this.retryAttempts == retryAttempts && this.repo == repo
      ensures Wired()
    {
      this.settings := settings;
      this.retryAttempts := retryAttempts;
      this.repo := repo;
      this.inventory := new InventoryService(repo);
      this.customers := new CustomerService(repo);
    }

    /** `validateInventory` over the cart's lines. */
    method ValidateInventory(items: seq<CartItem>) returns (err: Option<Error>)
      requires Wired()
      ensures err == FailureOf(InventoryCheck(repo.products, items))
    {
      var i := 0;
      while i < |items|
        invariant 0 <= i <= |items|
        invariant InventoryCheck(repo.products, items[i..]) == InventoryCheck(repo.products, items)
      {
        var item := items[i];
        var available := inventory.CheckAvailability(item.productId, item.quantity);
        if available.Err? {
          return Some(Wrap(available.error, InventoryError, "failed to check inventory"));
        }
        if !available.value {
          return Some(NewInventoryError("insufficient inventory for product " + item.product.name));
        }
        assert items[i..][1..] == items[i + 1..];
        i := i + 1;
      }
      assert items[i..] == [];
      err := None;
    }

    /** `reserveInventory` over the cart's lines. */
    method ReserveInventory(items: seq<CartItem>) returns (err: Option<Error>)
      requires Wired() && repo.Valid()
      modifies repo
      ensures repo.Valid()
      ensures err == ReserveAll(old(repo.products), items).err
      ensures repo.products == ReserveAll(old(repo.products), items).products
      ensures repo.customers == old(repo.customers) && repo.carts == old(repo.carts)
      ensures repo.transactions == old(repo.transactions)
    {
      var i := 0;
      while i < |items|
        invariant 0 <= i <= |items| && repo.Valid()
        invariant ReserveAll(repo.products, items[i..]) == ReserveAll(old(repo.products), items)
        invariant repo.customers == old(repo.customers) && repo.carts == old(repo.carts)
        invariant repo.transactions == old(repo.transactions)
      {
        var item := items[i];
        assert items[i..][0] == item && items[i..][1..] == items[i + 1..];
        var e := inventory.ReserveStock(item.productId, item.quantity);
        if e.Some? {
          return Some(Wrap(e.value, InventoryError, "failed to reserve inventory"));
        }
        i := i + 1;
      }
      assert items[i..] == [];
      err := None;
    }

    /** `rollbackInventory` over the cart's lines; a release that fails is only logged. */
    method RollbackInventory(items: seq<CartItem>)
      requires Wired() && repo.Valid()
      modifies repo
      ensures repo.Valid()
      ensures repo.products == ReleaseAll(old(repo.products), items)
      ensures repo.customers == old(repo.customers) && repo.carts == old(repo.carts)
      ensures repo.transactions == old(repo.transactions)
    {
      var i := 0;
      while i < |items|
        invariant 0 <= i <= |items| && repo.Valid()
        invariant ReleaseAll(repo.products, items[i..]) == ReleaseAll(old(repo.products), items)
        invariant repo.customers == old(repo.customers) && repo.carts == old(repo.carts)
        invariant repo.transactions == old(repo.transactions)
      {
        var item := items[i];
        assert items[i..][0] == item && items[i..][1..] == items[i + 1..];
        var _ := inventory.ReleaseStock(item.productId, item.quantity);
        i := i + 1;
      }
      assert items[i..] == [];
    }

    /** `createPayment` with the facade's fixed credentials, then `applyDecorators` for the paying customer. */
    method BuildPayment(options: CheckoutOptions, customer: Customer, now: int)
      returns (built: Result<Decorators.Payment>)
      requires settings.loyaltyPoints.pointsToCurrencyRatio != 0.0
      ensures BuiltAs(settings, options, customer, now, built)
      ensures built.Ok? ==> forall d :: d in Decorators.Detectors(built.value) ==> fresh(d)
      ensures built.Ok? ==> Decorators.Pristine(Decorators.Detectors(built.value))
    {
      var base := BasePayment(options.paymentMethod);
      if base.Err? {
        return Err(base.error);
      }
      built := Factories.CreateDecoratorChain(Decorators.Base(base.value), options.enabledDecorators, settings,
                                              options, Some(customer), now);
    }

    /**
     * `executePaymentStrategy`: the strategy named by the options, instant
     * when none is, runs the chain with retries. Only the chain's fraud
     * detectors change, and only to record a successful attempt.
     */
    method ExecutePaymentStrategy(chain: Decorators.Payment, amount: real, options: CheckoutOptions,
                                  envs: seq<Payments.Env>)
      returns (r: Payments.PaymentResult?, err: Option<Error>, ghost h: Decorators.Histories,
               ghost paid: Result<Payments.ResultView>)
      requires Decorators.WellFormed(chain)
      requires retryAttempts >= 0 && |envs| == retryAttempts + 1
      requires forall j :: 0 <= j < |envs| ==> Payments.ValidEnv(envs[j])
      modifies Decorators.Detectors(chain)
      ensures Payments.Delivers(r, err, paid)
      ensures r != null ==> fresh(r)
      ensures h == old(Decorators.HistoriesOf(Decorators.Detectors(chain)))
      ensures StrategyRun(options, chain, amount, envs, h, paid)
      ensures HistoriesAfter(options, chain, amount, envs, h, paid, Decorators.HistoriesOf(Decorators.Detectors(chain)))
    {
      h := Decorators.HistoriesOf(Decorators.Detectors(chain));
      var strategy := StrategyFor(options);
      if strategy.Err? {
        paid := Err(strategy.error);
        return null, Some(strategy.error), h, paid;
      }
      ghost var outs := Attempts(strategy.value, chain, amount, envs, h);
      paid := Retried(outs);
      r, err := ExecuteWithRetry(strategy.value, chain, amount, retryAttempts, envs, h, outs);
    }

    /**
     * The payment stages of `ProcessOrder`: the built chain is executed by
     * the order's strategy with retries. Nothing that existed before is
     * changed; only the chain's new fraud detectors record the successful
     * attempt.
     */
    method Pay(options: CheckoutOptions, customer: Customer, amount: real, now: int, envs: seq<Payments.Env>)
      returns (r: Payments.PaymentResult?, err: Option<Error>, message: string,
               ghost built: Result<Decorators.Payment>, ghost h: Decorators.Histories,
               ghost after: Decorators.Histories, ghost paid: Result<Payments.ResultView>)
      requires retryAttempts >= 0 && |envs| == retryAttempts + 1
      requires forall j :: 0 <= j < |envs| ==> Payments.ValidEnv(envs[j])
      requires settings.loyaltyPoints.pointsToCurrencyRatio != 0.0
      ensures Payments.Delivers(r, err, paid)
      ensures r != null ==> fresh(r)
      ensures PaidAs(settings, options, customer, amount, now, envs, built, h, after, paid, message)
      ensures built.Ok? ==> forall d :: d in Decorators.Detectors(built.value) ==> fresh(d)
      ensures built.Ok? ==> Decorators.HistoriesOf(Decorators.Detectors(built.value)) == after
    {
      h, after := map[], map[];
      var payment := BuildPayment(options, customer, now);
      built := payment;
      if payment.Err? {
        paid := Err(payment.error);
        message := if BasePayment(options.paymentMethod).Err? then CreationFailedMessage
                   else DecorationFailedMessage;
        return null, Some(payment.error), message, built, h, after, paid;
      }
      message := ProcessingFailedMessage;
      r, err, h, paid := ExecutePaymentStrategy(payment.value, amount, options, envs);
      after := Decorators.HistoriesOf(Decorators.Detectors(payment.value));
    }

    /** What follows the payment: a rollback of the reservation when it failed, the end of a paid order otherwise. */
    method Conclude(cart: Cart, customer: Customer, w: World, t: Transaction, r: Payments.PaymentResult?,
                    failure: Option<Error>, message: string, ghost paid: Result<Payments.ResultView>)
      returns (receipt: Option<Receipt>, err: Option<Error>, last: Observers.Event)
      requires Wired() && repo.Valid()
      requires Payments.Delivers(r, failure, paid)
      modifies repo, cart
      ensures repo.Valid() && repo.carts == old(repo.carts)
      ensures cart.id == old(cart.id) && cart.customerId == old(cart.customerId)
      ensures cart.createdAt == old(cart.createdAt) && cart.updatedAt == old(cart.updatedAt)
      ensures Settled(old(repo.products), old(repo.customers), old(repo.transactions), old(cart.items), customer,
                      t, w, paid, message, repo.products, repo.customers, repo.transactions, cart.items,
                      receipt, err, last)
    {
      if failure.Some? {
        RollbackInventory(cart.items);
        return None, Some(Reported(failure.value, message)), FailedEvent(t, failure.value, w.stamp);
      }
      receipt, last := Complete(cart, customer, w, t, r.View());
      err := None;
    }

    /** The end of a paid order: loyalty points, receipt, stored transaction, emptied cart and success event. */
    method Complete(cart: Cart, customer: Customer, w: World, t: Transaction, v: Payments.ResultView)
      returns (receipt: Option<Receipt>, last: Observers.Event)
      requires Wired() && repo.Valid()
      modifies repo, cart
      ensures repo.Valid() && repo.carts == old(repo.carts)
      ensures cart.id == old(cart.id) && cart.customerId == old(cart.customerId)
      ensures cart.createdAt == old(cart.createdAt) && cart.updatedAt == old(cart.updatedAt)
      ensures Fulfilled(old(repo.products), old(repo.customers), old(repo.transactions), old(cart.items), customer,
                        t, w, v, repo.products, repo.customers, repo.transactions, cart.items, receipt, last)
    {
      var earned := MetaInt(v.metadata, "loyalty_points_earned");
      var redeemed := MetaInt(v.metadata, "loyalty_points_redeemed");
      if earned > 0 || redeemed > 0 {
        var _ := customers.UpdateLoyaltyPoints(customer.id, earned, redeemed);
      }
      var lines := ReceiptLines(cart.items);
      var subtotal := cart.GetTotal();
      receipt := Some(ReceiptOf(w.receiptId, t.id, customer, lines, subtotal, v, w.now));
      var _ := repo.CreateTransaction(CompletedTransaction(t, v, w.now));
      cart.Clear();
      last := SucceededEvent(t, v, w.stamp);
    }

    /** The stages after a successful reservation: pay, then roll the reservation back or complete the order. */
    method Settle(cart: Cart, customer: Customer, options: CheckoutOptions, w: World, t: Transaction)
      returns (receipt: Option<Receipt>, err: Option<Error>, last: Observers.Event,
               ghost built: Result<Decorators.Payment>, ghost h: Decorators.Histories,
               ghost after: Decorators.Histories, ghost paid: Result<Payments.ResultView>, ghost message: string)
      requires Wired() && repo.Valid()
      requires retryAttempts >= 0 && |w.envs| == retryAttempts + 1
      requires forall j :: 0 <= j < |w.envs| ==> Payments.ValidEnv(w.envs[j])
      requires settings.loyaltyPoints.pointsToCurrencyRatio != 0.0
      requires t.amount == Total(cart.items)
      modifies repo, cart
      ensures repo.Valid() && repo.carts == old(repo.carts)
      ensures cart.id == old(cart.id) && cart.customerId == old(cart.customerId)
      ensures cart.createdAt == old(cart.createdAt) && cart.updatedAt == old(cart.updatedAt)
      ensures PaidAs(settings, options, customer, Total(old(cart.items)), w.now, w.envs, built, h, after, paid, message)
      ensures Settled(old(repo.products), old(repo.customers), old(repo.transactions), old(cart.items), customer,
                      t, w, paid, message, repo.products, repo.customers, repo.transactions, cart.items,
                      receipt, err, last)
    {
      var r, failure, reason;
      r, failure, reason, built, h, after, paid := Pay(options, customer, t.amount, w.now, w.envs);
      message := reason;
      receipt, err, last := Conclude(cart, customer, w, t, r, failure, reason, paid);
    }

    /** `reserveInventory`, then the payment stages when every line was reserved. */
    method ReserveAndSettle(cart: Cart, customer: Customer, options: CheckoutOptions, w: World, t: Transaction)
      returns (receipt: Option<Receipt>, err: Option<Error>, last: Observers.Event,
               ghost built: Result<Decorators.Payment>, ghost h: Decorators.Histories,
               ghost after: Decorators.Histories, ghost paid: Result<Payments.ResultView>, ghost message: string)
      requires Wired() && repo.Valid()
      requires retryAttempts >= 0 && |w.envs| == retryAttempts + 1
      requires forall j :: 0 <= j < |w.envs| ==> Payments.ValidEnv(w.envs[j])
      requires settings.loyaltyPoints.pointsToCurrencyRatio != 0.0
      requires t.amount == Total(cart.items)
      modifies repo, cart
      ensures repo.Valid() && repo.carts == old(repo.carts)
      ensures cart.id == old(cart.id) && cart.customerId == old(cart.customerId)
      ensures cart.createdAt == old(cart.createdAt) && cart.updatedAt == old(cart.updatedAt)
      ensures ReservedAndSettled(settings, old(repo.products), old(repo.customers), old(repo.transactions),
                                 old(cart.items), customer, options, w, t, built, h, after, paid, message, repo.products,
                                 repo.customers, repo.transactions, cart.items, receipt, err, last)
    {
      built, h, after, paid, message := Err(Plain("")), map[], map[], Err(Plain("")), "";
      var e := ReserveInventory(cart.items);
      if e.Some? {
        return None, Some(Reported(e.value, ReservationFailedMessage)), FailedEvent(t, e.value, w.stamp),
          built, h, after, paid, message;
      }
      receipt, err, last, built, h, after, paid, message := Settle(cart, customer, options, w, t);
    }

    /** `validateInventory`, then the reservation and the payment stages when every line is in stock. */
    method ValidateAndSettle(cart: Cart, customer: Customer, options: CheckoutOptions, w: World, t: Transaction)
      returns (receipt: Option<Receipt>, err: Option<Error>, last: Observers.Event,
               ghost built: Result<Decorators.Payment>, ghost h: Decorators.Histories,
               ghost after: Decorators.Histories, ghost paid: Result<Payments.ResultView>, ghost message: string)
      requires Wired() && repo.Valid()
      requires retryAttempts >= 0 && |w.envs| == retryAttempts + 1
      requires forall j :: 0 <= j < |w.envs| ==> Payments.ValidEnv(w.envs[j])
      requires settings.loyaltyPoints.pointsToCurrencyRatio != 0.0
      requires t.amount == Total(cart.items)
      modifies repo, cart
      ensures repo.Valid() && repo.carts == old(repo.carts)
      ensures cart.id == old(cart.id) && cart.customerId == old(cart.customerId)
      ensures cart.createdAt == old(cart.createdAt) && cart.updatedAt == old(cart.updatedAt)
      ensures CheckedOut(settings, old(repo.products), old(repo.customers), old(repo.transactions), old(cart.items),
                         customer, options, w, t, built, h, after, paid, message, repo.products, repo.customers,
                         repo.transactions, cart.items, receipt, err, last)
    {
      built, h, after, paid, message := Err(Plain("")), map[], map[], Err(Plain("")), "";
      var e := ValidateInventory(cart.items);
      if e.Some? {
        return None, Some(Reported(e.value, ValidationFailedMessage)), FailedEvent(t, e.value, w.stamp),
          built, h, after, paid, message;
      }
      receipt, err, last, built, h, after, paid, message := ReserveAndSettle(cart, customer, options, w, t);
    }

    /**
     * `ProcessOrder`: the order's transaction starts pending for the cart's
     * total and a started event is emitted; then the stages run in order,
     * and the first to fail is reported as `PAYMENT_FAILED` under its
     * message with a failed event. Only the payment stages roll the
     * reservation back.
     */
    method ProcessOrder(cart: Cart, customer: Customer, options: CheckoutOptions, w: World)
      returns (receipt: Option<Receipt>, err: Option<Error>, events: seq<Observers.Event>,
               ghost built: Result<Decorators.Payment>, ghost h: Decorators.Histories,
               ghost after: Decorators.Histories, ghost paid: Result<Payments.ResultView>, ghost message: string)
      requires Wired() && repo.Valid()
      requires retryAttempts >= 0 && |w.envs| == retryAttempts + 1
      requires forall j :: 0 <= j < |w.envs| ==> Payments.ValidEnv(w.envs[j])
      requires settings.loyaltyPoints.pointsToCurrencyRatio != 0.0
      modifies repo, cart
      ensures repo.Valid() && repo.carts == old(repo.carts)
      ensures cart.id == old(cart.id) && cart.customerId == old(cart.customerId)
      ensures cart.createdAt == old(cart.createdAt) && cart.updatedAt == old(cart.updatedAt)
      ensures |events| == 2
      ensures var t := PendingTransaction(w.transactionId, customer, old(cart.items), options, w.now);
        events[0] == StartedEvent(t, w.stamp) &&
        CheckedOut(settings, old(repo.products), old(repo.customers), old(repo.transactions), old(cart.items),
                   customer, options, w, t, built, h, after, paid, message, repo.products, repo.customers,
                   repo.transactions, cart.items, receipt, err, events[1])
    {
      var t := PendingTransaction(w.transactionId, customer, cart.items, options, w.now);
      var started := StartedEvent(t, w.stamp);
      var last;
      receipt, err, last, built, h, after, paid, message := ValidateAndSettle(cart, customer, options, w, t);
      events := [started, last];
    }
  }
}
