/**
 * Payment decorators (internal/decorator): discount, tax, cashback, loyalty
 * points and fraud detection wrap a payment, adjust the amount they forward,
 * delegate, and then edit the result the wrapped payment returned.
 *
 * A payment is a value: a base instrument, or a layer around a payment. The
 * only state a decorator keeps between calls is the fraud detector's
 * transaction history, so the detector is a class and the fraud layer holds a
 * reference to one. `Process` is proved against `Expected`, which describes
 * the outcome of a chain in the state before the call, and against
 * `Recorded`, which describes how each detector's history changes.
 */
module Decorators {
  import opened AppErrors
  import opened Text
  import Domain
  import Payments

  // ---------------------------------------------------------------- configuration

  const PercentageType := "percentage"

  datatype DiscountConfig = DiscountConfig(
    discountType: string, discountValue: real, minAmount: real, maxDiscount: real,
    expiryDate: Option<int>,  // `None` is Go's zero time: the discount never expires
    discountCode: string)

  datatype TaxConfig = TaxConfig(region: string, taxRates: map<string, real>, defaultRate: real)

  datatype CashbackConfig = CashbackConfig(tier1Threshold: real, tier1Percentage: real, tier2Percentage: real)

  datatype LoyaltyPointsConfig = LoyaltyPointsConfig(
    availablePoints: int, pointsToRedeem: int, pointsToCurrencyRatio: real, maxRedemptionPercentage: real)

  /** `velocityCheckWindow` is a duration in nanoseconds; `customerId` is carried but never read. */
  datatype FraudDetectionConfig = FraudDetectionConfig(
    maxRiskScore: int, velocityCheckWindow: int, maxTransactionsPerWindow: int, customerId: string)

  /** The one history bucket the detector reads and writes, whatever the customer. */
  const DefaultBucket := "default"

  /** The fraud detector's state: its limits and the instants of the transactions it let through. */
  class FraudDetector {
    const maxRiskScore: int
    const velocityCheckWindow: int
    const maxTransactionsPerWindow: int
    var transactionHistory: map<string, seq<int>>

    constructor (config: FraudDetectionConfig)
      ensures maxRiskScore == config.maxRiskScore
      ensures velocityCheckWindow == config.velocityCheckWindow
      ensures maxTransactionsPerWindow == config.maxTransactionsPerWindow
      ensures transactionHistory == map[]
    {
      maxRiskScore := config.maxRiskScore;
      velocityCheckWindow := config.velocityCheckWindow;
      maxTransactionsPerWindow := config.maxTransactionsPerWindow;
      transactionHistory := map[];
    }

    /** `velocityCheck`: counts the recorded instants strictly after `now - window`. */
    method VelocityCheck(now: int) returns (o: Outcome)
      ensures o == VelocityOutcome(transactionHistory, velocityCheckWindow, maxTransactionsPerWindow, now)
    {
      if DefaultBucket !in transactionHistory {
        return Pass;
      }
      var transactions := transactionHistory[DefaultBucket];
      var recent := RecentAfter(transactions, now - velocityCheckWindow);
      if |recent| >= maxTransactionsPerWindow {
        return Fail(VelocityError(|recent|, velocityCheckWindow));
      }
      return Pass;
    }

    /** `recordTransaction`: appends `now` to the default bucket, creating it when absent. */
    method RecordTransaction(now: int)
      modifies this
      ensures transactionHistory == Recorded(old(transactionHistory), now)
    {
      var transactions := if DefaultBucket in transactionHistory then transactionHistory[DefaultBucket] else [];
      transactions := transactions + [now];
      transactionHistory := transactionHistory[DefaultBucket := transactions];
    }
  }

  // ---------------------------------------------------------------- chains

  datatype Layer =
    | PassThrough                                   // a bare `BaseDecorator`
    | DiscountLayer(discount: DiscountConfig)
    | TaxLayer(region: string, taxRate: real, taxRates: map<string, real>, defaultRate: real)
    | CashbackLayer(cashback: CashbackConfig)
    | LoyaltyLayer(loyalty: LoyaltyPointsConfig)
    | FraudLayer(detector: FraudDetector)

  /** A base instrument, or a decorator around the payment it wraps. */
  datatype Payment = Base(instrument: Payments.Instrument) | Decorated(layer: Layer, wrapped: Payment)

  /** The detectors a chain holds. */
  function Detectors(p: Payment): set<FraudDetector>
  {
    match p
    case Base(_) => {}
    case Decorated(l, w) => (if l.FraudLayer? then {l.detector} else {}) + Detectors(w)
  }

  /**
   * What `Process` needs of a chain: no detector occurs twice (each fraud
   * layer the factory builds allocates its own), and no loyalty layer
   * divides by a zero points-to-currency ratio.
   */
  predicate WellFormed(p: Payment)
  {
    match p
    case Base(_) => true
    case Decorated(l, w) =>
      WellFormed(w) && (l.LoyaltyLayer? ==> l.loyalty.pointsToCurrencyRatio != 0.0) &&
      (l.FraudLayer? ==> l.detector !in Detectors(w))
  }

  /** The instrument at the bottom of a chain. */
  function Innermost(p: Payment): Payments.Instrument
  {
    match p
    case Base(i) => i
    case Decorated(_, w) => Innermost(w)
  }

  function LayerName(l: Layer): seq<string>
  {
    match l
    case PassThrough => []
    case DiscountLayer(_) => ["discount"]
    case TaxLayer(_, _, _, _) => ["tax"]
    case CashbackLayer(_) => ["cashback"]
    case LoyaltyLayer(_) => ["loyalty_points"]
    case FraudLayer(_) => ["fraud_detection"]
  }

  /** The decorator names a chain appends, innermost first. */
  function Names(p: Payment): seq<string>
  {
    match p
    case Base(_) => []
    case Decorated(l, w) => Names(w) + LayerName(l)
  }

  // ---------------------------------------------------------------- constructors

  function NewBaseDecorator(wrapped: Payment): (p: Payment)
    ensures p.Decorated? && GetWrapped(p) == wrapped && Names(p) == Names(wrapped)
  {
    Decorated(PassThrough, wrapped)
  }

  /** `NewDiscountDecorator`: a positive value, and at most 100 for a percentage. */
  function NewDiscountDecorator(wrapped: Payment, config: DiscountConfig): (r: Result<Payment>)
    ensures r.Ok? <==> config.discountValue > 0.0 &&
                       !(config.discountType == PercentageType && config.discountValue > 100.0)
    ensures r.Ok? ==> r.value == Decorated(DiscountLayer(config), wrapped)
    ensures r.Err? ==> IsErrorCode(r.error, Validation)
  {
    match DiscountConfigError(config)
    case Some(e) => Err(e)
    case None => Ok(Decorated(DiscountLayer(config), wrapped))
  }

  /** The checks `NewDiscountDecorator` makes of its configuration, in order. */
  function DiscountConfigError(config: DiscountConfig): Option<Error>
  {
    if config.discountValue <= 0.0 then Some(NewValidationError("discount value must be positive"))
    else if config.discountType == PercentageType && config.discountValue > 100.0 then
      Some(NewValidationError("percentage discount cannot exceed 100%"))
    else None
  }

  /** `NewTaxDecorator`: the region's rate when the table has one, otherwise the default rate. */
  function NewTaxDecorator(wrapped: Payment, config: TaxConfig): (p: Payment)
    ensures p.Decorated? && p.wrapped == wrapped && p.layer.TaxLayer? && p.layer.region == config.region
    ensures config.region in config.taxRates ==> p.layer.taxRate == config.taxRates[config.region]
    ensures config.region !in config.taxRates ==> p.layer.taxRate == config.defaultRate
  {
    Decorated(TaxLayer(config.region, TaxRateFor(config), config.taxRates, config.defaultRate), wrapped)
  }

  /** The rate a tax decorator fixes at construction. */
  function TaxRateFor(config: TaxConfig): real
  {
    if config.region in config.taxRates then config.taxRates[config.region] else config.defaultRate
  }

  function NewCashbackDecorator(wrapped: Payment, config: CashbackConfig): (p: Payment)
    ensures p.Decorated? && GetWrapped(p) == wrapped && Names(p) == Names(wrapped) + ["cashback"]
  {
    Decorated(CashbackLayer(config), wrapped)
  }

  /** `NewLoyaltyPointsDecorator`: an overdraw is reported before a negative redemption. */
  function NewLoyaltyPointsDecorator(wrapped: Payment, config: LoyaltyPointsConfig): (r: Result<Payment>)
    ensures r.Ok? <==> 0 <= config.pointsToRedeem <= config.availablePoints
    ensures r.Ok? ==> r.value == Decorated(LoyaltyLayer(config), wrapped)
    ensures config.pointsToRedeem > config.availablePoints ==>
      r == Err(NewValidationError("insufficient loyalty points"))
    ensures r.Err? ==> IsErrorCode(r.error, Validation)
  {
    match LoyaltyConfigError(config)
    case Some(e) => Err(e)
    case None => Ok(Decorated(LoyaltyLayer(config), wrapped))
  }

  /** The checks `NewLoyaltyPointsDecorator` makes of its configuration, in order. */
  function LoyaltyConfigError(config: LoyaltyPointsConfig): Option<Error>
  {
    if config.pointsToRedeem > config.availablePoints then Some(NewValidationError("insufficient loyalty points"))
    else if config.pointsToRedeem < 0 then Some(NewValidationError("points to redeem cannot be negative"))
    else None
  }

  /** `NewFraudDetectionDecorator`: a fresh detector with an empty history. */
  method NewFraudDetectionDecorator(wrapped: Payment, config: FraudDetectionConfig) returns (p: Payment)
    ensures p.Decorated? && p.wrapped == wrapped && p.layer.FraudLayer?
    ensures fresh(p.layer.detector) && p.layer.detector.transactionHistory == map[]
    ensures p.layer.detector.maxRiskScore == config.maxRiskScore
    ensures p.layer.detector.velocityCheckWindow == config.velocityCheckWindow
    ensures p.layer.detector.maxTransactionsPerWindow == config.maxTransactionsPerWindow
  {
    var detector := new FraudDetector(config);
    p := Decorated(FraudLayer(detector), wrapped);
  }

  // ---------------------------------------------------------------- delegation

  /** `GetWrapped`: exactly the payment the decorator was built around. */
  function GetWrapped(p: Payment): (w: Payment)
    requires p.Decorated?
    ensures w < p && Innermost(w) == Innermost(p)
  {
    p.wrapped
  }

  /** `GetType` of a chain: the base instrument's type, whatever wraps it. */
  function GetType(p: Payment): (t: string)
    ensures t == Payments.GetType(Innermost(p))
  {
    match p
    case Base(i) => Payments.GetType(i)
    case Decorated(_, w) => GetType(w)
  }

  /** `GetDetails` of a chain: the base instrument's details, unchanged by any layer. */
  function GetDetails(p: Payment): (d: Domain.Metadata)
    ensures d == Payments.GetDetails(Innermost(p))
  {
    match p
    case Base(i) => Payments.GetDetails(i)
    case Decorated(_, w) => GetDetails(w)
  }

  // ---------------------------------------------------------------- per-layer arithmetic

  /** `calculateDiscount`: the raw discount, capped by `maxDiscount` when positive, then by the amount. */
  function DiscountAmount(c: DiscountConfig, amount: real): (d: real)
    ensures d <= amount
    ensures c.maxDiscount > 0.0 ==> d <= c.maxDiscount
    ensures amount >= 0.0 && c.discountValue >= 0.0 ==> d >= 0.0
    ensures (c.discountType == PercentageType && c.maxDiscount <= 0.0 && 0.0 <= c.discountValue <= 100.0 &&
             amount >= 0.0) ==> d == amount * (c.discountValue / 100.0)
  {
    var v := c.discountValue;
    var raw := if c.discountType == PercentageType then amount * (v / 100.0) else v;
    assert c.discountType == PercentageType && 0.0 <= v <= 100.0 && amount >= 0.0 ==> raw <= amount;
    var capped := if c.maxDiscount > 0.0 && raw > c.maxDiscount then c.maxDiscount else raw;
    if capped > amount then amount else capped
  }

  function CashbackPercentage(c: CashbackConfig, amount: real): (pct: real)
    ensures amount >= c.tier1Threshold ==> pct == c.tier2Percentage
    ensures amount < c.tier1Threshold ==> pct == c.tier1Percentage
  {
    if amount >= c.tier1Threshold then c.tier2Percentage else c.tier1Percentage
  }

  function LoyaltyDiscount(c: LoyaltyPointsConfig): real
    requires c.pointsToCurrencyRatio != 0.0
  {
    c.pointsToRedeem as real / c.pointsToCurrencyRatio
  }

  /** `calculateRiskScore`: +20 above 1000, +30 more above 5000, plus the random draw. */
  function RiskScore(amount: real, draw: int): (score: int)
    ensures draw <= score <= draw + 50
    ensures score == draw <==> amount <= 1000.0
    ensures score == draw + 50 <==> amount > 5000.0
  {
    (if amount > 1000.0 then 20 else 0) + (if amount > 5000.0 then 30 else 0) + draw
  }

  /** The instants of `s` strictly after `cutoff`, in order. */
  function After(s: seq<int>, cutoff: int): (r: seq<int>)
    ensures |r| <= |s|
    ensures forall k :: 0 <= k < |r| ==> r[k] > cutoff
  {
    if s == [] then []
    else After(s[..|s| - 1], cutoff) + (if s[|s| - 1] > cutoff then [s[|s| - 1]] else [])
  }

  /** The filter keeps every occurrence of a later value and drops every other one. */
  lemma {:induction false} AfterCounts(s: seq<int>, cutoff: int)
    ensures forall x :: multiset(After(s, cutoff))[x] == if x > cutoff then multiset(s)[x] else 0
    decreases |s|
  {
    if s != [] {
      AfterCounts(s[..|s| - 1], cutoff);
      assert s == s[..|s| - 1] + [s[|s| - 1]];
    }
  }

  /** The filter keeps the order of what stays: it works piece by piece. */
  lemma {:induction false} AfterAppend(a: seq<int>, b: seq<int>, cutoff: int)
    ensures After(a + b, cutoff) == After(a, cutoff) + After(b, cutoff)
    decreases |b|
  {
    if b == [] {
      assert a + b == a;
    } else {
      var b' := b[..|b| - 1];
      assert (a + b)[..|a + b| - 1] == a + b' && (a + b)[|a + b| - 1] == b[|b| - 1];
      AfterAppend(a, b', cutoff);
    }
  }

  /** The loop of `velocityCheck` that keeps the instants strictly after the cutoff. */
  method RecentAfter(transactions: seq<int>, cutoff: int) returns (recent: seq<int>)
    ensures recent == After(transactions, cutoff)
  {
    recent := [];
    var i := 0;
    while i < |transactions|
      invariant 0 <= i <= |transactions|
      invariant recent == After(transactions[..i], cutoff)
    {
      assert transactions[..i + 1][..i] == transactions[..i];
      if transactions[i] > cutoff {
        recent := recent + [transactions[i]];
      }
      i := i + 1;
    }
    assert transactions[..i] == transactions;
  }

  function VelocityError(count: nat, window: int): Error
  {
    NewFraudDetectedError("transaction velocity exceeded: " + NatToString(count) + " transactions in " +
                          DurationText(window))
  }

  /** What `velocityCheck` decides about a history at instant `now`. */
  function VelocityOutcome(h: map<string, seq<int>>, window: int, maxCount: int, now: int): (o: Outcome)
    ensures DefaultBucket !in h ==> o == Pass
    ensures DefaultBucket in h ==> (o.Fail? <==> |After(h[DefaultBucket], now - window)| >= maxCount)
    ensures o.Fail? ==> IsErrorCode(o.error, FraudDetected)
  {
    if DefaultBucket !in h then Pass
    else
      var recent := After(h[DefaultBucket], now - window);
      if |recent| >= maxCount then Fail(VelocityError(|recent|, window)) else Pass
  }

  /** `geolocationCheck`: one draw in five hundredths fails. */
  function GeolocationOutcome(draw: int): (o: Outcome)
    ensures o.Pass? <==> draw >= 5
    ensures o.Fail? ==> o == Fail(NewFraudDetectedError("geolocation validation failed"))
  {
    if draw < 5 then Fail(NewFraudDetectedError("geolocation validation failed")) else Pass
  }

  /** `recordTransaction` on a history. */
  function Recorded(h: map<string, seq<int>>, now: int): map<string, seq<int>>
  {
    h[DefaultBucket := (if DefaultBucket in h then h[DefaultBucket] else []) + [now]]
  }

  /** The histories of some detectors, taken as one value. */
  type Histories = map<FraudDetector, map<string, seq<int>>>

  /** What the detectors in `ds` hold now. */
  function HistoriesOf(ds: set<FraudDetector>): (h: Histories)
    reads ds
    ensures h.Keys == ds
    ensures forall d :: d in ds ==> h[d] == d.transactionHistory
  {
    map d | d in ds :: d.transactionHistory
  }

  /** No detector in `ds` has recorded a transaction yet. */
  predicate Pristine(ds: set<FraudDetector>)
    reads ds
  {
    forall d :: d in ds ==> d.transactionHistory == map[]
  }

  // ---------------------------------------------------------------- one layer's step

  /** What a layer reads of the heap while it screens a call. */
  function LayerReads(l: Layer): set<FraudDetector>
  {
    if l.FraudLayer? then {l.detector} else {}
  }

  predicate LayerOk(l: Layer)
  {
    l.LoyaltyLayer? ==> l.loyalty.pointsToCurrencyRatio != 0.0
  }

  /**
   * The checks a layer makes before delegating, when its detector holds the
   * history `h` gives it; a failure means the wrapped payment is never called.
   */
  function AdmitIn(l: Layer, amount: real, env: Payments.Env, h: Histories): (o: Outcome)
    requires LayerOk(l) && LayerReads(l) <= h.Keys
  {
    match l
    case DiscountLayer(c) =>
      if c.expiryDate.Some? && env.now > c.expiryDate.value then Fail(NewValidationError("discount code has expired"))
      else if amount < c.minAmount then
        Fail(NewValidationError("minimum amount for discount is $" + Fixed2(c.minAmount)))
      else Pass
    case LoyaltyLayer(c) =>
      if LoyaltyDiscount(c) > amount * (c.maxRedemptionPercentage / 100.0) then
        Fail(NewValidationError("loyalty points redemption exceeds maximum (" +
                                Fixed2(c.maxRedemptionPercentage) + "% of purchase)"))
      else Pass
    case FraudLayer(d) =>
      var score := RiskScore(amount, env.riskDraw);
      if score > d.maxRiskScore then
        Fail(NewFraudDetectedError("transaction blocked: high fraud risk (score: " + IntToString(score) + ")"))
      else
        var velocity := VelocityOutcome(h[d], d.velocityCheckWindow, d.maxTransactionsPerWindow, env.now);
        if velocity.Fail? then velocity else GeolocationOutcome(env.geoDraw)
    case _ => Pass
  }

  /** The checks a layer makes before delegating, in the current state. */
  function Admit(l: Layer, amount: real, env: Payments.Env): (o: Outcome)
    requires LayerOk(l)
    reads LayerReads(l)
  {
    AdmitIn(l, amount, env, HistoriesOf(LayerReads(l)))
  }

  /** The amount a layer passes to the payment it wraps. */
  function Forwarded(l: Layer, amount: real): real
    requires LayerOk(l)
  {
    match l
    case DiscountLayer(c) =>
      var f := amount - DiscountAmount(c, amount);
      if f < 0.0 then 0.0 else f
    case TaxLayer(_, rate, _, _) => amount + amount * (rate / 100.0)
    case LoyaltyLayer(c) =>
      var f := amount - LoyaltyDiscount(c);
      if f < 0.0 then 0.0 else f
    case _ => amount
  }

  /** Whether a layer overwrites `Amount` and `ProcessedAmount` with what it forwarded. */
  predicate SetsAmount(l: Layer)
  {
    l.DiscountLayer? || l.TaxLayer? || l.LoyaltyLayer?
  }

  /** The metadata keys a layer writes. */
  function Keys(l: Layer): set<string>
  {
    match l
    case PassThrough => {}
    case DiscountLayer(_) => {"discount_type", "discount_value", "discount_amount", "discount_code"}
    case TaxLayer(_, _, _, _) => {"subtotal", "tax_amount", "tax_rate", "tax_region"}
    case CashbackLayer(_) => {"cashback_amount", "cashback_percentage"}
    case LoyaltyLayer(_) =>
      {"loyalty_points_redeemed", "loyalty_points_earned", "loyalty_discount", "loyalty_balance_after"}
    case FraudLayer(_) => {"fraud_risk_score", "fraud_checks_passed"}
  }

  /** The metadata entries a layer writes into a successful result. */
  function Annotations(l: Layer, amount: real, env: Payments.Env): (m: Domain.Metadata)
    requires LayerOk(l)
    ensures m.Keys == Keys(l)
  {
    match l
    case PassThrough => map[]
    case DiscountLayer(c) =>
      map["discount_type" := Domain.MStr(c.discountType), "discount_value" := Domain.MReal(c.discountValue),
          "discount_amount" := Domain.MReal(DiscountAmount(c, amount)),
          "discount_code" := Domain.MStr(c.discountCode)]
    case TaxLayer(region, rate, _, _) =>
      map["subtotal" := Domain.MReal(amount), "tax_amount" := Domain.MReal(amount * (rate / 100.0)),
          "tax_rate" := Domain.MReal(rate), "tax_region" := Domain.MStr(region)]
    case CashbackLayer(c) =>
      map["cashback_amount" := Domain.MReal(amount * (CashbackPercentage(c, amount) / 100.0)),
          "cashback_percentage" := Domain.MReal(CashbackPercentage(c, amount))]
    case LoyaltyLayer(c) =>
      map["loyalty_points_redeemed" := Domain.MInt(c.pointsToRedeem),
          "loyalty_points_earned" := Domain.MInt(Trunc(amount)),
          "loyalty_discount" := Domain.MReal(LoyaltyDiscount(c)),
          "loyalty_balance_after" := Domain.MInt(c.availablePoints - c.pointsToRedeem + Trunc(amount))]
    case FraudLayer(_) =>
      map["fraud_risk_score" := Domain.MInt(RiskScore(amount, env.riskDraw)),
          "fraud_checks_passed" := Domain.MStrList(["risk_score", "velocity_check", "geolocation_check"])]
  }

  /**
   * How a layer edits the wrapped payment's successful result: the amounts
   * (discount always records its input as the original amount; tax and
   * loyalty only when it is still 0), its name at the end of the list, and
   * its metadata entries over the others.
   */
  function Finish(l: Layer, amount: real, env: Payments.Env, v: Payments.ResultView): (u: Payments.ResultView)
    requires LayerOk(l)
    ensures u.appliedDecorators == v.appliedDecorators + LayerName(l)
    ensures u.success == v.success && u.transactionId == v.transactionId && u.currency == v.currency
    ensures u.paymentMethod == v.paymentMethod && u.message == v.message
    ensures u.metadata.Keys == v.metadata.Keys + Keys(l)
    ensures forall k :: k in v.metadata && k !in Keys(l) ==> u.metadata[k] == v.metadata[k]
    ensures SetsAmount(l) ==> u.amount == u.processedAmount == Forwarded(l, amount)
    ensures !SetsAmount(l) ==>
      u.amount == v.amount && u.processedAmount == v.processedAmount && u.originalAmount == v.originalAmount
    ensures l.DiscountLayer? ==> u.originalAmount == amount
    ensures l.TaxLayer? || l.LoyaltyLayer? ==>
      u.originalAmount == if v.originalAmount == 0.0 then amount else v.originalAmount
  {
    var names := v.appliedDecorators + LayerName(l);
    var meta := v.metadata + Annotations(l, amount, env);
    if l.DiscountLayer? then
      v.(originalAmount := amount, processedAmount := Forwarded(l, amount), amount := Forwarded(l, amount),
         appliedDecorators := names, metadata := meta)
    else if l.TaxLayer? || l.LoyaltyLayer? then
      v.(originalAmount := if v.originalAmount == 0.0 then amount else v.originalAmount,
         processedAmount := Forwarded(l, amount), amount := Forwarded(l, amount),
         appliedDecorators := names, metadata := meta)
    else v.(appliedDecorators := names, metadata := meta)
  }

  /**
   * The outcome of `Process` on a chain whose detectors hold the histories
   * `h` gives them: the first layer whose checks fail, else the base
   * instrument's error, else the base result with every layer's edits
   * applied from the inside out.
   */
  function ExpectedIn(p: Payment, amount: real, env: Payments.Env, h: Histories): Result<Payments.ResultView>
    requires Payments.ValidEnv(env) && WellFormed(p) && Detectors(p) <= h.Keys
  {
    match p
    case Base(i) => Payments.ProcessOutcome(i, amount, env)
    case Decorated(l, w) =>
      var admitted := AdmitIn(l, amount, env, h);
      if admitted.Fail? then Err(admitted.error)
      else
        match ExpectedIn(w, Forwarded(l, amount), env, h)
        case Err(e) => Err(e)
        case Ok(v) => Ok(Finish(l, amount, env, v))
  }

  /** The outcome of `Process` on a chain, in the state before the call. */
  function Expected(p: Payment, amount: real, env: Payments.Env): Result<Payments.ResultView>
    requires Payments.ValidEnv(env) && WellFormed(p)
    reads Detectors(p)
  {
    ExpectedIn(p, amount, env, HistoriesOf(Detectors(p)))
  }

  /** Only the histories of the chain's own detectors matter. */
  lemma {:induction false} ExpectedInFrame(p: Payment, amount: real, env: Payments.Env, h: Histories, k: Histories)
    requires Payments.ValidEnv(env) && WellFormed(p) && Detectors(p) <= h.Keys && Detectors(p) <= k.Keys
    requires forall d :: d in Detectors(p) ==> h[d] == k[d]
    ensures ExpectedIn(p, amount, env, h) == ExpectedIn(p, amount, env, k)
    decreases p
  {
    match p
    case Base(_) =>
    case Decorated(l, w) =>
      assert AdmitIn(l, amount, env, h) == AdmitIn(l, amount, env, k);
      ExpectedInFrame(w, Forwarded(l, amount), env, h, k);
  }

  // ---------------------------------------------------------------- processing

  /** A layer's screening, as the decorator runs it (the velocity check is a loop). */
  method Screen(l: Layer, amount: real, env: Payments.Env) returns (o: Outcome)
    requires LayerOk(l)
    ensures o == Admit(l, amount, env)
  {
    match l
    case FraudLayer(d) =>
      var score := RiskScore(amount, env.riskDraw);
      if score > d.maxRiskScore {
        return Fail(NewFraudDetectedError("transaction blocked: high fraud risk (score: " + IntToString(score) + ")"));
      }
      o := d.VelocityCheck(env.now);
      if o.Pass? {
        o := GeolocationOutcome(env.geoDraw);
      }
    case _ =>
      o := Admit(l, amount, env);
  }

  /** A layer's edits of the result object the wrapped payment returned, made in place. */
  method Annotate(l: Layer, amount: real, env: Payments.Env, r: Payments.PaymentResult)
    requires LayerOk(l)
    modifies r
    ensures r.View() == Finish(l, amount, env, old(r.View()))
  {
    if l.DiscountLayer? {
      r.originalAmount := amount;
    } else if (l.TaxLayer? || l.LoyaltyLayer?) && r.originalAmount == 0.0 {
      r.originalAmount := amount;
    }
    if SetsAmount(l) {
      r.processedAmount := Forwarded(l, amount);
      r.amount := Forwarded(l, amount);
    }
    r.appliedDecorators := r.appliedDecorators + LayerName(l);
    r.metadata := r.metadata + Annotations(l, amount, env);
  }

  /**
   * `Process` of a chain. Every detector of the chain records the call's
   * instant when the whole chain succeeds and is left untouched otherwise.
   */
  method Process(p: Payment, amount: real, env: Payments.Env, ghost h: Histories)
    returns (r: Payments.PaymentResult?, err: Option<Error>)
    requires Payments.ValidEnv(env) && WellFormed(p) && Detectors(p) <= h.Keys
    requires forall d :: d in Detectors(p) ==> d.transactionHistory == h[d]
    modifies Detectors(p)
    ensures Payments.Delivers(r, err, ExpectedIn(p, amount, env, h))
    ensures r != null ==> fresh(r)
    ensures forall d :: d in Detectors(p) ==>
      d.transactionHistory == if r != null then Recorded(h[d], env.now) else h[d]
    decreases p
  {
    match p
    case Base(i) =>
      r, err := Payments.Process(i, amount, env);
    case Decorated(l, w) =>
      assert Detectors(p) == LayerReads(l) + Detectors(w);
      var admitted := Screen(l, amount, env);
      assert admitted == AdmitIn(l, amount, env, h);
      if admitted.Fail? {
        return null, Some(admitted.error);
      }
      r, err := Process(w, Forwarded(l, amount), env, h);
      if r == null {
        return;
      }
      Conclude(l, amount, env, r);
  }

  /** What a layer does once the wrapped payment succeeded: a fraud layer records the call, then the result is annotated. */
  method Conclude(l: Layer, amount: real, env: Payments.Env, r: Payments.PaymentResult)
    requires LayerOk(l)
    modifies r, LayerReads(l)
    ensures r.View() == Finish(l, amount, env, old(r.View()))
    ensures forall d :: d in LayerReads(l) ==> d.transactionHistory == Recorded(old(d.transactionHistory), env.now)
  {
    if l.FraudLayer? {
      l.detector.RecordTransaction(env.now);
    }
    Annotate(l, amount, env, r);
  }


  lemma {:induction false} DetectorsAllocated(p: Payment)
    ensures forall d :: d in Detectors(p) ==> allocated(d)
  {
    match p
    case Base(_) =>
    case Decorated(_, w) =>
      DetectorsAllocated(w);
  }

  // ---------------------------------------------------------------- properties of chains

  /** The amount that reaches the base instrument. */
  function Charged(p: Payment, amount: real): real
    requires WellFormed(p)
  {
    match p
    case Base(_) => amount
    case Decorated(l, w) => Charged(w, Forwarded(l, amount))
  }

  /** What the outermost layer that sets `Amount` forwarded, or the charge when no layer sets it. */
  function Reported(p: Payment, amount: real): real
    requires WellFormed(p)
  {
    match p
    case Base(_) => amount
    case Decorated(l, w) => if SetsAmount(l) then Forwarded(l, amount) else Reported(w, Forwarded(l, amount))
  }

  predicate HasDiscount(p: Payment)
  {
    match p
    case Base(_) => false
    case Decorated(l, w) => l.DiscountLayer? || HasDiscount(w)
  }

  /**
   * A successful chain reports the decorator names innermost first, so in
   * the order they were wrapped; it keeps the base instrument's identity and
   * method; and the base instrument accepted the amount that reached it.
   */
  lemma {:induction false} SuccessfulChain(p: Payment, amount: real, env: Payments.Env, h: Histories)
    requires Payments.ValidEnv(env) && WellFormed(p) && Detectors(p) <= h.Keys
    ensures ExpectedIn(p, amount, env, h).Ok? ==>
      var v := ExpectedIn(p, amount, env, h).value;
      v.appliedDecorators == Names(p) && v.success && v.transactionId == env.txId &&
      v.paymentMethod == GetType(p) &&
      Payments.MinAmount(Innermost(p)) <= Charged(p, amount) <= Payments.MaxAmount(Innermost(p))
    decreases p
  {
    match p
    case Base(_) =>
    case Decorated(l, w) =>
      SuccessfulChain(w, Forwarded(l, amount), env, h);
  }

  /** The final `Amount` and `ProcessedAmount` are what the outermost amount-setting layer forwarded. */
  lemma {:induction false} AmountIsOutermostForward(p: Payment, amount: real, env: Payments.Env, h: Histories)
    requires Payments.ValidEnv(env) && WellFormed(p) && Detectors(p) <= h.Keys
    ensures ExpectedIn(p, amount, env, h).Ok? ==>
      ExpectedIn(p, amount, env, h).value.amount == Reported(p, amount) &&
      ExpectedIn(p, amount, env, h).value.processedAmount == Reported(p, amount)
    decreases p
  {
    match p
    case Base(_) =>
    case Decorated(l, w) =>
      AmountIsOutermostForward(w, Forwarded(l, amount), env, h);
  }

  /**
   * Without a discount layer the original amount is what the base
   * instrument charged: the base result never carries 0 there, so tax and
   * loyalty never record their own input.
   */
  lemma {:induction false} OriginalAmountWithoutDiscount(p: Payment, amount: real, env: Payments.Env, h: Histories)
    requires Payments.ValidEnv(env) && WellFormed(p) && Detectors(p) <= h.Keys && !HasDiscount(p)
    ensures ExpectedIn(p, amount, env, h).Ok? ==>
      ExpectedIn(p, amount, env, h).value.originalAmount == Charged(p, amount) >= 1.0
    decreases p
  {
    match p
    case Base(i) =>
    case Decorated(l, w) =>
      OriginalAmountWithoutDiscount(w, Forwarded(l, amount), env, h);
  }

  /** A layer's screening never depends on anything the wrapped payment holds. */
  lemma {:induction false} FailedScreenStopsChain(l: Layer, w: Payment, amount: real, env: Payments.Env, h: Histories)
    requires Payments.ValidEnv(env) && WellFormed(Decorated(l, w)) && Detectors(Decorated(l, w)) <= h.Keys
    requires AdmitIn(l, amount, env, h).Fail?
    ensures ExpectedIn(Decorated(l, w), amount, env, h) == Err(AdmitIn(l, amount, env, h).error)
  {
  }

  /** The discount forwards between 0 and its input, and a fixed discount never makes it negative. */
  lemma DiscountForwardBounds(c: DiscountConfig, amount: real)
    requires amount >= 0.0 && c.discountValue >= 0.0
    ensures 0.0 <= Forwarded(DiscountLayer(c), amount) <= amount
    ensures Forwarded(DiscountLayer(c), amount) == amount - DiscountAmount(c, amount)
  {
  }

  /** The risk score never falls as the amount grows. */
  lemma RiskScoreMonotone(a: real, b: real, draw: int)
    requires a <= b
    ensures RiskScore(a, draw) <= RiskScore(b, draw)
  {
  }

  /** A history entry stays: recording only appends, and only to the default bucket. */
  lemma RecordedGrows(h: map<string, seq<int>>, now: int)
    ensures DefaultBucket in Recorded(h, now)
    ensures DefaultBucket in h ==> Recorded(h, now)[DefaultBucket] == h[DefaultBucket] + [now]
    ensures forall k :: k in h && k != DefaultBucket ==> k in Recorded(h, now) && Recorded(h, now)[k] == h[k]
    ensures Recorded(h, now).Keys == h.Keys + {DefaultBucket}
  {
  }

  /** A history whose instants are all at or before the cutoff never trips the velocity check, given a positive limit. */
  lemma {:induction false} OldHistoryPasses(h: map<string, seq<int>>, window: int, maxCount: int, now: int)
    requires maxCount > 0
    requires DefaultBucket in h ==> forall k :: 0 <= k < |h[DefaultBucket]| ==> h[DefaultBucket][k] <= now - window
    ensures VelocityOutcome(h, window, maxCount, now) == Pass
  {
    if DefaultBucket in h {
      AfterNone(h[DefaultBucket], now - window);
    }
  }

  lemma {:induction false} AfterNone(s: seq<int>, cutoff: int)
    requires forall k :: 0 <= k < |s| ==> s[k] <= cutoff
    ensures After(s, cutoff) == []
    decreases |s|
  {
    if s != [] {
      AfterNone(s[..|s| - 1], cutoff);
    }
  }

  /**
   * A discount of 10% wrapped around a 10% tax reports 90 paid on an
   * order of 100 while the card is charged 99: the discount overwrites the
   * amount the tax layer set with the amount it forwarded.
   */
  lemma DiscountOverTaxReportsLessThanCharged(env: Payments.Env)
    requires Payments.ValidEnv(env) && env.ctxErr.None?
    ensures
      var card := Payments.CreditCard("4532015112830366", "John Doe", "12/25", "123");
      var tax := TaxLayer("CA", 10.0, map[], 0.0);
      var discount := DiscountLayer(DiscountConfig(PercentageType, 10.0, 0.0, 0.0, None, ""));
      var p := Decorated(discount, Decorated(tax, Base(card)));
      Expected(p, 100.0, env).Ok? && Expected(p, 100.0, env).value.amount == 90.0 && Charged(p, 100.0) == 99.0
  {
    var card := Payments.CreditCard("4532015112830366", "John Doe", "12/25", "123");
    var tax := TaxLayer("CA", 10.0, map[], 0.0);
    var discount := DiscountLayer(DiscountConfig(PercentageType, 10.0, 0.0, 0.0, None, ""));
    assert Forwarded(discount, 100.0) == 90.0;
    assert Forwarded(tax, 90.0) == 99.0;
    var p := Decorated(discount, Decorated(tax, Base(card)));
    var base := Payments.ProcessOutcome(card, 99.0, env);
    assert base.Ok?;
    var h: Histories := map[];
    assert HistoriesOf(Detectors(p)) == h;
    assert AdmitIn(tax, 90.0, env, h) == Pass;
    assert ExpectedIn(Decorated(tax, Base(card)), 90.0, env, h) == Ok(Finish(tax, 90.0, env, base.value));
    assert AdmitIn(discount, 100.0, env, h) == Pass;
    assert ExpectedIn(p, 100.0, env, h) == Ok(Finish(discount, 100.0, env, Finish(tax, 90.0, env, base.value)));
  }

  // ---------------------------------------------------------------- rendering

  /** `time.Duration.String` for a duration in nanoseconds. */
  function DurationText(d: int): string
  {
    var u: nat := if d < 0 then -d else d;
    var body :=
      if u == 0 then "0s"
      else if u < 1000 then NatToString(u) + "ns"
      else if u < 1000000 then NatToString(u / 1000) + Fraction(u % 1000, 3) + "µs"
      else if u < 1000000000 then NatToString(u / 1000000) + Fraction(u % 1000000, 6) + "ms"
      else
        var secs := u / 1000000000;
        (if secs >= 3600 then NatToString(secs / 3600) + "h" else "") +
        (if secs >= 60 then NatToString(secs / 60 % 60) + "m" else "") +
        NatToString(secs % 60) + Fraction(u % 1000000000, 9) + "s";
    if d < 0 then "-" + body else body
  }

  /** The last `width` decimal digits of `v`, zero-padded. */
  function Padded(v: nat, width: nat): string
  {
    if width == 0 then "" else Padded(v / 10, width - 1) + [DigitChar(v % 10)]
  }

  function TrimZeros(s: string): string
  {
    if s != [] && s[|s| - 1] == '0' then TrimZeros(s[..|s| - 1]) else s
  }

  /** A fractional part of `prec` digits, without trailing zeros, or nothing when it is zero. */
  function Fraction(v: nat, prec: nat): string
  {
    if v == 0 then "" else "." + TrimZeros(Padded(v, prec))
  }
}
