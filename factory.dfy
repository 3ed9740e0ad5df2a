/**
 * The three factories of the checkout: the payment factory (a payment name
 * and a bag of fields to an instrument), the decorator factory (a list of
 * feature names folded over a payment, innermost first) and the strategy
 * factory (a strategy name and loosely typed parameters to a strategy).
 */
module Factories {
  import opened AppErrors
  import opened Text
  import Domain
  import Payments
  import Decorators
  import Strategies

  // ---------------------------------------------------------------- payment factory

  /** The fields a payment may be created from; each instrument reads its own. */
  datatype PaymentConfig = PaymentConfig(
    cardNumber: string, cardHolder: string, expiryDate: string, cvv: string,
    payPalEmail: string, payPalPassword: string,
    walletAddress: string, cryptoType: string)

  predicate IsSupportedPayment(paymentType: string)
  {
    paymentType in {Payments.CreditCardType, Payments.PayPalType, Payments.CryptoType}
  }

  /** The supported payment types are exactly the names the instruments report. */
  lemma SupportedPaymentsAreInstrumentTypes(paymentType: string)
    ensures IsSupportedPayment(paymentType) <==> exists i: Payments.Instrument :: Payments.GetType(i) == paymentType
  {
    if IsSupportedPayment(paymentType) {
      var i := if paymentType == Payments.CreditCardType then Payments.CreditCard("", "", "", "")
               else if paymentType == Payments.PayPalType then Payments.PayPal("", "")
               else Payments.Crypto("", "");
      assert Payments.GetType(i) == paymentType;
    }
  }

  /** The index of the first empty field, or the number of fields when none is empty. */
  function FirstMissing(fields: seq<(string, string)>): (k: nat)
    ensures k <= |fields|
    ensures forall j :: 0 <= j < k ==> fields[j].0 != ""
    ensures k < |fields| ==> fields[k].0 == ""
  {
    if fields == [] then 0 else if fields[0].0 == "" then 0 else 1 + FirstMissing(fields[1..])
  }

  /** The required fields of each payment type, each with the message its absence produces, in checking order. */
  function RequiredFields(paymentType: string, c: PaymentConfig): seq<(string, string)>
  {
    if paymentType == Payments.CreditCardType then
      [(c.cardNumber, "card number is required"), (c.cardHolder, "card holder is required"),
       (c.expiryDate, "expiry date is required"), (c.cvv, "CVV is required")]
    else if paymentType == Payments.PayPalType then
      [(c.payPalEmail, "PayPal email is required"), (c.payPalPassword, "PayPal password is required")]
    else
      [(c.walletAddress, "wallet address is required"), (c.cryptoType, "crypto type is required")]
  }

  /**
   * `CreatePayment`: an unsupported name is an invalid payment; a missing
   * field is a validation error naming the first one missing; otherwise the
   * instrument's own constructor decides.
   */
  function CreatePayment(paymentType: string, c: PaymentConfig): (r: Result<Payments.Instrument>)
    ensures !IsSupportedPayment(paymentType) ==>
      r == Err(NewInvalidPaymentError("unsupported payment type: " + paymentType))
    ensures IsSupportedPayment(paymentType) &&
            FirstMissing(RequiredFields(paymentType, c)) < |RequiredFields(paymentType, c)| ==>
      r == Err(NewValidationError(RequiredFields(paymentType, c)[FirstMissing(RequiredFields(paymentType, c))].1))
    ensures r.Ok? ==> IsSupportedPayment(paymentType) && Payments.GetType(r.value) == paymentType
    ensures r.Ok? ==> forall j :: 0 <= j < |RequiredFields(paymentType, c)| ==> RequiredFields(paymentType, c)[j].0 != ""
  {
    if !IsSupportedPayment(paymentType) then
      Err(NewInvalidPaymentError("unsupported payment type: " + paymentType))
    else
      var fields := RequiredFields(paymentType, c);
      var k := FirstMissing(fields);
      if k < |fields| then Err(NewValidationError(fields[k].1))
      else if paymentType == Payments.CreditCardType then
        Payments.NewCreditCardPayment(c.cardNumber, c.cardHolder, c.expiryDate, c.cvv)
      else if paymentType == Payments.PayPalType then
        Payments.NewPayPalPayment(c.payPalEmail, c.payPalPassword)
      else
        Payments.NewCryptoPayment(c.walletAddress, c.cryptoType)
  }

  /** Once every field is present, the factory hands the fields to the instrument's constructor unchanged. */
  lemma CreatePaymentDelegates(c: PaymentConfig)
    requires c.cardNumber != "" && c.cardHolder != "" && c.expiryDate != "" && c.cvv != ""
    requires c.payPalEmail != "" && c.payPalPassword != "" && c.walletAddress != "" && c.cryptoType != ""
    ensures CreatePayment(Payments.CreditCardType, c) ==
      Payments.NewCreditCardPayment(c.cardNumber, c.cardHolder, c.expiryDate, c.cvv)
    ensures CreatePayment(Payments.PayPalType, c) == Payments.NewPayPalPayment(c.payPalEmail, c.payPalPassword)
    ensures CreatePayment(Payments.CryptoType, c) == Payments.NewCryptoPayment(c.walletAddress, c.cryptoType)
  {
    assert FirstMissing(RequiredFields(Payments.CreditCardType, c)) == 4;
    assert FirstMissing(RequiredFields(Payments.PayPalType, c)) == 2;
    assert FirstMissing(RequiredFields(Payments.CryptoType, c)) == 2;
  }

  /** A credit card missing both its number and its holder is reported for the number. */
  lemma CardNumberCheckedFirst(c: PaymentConfig)
    requires c.cardNumber == ""
    ensures CreatePayment(Payments.CreditCardType, c) == Err(NewValidationError("card number is required"))
  {
  }

  // ---------------------------------------------------------------- decorator factory

  /** The decorator settings of the application configuration, one record per feature. */
  datatype DiscountSettings = DiscountSettings(enabled: bool, maxPercentage: real, maxFixedAmount: real)
  datatype CashbackSettings = CashbackSettings(
    enabled: bool, tier1Threshold: real, tier1Percentage: real, tier2Percentage: real)
  datatype FraudSettings = FraudSettings(
    enabled: bool, maxRiskScore: int, velocityCheckWindow: int, maxTransactionsPerWindow: int)
  datatype TaxSettings = TaxSettings(enabled: bool, defaultRate: real, rates: map<string, real>)
  datatype LoyaltySettings = LoyaltySettings(
    enabled: bool, pointsToCurrencyRatio: real, maxRedemptionPercentage: real)
  datatype DecoratorSettings = DecoratorSettings(
    discount: DiscountSettings, cashback: CashbackSettings, fraudDetection: FraudSettings,
    tax: TaxSettings, loyaltyPoints: LoyaltySettings)

  /** The features the factory knows. */
  datatype Feature = DiscountFeature | CashbackFeature | FraudFeature | TaxFeature | LoyaltyFeature

  function FeatureName(f: Feature): string
  {
    match f
    case DiscountFeature => "discount"
    case CashbackFeature => "cashback"
    case FraudFeature => "fraud_detection"
    case TaxFeature => "tax"
    case LoyaltyFeature => "loyalty_points"
  }

  /** `createDecorator`'s switch: the feature a name selects, if any. */
  function ParseFeature(name: string): (r: Option<Feature>)
    ensures r.Some? ==> FeatureName(r.value) == name
    ensures r.None? ==> forall f :: FeatureName(f) != name
  {
    if name == "discount" then Some(DiscountFeature)
    else if name == "cashback" then Some(CashbackFeature)
    else if name == "fraud_detection" then Some(FraudFeature)
    else if name == "tax" then Some(TaxFeature)
    else if name == "loyalty_points" then Some(LoyaltyFeature)
    else None
  }

  lemma ParseFeatureName(f: Feature)
    ensures ParseFeature(FeatureName(f)) == Some(f)
  {
  }

  /** Thirty days in nanoseconds: how far ahead the factory's discount expires. */
  const ThirtyDays: int := 30 * 24 * 60 * 60 * 1_000_000_000

  const DefaultRegion := "DEFAULT"

  predicate Enabled(cfg: DecoratorSettings, f: Feature)
  {
    match f
    case DiscountFeature => cfg.discount.enabled
    case CashbackFeature => cfg.cashback.enabled
    case FraudFeature => cfg.fraudDetection.enabled
    case TaxFeature => cfg.tax.enabled
    case LoyaltyFeature => cfg.loyaltyPoints.enabled
  }

  /** What the factory decides to do for one feature: keep the payment as it is, or wrap it in a configured layer. */
  datatype Builder =
    | Keep
    | Discount(discount: Decorators.DiscountConfig)
    | Cashback(cashback: Decorators.CashbackConfig)
    | Fraud(fraud: Decorators.FraudDetectionConfig)
    | Tax(tax: Decorators.TaxConfig)
    | Loyalty(loyalty: Decorators.LoyaltyPointsConfig)

  /**
   * The per-feature builders: a disabled feature keeps the payment, and the
   * loyalty feature is also kept out without a customer or without points
   * to redeem. `now` is the clock value the discount's expiry is computed
   * from.
   */
  function BuilderFor(f: Feature, cfg: DecoratorSettings, options: Domain.CheckoutOptions,
                      customer: Option<Domain.Customer>, now: int): (b: Builder)
    ensures !Enabled(cfg, f) ==> b == Keep
    ensures b.Discount? ==>
      b.discount == Decorators.DiscountConfig(
        Decorators.PercentageType, 10.0, 0.0, cfg.discount.maxFixedAmount, Some(now + ThirtyDays), options.discountCode)
    ensures b.Tax? ==>
      b.tax.taxRates == cfg.tax.rates && b.tax.defaultRate == cfg.tax.defaultRate &&
      b.tax.region == if customer.Some? && customer.value.address.state != "" then customer.value.address.state
                      else DefaultRegion
    ensures b.Loyalty? ==>
      customer.Some? && options.useLoyaltyPoints != 0 &&
      b.loyalty.availablePoints == customer.value.loyaltyPoints &&
      b.loyalty.pointsToRedeem == options.useLoyaltyPoints &&
      b.loyalty.pointsToCurrencyRatio == cfg.loyaltyPoints.pointsToCurrencyRatio
    ensures f == LoyaltyFeature && (customer.None? || options.useLoyaltyPoints == 0) ==> b == Keep
    ensures b != Keep ==> Enabled(cfg, f) && BuilderNames(b) == [FeatureName(f)]
  {
    match f
    case DiscountFeature =>
      if !cfg.discount.enabled then Keep
      else Discount(Decorators.DiscountConfig(
        Decorators.PercentageType, 10.0, 0.0, cfg.discount.maxFixedAmount, Some(now + ThirtyDays), options.discountCode))
    case CashbackFeature =>
      if !cfg.cashback.enabled then Keep
      else Cashback(Decorators.CashbackConfig(
        cfg.cashback.tier1Threshold, cfg.cashback.tier1Percentage, cfg.cashback.tier2Percentage))
    case FraudFeature =>
      if !cfg.fraudDetection.enabled then Keep
      else Fraud(Decorators.FraudDetectionConfig(
        cfg.fraudDetection.maxRiskScore, cfg.fraudDetection.velocityCheckWindow,
        cfg.fraudDetection.maxTransactionsPerWindow, if customer.Some? then customer.value.id else ""))
    case TaxFeature =>
      if !cfg.tax.enabled then Keep
      else
        var region := if customer.Some? && customer.value.address.state != "" then customer.value.address.state
                      else DefaultRegion;
        Tax(Decorators.TaxConfig(region, cfg.tax.rates, cfg.tax.defaultRate))
    case LoyaltyFeature =>
      if !cfg.loyaltyPoints.enabled then Keep
      else if customer.None? || options.useLoyaltyPoints == 0 then Keep
      else Loyalty(Decorators.LoyaltyPointsConfig(
        customer.value.loyaltyPoints, options.useLoyaltyPoints,
        cfg.loyaltyPoints.pointsToCurrencyRatio, cfg.loyaltyPoints.maxRedemptionPercentage))
  }

  /** The error a builder's decorator constructor reports, if any. */
  function BuilderError(b: Builder): Option<Error>
  {
    match b
    case Discount(c) => Decorators.DiscountConfigError(c)
    case Loyalty(c) => Decorators.LoyaltyConfigError(c)
    case _ => None
  }

  /** The error one step of the fold reports: an unknown name, or the decorator constructor's. */
  function FeatureError(name: string, cfg: DecoratorSettings, options: Domain.CheckoutOptions,
                        customer: Option<Domain.Customer>, now: int): (e: Option<Error>)
    ensures e.Some? ==> IsErrorCode(e.value, Validation)
    ensures ParseFeature(name).None? ==> e == Some(NewValidationError("unsupported decorator: " + name))
  {
    match ParseFeature(name)
    case None => Some(NewValidationError("unsupported decorator: " + name))
    case Some(f) => BuilderError(BuilderFor(f, cfg, options, customer, now))
  }

  /** The factory's discount, ten percent, always passes the discount constructor's checks. */
  lemma FactoryDiscountNeverFails(cfg: DecoratorSettings, options: Domain.CheckoutOptions,
                                  customer: Option<Domain.Customer>, now: int)
    ensures FeatureError("discount", cfg, options, customer, now) == None
  {
  }

  /** The loyalty step fails exactly when a customer redeems more points than they hold, or a negative number. */
  lemma LoyaltyStepFails(cfg: DecoratorSettings, options: Domain.CheckoutOptions, c: Domain.Customer, now: int)
    requires cfg.loyaltyPoints.enabled && options.useLoyaltyPoints != 0
    ensures FeatureError("loyalty_points", cfg, options, Some(c), now).Some? <==>
      options.useLoyaltyPoints > c.loyaltyPoints || options.useLoyaltyPoints < 0
  {
  }

  /** The names a builder's layer appends to a result. */
  function BuilderNames(b: Builder): (names: seq<string>)
    ensures |names| <= 1
  {
    match b
    case Keep => []
    case Discount(_) => ["discount"]
    case Cashback(_) => ["cashback"]
    case Fraud(_) => ["fraud_detection"]
    case Tax(_) => ["tax"]
    case Loyalty(_) => ["loyalty_points"]
  }

  /** `p` is what the builder makes of `wrapped`. */
  predicate Built(p: Decorators.Payment, wrapped: Decorators.Payment, b: Builder)
  {
    if b.Keep? then p == wrapped else p.Decorated? && p.wrapped == wrapped && LayerFits(p.layer, b)
  }

  /** The layer a builder configures; a fraud layer's detector is only described by its limits. */
  predicate LayerFits(l: Decorators.Layer, b: Builder)
  {
    match b
    case Keep => false
    case Discount(c) => l == Decorators.DiscountLayer(c)
    case Cashback(c) => l == Decorators.CashbackLayer(c)
    case Tax(c) => l == Decorators.TaxLayer(c.region, Decorators.TaxRateFor(c), c.taxRates, c.defaultRate)
    case Loyalty(c) => l == Decorators.LoyaltyLayer(c)
    case Fraud(c) =>
      l.FraudLayer? && l.detector.maxRiskScore == c.maxRiskScore &&
      l.detector.velocityCheckWindow == c.velocityCheckWindow &&
      l.detector.maxTransactionsPerWindow == c.maxTransactionsPerWindow
  }

  /** A built layer keeps the base instrument and appends the builder's name. */
  lemma BuiltKeepsBase(p: Decorators.Payment, wrapped: Decorators.Payment, b: Builder)
    requires Built(p, wrapped, b)
    ensures Decorators.Innermost(p) == Decorators.Innermost(wrapped)
    ensures Decorators.Names(p) == Decorators.Names(wrapped) + BuilderNames(b)
    ensures Decorators.Detectors(p) == Decorators.Detectors(wrapped) + (if b.Fraud? then {p.layer.detector} else {})
  {
  }

  /** `createDecorator`: one feature's step over the payment built so far. */
  method CreateDecorator(name: string, wrapped: Decorators.Payment, cfg: DecoratorSettings,
                         options: Domain.CheckoutOptions, customer: Option<Domain.Customer>, now: int)
    returns (r: Result<Decorators.Payment>)
    ensures r.Err? <==> FeatureError(name, cfg, options, customer, now).Some?
    ensures r.Err? ==> r.error == FeatureError(name, cfg, options, customer, now).value
    ensures r.Ok? ==>
      ParseFeature(name).Some? && Built(r.value, wrapped, BuilderFor(ParseFeature(name).value, cfg, options, customer, now))
    ensures r.Ok? && BuilderFor(ParseFeature(name).value, cfg, options, customer, now).Fraud? ==>
      fresh(r.value.layer.detector) && r.value.layer.detector.transactionHistory == map[]
  {
    var f := ParseFeature(name);
    if f.None? {
      return Err(NewValidationError("unsupported decorator: " + name));
    }
    var b := BuilderFor(f.value, cfg, options, customer, now);
    match b
    case Keep =>
      r := Ok(wrapped);
    case Discount(c) =>
      r := Decorators.NewDiscountDecorator(wrapped, c);
    case Cashback(c) =>
      r := Ok(Decorators.NewCashbackDecorator(wrapped, c));
    case Fraud(c) =>
      var p := Decorators.NewFraudDetectionDecorator(wrapped, c);
      r := Ok(p);
    case Tax(c) =>
      r := Ok(Decorators.NewTaxDecorator(wrapped, c));
    case Loyalty(c) =>
      r := Decorators.NewLoyaltyPointsDecorator(wrapped, c);
  }

  /**
   * One turn of `CreateDecoratorChain`'s loop: `createDecorator` over the
   * chain so far, stated as what the fold needs. The base instrument stays,
   * the step's name is appended, the step's layer is configured as its
   * builder says, and a fraud layer brings a new detector with no history,
   * so a well-formed chain stays well-formed.
   */
  method ChainStep(names: seq<string>, i: nat, base: Decorators.Payment, current: Decorators.Payment,
                   cfg: DecoratorSettings, options: Domain.CheckoutOptions, customer: Option<Domain.Customer>,
                   now: int)
    returns (r: Result<Decorators.Payment>)
    requires i < |names|
    requires FoldState(current, base, names, i, cfg, options, customer, now)
    ensures r.Err? <==> FeatureError(names[i], cfg, options, customer, now).Some?
    ensures r.Err? ==> r.error == FeatureError(names[i], cfg, options, customer, now).value
    ensures r.Ok? ==> FoldState(r.value, base, names, i + 1, cfg, options, customer, now)
    ensures r.Ok? && Decorators.WellFormed(current) && cfg.loyaltyPoints.pointsToCurrencyRatio != 0.0 ==>
      Decorators.WellFormed(r.value)
    ensures r.Ok? ==> GrownFrom(Decorators.Detectors(current), Decorators.Detectors(r.value))
  {
    Decorators.DetectorsAllocated(current);
    r := CreateDecorator(names[i], current, cfg, options, customer, now);
    if r.Ok? {
      BuiltKeepsBase(r.value, current, BuilderFor(ParseFeature(names[i]).value, cfg, options, customer, now));
      NewDetectors(Decorators.Detectors(base), Decorators.Detectors(current), Decorators.Detectors(r.value));
    }
  }

  /** Every detector in `ds` was in `known` already or is new since the earlier state. */
  twostate predicate GrownFrom(new known: set<Decorators.FraudDetector>, new ds: set<Decorators.FraudDetector>)
  {
    forall d :: d in ds ==> d in known || fresh(d)
  }

  /**
   * After `i` steps: `p` is their fold around `base`, and the detectors it
   * added to the base's have recorded nothing.
   */
  predicate FoldState(p: Decorators.Payment, base: Decorators.Payment, names: seq<string>, i: nat,
                      cfg: DecoratorSettings, options: Domain.CheckoutOptions, customer: Option<Domain.Customer>,
                      now: int)
    requires i <= |names|
    reads Decorators.Detectors(p) - Decorators.Detectors(base)
  {
    Folded(p, base, names, i, cfg, options, customer, now) &&
    Decorators.Detectors(base) <= Decorators.Detectors(p) &&
    Decorators.Pristine(Decorators.Detectors(p) - Decorators.Detectors(base))
  }

  /**
   * `p` is what the first `i` steps build around `base` when none fails:
   * innermost first, a kept feature adds no layer and every other one adds
   * the layer its builder configures.
   */
  predicate Folded(p: Decorators.Payment, base: Decorators.Payment, names: seq<string>, i: nat,
                   cfg: DecoratorSettings, options: Domain.CheckoutOptions, customer: Option<Domain.Customer>,
                   now: int)
    requires i <= |names|
    decreases i
  {
    if i == 0 then p == base
    else
      match ParseFeature(names[i - 1])
      case None => false
      case Some(f) =>
        var b := BuilderFor(f, cfg, options, customer, now);
        if b.Keep? then Folded(p, base, names, i - 1, cfg, options, customer, now)
        else p.Decorated? && LayerFits(p.layer, b) && Folded(p.wrapped, base, names, i - 1, cfg, options, customer, now)
  }

  /** A folded chain keeps the base instrument innermost and carries the names its steps append, in order. */
  lemma {:induction false} FoldedKeepsBase(p: Decorators.Payment, base: Decorators.Payment, names: seq<string>,
                                           i: nat, cfg: DecoratorSettings, options: Domain.CheckoutOptions,
                                           customer: Option<Domain.Customer>, now: int)
    requires i <= |names| && Folded(p, base, names, i, cfg, options, customer, now)
    ensures Decorators.Innermost(p) == Decorators.Innermost(base)
    ensures Decorators.Names(p) == Decorators.Names(base) + AddedNames(names, i, cfg, options, customer, now)
    decreases i
  {
    if i > 0 {
      var b := BuilderFor(ParseFeature(names[i - 1]).value, cfg, options, customer, now);
      var w := if b.Keep? then p else p.wrapped;
      FoldedKeepsBase(w, base, names, i - 1, cfg, options, customer, now);
      BuiltKeepsBase(p, w, b);
      AppendAssociates(Decorators.Names(base), AddedNames(names, i - 1, cfg, options, customer, now),
                       StepNames(names[i - 1], cfg, options, customer, now));
    }
  }

  /** The index of the first feature at or after `i` whose step fails, or the number of features. */
  function FirstFailingFrom(names: seq<string>, i: nat, cfg: DecoratorSettings, options: Domain.CheckoutOptions,
                            customer: Option<Domain.Customer>, now: int): (k: nat)
    requires i <= |names|
    ensures i <= k <= |names|
    ensures k < |names| ==> FeatureError(names[k], cfg, options, customer, now).Some?
    decreases |names| - i
  {
    if i == |names| then i
    else if FeatureError(names[i], cfg, options, customer, now).Some? then i
    else FirstFailingFrom(names, i + 1, cfg, options, customer, now)
  }

  /** The index of the first feature whose step fails, or the number of features. */
  function FirstFailing(names: seq<string>, cfg: DecoratorSettings, options: Domain.CheckoutOptions,
                        customer: Option<Domain.Customer>, now: int): (k: nat)
    ensures k <= |names|
    ensures k < |names| ==> FeatureError(names[k], cfg, options, customer, now).Some?
  {
    FirstFailingFrom(names, 0, cfg, options, customer, now)
  }

  /** The first `i` steps all pass. */
  predicate Passes(names: seq<string>, i: nat, cfg: DecoratorSettings, options: Domain.CheckoutOptions,
                   customer: Option<Domain.Customer>, now: int)
    requires i <= |names|
  {
    i == 0 || (Passes(names, i - 1, cfg, options, customer, now) &&
               FeatureError(names[i - 1], cfg, options, customer, now).None?)
  }

  lemma {:induction false} PassesEach(names: seq<string>, i: nat, cfg: DecoratorSettings,
                                      options: Domain.CheckoutOptions, customer: Option<Domain.Customer>, now: int)
    requires i <= |names| && Passes(names, i, cfg, options, customer, now)
    ensures forall j :: 0 <= j < i ==> FeatureError(names[j], cfg, options, customer, now).None?
  {
    if i > 0 {
      PassesEach(names, i - 1, cfg, options, customer, now);
    }
  }

  /** When the steps before `i` pass and step `i` fails, or is past the end, `i` is the first failing one. */
  lemma FirstFailingAt(names: seq<string>, i: nat, cfg: DecoratorSettings, options: Domain.CheckoutOptions,
                       customer: Option<Domain.Customer>, now: int)
    requires i <= |names| && Passes(names, i, cfg, options, customer, now)
    requires i < |names| ==> FeatureError(names[i], cfg, options, customer, now).Some?
    ensures FirstFailing(names, cfg, options, customer, now) == i
  {
    PassesEach(names, i, cfg, options, customer, now);
    FirstFailingFromAt(names, 0, i, cfg, options, customer, now);
  }

  /** When the steps from `from` up to `i` pass and step `i` fails, or is past the end, `i` is the first failing one. */
  lemma {:induction false} FirstFailingFromAt(names: seq<string>, from: nat, i: nat, cfg: DecoratorSettings,
                                              options: Domain.CheckoutOptions, customer: Option<Domain.Customer>,
                                              now: int)
    requires from <= i <= |names|
    requires forall j :: from <= j < i ==> FeatureError(names[j], cfg, options, customer, now).None?
    requires i < |names| ==> FeatureError(names[i], cfg, options, customer, now).Some?
    ensures FirstFailingFrom(names, from, cfg, options, customer, now) == i
    decreases i - from
  {
    if from < i {
      FirstFailingFromAt(names, from + 1, i, cfg, options, customer, now);
    }
  }

  /** Every step before the first failing one succeeds. */
  lemma {:induction false} FirstFailingIsFirst(names: seq<string>, i: nat, cfg: DecoratorSettings,
                                               options: Domain.CheckoutOptions, customer: Option<Domain.Customer>,
                                               now: int)
    requires i <= |names|
    ensures forall j :: i <= j < FirstFailingFrom(names, i, cfg, options, customer, now) ==>
      FeatureError(names[j], cfg, options, customer, now).None?
    decreases |names| - i
  {
    if i < |names| && FeatureError(names[i], cfg, options, customer, now).None? {
      FirstFailingIsFirst(names, i + 1, cfg, options, customer, now);
    }
  }

  /** The names one step appends: none for an unknown or kept feature, else the feature's own. */
  function StepNames(name: string, cfg: DecoratorSettings, options: Domain.CheckoutOptions,
                     customer: Option<Domain.Customer>, now: int): (added: seq<string>)
    ensures added == [] || added == [name]
  {
    match ParseFeature(name)
    case None => []
    case Some(f) => BuilderNames(BuilderFor(f, cfg, options, customer, now))
  }

  /** The names the first `i` steps of a successful fold append, in the order the features were asked for. */
  function AddedNames(names: seq<string>, i: nat, cfg: DecoratorSettings, options: Domain.CheckoutOptions,
                      customer: Option<Domain.Customer>, now: int): (added: seq<string>)
    requires i <= |names|
    ensures |added| <= i
  {
    if i == 0 then []
    else AddedNames(names, i - 1, cfg, options, customer, now) + StepNames(names[i - 1], cfg, options, customer, now)
  }

  lemma AppendAssociates(a: seq<string>, b: seq<string>, c: seq<string>)
    ensures (a + b) + c == a + (b + c)
  {
  }

  /** With every requested feature enabled and a redeeming customer, each one appends its own name. */
  lemma {:induction false} AllEnabledNamesAll(names: seq<string>, i: nat, cfg: DecoratorSettings,
                                              options: Domain.CheckoutOptions, c: Domain.Customer, now: int)
    requires i <= |names|
    requires forall j :: 0 <= j < |names| ==>
      ParseFeature(names[j]).Some? && Enabled(cfg, ParseFeature(names[j]).value)
    requires options.useLoyaltyPoints != 0
    ensures AddedNames(names, i, cfg, options, Some(c), now) == names[..i]
  {
    if i > 0 {
      AllEnabledNamesAll(names, i - 1, cfg, options, c, now);
      assert BuilderFor(ParseFeature(names[i - 1]).value, cfg, options, Some(c), now) != Keep;
      assert StepNames(names[i - 1], cfg, options, Some(c), now) == [names[i - 1]];
      assert names[..i] == names[..i - 1] + [names[i - 1]];
    }
  }

  /** The detectors new since `base` are those new since `current` and those the next step adds. */
  lemma NewDetectors(base: set<Decorators.FraudDetector>, current: set<Decorators.FraudDetector>,
                     next: set<Decorators.FraudDetector>)
    requires base <= current <= next
    ensures next - base == (current - base) + (next - current)
    ensures Decorators.Pristine(current - base) && Decorators.Pristine(next - current) ==>
      Decorators.Pristine(next - base)
  {
  }

  /** The error the fold reports for a failing step: the step's error under the feature's name. */
  function ChainError(name: string, e: Error): (r: Error)
    ensures r.Context? && r.cause == e
  {
    Context("failed to create decorator " + name, e)
  }

  /**
   * `CreateDecoratorChain`: the features are folded left to right, each
   * wrapping what was built so far, so the first is innermost. The first
   * failing step aborts the fold with its error under the feature's name.
   * A successful chain keeps the base instrument, appends the enabled
   * features' names in order, configures each layer as its feature's
   * builder says, and holds only detectors of the base or new ones with
   * no history.
   */
  method CreateDecoratorChain(base: Decorators.Payment, names: seq<string>, cfg: DecoratorSettings,
                              options: Domain.CheckoutOptions, customer: Option<Domain.Customer>, now: int)
    returns (r: Result<Decorators.Payment>)
    ensures r.Err? ==>
      var k := FirstFailing(names, cfg, options, customer, now);
      k < |names| && r.error == ChainError(names[k], FeatureError(names[k], cfg, options, customer, now).value)
    ensures r.Ok? <==> FirstFailing(names, cfg, options, customer, now) == |names|
    ensures r.Ok? ==>
      Decorators.Innermost(r.value) == Decorators.Innermost(base) &&
      Decorators.Names(r.value) == Decorators.Names(base) + AddedNames(names, |names|, cfg, options, customer, now)
    ensures r.Ok? && Decorators.WellFormed(base) && cfg.loyaltyPoints.pointsToCurrencyRatio != 0.0 ==>
      Decorators.WellFormed(r.value)
    ensures r.Ok? ==> Folded(r.value, base, names, |names|, cfg, options, customer, now)
    ensures r.Ok? ==> forall d :: d in Decorators.Detectors(r.value) ==>
      d in Decorators.Detectors(base) || fresh(d)
    ensures r.Ok? ==> Decorators.Pristine(Decorators.Detectors(r.value) - Decorators.Detectors(base))
  {
    r := FoldChain(base, names, cfg, options, customer, now);
    if r.Ok? {
      FoldedKeepsBase(r.value, base, names, |names|, cfg, options, customer, now);
    }
  }

  /** The loop of `CreateDecoratorChain`, one `ChainStep` per feature name. */
  method FoldChain(base: Decorators.Payment, names: seq<string>, cfg: DecoratorSettings,
                   options: Domain.CheckoutOptions, customer: Option<Domain.Customer>, now: int)
    returns (r: Result<Decorators.Payment>)
    ensures r.Err? ==>
      var k := FirstFailing(names, cfg, options, customer, now);
      k < |names| && r.error == ChainError(names[k], FeatureError(names[k], cfg, options, customer, now).value)
    ensures r.Ok? <==> FirstFailing(names, cfg, options, customer, now) == |names|
    ensures r.Ok? && Decorators.WellFormed(base) && cfg.loyaltyPoints.pointsToCurrencyRatio != 0.0 ==>
      Decorators.WellFormed(r.value)
    ensures r.Ok? ==> FoldState(r.value, base, names, |names|, cfg, options, customer, now)
    ensures r.Ok? ==> GrownFrom(Decorators.Detectors(base), Decorators.Detectors(r.value))
  {
    var current := base;
    var i := 0;
    while i < |names|
      invariant 0 <= i <= |names|
      invariant Passes(names, i, cfg, options, customer, now)
      invariant Decorators.WellFormed(base) && cfg.loyaltyPoints.pointsToCurrencyRatio != 0.0 ==>
        Decorators.WellFormed(current)
      invariant FoldState(current, base, names, i, cfg, options, customer, now)
      invariant GrownFrom(Decorators.Detectors(base), Decorators.Detectors(current))
    {
      var next := ChainStep(names, i, base, current, cfg, options, customer, now);
      if next.Err? {
        FirstFailingAt(names, i, cfg, options, customer, now);
        return Err(ChainError(names[i], next.error));
      }
      current := next.value;
      i := i + 1;
    }
    FirstFailingAt(names, i, cfg, options, customer, now);
    r := Ok(current);
  }

  /** The feature names in the order `GetAvailableDecorators` lists them. */
  const AllFeatures: seq<Feature> := [DiscountFeature, CashbackFeature, FraudFeature, TaxFeature, LoyaltyFeature]

  /** A feature's place in `AllFeatures`. */
  function Position(f: Feature): (k: nat)
    ensures k < |AllFeatures| && AllFeatures[k] == f
  {
    match f
    case DiscountFeature => 0
    case CashbackFeature => 1
    case FraudFeature => 2
    case TaxFeature => 3
    case LoyaltyFeature => 4
  }

  /** The enabled features from the `k`-th of `AllFeatures` on, in that order. */
  function EnabledFrom(cfg: DecoratorSettings, k: nat): (r: seq<Feature>)
    requires k <= |AllFeatures|
    ensures forall f :: f in r <==> k <= Position(f) && Enabled(cfg, f)
    ensures forall i, j :: 0 <= i < j < |r| ==> Position(r[i]) < Position(r[j])
    decreases |AllFeatures| - k
  {
    if k == |AllFeatures| then []
    else
      var rest := EnabledFrom(cfg, k + 1);
      if Enabled(cfg, AllFeatures[k]) then [AllFeatures[k]] + rest else rest
  }

  /** `GetAvailableDecorators`: the enabled features, in the factory's fixed order. */
  function GetAvailableDecorators(cfg: DecoratorSettings): (fs: seq<Feature>)
    ensures forall f :: f in fs <==> Enabled(cfg, f)
    ensures forall i, j :: 0 <= i < j < |fs| ==> Position(fs[i]) < Position(fs[j])
  {
    EnabledFrom(cfg, 0)
  }

  /** Asking for every available decorator by name never hits "unsupported decorator". */
  lemma AvailableAreKnown(cfg: DecoratorSettings)
    ensures forall f :: f in GetAvailableDecorators(cfg) ==> ParseFeature(FeatureName(f)) == Some(f)
  {
    forall f | f in GetAvailableDecorators(cfg)
      ensures ParseFeature(FeatureName(f)) == Some(f)
    {
      ParseFeatureName(f);
    }
  }

  // ---------------------------------------------------------------- strategy factory

  /** A value of the untyped parameter map: Go's `float64`, `int`, or anything else. */
  datatype Param = FloatParam(f: real) | IntParam(n: int) | OtherParam

  predicate IsSupportedStrategy(strategyType: string)
  {
    strategyType in {"instant", "deferred", "split"}
  }

  /**
   * The supported strategy types are those `CreateStrategy` builds from
   * the default parameters, together with "split", which has a factory
   * method of its own.
   */
  lemma SupportedStrategiesBuildByDefault(strategyType: string)
    ensures IsSupportedStrategy(strategyType) <==>
      CreateStrategy(strategyType, map[]).Ok? || strategyType == "split"
  {
  }

  /** A parameter read as a `float64`: any other type, or absence, leaves the default. */
  function FloatOr(params: map<string, Param>, key: string, default: real): (v: real)
    ensures (key in params && params[key].FloatParam?) ==> v == params[key].f
    ensures !(key in params && params[key].FloatParam?) ==> v == default
  {
    if key in params && params[key].FloatParam? then params[key].f else default
  }

  /** The installment count: an `int` as it is, a `float64` truncated toward zero, else 3. */
  function InstallmentsParam(params: map<string, Param>): (n: int)
    ensures "installments" !in params || params["installments"].OtherParam? ==> n == 3
    ensures "installments" in params && params["installments"].IntParam? ==> n == params["installments"].n
    ensures "installments" in params && params["installments"].FloatParam? ==> n == Trunc(params["installments"].f)
  {
    if "installments" in params && params["installments"].IntParam? then params["installments"].n
    else if "installments" in params && params["installments"].FloatParam? then Trunc(params["installments"].f)
    else 3
  }

  /**
   * `CreateStrategy`: an unsupported name is a validation error, "split"
   * must be built from its parts instead, and a deferred strategy needs
   * between 2 and 12 installments.
   */
  function CreateStrategy(strategyType: string, params: map<string, Param>): (r: Result<Strategies.Strategy>)
    ensures !IsSupportedStrategy(strategyType) ==>
      r == Err(NewValidationError("unsupported payment strategy: " + strategyType))
    ensures strategyType == "split" ==>
      r == Err(NewValidationError("split strategy must be created with CreateSplitStrategy"))
    ensures strategyType == "instant" ==>
      r == Ok(Strategies.Instant(FloatOr(params, "min_amount", 1.0), FloatOr(params, "max_amount", 10000.0)))
    ensures strategyType == "deferred" ==>
      (r.Ok? <==> 2 <= InstallmentsParam(params) <= 12)
    ensures strategyType == "deferred" && r.Ok? ==>
      r.value == Strategies.Deferred(FloatOr(params, "min_amount", 100.0), FloatOr(params, "max_amount", 10000.0),
                                     InstallmentsParam(params), FloatOr(params, "interest_rate", 0.0))
    ensures r.Err? ==> IsErrorCode(r.error, Validation)
  {
    if !IsSupportedStrategy(strategyType) then
      Err(NewValidationError("unsupported payment strategy: " + strategyType))
    else if strategyType == "instant" then
      Ok(Strategies.Instant(FloatOr(params, "min_amount", 1.0), FloatOr(params, "max_amount", 10000.0)))
    else if strategyType == "deferred" then
      var n := InstallmentsParam(params);
      if n < 2 then Err(NewValidationError("deferred payment requires at least 2 installments"))
      else if n > 12 then Err(NewValidationError("deferred payment cannot exceed 12 installments"))
      else Ok(Strategies.Deferred(FloatOr(params, "min_amount", 100.0), FloatOr(params, "max_amount", 10000.0),
                                  n, FloatOr(params, "interest_rate", 0.0)))
    else Err(NewValidationError("split strategy must be created with CreateSplitStrategy"))
  }

  /** Without parameters the factory builds instant over [1, 10000] and deferred of 3 interest-free installments over [100, 10000]. */
  lemma StrategyDefaults()
    ensures CreateStrategy("instant", map[]) == Ok(Strategies.Instant(1.0, 10000.0))
    ensures CreateStrategy("deferred", map[]) == Ok(Strategies.Deferred(100.0, 10000.0, 3, 0.0))
  {
  }

  /** Integer amounts do not override the instant bounds: only `float64` values do. */
  lemma IntegerBoundsIgnored(lo: int, hi: int)
    ensures CreateStrategy("instant", map["min_amount" := IntParam(lo), "max_amount" := IntParam(hi)]) ==
      Ok(Strategies.Instant(1.0, 10000.0))
  {
  }

  /** A created strategy is named after the name it was created from: "instant", or "deferred_" and its installment count. */
  lemma CreatedStrategyName(strategyType: string, params: map<string, Param>)
    requires CreateStrategy(strategyType, params).Ok?
    ensures strategyType in {"instant", "deferred"}
    ensures strategyType == "instant" ==> Strategies.GetName(CreateStrategy(strategyType, params).value) == "instant"
    ensures CreateStrategy(strategyType, params).value.Deferred? ==>
      CreateStrategy(strategyType, params).value.installments > 0
    ensures strategyType == "deferred" ==>
      Strategies.GetName(CreateStrategy(strategyType, params).value) ==
        "deferred_" + IntToString(InstallmentsParam(params)) + "_installments"
    ensures strategyType == "deferred" ==>
      |Strategies.GetName(CreateStrategy(strategyType, params).value)| > 9 &&
      Strategies.GetName(CreateStrategy(strategyType, params).value)[..9] == "deferred_"
  {
  }
}
