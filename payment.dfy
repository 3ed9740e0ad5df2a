/**
 * Payment instruments (internal/payment): credit card, PayPal and crypto
 * wallets, their validating constructors, and `Process`, which charges an
 * amount and returns a freshly allocated `PaymentResult`.
 *
 * What `Process` reads from the world is passed in as an `Env`: whether the
 * request context has already ended (and with which error), the clock
 * reading and its RFC 3339 rendering, the identifiers `uuid` would produce,
 * and the two random draws the fraud check makes.
 */
module Payments {
  import opened AppErrors
  import opened Text
  import opened Domain
  import Validator

  /** The world one call of `Process` observes. */
  datatype Env = Env(
    ctxErr: Option<Error>,  // `ctx.Err()` at the time of the call
    now: int,               // `time.Now()`
    stamp: string,          // `time.Now().Format(time.RFC3339)`
    txId: string,           // the `uuid` a payment draws for its transaction id
    scheduleId: string,     // the `uuid` a deferred schedule draws
    riskDraw: int,          // `rand.Intn(30)` of the fraud risk score
    geoDraw: int)           // `rand.Intn(100)` of the geolocation check

  /** A uuid renders as 36 characters; the draws lie in the ranges `rand.Intn` returns. */
  predicate ValidEnv(env: Env)
  {
    |env.txId| == 36 && |env.scheduleId| == 36 && 0 <= env.riskDraw < 30 && 0 <= env.geoDraw < 100
  }

  /** The fields of a `PaymentResult` at one moment. */
  datatype ResultView = ResultView(
    success: bool, transactionId: string, amount: real, originalAmount: real, processedAmount: real,
    currency: string, paymentMethod: string, message: string, metadata: Metadata,
    appliedDecorators: seq<string>)

  /** The result object a payment returns and each decorator then updates in place. */
  class PaymentResult {
    var success: bool
    var transactionId: string
    var amount: real
    var originalAmount: real
    var processedAmount: real
    var currency: string
    var paymentMethod: string
    var message: string
    var metadata: Metadata
    var appliedDecorators: seq<string>

    constructor (v: ResultView)
      ensures View() == v
    {
      success := v.success;
      transactionId := v.transactionId;
      amount := v.amount;
      originalAmount := v.originalAmount;
      processedAmount := v.processedAmount;
      currency := v.currency;
      paymentMethod := v.paymentMethod;
      message := v.message;
      metadata := v.metadata;
      appliedDecorators := v.appliedDecorators;
    }

    function View(): ResultView
      reads this
    {
      ResultView(success, transactionId, amount, originalAmount, processedAmount, currency,
                 paymentMethod, message, metadata, appliedDecorators)
    }
  }

  /** The pair `(result, err)` a Go call returns agrees with the expected outcome. */
  predicate Delivers(r: PaymentResult?, err: Option<Error>, expected: Result<ResultView>)
    reads r
  {
    match expected
    case Ok(v) => r != null && err.None? && r.View() == v
    case Err(e) => r == null && err == Some(e)
  }

  datatype Instrument =
    | CreditCard(cardNumber: string, cardHolder: string, expiryDate: string, cvv: string)
    | PayPal(email: string, password: string)
    | Crypto(walletAddress: string, cryptoType: string)

  const CreditCardType := "credit_card"
  const PayPalType := "paypal"
  const CryptoType := "crypto"

  // ---------------------------------------------------------------- constructors

  function NewCreditCardPayment(cardNumber: string, cardHolder: string, expiryDate: string, cvv: string)
    : (r: Result<Instrument>)
    ensures r.Ok? <==>
      Validator.CardNumberOutcome(cardNumber).Pass? && Validator.ValidateCVV(cvv).Pass? &&
      Validator.ValidateExpiryDate(expiryDate).Pass? && cardHolder != ""
    ensures r.Ok? ==> r.value == CreditCard(cardNumber, cardHolder, expiryDate, cvv)
    ensures r.Err? ==> IsErrorCode(r.error, InvalidPayment)
    ensures Validator.CardNumberOutcome(cardNumber).Fail? ==>
      r == Err(Wrap(Validator.CardNumberOutcome(cardNumber).error, InvalidPayment, "invalid card number"))
  {
    var number := Validator.CardNumberOutcome(cardNumber);
    if number.Fail? then Err(Wrap(number.error, InvalidPayment, "invalid card number"))
    else
      var code := Validator.ValidateCVV(cvv);
      if code.Fail? then Err(Wrap(code.error, InvalidPayment, "invalid CVV"))
      else
        var expiry := Validator.ValidateExpiryDate(expiryDate);
        if expiry.Fail? then Err(Wrap(expiry.error, InvalidPayment, "invalid expiry date"))
        else if cardHolder == "" then Err(NewInvalidPaymentError("card holder name is required"))
        else Ok(CreditCard(cardNumber, cardHolder, expiryDate, cvv))
  }

  function NewPayPalPayment(email: string, password: string): (r: Result<Instrument>)
    ensures r.Ok? <==> Validator.IsEmail(email) && password != ""
    ensures r.Ok? ==> r.value == PayPal(email, password)
    ensures !Validator.IsEmail(email) ==>
      r == Err(Wrap(Plain("invalid email address"), InvalidPayment, "invalid PayPal email"))
  {
    var check := Validator.ValidateEmail(email);
    if check.Fail? then Err(Wrap(check.error, InvalidPayment, "invalid PayPal email"))
    else if password == "" then Err(NewInvalidPaymentError("PayPal password is required"))
    else Ok(PayPal(email, password))
  }

  function NewCryptoPayment(walletAddress: string, cryptoType: string): (r: Result<Instrument>)
    ensures r.Ok? <==> Validator.ValidateCryptoAddress(walletAddress, ToUpper(cryptoType)).Pass?
    ensures r.Ok? ==>
      r.value == Crypto(walletAddress, ToUpper(cryptoType)) && r.value.cryptoType in {"BTC", "ETH", "USDT"}
    ensures r.Err? ==> IsErrorCode(r.error, InvalidPayment) && r.error.App? && r.error.message == "invalid wallet address"
  {
    var kind := ToUpper(cryptoType);
    var check := Validator.ValidateCryptoAddress(walletAddress, kind);
    ToUpperIdempotent(cryptoType);
    if check.Fail? then Err(Wrap(check.error, InvalidPayment, "invalid wallet address"))
    else if kind !in {"BTC", "ETH", "USDT"} then
      Err(NewInvalidPaymentError("unsupported cryptocurrency type: " + kind))
    else Ok(Crypto(walletAddress, kind))
  }

  lemma ToUpperIdempotent(s: string)
    ensures ToUpper(ToUpper(s)) == ToUpper(s)
  {
  }

  // ---------------------------------------------------------------- queries

  function GetType(i: Instrument): (t: string)
    ensures t in {CreditCardType, PayPalType, CryptoType}
    ensures i.CreditCard? <==> t == CreditCardType
    ensures i.PayPal? <==> t == PayPalType
  {
    match i
    case CreditCard(_, _, _, _) => CreditCardType
    case PayPal(_, _) => PayPalType
    case Crypto(_, _) => CryptoType
  }

  /** `getLastFourDigits`: four stars, then the last four characters when there are at least four. */
  function LastFourDigits(cardNumber: string): (r: string)
    ensures |r| >= 4 && r[..4] == "****"
    ensures |cardNumber| < 4 ==> r == "****"
    ensures |cardNumber| >= 4 ==> |r| == 8 && r[4..] == cardNumber[|cardNumber| - 4..]
  {
    if |cardNumber| < 4 then "****" else "****" + cardNumber[|cardNumber| - 4..]
  }

  /** `maskWalletAddress`: only the first six and last four characters stay visible. */
  function MaskWalletAddress(address: string): (r: string)
    ensures |address| < 10 ==> r == "****"
    ensures |address| >= 10 ==>
      |r| == 14 && r[..6] == address[..6] && r[6..10] == "****" && r[10..] == address[|address| - 4..]
  {
    if |address| < 10 then "****" else address[..6] + "****" + address[|address| - 4..]
  }

  /** `GetDetails`: what each instrument reveals about itself; no full card number, CVV or password. */
  function GetDetails(i: Instrument): (d: Metadata)
    ensures "type" in d && d["type"] == MStr(GetType(i))
    ensures forall k :: k in d ==> k in {"type", "card_holder", "last_4_digits", "expiry_date", "paypal_email",
                                         "crypto_type", "wallet_address"}
  {
    match i
    case CreditCard(number, holder, expiry, _) =>
      map["type" := MStr(CreditCardType), "card_holder" := MStr(holder),
          "last_4_digits" := MStr(LastFourDigits(number)), "expiry_date" := MStr(expiry)]
    case PayPal(email, _) =>
      map["type" := MStr(PayPalType), "paypal_email" := MStr(email)]
    case Crypto(wallet, kind) =>
      map["type" := MStr(CryptoType), "crypto_type" := MStr(kind),
          "wallet_address" := MStr(MaskWalletAddress(wallet))]
  }

  /**
   * What each instrument's details hold: the card's holder, masked number
   * and expiry; the PayPal email; the crypto type and masked wallet.
   */
  lemma DetailsValues(i: Instrument)
    ensures var d := GetDetails(i);
      (i.CreditCard? ==>
         d.Keys == {"type", "card_holder", "last_4_digits", "expiry_date"} &&
         d["card_holder"] == MStr(i.cardHolder) && d["last_4_digits"] == MStr(LastFourDigits(i.cardNumber)) &&
         d["expiry_date"] == MStr(i.expiryDate)) &&
      (i.PayPal? ==> d.Keys == {"type", "paypal_email"} && d["paypal_email"] == MStr(i.email)) &&
      (i.Crypto? ==>
         d.Keys == {"type", "crypto_type", "wallet_address"} &&
         d["crypto_type"] == MStr(i.cryptoType) && d["wallet_address"] == MStr(MaskWalletAddress(i.walletAddress)))
  {
  }

  /**
   * The details keep the secrets: two cards that differ only in their CVV
   * and in the digits before the last four, two PayPal accounts that differ
   * only in the password, and two wallets that differ only in the
   * characters between the first six and the last four give the same
   * details.
   */
  lemma DetailsHideSecrets(i: Instrument, j: Instrument)
    requires i.CreditCard? && j.CreditCard? ==>
      i.cardHolder == j.cardHolder && i.expiryDate == j.expiryDate &&
      |i.cardNumber| >= 4 && |j.cardNumber| >= 4 &&
      i.cardNumber[|i.cardNumber| - 4..] == j.cardNumber[|j.cardNumber| - 4..]
    requires i.PayPal? && j.PayPal? ==> i.email == j.email
    requires i.Crypto? && j.Crypto? ==>
      i.cryptoType == j.cryptoType && |i.walletAddress| >= 10 && |j.walletAddress| >= 10 &&
      i.walletAddress[..6] == j.walletAddress[..6] &&
      i.walletAddress[|i.walletAddress| - 4..] == j.walletAddress[|j.walletAddress| - 4..]
    requires GetType(i) == GetType(j)
    ensures GetDetails(i) == GetDetails(j)
  {
  }

  // ---------------------------------------------------------------- processing

  /** The accepted amount range: cards [1, 10000], PayPal [1, 5000], crypto [10, 50000]. */
  function MinAmount(i: Instrument): real
  {
    match i
    case CreditCard(_, _, _, _) => 1.0
    case PayPal(_, _) => 1.0
    case Crypto(_, _) => 10.0
  }

  function MaxAmount(i: Instrument): real
  {
    match i
    case CreditCard(_, _, _, _) => 10000.0
    case PayPal(_, _) => 5000.0
    case Crypto(_, _) => 50000.0
  }

  function SuccessMessage(i: Instrument): string
  {
    match i
    case CreditCard(_, _, _, _) => "Payment processed successfully"
    case PayPal(_, _) => "PayPal payment processed successfully"
    case Crypto(_, _) => "Cryptocurrency payment processed successfully"
  }

  function ProcessMetadata(i: Instrument, env: Env): Metadata
    requires ValidEnv(env)
  {
    match i
    case CreditCard(number, holder, _, _) =>
      map["card_holder" := MStr(holder), "last_4_digits" := MStr(LastFourDigits(number)),
          "processed_at" := MStr(env.stamp)]
    case PayPal(email, _) =>
      map["paypal_email" := MStr(email), "processed_at" := MStr(env.stamp)]
    case Crypto(wallet, kind) =>
      map["crypto_type" := MStr(kind), "wallet_address" := MStr(MaskWalletAddress(wallet)),
          "blockchain_tx" := MStr("0x" + env.txId[..16]), "processed_at" := MStr(env.stamp)]
  }

  /**
   * What `Process` returns: a timeout error when the context has ended, a
   * validation error when the amount is out of range, and otherwise a
   * successful result that charged exactly the amount asked for.
   */
  function ProcessOutcome(i: Instrument, amount: real, env: Env): (r: Result<ResultView>)
    requires ValidEnv(env)
    ensures env.ctxErr.Some? ==> r == Err(Wrap(env.ctxErr.value, Timeout, "payment context expired"))
    ensures env.ctxErr.None? && Validator.ValidateAmount(amount, MinAmount(i), MaxAmount(i)).Fail? ==>
      r == Err(Wrap(Validator.ValidateAmount(amount, MinAmount(i), MaxAmount(i)).error, Validation,
                    "invalid payment amount"))
    ensures r.Ok? <==> env.ctxErr.None? && MinAmount(i) <= amount <= MaxAmount(i)
    ensures r.Ok? ==>
      var v := r.value;
      v.success && v.transactionId == env.txId && v.paymentMethod == GetType(i) &&
      v.amount == amount && v.originalAmount == amount && v.processedAmount == amount &&
      v.appliedDecorators == [] && v.currency == (if i.Crypto? then i.cryptoType else "USD")
  {
    if env.ctxErr.Some? then Err(Wrap(env.ctxErr.value, Timeout, "payment context expired"))
    else
      var check := Validator.ValidateAmount(amount, MinAmount(i), MaxAmount(i));
      if check.Fail? then Err(Wrap(check.error, Validation, "invalid payment amount"))
      else
        Ok(ResultView(true, env.txId, amount, amount, amount,
                      if i.Crypto? then i.cryptoType else "USD", GetType(i), SuccessMessage(i),
                      ProcessMetadata(i, env), []))
  }

  /** `Process` of an instrument: allocates the result the decorators around it will update. */
  method Process(i: Instrument, amount: real, env: Env) returns (r: PaymentResult?, err: Option<Error>)
    requires ValidEnv(env)
    ensures Delivers(r, err, ProcessOutcome(i, amount, env))
    ensures r != null ==> fresh(r)
  {
    var outcome := ProcessOutcome(i, amount, env);
    if outcome.Err? {
      return null, Some(outcome.error);
    }
    r := new PaymentResult(outcome.value);
    err := None;
  }

  /**
   * The metadata of a successful `Process`: every method stamps the time of
   * processing, a card shows only its holder and masked number, and a crypto
   * payment names a blockchain transaction made of "0x" and the first
   * sixteen characters of the transaction id.
   */
  lemma ProcessedMetadata(i: Instrument, amount: real, env: Env)
    requires ValidEnv(env) && ProcessOutcome(i, amount, env).Ok?
    ensures var m := ProcessOutcome(i, amount, env).value.metadata;
      "processed_at" in m && m["processed_at"] == MStr(env.stamp) &&
      (i.CreditCard? ==> m.Keys == {"card_holder", "last_4_digits", "processed_at"} &&
                         m["last_4_digits"] == MStr(LastFourDigits(i.cardNumber))) &&
      (i.PayPal? ==> m.Keys == {"paypal_email", "processed_at"} && m["paypal_email"] == MStr(i.email)) &&
      (i.Crypto? ==> "blockchain_tx" in m && m["blockchain_tx"] == MStr("0x" + env.txId[..16]) &&
                     m["wallet_address"] == MStr(MaskWalletAddress(i.walletAddress)))
  {
  }

  /**
   * The crypto constructor's "unsupported cryptocurrency type" error is never
   * returned: address validation already rejects every other currency name.
   */
  lemma UnsupportedCryptoTypeUnreachable(walletAddress: string, cryptoType: string)
    ensures NewCryptoPayment(walletAddress, cryptoType) !=
      Err(NewInvalidPaymentError("unsupported cryptocurrency type: " + ToUpper(cryptoType)))
  {
  }
}
