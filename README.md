# Verified model of the e-commerce checkout core

This project is a Dafny model of the checkout pipeline of a Go e-commerce service. A checkout takes a customer's cart and runs it through these stages in order:

1. It validates the inventory, then reserves the stock.
2. It builds a payment instrument: a credit card, a PayPal account or a crypto wallet.
3. It wraps the instrument in the decorators the order enables: discount, tax, cashback, loyalty points and fraud detection.
4. It charges the decorated payment with a strategy (instant, deferred over installments, or split across several payments), retrying failed attempts.
5. If the payment fails, it rolls the reservation back. If it succeeds, it updates the customer's loyalty balance, stores the completed transaction, builds the receipt and empties the cart.
6. It emits payment events to observers.

The model covers that pipeline and everything it stands on:
- the coded error values and their wrapping;
- the input validators;
- the cart and discount entities;
- the instruments, the decorators, the strategies and the three factories;
- the in-memory repository and the inventory, customer and cart services;
- the observer subject with its metrics collector and SMS rate limiter;
- the currency conversion of the debit command.

The modules follow the Go packages:

| module | file | Go package |
|---|---|---|
| `AppErrors` | `errors.dfy` | `pkg/errors` |
| `Validator` | `validator.dfy` | `pkg/validator` |
| `Text` | `text.dfy` | character and number helpers the other modules share |
| `Domain` | `domain.dfy` | `internal/domain` |
| `Payments` | `payment.dfy` | `internal/payment` |
| `Decorators` | `decorators.dfy` | `internal/decorator` |
| `Strategies` | `strategy.dfy` | `internal/strategy` |
| `Factories` | `factory.dfy` | `internal/factory` |
| `Repository` | `repository.dfy` | the memory repository of `internal/repository` |
| `Services` | `services.dfy` | `internal/service` |
| `Observers` | `observer.dfy` | `internal/observer` |
| `Checkout` | `checkout.dfy` | `internal/facade` |
| `Currency` | `currency.dfy` | `convertCurrency` of `internal/cli/commands/debit.go` |

The model follows the form of the Go code:
- Code that only computes becomes datatypes, functions and lemmas.
- State the Go code updates in place becomes a class: the cart, a payment result, the fraud detector's history, the repository's maps, the services, the strategy context, the observers' counters and windows, and the facade.
- Every imperative method is proved against a specification function or predicate of the state before the call. Lemmas then state what the Go code promises about those functions.

The outside world comes in as parameters:
- An `Env` gives one payment attempt through a whole decorator chain its view of the world: whether the request context has already ended, the clock reading, the identifiers `uuid` would draw, and the two random draws of the fraud check. Every layer of the chain reads the same `Env`.
- A `World` gives each checkout its identifiers, its clock reading and one `Env` per payment attempt.
- Go's random map iteration order is an explicit enumeration of the keys.

Amounts are exact `real`s. Where Go compares amounts to two decimals, the model rounds to cents. Go's `int(x)` becomes truncation toward zero.

## Model

| member | source | states |
|---|---|---|
| AppErrors.Unwrap | pkg/errors/errors.go:36-38 | the next error down the chain, strictly smaller; none exactly for a plain error or an `AppError` without an inner error |
| AppErrors.Chain | pkg/errors/errors.go:36-38 | the unwrap chain of an error starts with the error itself |
| AppErrors.AsApp | pkg/errors/errors.go:106-112 | what `errors.As` finds is always an `AppError` |
| AppErrors.GetErrorCode | pkg/errors/errors.go:114-120 | the code of the first `AppError` on the chain, and `INTERNAL_ERROR` when the chain holds none |
| AppErrors.TextLeads | pkg/errors/errors.go:29-34 | `Error()` leads with an `AppError`'s code and message, or a `%w` layer's prefix; a plain error renders its own text |
| AppErrors.New | pkg/errors/errors.go:40-46 | an `AppError` with the given code, no inner error, rendered as "CODE: message" |
| AppErrors.Wrap | pkg/errors/errors.go:48-55 | an `AppError` with the given code whose `Unwrap` is the wrapped error, rendered as "CODE: message: inner" |
| AppErrors.NewValidationError | pkg/errors/errors.go:62-64 | code `VALIDATION_ERROR`, the given message, no inner error |
| AppErrors.NewNotFoundError | pkg/errors/errors.go:66-68 | code `NOT_FOUND`, no inner error, rendered as "NOT_FOUND: <resource> not found" |
| AppErrors.NewAlreadyExistsError | pkg/errors/errors.go:70-72 | code `ALREADY_EXISTS`, no inner error, rendered as "ALREADY_EXISTS: <resource> already exists" |
| AppErrors.NewUnauthorizedError | pkg/errors/errors.go:74-76 | code `UNAUTHORIZED`, the given message, no inner error |
| AppErrors.NewInternalError | pkg/errors/errors.go:78-80 | code `INTERNAL_ERROR`, the given message, no inner error |
| AppErrors.NewPaymentError | pkg/errors/errors.go:82-84 | code `PAYMENT_FAILED`, the given message, no inner error |
| AppErrors.NewInsufficientFundsError | pkg/errors/errors.go:86-88 | code `INSUFFICIENT_FUNDS` with the fixed message "insufficient funds" |
| AppErrors.NewInvalidPaymentError | pkg/errors/errors.go:90-92 | code `INVALID_PAYMENT`, the given message, no inner error |
| AppErrors.NewFraudDetectedError | pkg/errors/errors.go:94-96 | code `FRAUD_DETECTED`, the given message, no inner error |
| AppErrors.NewInventoryError | pkg/errors/errors.go:98-100 | code `INVENTORY_ERROR`, the given message, no inner error |
| AppErrors.NewTimeoutError | pkg/errors/errors.go:102-104 | code `TIMEOUT`, the given message, no inner error |
| AppErrors.AsAppIsFirstOnChain | pkg/errors/errors.go:106-112 | `errors.As` yields the first `AppError` of the unwrap chain, with no `AppError` above it; when it yields none the chain holds none |
| AppErrors.OutermostCodeWins | pkg/errors/errors.go:106-112 | a wrapped error answers `IsErrorCode` for the wrap's code and no other, so a wrapped fraud rejection no longer reads as `FRAUD_DETECTED` |
| AppErrors.IsErrorCodeIsFirstAppCode | pkg/errors/errors.go:106-112 | `IsErrorCode` holds exactly for the code of the first `AppError` on the unwrap chain, and for no other |
| AppErrors.TextEndsWithChain | pkg/errors/errors.go:29-34 | `Error()` ends with the rendering of every error the unwrap chain reaches, so no wrapped cause is lost from the text |
| AppErrors.ContextKeepsCode | pkg/errors/errors.go:114-120 | an `fmt.Errorf("...: %w")` layer keeps the code and every `IsErrorCode` answer of what it wraps |
| Validator.LuhnDigit | pkg/validator/validator.go:32-39 | a digit's Luhn share is again a single digit |
| Validator.CardNumberOutcome | pkg/validator/validator.go:15-50 | a card number passes iff, once spaces and hyphens are removed, it has 13 to 19 characters, all digits, with a Luhn sum divisible by 10 |
| Validator.LuhnChecksum | pkg/validator/validator.go:28-43 | the right-to-left loop computes the Luhn sum, every second digit from the right doubled with 9 cast out |
| Validator.ValidateCardNumber | pkg/validator/validator.go:15-50 | the imperative validator answers exactly as `CardNumberOutcome`, with the same messages in the same order |
| Validator.LuhnSumAt | pkg/validator/validator.go:28-43 | the Luhn sum splits at any position into its prefix, that digit's share and the rest |
| Validator.LuhnDigitInjective | pkg/validator/validator.go:34-39 | doubling with nine cast out maps distinct digits to distinct shares |
| Validator.LuhnDetectsSingleDigitError | pkg/validator/validator.go:28-47 | two digit strings that differ in exactly one place never have the same Luhn residue, so a mistyped digit is always rejected |
| Validator.ValidateCVV | pkg/validator/validator.go:52-62 | passes iff 3 or 4 characters, all digits; a wrong length is reported first |
| Validator.ValidateExpiryDate | pkg/validator/validator.go:64-87 | passes iff the text is DD/DD with a month 01 to 12; the year check can never fail and the date is not compared with today |
| Validator.ValidateEmail | pkg/validator/validator.go:95-101 | passes iff a non-empty local part over `[A-Za-z0-9._%+-]`, one `@`, a domain over `[A-Za-z0-9.-]`, a dot and at least two letters |
| Validator.EmailHasOneAt | pkg/validator/validator.go:96 | an accepted address holds exactly one `@` |
| Validator.ExampleEmailIsValid | pkg/validator/validator.go:96 | "user@example.com" is an accepted address |
| Validator.ValidatePhone | pkg/validator/validator.go:109-126 | passes iff, with spaces, hyphens, parentheses and plus signs removed, 10 to 15 characters remain, all digits |
| Validator.ValidateAmount | pkg/validator/validator.go:134-148 | passes iff min <= amount <= max and amount >= 0, with the below-minimum and above-maximum messages checked in that order |
| Validator.NegativeCheckShadowed | pkg/validator/validator.go:134-148 | with a non-negative minimum the "cannot be negative" branch is never the one that fails |
| Validator.ValidateBitcoinAddress | pkg/validator/validator.go:169-180 | passes iff 26 to 35 characters, a leading 1 or 3, then Base58 characters |
| Validator.Bech32AddressesRejected | pkg/validator/validator.go:169-180 | every `bc1` address fails the length check, since that branch of the pattern needs at least 42 characters |
| Validator.ValidateEthereumAddress | pkg/validator/validator.go:182-193 | passes iff "0x" followed by exactly 40 hex digits |
| Validator.ValidateCryptoAddress | pkg/validator/validator.go:156-167 | BTC, ETH and USDT (case-insensitively) select their address rule, USDT the Ethereum one; any other currency is "unsupported cryptocurrency" |
| Domain.TransactionStatus.Text | internal/domain/models.go:128-135 | each status has its non-empty string value |
| Domain.Cart.constructor | internal/domain/models.go:47-53 | a cart holding exactly the given id, customer, lines and instants |
| Domain.IndexOf | internal/domain/models.go:73-78 | the position of the first line for the product, every line before it being for another product; the line count when there is none |
| Domain.Cart.GetTotal | internal/domain/models.go:55-61 | the accumulation loop returns the sum of price times quantity over the lines |
| Domain.Cart.GetItemCount | internal/domain/models.go:63-69 | the accumulation loop returns the sum of the quantities |
| Domain.Cart.AddItem | internal/domain/models.go:71-86 | the first line for the product grows by the quantity, or one line priced at the product's price is appended; nothing else of the cart changes |
| Domain.Cart.RemoveItem | internal/domain/models.go:88-95 | the first line for the product is cut out and the rest keep their order; no change when there is none |
| Domain.Cart.UpdateQuantity | internal/domain/models.go:97-109 | a quantity of zero or less removes as `RemoveItem` does; otherwise the first matching line gets the quantity, and no line matching means no change |
| Domain.Cart.Clear | internal/domain/models.go:111-113 | the cart holds no lines, with total 0 and item count 0 |
| Domain.TotalAppend | internal/domain/models.go:55-69 | total and item count of two line lists put together are the sums of their parts |
| Domain.TotalReplace | internal/domain/models.go:55-61 | replacing one line changes the total by that line's difference alone |
| Domain.CountReplace | internal/domain/models.go:63-69 | replacing one line changes the item count by that line's difference alone |
| Domain.AddedTotals | internal/domain/models.go:71-86 | adding raises the count by the quantity and the total by the quantity times the existing line's stored price, or the product's price for a new line |
| Domain.AppendedLine | internal/domain/models.go:80-85 | an appended line adds its own total and quantity |
| Domain.AddedToLine | internal/domain/models.go:73-77 | growing an existing line adds the quantity times that line's stored price |
| Domain.RemovedTotals | internal/domain/models.go:88-95 | removing lowers total and count by the first matching line, and by nothing when the product is absent |
| Domain.CartOperationsKeepDistinct | internal/domain/models.go:71-109 | adding, removing and setting quantities keep one line per product |
| Domain.RemovedIsGone | internal/domain/models.go:88-95 | with one line per product, no line for the product is left after a removal |
| Domain.QuantitySet | internal/domain/models.go:103-108 | a positive quantity replaces only the matching line's quantity, keeping its price and every other line |
| Domain.Discount.IsValid | internal/domain/models.go:186-194 | valid exactly when active and not strictly past an expiry it has; a discount without expiry never lapses |
| Domain.ValidityOnlyLapses | internal/domain/models.go:186-194 | a discount valid now was valid at every earlier instant |
| Domain.Discount.Calculate | internal/domain/models.go:196-217 | 0 when inactive, expired or below the minimum amount; never above `MaxAmount` when that is positive; a percentage discount is `value` percent of the amount, cut down to `MaxAmount` when that is positive and exceeded, so a percentage of at most 100 stays within the amount; a fixed value is taken as is, capped only by `MaxAmount` |
| Domain.PercentageBounds | internal/domain/models.go:205-207 | a percentage between 0 and 100 of a non-negative amount lies between 0 and the amount |
| Domain.FixedDiscountMayExceedAmount | internal/domain/models.go:208-216 | a fixed discount of 10 on an amount of 5 is 10: it is not capped at the amount |
| Payments.PaymentResult.constructor | internal/payment/payment.go:13-24 | a result object whose fields are exactly the given view |
| Payments.NewCreditCardPayment | internal/payment/credit_card.go:23-49 | succeeds exactly when the number passes the Luhn check, the CVV and expiry date are well formed and the holder is named; every failure is an invalid-payment error, a bad number wrapping the validator's error |
| Payments.NewPayPalPayment | internal/payment/paypal.go:20-36 | succeeds exactly when the email is well formed and the password non-empty; a bad email wraps the validator's error as "invalid PayPal email" |
| Payments.NewCryptoPayment | internal/payment/crypto.go:21-45 | the currency name is upper-cased; succeeds exactly when the address is valid for it, and then the currency is BTC, ETH or USDT; every failure is "invalid wallet address" |
| Payments.ToUpperIdempotent | internal/payment/crypto.go:24 | upper-casing twice is upper-casing once, so the stored currency name is already canonical |
| Payments.UnsupportedCryptoTypeUnreachable | internal/payment/crypto.go:26-38 | the "unsupported cryptocurrency type" error is never returned, because the address check already rejects every other currency |
| Payments.GetType | internal/payment/credit_card.go:95-97 | one of the three method names, and each instrument kind has its own |
| Payments.LastFourDigits | internal/payment/credit_card.go:108-113 | four stars, followed by the last four characters of the number when it has at least four |
| Payments.MaskWalletAddress | internal/payment/crypto.go:106-111 | only the first six and the last four characters of an address of ten or more stay visible; a shorter one is all stars |
| Payments.GetDetails | internal/payment/credit_card.go:99-106 | names the payment type and reveals only the listed keys, never a full card number, CVV or password |
| Payments.DetailsValues | internal/payment/credit_card.go:99-113 | exactly the keys of each instrument: a card's holder, masked number and expiry; a PayPal email; a crypto type and masked wallet |
| Payments.DetailsHideSecrets | internal/payment/crypto.go:98-111 | the details do not depend on the CVV, the card digits before the last four, the PayPal password or the wallet's hidden middle |
| Payments.ProcessOutcome | internal/payment/credit_card.go:51-93 | an ended context gives a timeout error, an amount outside the method's range a validation error; success exactly otherwise, charging exactly the amount under the provider's transaction id, in USD or the coin's currency, with no decorators applied |
| Payments.Process | internal/payment/credit_card.go:51-93 | returns a fresh result object holding the outcome, or nil and the error |
| Payments.ProcessedMetadata | internal/payment/crypto.go:67-83 | a successful result carries the processing stamp; a card shows only its masked number, a crypto payment a blockchain transaction of "0x" and the first sixteen characters of the transaction id |
| Decorators.FraudDetector.constructor | internal/decorator/fraud_detection.go:32-40 | a detector with the configured limits and an empty history |
| Decorators.FraudDetector.VelocityCheck | internal/decorator/fraud_detection.go:106-133 | the filtering loop decides as `VelocityOutcome` does on the current history |
| Decorators.RecentAfter | internal/decorator/fraud_detection.go:117-123 | the loop keeps exactly the recorded instants strictly after the cutoff, in order (`After`, whose entries all lie after the cutoff) |
| Decorators.FraudDetector.RecordTransaction | internal/decorator/fraud_detection.go:144-157 | the history becomes `Recorded` of the old one: the instant appended to the default bucket |
| Decorators.NewBaseDecorator | internal/decorator/decorator.go:18-20 | wraps the payment, adds no decorator name and returns it from `GetWrapped` |
| Decorators.NewDiscountDecorator | internal/decorator/discount.go:33-51 | succeeds exactly when the value is positive and a percentage is at most 100; failures are validation errors |
| Decorators.NewTaxDecorator | internal/decorator/tax.go:25-40 | fixes the region's rate from the table when present, else the default rate |
| Decorators.NewCashbackDecorator | internal/decorator/cashback.go:24-31 | wraps the payment and adds the name "cashback" |
| Decorators.NewLoyaltyPointsDecorator | internal/decorator/loyalty_points.go:28-44 | succeeds exactly when the redemption is between 0 and the available points; an overdraw is "insufficient loyalty points" |
| Decorators.NewFraudDetectionDecorator | internal/decorator/fraud_detection.go:32-40 | a fraud layer holding a fresh detector with the configured limits and an empty history |
| Decorators.GetWrapped | internal/decorator/decorator.go:22-24 | a strictly smaller chain with the same base instrument |
| Decorators.GetType | internal/decorator/decorator.go:26-28 | the base instrument's type, whatever wraps it |
| Decorators.GetDetails | internal/decorator/decorator.go:30-32 | the base instrument's details, whatever wraps it |
| Decorators.DiscountAmount | internal/decorator/discount.go:104-122 | never more than the amount nor than a positive cap, never negative for a non-negative amount, and exactly the percentage of the amount when uncapped |
| Decorators.CashbackPercentage | internal/decorator/cashback.go:66-71 | the second tier's percentage from the threshold upwards, the first tier's below it |
| Decorators.RiskScore | internal/decorator/fraud_detection.go:90-104 | the draw plus 0, 20 or 50; exactly the draw up to 1000 and exactly 50 more above 5000 |
| Decorators.After | internal/decorator/fraud_detection.go:117-123 | only instants strictly after the cutoff, never more than there were |
| Decorators.AfterCounts | internal/decorator/fraud_detection.go:117-123 | every instant after the cutoff is kept as often as it occurs, and every other one is dropped |
| Decorators.AfterAppend | internal/decorator/fraud_detection.go:117-123 | the filter keeps the history's order: filtering a concatenation concatenates the filtered pieces |
| Decorators.VelocityOutcome | internal/decorator/fraud_detection.go:106-133 | passes without a default bucket; otherwise fails exactly when the recent instants reach the limit, with a fraud error |
| Decorators.GeolocationOutcome | internal/decorator/fraud_detection.go:135-142 | fails with "geolocation validation failed" exactly when the draw is below 5 |
| Decorators.HistoriesOf | internal/decorator/fraud_detection.go:23-30 | the history of each given detector, and only those |
| Decorators.Annotations | internal/decorator/discount.go:93-99 | exactly the metadata keys the layer writes |
| Decorators.Finish | internal/decorator/tax.go:58-78 | appends the layer's name, keeps identity, method and message, adds the layer's keys over the others, and sets the amounts to what it forwarded when it is a discount, tax or loyalty layer, leaving them otherwise; a discount always records the amount it received as the original amount, while tax and loyalty record it only when no original amount is set yet |
| Decorators.ExpectedInFrame | internal/decorator/fraud_detection.go:106-133 | the outcome of a chain depends only on the histories of its own detectors |
| Decorators.Screen | internal/decorator/fraud_detection.go:47-66 | a layer's checks before delegating agree with `Admit` in the current state |
| Decorators.Annotate | internal/decorator/discount.go:88-101 | the in-place edits of the result object give `Finish` of its old view |
| Decorators.Process | internal/decorator/fraud_detection.go:42-88 | delivers the outcome `ExpectedIn` describes, a fresh result object on success; every detector of the chain records the call exactly when the chain succeeds |
| Decorators.Conclude | internal/decorator/fraud_detection.go:68-87 | a fraud layer records the instant, then the result gets `Finish` of its old view |
| Decorators.DetectorsAllocated | internal/decorator/fraud_detection.go:32-40 | every detector a chain holds is allocated |
| Decorators.SuccessfulChain | internal/decorator/discount.go:83-91 | a successful chain lists the decorator names in wrapping order, keeps the provider's transaction id and method, and the amount that reached the base instrument lies within its range |
| Decorators.AmountIsOutermostForward | internal/decorator/discount.go:88-90 | the final amount and processed amount are what the outermost discount, tax or loyalty layer forwarded |
| Decorators.OriginalAmountWithoutDiscount | internal/decorator/tax.go:63-65 | without a discount layer the original amount is the charge at the base, at least 1, since tax and loyalty only fill an original amount of 0 |
| Decorators.FailedScreenStopsChain | internal/decorator/fraud_detection.go:54-66 | a failing check returns its error and never calls the wrapped payment |
| Decorators.DiscountForwardBounds | internal/decorator/discount.go:70-75 | the discount forwards the amount less the discount, between 0 and the amount |
| Decorators.RiskScoreMonotone | internal/decorator/fraud_detection.go:90-104 | the risk score never falls as the amount grows |
| Decorators.RecordedGrows | internal/decorator/fraud_detection.go:144-157 | recording appends the instant to the default bucket and changes no other bucket |
| Decorators.OldHistoryPasses | internal/decorator/fraud_detection.go:117-125 | a history with no instant after the cutoff passes the velocity check under a positive limit |
| Decorators.AfterNone | internal/decorator/fraud_detection.go:119-123 | no instant after the cutoff leaves nothing recent |
| Decorators.DiscountOverTaxReportsLessThanCharged | internal/decorator/discount.go:88-90 | a 10% discount around a 10% tax on 100 reports 90 while the card is charged 99 |
| Strategies.CreateDeferredSchedule | internal/strategy/strategy.go:54-76 | N pending installments numbered 1 to N without due dates, each the same share of the amount with interest; the recorded total is the amount before interest |
| Strategies.EqualInstallmentsTotal | internal/strategy/strategy.go:63-73 | N installments of the same amount add up to N times it |
| Strategies.ScheduleCoversTotal | internal/strategy/strategy.go:63-73 | a schedule's installments add up to the amount with interest |
| Strategies.GetName | internal/strategy/split.go:102-104 | "instant", "deferred_N_installments" or "split_N_methods", each strategy its own form |
| Strategies.NewSplitPaymentStrategy | internal/strategy/split.go:17-29 | succeeds exactly with one to five parts; otherwise a validation error |
| Strategies.FirstNonPositive | internal/strategy/split.go:111-117 | the first part whose amount is not positive, every earlier part being positive; the part count when all are |
| Strategies.AmountOutcome | internal/strategy/split.go:106-120 | instant and deferred accept exactly the amounts in their range, with the validator's plain error otherwise; split accepts exactly a positive total with all parts positive, with validation errors otherwise |
| Strategies.ValidateAmount | internal/strategy/split.go:106-120 | the scanning loop decides as `AmountOutcome` does |
| Strategies.FirstNonPositiveIs | internal/strategy/split.go:111-117 | a part that is not positive after only positive ones is the first such part |
| Strategies.ExecuteInstant | internal/strategy/instant.go:25-55 | delivers the instant outcome of the state before the call (a range error, or the chain's error wrapped as a payment failure, or the chain's result marked "instant") and the chain's detectors record the call exactly on success |
| Strategies.ExecuteDeferred | internal/strategy/deferred.go:30-82 | only the first installment is sent through the chain; on success the result reports it as amount and processed amount, the full amount as original amount, and the schedule in its metadata; the detectors record the call exactly on success |
| Strategies.MarkFirstInstallment | internal/strategy/deferred.go:60-73 | the result's amounts become the first installment and the original amount, its metadata gains the schedule entries, and nothing else changes |
| Strategies.DeferredChargesFirstThird | internal/strategy/deferred.go:41-73 | with three installments and no interest a successful deferred payment charges a third of the amount and records the whole as original amount |
| Strategies.PartDetectorsIncluded | internal/strategy/split.go:56-74 | each part's detectors are among those of the parts from any earlier index |
| Strategies.PartsDetectorsAllocated | internal/strategy/split.go:56-74 | every part's detectors are allocated |
| Strategies.LaterPartsDisjoint | internal/strategy/split.go:56-74 | a part shares no detector with the parts after it |
| Strategies.CoversNow | internal/strategy/split.go:56-74 | the current histories cover every part's detectors |
| Strategies.SnapshotIn | internal/strategy/split.go:56-74 | holds, for every part, the outcome that part returns on the given histories |
| Strategies.Snapshot | internal/strategy/split.go:56-74 | one outcome per part, as each part would return if charged now |
| Strategies.FirstErr | internal/strategy/split.go:64-70 | the first failing outcome, every earlier one a success; the count when none fails |
| Strategies.Values | internal/strategy/split.go:72 | the results of all-successful outcomes, position by position |
| Strategies.SplitDetails | internal/strategy/split.go:137-151 | one entry per result, the k-th numbered k+1 and naming that result's method, amount and transaction id |
| Strategies.MismatchError | internal/strategy/split.go:45-50 | the sum mismatch is a validation error |
| Strategies.SplitChecks | internal/strategy/split.go:37-51 | passes exactly when the amounts pass and the parts' sum equals the total to the cent; failures are validation errors |
| Strategies.PartFailure | internal/strategy/split.go:68-69 | a payment-failed error wrapping the part's own error |
| Strategies.SplitResult | internal/strategy/split.go:31-100 | succeeds exactly when both checks pass and every part succeeds; the first failing part after the checks gives its wrapped error; on success the total is the amount and original amount, the parts' sum the processed amount, under the first part's transaction id, method "split" and no decorators |
| Strategies.Charged | internal/strategy/split.go:53-74 | no more parts are charged than there are |
| Strategies.GetSplitDetails | internal/strategy/split.go:137-151 | the loop builds `SplitDetails` of the result objects |
| Strategies.Views | internal/strategy/split.go:137-151 | the view of each result object, position by position |
| Strategies.SumOfParts | internal/strategy/split.go:41-44 | the loop adds up the parts' amounts in order |
| Strategies.ChargeParts | internal/strategy/split.go:56-74 | charges parts in order up to the first failure, which it reports with that part's error; when none fails every part's result is returned fresh; exactly the parts before the failure have their detectors record the call |
| Strategies.ChargePart | internal/strategy/split.go:64 | the part delivers its snapshot outcome and leaves earlier results and other parts' detectors alone |
| Strategies.CheckSplit | internal/strategy/split.go:37-51 | the amount and sum checks run as `SplitChecks` decides |
| Strategies.Combine | internal/strategy/split.go:76-91 | a fresh result object holding the combined result of the parts |
| Strategies.ChargeChecked | internal/strategy/split.go:53-99 | after the checks, delivers the split outcome of the state before the call; exactly the parts charged record the transaction on top of the histories held before the call |
| Strategies.ExecuteSplit | internal/strategy/split.go:31-100 | delivers the split outcome of the state before the call; a failed check charges no part; exactly the parts charged have their detectors record |
| Strategies.FirstErrAll | internal/strategy/split.go:56-74 | with no failure the loop runs through every part |
| Strategies.FirstErrIs | internal/strategy/split.go:64-70 | a failure after only successes is the first failure |
| Strategies.LaterPartsUntouched | internal/strategy/split.go:64-70 | once a part fails no later part is charged and the split payment fails |
| Strategies.Execute | internal/strategy/strategy.go:10-14 | delivers the strategy's outcome of the state before the call; instant and deferred record on the chain's detectors exactly on success |
| Strategies.PaymentContext.constructor | internal/strategy/strategy.go:20-24 | a context holding the given strategy |
| Strategies.PaymentContext.SetStrategy | internal/strategy/strategy.go:26-28 | the context now holds the new strategy |
| Strategies.PaymentContext.ExecutePayment | internal/strategy/strategy.go:30-32 | delivers the held strategy's outcome of the state before the call |
| Factories.FirstMissing | internal/factory/payment_factory.go:46-67 | the first empty field, every earlier one being filled; the field count when none is empty |
| Factories.SupportedPaymentsAreInstrumentTypes | internal/factory/payment_factory.go:99-101 | `IsSupported`: the supported payment types are exactly the types the three instruments report |
| Factories.CreatePayment | internal/factory/payment_factory.go:24-44 | an unsupported name is "unsupported payment type"; the first missing field of the chosen type is a validation error with that field's message; a created instrument has the type it was asked for and all its fields filled |
| Factories.CreatePaymentDelegates | internal/factory/payment_factory.go:46-97 | with every field present each type hands its fields unchanged to the instrument's own constructor |
| Factories.CardNumberCheckedFirst | internal/factory/payment_factory.go:46-55 | a card missing both number and holder is reported for the number |
| Factories.ParseFeature | internal/factory/decorator_factory.go:59-72 | a name selects the feature whose name it is, and no feature when none has it |
| Factories.ParseFeatureName | internal/factory/decorator_factory.go:59-72 | every feature's own name selects it |
| Factories.BuilderFor | internal/factory/decorator_factory.go:75-175 | a disabled feature keeps the payment; the discount is 10% with the configured cap, expiring thirty days after now and carrying the order's code; tax uses the customer's state, else DEFAULT, with the configured table; loyalty needs a customer redeeming points and uses their balance; a kept payment adds no name, any other the feature's |
| Factories.FeatureError | internal/factory/decorator_factory.go:53-73 | an unknown name is "unsupported decorator"; every error of a step is a validation error |
| Factories.FactoryDiscountNeverFails | internal/factory/decorator_factory.go:83-92 | the factory's discount of ten percent always passes the discount constructor's checks |
| Factories.LoyaltyStepFails | internal/factory/decorator_factory.go:154-175 | with loyalty enabled and points requested, the step fails exactly when the customer redeems more than they hold or a negative number |
| Factories.BuilderNames | internal/factory/decorator_factory.go:75-175 | a builder adds at most one name |
| Factories.BuiltKeepsBase | internal/factory/decorator_factory.go:53-73 | a step keeps the base instrument, appends the builder's name and adds only a fraud layer's own detector |
| Factories.CreateDecorator | internal/factory/decorator_factory.go:53-73 | fails exactly when the feature's step has an error, with that error; otherwise wraps the payment as the feature's builder says, a fraud layer with a fresh, empty detector |
| Factories.ChainStep | internal/factory/decorator_factory.go:39-48 | one turn of the fold: fails exactly at the first failing feature with its error; otherwise extends the fold by the step's layer as its builder configures it, keeps the chain well formed, and adds only new detectors with an empty history |
| Factories.FoldedKeepsBase | internal/factory/decorator_factory.go:37-50 | a folded chain keeps the base instrument innermost and carries the enabled features' names in order |
| Factories.ChainError | internal/factory/decorator_factory.go:43-45 | the fold's error wraps the failing step's error |
| Factories.FirstFailingFrom | internal/factory/decorator_factory.go:39-44 | the first failing feature at or after an index, or the count |
| Factories.FirstFailing | internal/factory/decorator_factory.go:39-44 | the first failing feature, or the count |
| Factories.FirstFailingIsFirst | internal/factory/decorator_factory.go:39-44 | every feature before the first failing one succeeds |
| Factories.StepNames | internal/factory/decorator_factory.go:53-73 | a step appends nothing or the feature's own name |
| Factories.AddedNames | internal/factory/decorator_factory.go:39-48 | the first i steps append at most i names |
| Factories.AllEnabledNamesAll | internal/factory/decorator_factory.go:39-48 | with every requested feature enabled and a redeeming customer the chain's names are the requested names, in order |
| Factories.CreateDecoratorChain | internal/factory/decorator_factory.go:26-51 | the first failing feature aborts with "failed to create decorator" and its name around the step's error; success exactly when none fails, keeping the base instrument, appending the added names in order, each layer configured by its feature's builder, and holding only the base's detectors or new ones with an empty history |
| Factories.Position | internal/factory/decorator_factory.go:177-197 | each feature has its place in the fixed listing order |
| Factories.EnabledFrom | internal/factory/decorator_factory.go:177-197 | exactly the enabled features from a place on, in listing order |
| Factories.GetAvailableDecorators | internal/factory/decorator_factory.go:177-197 | exactly the enabled features, in the order discount, cashback, fraud detection, tax, loyalty points |
| Factories.AvailableAreKnown | internal/factory/decorator_factory.go:177-197 | every listed decorator name is one the chain builder accepts |
| Factories.FloatOr | internal/factory/strategy_factory.go:49-54 | a parameter overrides the default only when it is a float64 |
| Factories.InstallmentsParam | internal/factory/strategy_factory.go:71-75 | an int as it is, a float64 truncated toward zero, otherwise 3 |
| Factories.SupportedStrategiesBuildByDefault | internal/factory/strategy_factory.go:94-96 | `IsSupported`: a strategy type is supported exactly when `CreateStrategy` builds it from default parameters, or it is "split" |
| Factories.CreateStrategy | internal/factory/strategy_factory.go:24-88 | an unsupported name and "split" are validation errors; instant takes float bounds over the defaults 1 and 10000; deferred succeeds exactly with 2 to 12 installments, with defaults 100, 10000 and no interest |
| Factories.StrategyDefaults | internal/factory/strategy_factory.go:45-88 | without parameters instant is over [1, 10000] and deferred is three interest-free installments over [100, 10000] |
| Factories.IntegerBoundsIgnored | internal/factory/strategy_factory.go:49-54 | integer bounds leave the instant defaults in place |
| Factories.CreatedStrategyName | internal/factory/strategy_factory.go:31-37 | a created strategy is instant or deferred, with a positive installment count when deferred; an instant one is named "instant", and a deferred one "deferred_<n>_installments" for its installment parameter, so its name starts with "deferred_" |
| Repository.Inserted | internal/repository/memory_repository.go:33-43 | refused with "already exists" exactly when the id is present; otherwise the id is added with the record and every other entry stays |
| Repository.Found | internal/repository/memory_repository.go:45-55 | the record stored under the id exactly when there is one, "not found" otherwise |
| Repository.Replaced | internal/repository/memory_repository.go:70-80 | refused with "not found" exactly when the id is absent; otherwise only that entry is replaced and the keys stay |
| Repository.ErrorOf | internal/repository/memory_repository.go:33-43 | an error exactly when the operation failed |
| Repository.StoredAfter | internal/repository/memory_repository.go:33-43 | a failed operation leaves the map as it was |
| Repository.CreateThenGet | internal/repository/memory_repository.go:33-55 | a record created under a fresh id is then found there, and other ids find what they found before |
| Repository.UpdateThenGet | internal/repository/memory_repository.go:70-80 | an updated record is then found, and storing the old record again gives the old map back |
| Repository.Listed | internal/repository/memory_repository.go:86-89 | the entries in visiting order, one per visited key |
| Repository.PageIsWindow | internal/repository/memory_repository.go:91-101 | a page is empty once the offset reaches the end, and otherwise holds the elements from the offset on, as many as the limit allows and the list still has |
| Repository.PagesConcatenate | internal/repository/memory_repository.go:91-101 | two consecutive pages make up the page of their combined size |
| Repository.OwnedByExactly | internal/repository/memory_repository.go:239-244 | the filter keeps only stored transactions of the customer and drops none of theirs |
| Repository.FirstWithEmail | internal/repository/memory_repository.go:61-65 | the first visited customer with the email, no earlier one having it |
| Repository.FirstOfCustomer | internal/repository/memory_repository.go:198-209 | the first visited cart of the customer, no earlier one being theirs |
| Repository.FirstWithEmailIs | internal/repository/memory_repository.go:61-65 | a match after only non-matches is the first match |
| Repository.FirstOfCustomerIs | internal/repository/memory_repository.go:198-209 | a match after only non-matches is the first match |
| Repository.SeedContents | internal/repository/memory_repository.go:264-336 | the seed has five products with stock 10, 50, 100, 25 and 15 and one customer with 500 points, each stored under its own id |
| Repository.MemoryRepository.constructor | internal/repository/memory_repository.go:20-31 | empty carts and transactions, the seeded products and customers, every record under its own id |
| Repository.MemoryRepository.CreateCustomer | internal/repository/memory_repository.go:33-43 | the customers become `Inserted` of the old ones and the error is its error; the other tables do not change |
| Repository.MemoryRepository.GetCustomer | internal/repository/memory_repository.go:45-55 | the stored customer exactly when the id is present, otherwise "customer not found" under `NOT_FOUND` |
| Repository.MemoryRepository.GetCustomerByEmail | internal/repository/memory_repository.go:57-68 | "not found" exactly when no customer has the email; otherwise the first one in visiting order that has it |
| Repository.MemoryRepository.UpdateCustomer | internal/repository/memory_repository.go:70-80 | the customers become `Replaced` of the old ones and the error is its error; the other tables do not change |
| Repository.MemoryRepository.ListCustomers | internal/repository/memory_repository.go:82-102 | the page of all customers in visiting order |
| Repository.MemoryRepository.CreateProduct | internal/repository/memory_repository.go:104-114 | the products become `Inserted` of the old ones and the error is its error; the other tables do not change |
| Repository.MemoryRepository.GetProduct | internal/repository/memory_repository.go:116-126 | the stored product exactly when the id is present, otherwise "product not found" under `NOT_FOUND` |
| Repository.MemoryRepository.UpdateProduct | internal/repository/memory_repository.go:128-138 | the products become `Replaced` of the old ones and the error is its error; the other tables do not change |
| Repository.MemoryRepository.ListProducts | internal/repository/memory_repository.go:140-160 | the page of all products in visiting order |
| Repository.MemoryRepository.CreateCart | internal/repository/memory_repository.go:162-172 | the carts become `Inserted` of the old ones and the error is its error; the other tables do not change |
| Repository.MemoryRepository.GetCart | internal/repository/memory_repository.go:174-184 | the stored cart exactly when the id is present, otherwise "cart not found" under `NOT_FOUND` |
| Repository.MemoryRepository.UpdateCart | internal/repository/memory_repository.go:186-196 | the carts become `Replaced` of the old ones and the error is its error; the other tables do not change |
| Repository.MemoryRepository.GetCartByCustomer | internal/repository/memory_repository.go:198-209 | "not found" exactly when the customer has no cart; otherwise their first cart in visiting order |
| Repository.MemoryRepository.CreateTransaction | internal/repository/memory_repository.go:211-221 | the transactions become `Inserted` of the old ones and the error is its error; the other tables do not change |
| Repository.MemoryRepository.GetTransaction | internal/repository/memory_repository.go:223-233 | the stored transaction exactly when the id is present, otherwise "transaction not found" under `NOT_FOUND` |
| Repository.MemoryRepository.ListTransactionsByCustomer | internal/repository/memory_repository.go:235-257 | the page of the customer's transactions in visiting order, each stored and theirs |
| Repository.Collect | internal/repository/memory_repository.go:86-89 | the copy loop produces the entries in visiting order |
| Repository.Paginate | internal/repository/memory_repository.go:91-101 | the slicing produces the page |
| Services.Availability | internal/service/inventory_service.go:21-37 | a missing product's "not found" error, otherwise whether the stock covers the quantity |
| Services.ShortageError | internal/service/inventory_service.go:45-50 | an inventory error |
| Services.Reserved | internal/service/inventory_service.go:39-65 | fails exactly for a missing product ("not found") or a stock short of the quantity (an inventory error naming both); otherwise only that product's stock falls by the quantity, staying non-negative |
| Services.Released | internal/service/inventory_service.go:67-86 | fails exactly for a missing product; otherwise the quantity is added back unconditionally and no other product changes |
| Services.ReserveThenReleaseRestores | internal/service/inventory_service.go:39-86 | releasing what was just reserved restores every product exactly |
| Services.ReserveAgreesWithAvailability | internal/service/inventory_service.go:21-65 | a reservation succeeds exactly when the availability check says yes |
| Services.InventoryService.constructor | internal/service/inventory_service.go:17-19 | a service over the given repository |
| Services.InventoryService.CheckAvailability | internal/service/inventory_service.go:21-37 | answers as `Availability` on the stored products |
| Services.InventoryService.ReserveStock | internal/service/inventory_service.go:39-65 | the stored products become `Reserved` of the old ones, the error is its error, and no other table changes |
| Services.InventoryService.ReleaseStock | internal/service/inventory_service.go:67-86 | the stored products become `Released` of the old ones, the error is its error, and no other table changes |
| Services.WithPoints | internal/service/customer_service.go:24-44 | a missing customer is "not found"; otherwise only that customer's balance moves by the earned minus the redeemed points |
| Services.RedeemingPastZero | internal/service/customer_service.go:30 | redeeming 150 points from a balance of 100 is not refused and leaves -50 |
| Services.PointUpdatesCompose | internal/service/customer_service.go:30 | two updates of one customer equal one update with the summed amounts |
| Services.CustomerService.constructor | internal/service/customer_service.go:16-18 | a service over the given repository |
| Services.CustomerService.UpdateLoyaltyPoints | internal/service/customer_service.go:24-44 | the stored customers become `WithPoints` of the old ones, the error is its error, and no other table changes |
| Services.EditedCarts | internal/service/cart_service.go:51-135 | a missing cart is "not found"; otherwise only that cart changes, its lines edited as the matching cart method does and its update time set to now |
| Services.ClearedCartIsEmpty | internal/service/cart_service.go:116-134 | a cleared stored cart has no lines, a zero total and a zero item count |
| Services.AddingNewProductAppendsLine | internal/service/cart_service.go:51-71 | adding a product the stored cart lacks appends one line at the product's price |
| Services.CartService.constructor | internal/service/cart_service.go:17-19 | a service over the given repository |
| Services.CartService.CreateCart | internal/service/cart_service.go:21-40 | an empty cart for the customer created now under the new id, refused with "already exists" when the id is taken; nothing else changes |
| Services.CartService.GetOrCreateCart | internal/service/cart_service.go:42-49 | the customer's stored cart when they have one, otherwise a new empty cart; no other table changes |
| Services.CartService.Edit | internal/service/cart_service.go:51-71 | the stored carts become `EditedCarts` of the old ones and the error is its error; no other table changes |
| Services.CartService.AddItem | internal/service/cart_service.go:51-71 | the stored carts become the old ones with the product added to that cart |
| Services.CartService.RemoveItem | internal/service/cart_service.go:73-92 | the stored carts become the old ones with the product's line removed from that cart |
| Services.CartService.UpdateQuantity | internal/service/cart_service.go:94-114 | the stored carts become the old ones with the product's quantity set in that cart |
| Services.CartService.ClearCart | internal/service/cart_service.go:116-134 | the stored carts become the old ones with that cart emptied |
| Observers.EventType.Text | internal/observer/observer.go:12-19 | a type outside the four known ones keeps its own name |
| Observers.Cents | internal/observer/metrics_collector.go:59-62 | the amount in cents truncated toward zero, within the unsigned 64-bit range |
| Observers.AddCents | internal/observer/metrics_collector.go:59-62 | the total stays within 64 bits and is the plain sum whenever that fits |
| Observers.Incremented | internal/observer/metrics_collector.go:64-74 | the method's counter goes up by one, starting from 0 when absent, and every other counter stays |
| Observers.Report | internal/observer/metrics_collector.go:116-131 | the success and failure counts and the per-method counts as held, and the total in currency units |
| Observers.MetricsCollector.Name | internal/observer/metrics_collector.go:55-57 | "metrics_collector" |
| Observers.MetricsCollector.constructor | internal/observer/metrics_collector.go:23-29 | every counter at zero and no per-method counts |
| Observers.MetricsCollector.Notify | internal/observer/metrics_collector.go:31-53 | the counters become `Collected` of the old ones, and the collector never reports an error |
| Observers.MetricsCollector.AddAmount | internal/observer/metrics_collector.go:59-62 | only the total changes, by the wrapping 64-bit addition of the cents |
| Observers.MetricsCollector.IncrementPaymentMethodCount | internal/observer/metrics_collector.go:64-74 | only the per-method counts change, as `Incremented` says |
| Observers.MetricsCollector.GetMetrics | internal/observer/metrics_collector.go:116-131 | the report of the current counters |
| Observers.MetricsCollector.Reset | internal/observer/metrics_collector.go:133-143 | every counter back to zero and no per-method counts |
| Observers.SumOfRemove | internal/observer/metrics_collector.go:64-74 | the sum of a map's counters is one entry plus the sum of the rest |
| Observers.SumOfIncremented | internal/observer/metrics_collector.go:64-74 | raising one method's counter raises the sum of the counters by one |
| Observers.SuccessCounted | internal/observer/metrics_collector.go:38-41 | a success adds one success, no failure, its truncated cents modulo 2^64 and one to its method's counter, leaving other methods alone |
| Observers.FailureCountedAlone | internal/observer/metrics_collector.go:43-44 | a failure changes only the failure count, by one |
| Observers.StartedChangesNothing | internal/observer/metrics_collector.go:37-48 | a started event, or any type the switch does not name, changes no counter |
| Observers.CollectedKeepsBalance | internal/observer/metrics_collector.go:37-48 | counting keeps the per-method counts summing to the successes and the total within 64 bits |
| Observers.ResetIsBalanced | internal/observer/metrics_collector.go:133-143 | the reset state keeps that invariant |
| Observers.RateLimitError | internal/observer/sms_notifier.go:70-72 | a plain error, not one of the application's coded errors |
| Observers.SmsMessage | internal/observer/sms_notifier.go:84-105 | every message quotes the first eight characters of the transaction id, at the end or, for a failure, before the closing request |
| Observers.SmsNotifier.constructor | internal/observer/sms_notifier.go:20-26 | the provider and limit as given and no recorded messages |
| Observers.SmsNotifier.Name | internal/observer/sms_notifier.go:53-55 | "sms_notifier" |
| Observers.SmsNotifier.CheckRateLimit | internal/observer/sms_notifier.go:57-75 | the window keeps only the messages of the last minute, and the call is refused exactly when the window is full |
| Observers.SmsNotifier.RecordMessage | internal/observer/sms_notifier.go:77-82 | the send instant is appended |
| Observers.SmsNotifier.Notify | internal/observer/sms_notifier.go:28-51 | returns `SmsDelivery` of the old window (refused when full, a panic for an id under eight characters, the send's error wrapped, delivered otherwise) and leaves `SmsRecorded`: the pruned window, plus the send instant only when delivered |
| Observers.AfterKeepsLater | internal/observer/sms_notifier.go:61-67 | pruning keeps a window whose messages are all recent |
| Observers.NonPositiveLimitRefusesAll | internal/observer/sms_notifier.go:70-72 | a limit of zero or less refuses every message and records nothing |
| Observers.DeliveredStaysWithinLimit | internal/observer/sms_notifier.go:57-82 | after a delivered message the window holds at least one and at most the limit of messages |
| Observers.UndeliveredRecordsNothing | internal/observer/sms_notifier.go:34-44 | a message that did not go out records nothing, so the window only shrinks |
| Observers.FirstNamed | internal/observer/observer.go:64-65 | the first observer with the name, none earlier having it |
| Observers.Subject.constructor | internal/observer/observer.go:43-47 | no observers |
| Observers.Subject.Attach | internal/observer/observer.go:49-58 | the observer is appended, even when already present |
| Observers.Subject.Detach | internal/observer/observer.go:60-74 | the first observer with the same name is removed |
| Observers.Subject.Notify | internal/observer/observer.go:76-121 | the list is unchanged; each collector counts the event once per time it is attached and each SMS notifier handles it once per time it is attached, whatever any of them returns |
| Observers.Deliver | internal/observer/observer.go:88-113 | one delivery keeps every collector and notifier at one handling per visit so far |
| Observers.DeliverToCollector | internal/observer/observer.go:101 | a delivery to a collector adds one count for that collector |
| Observers.DeliverToNotifier | internal/observer/observer.go:101 | a delivery to a notifier adds one handling for that notifier |
| Observers.CollectorsSkip | internal/observer/observer.go:88-113 | a delivery elsewhere leaves every collector's count of visits |
| Observers.NotifiersSkip | internal/observer/observer.go:88-113 | a delivery elsewhere leaves every notifier's count of visits |
| Observers.VisitsStep | internal/observer/observer.go:88-113 | one more delivery adds one visit to its observer and none to any other |
| Observers.DetachedAt | internal/observer/observer.go:64-73 | detaching removes exactly the first observer with the name |
| Observers.CollectorVisitsAppend | internal/observer/observer.go:88 | visits to two lists add up |
| Observers.DetachMatchesByName | internal/observer/observer.go:64-73 | the first observer with the name leaves, whoever it is, and the list shrinks by one exactly when one has it |
| Observers.EachAttachedOnceSeesOnce | internal/observer/observer.go:76-121 | two different collectors attached once each see the event once each |
| Currency.Rate | internal/cli/commands/debit.go:14-20 | a positive rate for each listed code, and 0 for any other, as a missing key of the table reads |
| Currency.ConvertCodes | internal/cli/commands/debit.go:112-117 | the amount itself between equal codes; a non-finite result exactly when the target is unlisted; 0 from an unlisted source |
| Currency.Convert | internal/cli/commands/debit.go:108-118 | both codes are upper-cased first, so codes equal up to case return the amount; non-finite exactly for a different, unlisted target |
| Currency.ConvertKeepsValue | internal/cli/commands/debit.go:116-117 | between different codes the result is worth, in tenge, what the amount was worth |
| Currency.RoundTrip | internal/cli/commands/debit.go:108-118 | between listed currencies, converting there and back gives the amount again |
| Currency.ToTengeMultiplies | internal/cli/commands/debit.go:116 | converting to tenge multiplies by the source rate |
| Currency.PivotsThroughTenge | internal/cli/commands/debit.go:116-117 | a conversion equals going to tenge first and then on to the target |
| Currency.DollarInTenge | internal/cli/commands/debit.go:14-20 | one dollar is 538 tenge, whatever the case of the codes |
| Checkout.InventoryCheck | internal/facade/checkout_facade.go:147-164 | passes exactly when every line's product exists with at least the line's quantity in stock; a failure is an `INVENTORY_ERROR` |
| Checkout.ReserveAll | internal/facade/checkout_facade.go:166-176 | the lines are reserved in order, the first refusal stops the loop with an `INVENTORY_ERROR` and keeps earlier reservations; no product appears or disappears |
| Checkout.ReleaseAll | internal/facade/checkout_facade.go:178-189 | every line is released, a missing product is skipped, and no product appears or disappears |
| Checkout.ReserveAllEffect | internal/facade/checkout_facade.go:166-176 | a reservation that goes through takes each product's whole demand off its stock and changes nothing else |
| Checkout.ReleaseAllEffect | internal/facade/checkout_facade.go:178-189 | a rollback gives every product back its whole demand |
| Checkout.ReleaseUndoesReserve | internal/facade/checkout_facade.go:89-93 | rolling back a reservation that went through restores every product exactly |
| Checkout.CheckedDistinctReserves | internal/facade/checkout_facade.go:81-87 | lines that pass validation and name distinct products are all reserved |
| Checkout.SplitLinesPassCheckAndLeak | internal/facade/checkout_facade.go:85-87 | two lines of one product pass validation line by line, the reservation then refuses the second, and the first line's stock stays taken because a reservation failure is not rolled back |
| Checkout.CheckoutConfig | internal/facade/checkout_facade.go:191-213 | the fixed credentials for each known method; an unknown method gets an empty configuration |
| Checkout.CheckoutConfigComplete | internal/facade/checkout_facade.go:191-213 | every supported method's configuration has all the fields its factory requires; an unsupported method fails as `INVALID_PAYMENT` |
| Checkout.StrategyFor | internal/facade/checkout_facade.go:233-258 | an empty strategy name gives the instant strategy with its default limits; any strategy built can be run again by the retry loop |
| Checkout.Attempts | internal/facade/checkout_facade.go:260-290 | one attempt per environment, each on the histories the chain's fraud detectors held before the loop |
| Checkout.Decisive | internal/facade/checkout_facade.go:260-290 | the attempt the loop stops at: no earlier attempt succeeds or stops the loop, and unless it is the last attempt it does |
| Checkout.UndecidedStep | internal/facade/checkout_facade.go:260-290 | an attempt that neither succeeds nor stops the loop extends the undecided prefix |
| Checkout.DecisiveIs | internal/facade/checkout_facade.go:260-290 | the first deciding attempt, or the last one, is the loop's stopping point |
| Checkout.AttemptErrorsNeverStop | internal/facade/checkout_facade.go:281-286 | an instant or deferred attempt's error is never a fraud or invalid-payment error, so the loop's early exit on those never fires |
| Checkout.Retried | internal/facade/checkout_facade.go:266-289 | the loop's result is one attempt's outcome: the first success or stopping error, or the last attempt's outcome when none comes before it |
| Checkout.RetriedIsFirstSuccessOrLast | internal/facade/checkout_facade.go:260-290 | with no stopping errors, the loop succeeds exactly when some attempt succeeds, then with the first success, and otherwise returns the last attempt's error |
| Checkout.RunAttempt | internal/facade/checkout_facade.go:276-279 | one call of the strategy returns attempt `i` of the specified attempts and records in the fraud detectors only when it succeeds |
| Checkout.ExecuteWithRetry | internal/facade/checkout_facade.go:260-290 | up to `retryAttempts + 1` attempts return the deciding attempt's outcome; a negative count returns neither result nor error; only a success changes the detectors' histories |
| Checkout.MetaReal | internal/facade/checkout_facade.go:345-353 | the `float64` stored under a key, else 0 |
| Checkout.MetaInt | internal/facade/checkout_facade.go:354-356 | the `int` stored under a key, else 0 |
| Checkout.LoyaltyUpdate | internal/facade/checkout_facade.go:292-318 | with no points earned or redeemed the customers are left unchanged |
| Checkout.LoyaltyUpdateMovesBalance | internal/facade/checkout_facade.go:292-318 | only the paying customer's balance changes, by earned minus redeemed, and only when either is positive |
| Checkout.LinesAddUp | internal/facade/checkout_facade.go:320-376 | receipt lines built from the cart's lines add up to the cart's total |
| Checkout.LinesOf | internal/facade/checkout_facade.go:326-337 | one receipt line per cart line, in order |
| Checkout.ReceiptOf | internal/facade/checkout_facade.go:320-376 | `generateReceipt`: the total is what the payment charged, not a sum recomputed from the adjustments; the customer and transaction are the checkout's; the lines, subtotal and applied decorators are copied; discount, tax and cashback are the metadata's float values and loyalty points its int value, each 0 when missing or of another type |
| Checkout.ReceiptOfCart | internal/facade/checkout_facade.go:320-376 | a paid cart's receipt has one line per cart line; the lines add up to the subtotal, which is the cart's total; the total is the charge |
| Checkout.ReceiptAddsUp | internal/facade/checkout_facade.go:320-376 | the receipt's subtotal equals the sum of its lines |
| Checkout.ReceiptLines | internal/facade/checkout_facade.go:326-337 | the loop builds exactly the receipt's lines |
| Checkout.CompletedTransaction | internal/facade/checkout_facade.go:120-125 | the stored transaction is completed, keeps its id and its amount |
| Checkout.Reported | internal/facade/checkout_facade.go:378-403 | every stage failure is returned as `PAYMENT_FAILED` wrapping the stage's error |
| Checkout.ReportedHidesStageCode | internal/facade/checkout_facade.go:378-403 | an inventory error is no longer recognised as one after reporting, but one unwrap recovers it |
| Checkout.StartedEvent | internal/facade/checkout_facade.go:72-79 | a payment-started event for the transaction |
| Checkout.SucceededEvent | internal/facade/checkout_facade.go:129-137 | a success event for the transaction carrying the amount the payment charged |
| Checkout.FailedEvent | internal/facade/checkout_facade.go:378-403 | a failure event for the transaction carrying the stage's error |
| Checkout.FailureOf | internal/facade/checkout_facade.go:147-164 | an error exactly when the check failed, and then the check's error |
| Checkout.CheckoutFacade.constructor | internal/facade/checkout_facade.go:32-47 | the inventory and customer services share the facade's repository |
| Checkout.CheckoutFacade.ValidateInventory | internal/facade/checkout_facade.go:147-164 | returns the inventory check's error, if any |
| Checkout.CheckoutFacade.ReserveInventory | internal/facade/checkout_facade.go:166-176 | the repository's products become the reservation's result, its error is returned, and nothing else in the repository changes |
| Checkout.CheckoutFacade.RollbackInventory | internal/facade/checkout_facade.go:178-189 | the repository's products become the rollback's result and nothing else changes |
| Checkout.CheckoutFacade.BuildPayment | internal/facade/checkout_facade.go:191-231 | the instrument's error, the first failing decorator's error, or a well-formed chain around the instrument with the enabled decorators in order, each layer configured from the settings, the options and the customer; its fraud detectors are new and have recorded nothing |
| Checkout.CheckoutFacade.ExecutePaymentStrategy | internal/facade/checkout_facade.go:233-258 | the strategy factory's error, or the retried attempts' deciding outcome on the detectors' histories before the call; a successful run records the deciding attempt's time in every detector of the chain, a failed one changes none |
| Checkout.CheckoutFacade.Pay | internal/facade/checkout_facade.go:89-105 | the build's error under its stage's message, or the strategy run on the built chain from empty histories; the chain's detectors end with the histories the run leaves |
| Checkout.CheckoutFacade.Conclude | internal/facade/checkout_facade.go:89-137 | a failed payment releases the reservation and reports the failure; a paid one is fulfilled |
| Checkout.CheckoutFacade.Complete | internal/facade/checkout_facade.go:107-137 | the loyalty update, the receipt from the cart's lines and the payment, the completed transaction stored, the cart emptied and a success event |
| Checkout.CheckoutFacade.Settle | internal/facade/checkout_facade.go:89-137 | the payment stages as `Pay` states them, with the histories they leave, then a rollback or a fulfilled order |
| Checkout.CheckoutFacade.ReserveAndSettle | internal/facade/checkout_facade.go:85-137 | a failed reservation keeps what it reserved and is reported; otherwise the payment stages, as `Settle` states them, settle the order |
| Checkout.CheckoutFacade.ValidateAndSettle | internal/facade/checkout_facade.go:81-137 | a failed validation changes nothing and is reported; otherwise the reservation and payment stages decide as `ReserveAndSettle` states |
| Checkout.CheckoutFacade.ProcessOrder | internal/facade/checkout_facade.go:49-145 | a started event for the pending transaction, then exactly one more event; a failed validation changes nothing, a failed payment releases the stock, a paid order stores the completed transaction, moves the loyalty balance, empties the cart and returns the receipt; the chain it built, the strategy run and the detectors' histories before and after it are those the stages state |
| Text.RemoveAll | pkg/validator/validator.go:17-18 | every occurrence of the removed character goes and every other character stays as often as it occurs; text without it is unchanged |
| Text.RemoveAllAppend | pkg/validator/validator.go:17-18 | removal keeps the order of what stays: removing from a concatenation concatenates the pieces |
| Text.ToUpper | internal/payment/crypto.go:24 | every letter is upper-cased in place and the length is kept; text without lower-case letters is unchanged |
| Text.NatToString | internal/strategy/split.go:69 | `%d` of a natural number is a non-empty run of digits |
| Text.ParseNatToString | internal/strategy/split.go:69 | reading the digits back gives the number again |
| Text.IntToString | internal/decorator/fraud_detection.go:56 | `%d` of an integer is non-empty and starts with a minus sign exactly for a negative number |
| Text.Trunc | internal/decorator/loyalty_points.go:68 | Go's `int(x)` truncates toward zero: below a non-negative value by less than 1, above a negative one by less than 1 |
| Text.RoundCents | pkg/validator/validator.go:136 | the amount in cents rounded to within half a cent |
| Text.Fixed2 | pkg/validator/validator.go:136 | `%.2f` renders two digits after the decimal point |
| Text.Fixed2ReadsBack | pkg/validator/validator.go:136 | `%.2f` reads back: a minus sign exactly for negative rounded cents, then digits that, with the point dropped, spell the rounded number of cents |

## Left out

- Goroutines, locks, `sync.WaitGroup` and panic recovery are not modelled. `ProcessOrder` returns the two events it emits instead of handing them to a goroutine. `Subject.Notify` delivers to its snapshot of observers one after another. An observer's panic is a `Panicked` delivery that the subject swallows.
- Logging, `time.Sleep` between retries and the retry delay have no observable effect on the state and are left out.
- The metrics export (`maybeExportMetrics` and `exportMetrics`) writes files and is left out.
- The email, audit-log and webhook observers are left out because they are a worker pool, file writes and HTTP calls. They appear only as named observers that receive events.
- The SQLite and file repositories, configuration loading, the CLI commands other than `convertCurrency`, and the logger are not part of this model.
- `TransactionService` passes straight through to the repository, so the facade's transaction writes are modelled as repository calls.
- `CustomerService.GetCustomer` is the repository's `GetCustomer`, which `Repository.Found` states.
- `GetSupportedTypes`, `GetSupportedStrategies` and the slices they build depend on Go's map iteration order. The sets they enumerate are `Factories.IsSupportedPayment` and `Factories.IsSupportedStrategy`.
- `AppError.WithDetails` is not modelled: no operation of the checkout attaches details to an error.
- The repository's `Close` does nothing and is left out.
- The Go maps hold pointers, so a caller could change a stored record without an `Update*` call. The model stores values, and every change goes through the operation that makes it.
- Float64 rounding is not modelled: amounts are exact reals.
- `Services.InventoryService.ReserveStock` and `Services.CustomerService.UpdateLoyaltyPoints` use unbounded integers for stock and points, so Go's `int` overflow is not modelled.
- `Currency.Convert`: a target code missing from the rate table divides by a zero rate. In float64 that gives an infinity or NaN, which the model returns as `None`.
- `Observers.MetricsCollector.Notify` requires the event's amount to convert to a `uint64` of cents (`Recordable`). Converting a negative float to `uint64`, as the refund branch does for positive amounts, has no defined result in Go.
- `Observers.SmsMessage` requires a transaction id of at least eight characters, the characters the message quotes. For a shorter id, `Observers.SmsNotifier.Notify` returns `Panicked`, standing for the panic of the Go slice expression.
- `Validator.ValidateExpiryDate` does not compare the date with the clock, because the source does not either.
- `Decorators.Process` requires a well-formed chain (`Decorators.WellFormed`). No two fraud layers of one chain may share a detector, which holds for every chain the factory builds because each fraud layer allocates its own. No loyalty layer may have a zero points-to-currency ratio, which would make Go's float division infinite or NaN.
- `Strategies.ExecuteSplit` requires that no two parts share a fraud detector, so one part's recording cannot change what a later part does. Parts built by the factory always meet this.
- `Checkout.CheckoutFacade.ProcessOrder` requires `retryAttempts >= 0`. With a negative count the Go `executeWithRetry` returns neither a result nor an error, and `ProcessOrder` then dereferences a nil result. `Checkout.ExecuteWithRetry` models that case itself.
- `Checkout.CheckoutFacade.ProcessOrder` requires the loyalty configuration's points-to-currency ratio to be non-zero, for the reason given for `Decorators.Process`.
- `Checkout.CheckoutFacade.ProcessOrder` takes one clock reading and one timestamp for the whole checkout, where the Go code calls `time.Now()` at each stage.
- The transaction `handleError` marks as failed is never stored, so the model does not keep it. The error it returns and the failure event are modelled.
- `Checkout.CheckoutConfigComplete` states that every supported method's fixed credentials have all the fields its factory requires. It does not state that the credentials pass the card, e-mail and wallet validators.
- A reservation that fails partway keeps the stock of the lines reserved before it (`Checkout.SplitLinesPassCheckAndLeak`). The fraud detector's `FRAUD_DETECTED` error is rewrapped as `PAYMENT_FAILED` before the retry loop sees it, so the loop's early exit never fires (`Checkout.AttemptErrorsNeverStop`). Both are what the Go code does, and the model keeps them.
- `Strategies.ExecuteDeferred` and `Strategies.CreateDeferredSchedule` require a positive and a non-negative installment count respectively. Go's `NewDeferredPaymentStrategy` accepts any count. With a negative count `CreateDeferredSchedule` panics in `make` (internal/strategy/strategy.go:60). With 0, `Execute` panics at `schedule.Payments[0]`, or returns the amount error first when the amount is out of range (internal/strategy/deferred.go:36-43). The model represents neither panic. `Factories.CreateStrategy` builds only counts from 2 to 12, so a checkout never reaches these inputs.
- `Repository.Page`, `Repository.Paginate`, `Repository.MemoryRepository.ListCustomers`, `Repository.MemoryRepository.ListProducts` and `Repository.MemoryRepository.ListTransactionsByCustomer` require `PageDefined`. This excludes a negative offset, and a negative limit with the offset inside the list. On those inputs the Go slice expression `[start:end]` panics (internal/repository/memory_repository.go:91-101, 149-160, 248-258), and the model does not represent the panic.
- `Text.ToUpper` upper-cases ASCII letters only; Go's Unicode case mapping is not modelled.
- `Validator.ValidateCVV`, `Validator.ValidatePhone`, `Validator.ValidateBitcoinAddress`, `Validator.ValidateEthereumAddress`, `Validator.CardNumberOutcome`, `Payments.LastFourDigits`, `Payments.MaskWalletAddress` and `Observers.SmsMessage` count one character as one byte, which is exact for ASCII text only. Go's `len` and slice expressions count bytes, so a non-ASCII input such as the CVV `"1é"` (three bytes, two characters) is measured differently.
- `Decorators.Process` passes one `Env` to every layer of a chain, so all fraud layers of one attempt see the same two random draws and the same clock reading. The Go fraud detector draws `rand.Intn` afresh in each layer and calls `time.Now()` separately for the velocity cutoff and for the recorded instant. So with the fraud decorator requested twice, the model cannot have one layer pass the geolocation check while the other fails it.
- `Checkout.CheckoutFacade.Complete`, `Checkout.CheckoutFacade.Conclude`, `Checkout.CheckoutFacade.Settle`, `Checkout.CheckoutFacade.ReserveAndSettle`, `Checkout.CheckoutFacade.ValidateAndSettle` and `Checkout.CheckoutFacade.ProcessOrder` leave `repo.carts` unchanged. In Go the cart handed to `ProcessOrder` is the pointer the memory repository stores, so `cart.Clear()` also empties the stored cart. The model's repository holds cart values, so a stored cart keeps its lines after a paid checkout, and a second checkout of that stored cart would charge it again.
