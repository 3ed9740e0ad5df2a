/**
 * Payment strategies (internal/strategy): instant, deferred (the first of N
 * equal installments is charged now) and split (several payments, each for
 * its part, charged in order), and the `PaymentContext` that holds one.
 *
 * Each strategy's outcome is described by a function of the state before
 * the call. A split payment is charged part by part, so its description
 * works on a snapshot of every part's outcome taken before the first part
 * runs; the parts must not share a fraud detector, so that one part's
 * recording cannot change what a later part would do.
 */
module Strategies {
  import opened AppErrors
  import opened Text
  import Domain
  import Validator
  import Payments
  import Decorators

  // ---------------------------------------------------------------- deferred schedules

  datatype Installment = Installment(installmentNumber: int, amount: real, dueDate: string, status: string)

  datatype Schedule = Schedule(
    id: string, totalAmount: real, installments: int, interestRate: real, payments: seq<Installment>)

  /** The amount with interest, shared equally between the installments. */
  function InstallmentAmount(amount: real, installments: int, interestRate: real): real
    requires installments > 0
  {
    amount * (1.0 + interestRate / 100.0) / installments as real
  }

  /**
   * `CreateDeferredSchedule`: N pending installments numbered 1..N, each the
   * same share of the amount with interest; the total recorded is the amount
   * before interest.
   */
  method CreateDeferredSchedule(amount: real, installments: int, interestRate: real, id: string)
    returns (s: Schedule)
    requires installments >= 0
    ensures s.id == id && s.totalAmount == amount && s.installments == installments
    ensures s.interestRate == interestRate && |s.payments| == installments
    ensures forall k :: 0 <= k < |s.payments| ==>
      s.payments[k] == Installment(k + 1, InstallmentAmount(amount, installments, interestRate), "", "pending")
  {
    var payments: seq<Installment> := [];
    var i := 0;
    while i < installments
      invariant 0 <= i <= installments && |payments| == i
      invariant forall k :: 0 <= k < i ==>
        payments[k] == Installment(k + 1, InstallmentAmount(amount, installments, interestRate), "", "pending")
    {
      payments := payments + [Installment(i + 1, InstallmentAmount(amount, installments, interestRate), "", "pending")];
      i := i + 1;
    }
    s := Schedule(id, amount, installments, interestRate, payments);
  }

  function InstallmentsTotal(ps: seq<Installment>): real
  {
    if ps == [] then 0.0 else InstallmentsTotal(ps[..|ps| - 1]) + ps[|ps| - 1].amount
  }

  lemma {:induction false} EqualInstallmentsTotal(ps: seq<Installment>, x: real)
    requires forall k :: 0 <= k < |ps| ==> ps[k].amount == x
    ensures InstallmentsTotal(ps) == |ps| as real * x
  {
    if ps != [] {
      EqualInstallmentsTotal(ps[..|ps| - 1], x);
    }
  }

  /** The installments of a schedule add up to the amount with interest. */
  lemma ScheduleCoversTotal(amount: real, installments: int, interestRate: real, ps: seq<Installment>)
    requires installments > 0 && |ps| == installments
    requires forall k :: 0 <= k < |ps| ==> ps[k].amount == InstallmentAmount(amount, installments, interestRate)
    ensures InstallmentsTotal(ps) == amount * (1.0 + interestRate / 100.0)
  {
    EqualInstallmentsTotal(ps, InstallmentAmount(amount, installments, interestRate));
  }

  // ---------------------------------------------------------------- strategies

  datatype SplitItem = SplitItem(payment: Decorators.Payment, amount: real)

  datatype Strategy =
    | Instant(minAmount: real, maxAmount: real)
    | Deferred(minAmount: real, maxAmount: real, installments: int, interestRate: real)
    | Split(parts: seq<SplitItem>)

  function GetName(s: Strategy): (name: string)
    ensures s.Instant? <==> name == "instant"
    ensures s.Deferred? ==> name == "deferred_" + IntToString(s.installments) + "_installments"
    ensures s.Split? ==> name == "split_" + NatToString(|s.parts|) + "_methods"
  {
    match s
    case Instant(_, _) => "instant"
    case Deferred(_, _, n, _) => "deferred_" + IntToString(n) + "_installments"
    case Split(parts) => "split_" + NatToString(|parts|) + "_methods"
  }

  /** `NewSplitPaymentStrategy`: one to five parts. */
  function NewSplitPaymentStrategy(parts: seq<SplitItem>): (r: Result<Strategy>)
    ensures r.Ok? <==> 1 <= |parts| <= 5
    ensures r.Ok? ==> r.value == Split(parts)
    ensures r.Err? ==> IsErrorCode(r.error, Validation)
  {
    if |parts| == 0 then Err(NewValidationError("at least one payment method is required"))
    else if |parts| > 5 then Err(NewValidationError("maximum 5 payment methods allowed for split payment"))
    else Ok(Split(parts))
  }

  /** The index of the first part whose amount is not positive, or the number of parts. */
  function FirstNonPositive(parts: seq<SplitItem>): (k: nat)
    ensures k <= |parts|
    ensures forall j :: 0 <= j < k ==> parts[j].amount > 0.0
    ensures k < |parts| ==> parts[k].amount <= 0.0
  {
    if parts == [] then 0 else if parts[0].amount <= 0.0 then 0 else 1 + FirstNonPositive(parts[1..])
  }

  /** The validation error for the part at index `k` (numbered from 1 in the message). */
  function PartAmountError(k: nat, amount: real): Error
  {
    NewValidationError("split payment part " + NatToString(k + 1) + " has invalid amount: " + Fixed2(amount))
  }

  /** What `ValidateAmount` decides; the instant and deferred errors are the validator's plain errors. */
  function AmountOutcome(s: Strategy, amount: real): (o: Outcome)
    ensures !s.Split? ==> (o.Pass? <==> s.minAmount <= amount <= s.maxAmount && amount >= 0.0)
    ensures !s.Split? && o.Fail? ==> AsApp(o.error).None?
    ensures s.Split? ==> (o.Pass? <==> amount > 0.0 && forall j :: 0 <= j < |s.parts| ==> s.parts[j].amount > 0.0)
    ensures s.Split? && o.Fail? ==> IsErrorCode(o.error, Validation)
  {
    match s
    case Instant(min, max) => Validator.ValidateAmount(amount, min, max)
    case Deferred(min, max, _, _) => Validator.ValidateAmount(amount, min, max)
    case Split(parts) =>
      if amount <= 0.0 then Fail(NewValidationError("amount must be positive"))
      else
        var k := FirstNonPositive(parts);
        if k < |parts| then
          Fail(PartAmountError(k, parts[k].amount))
        else Pass
  }

  /** `ValidateAmount`; the split variant scans its parts in order. */
  method ValidateAmount(s: Strategy, amount: real) returns (o: Outcome)
    ensures o == AmountOutcome(s, amount)
  {
    if !s.Split? {
      return Validator.ValidateAmount(amount, s.minAmount, s.maxAmount);
    }
    if amount <= 0.0 {
      return Fail(NewValidationError("amount must be positive"));
    }
    var parts := s.parts;
    var i := 0;
    while i < |parts|
      invariant 0 <= i <= |parts|
      invariant forall j :: 0 <= j < i ==> parts[j].amount > 0.0
    {
      if parts[i].amount <= 0.0 {
        assert FirstNonPositive(parts) == i by { FirstNonPositiveIs(parts, i); }
        return Fail(PartAmountError(i, parts[i].amount));
      }
      i := i + 1;
    }
    o := Pass;
  }

  lemma {:induction false} FirstNonPositiveIs(parts: seq<SplitItem>, i: nat)
    requires i < |parts| && parts[i].amount <= 0.0
    requires forall j :: 0 <= j < i ==> parts[j].amount > 0.0
    ensures FirstNonPositive(parts) == i
  {
    if i > 0 {
      FirstNonPositiveIs(parts[1..], i - 1);
    }
  }

  // ---------------------------------------------------------------- instant and deferred

  const PaymentStrategyKey := "payment_strategy"

  /** `Execute` of the instant strategy, when the chain's detectors hold the histories `h`. */
  function InstantOutcome(s: Strategy, p: Decorators.Payment, amount: real, env: Payments.Env, h: Decorators.Histories)
    : Result<Payments.ResultView>
    requires s.Instant? && Payments.ValidEnv(env) && Decorators.WellFormed(p) && Decorators.Detectors(p) <= h.Keys
  {
    var check := AmountOutcome(s, amount);
    if check.Fail? then Err(check.error)
    else
      match Decorators.ExpectedIn(p, amount, env, h)
      case Err(e) => Err(Wrap(e, PaymentFailed, "instant payment processing failed"))
      case Ok(v) => Ok(v.(metadata := v.metadata[PaymentStrategyKey := Domain.MStr("instant")]))
  }

  /** The entries the deferred strategy adds to a successful result. */
  function DeferredMetadata(s: Strategy, amount: real, env: Payments.Env): Domain.Metadata
    requires s.Deferred? && s.installments > 0
  {
    var first := InstallmentAmount(amount, s.installments, s.interestRate);
    map[PaymentStrategyKey := Domain.MStr("deferred"), "schedule_id" := Domain.MStr(env.scheduleId),
        "total_amount" := Domain.MReal(amount), "installments" := Domain.MInt(s.installments),
        "interest_rate" := Domain.MReal(s.interestRate), "first_installment" := Domain.MReal(first),
        "remaining_installments" := Domain.MInt(s.installments - 1)]
  }

  /** `Execute` of the deferred strategy, when the chain's detectors hold the histories `h`: only the first installment is charged. */
  function DeferredOutcome(s: Strategy, p: Decorators.Payment, amount: real, env: Payments.Env, h: Decorators.Histories)
    : Result<Payments.ResultView>
    requires s.Deferred? && s.installments > 0 && Payments.ValidEnv(env) && Decorators.WellFormed(p)
    requires Decorators.Detectors(p) <= h.Keys
  {
    var check := AmountOutcome(s, amount);
    if check.Fail? then Err(check.error)
    else
      var first := InstallmentAmount(amount, s.installments, s.interestRate);
      match Decorators.ExpectedIn(p, first, env, h)
      case Err(e) => Err(Wrap(e, PaymentFailed, "deferred payment processing failed"))
      case Ok(v) =>
        Ok(v.(originalAmount := amount, amount := first, processedAmount := first,
              metadata := v.metadata + DeferredMetadata(s, amount, env)))
  }

  method ExecuteInstant(s: Strategy, p: Decorators.Payment, amount: real, env: Payments.Env)
    returns (r: Payments.PaymentResult?, err: Option<Error>)
    requires s.Instant? && Payments.ValidEnv(env) && Decorators.WellFormed(p)
    modifies Decorators.Detectors(p)
    ensures Payments.Delivers(r, err,
      old(InstantOutcome(s, p, amount, env, Decorators.HistoriesOf(Decorators.Detectors(p)))))
    ensures r != null ==> fresh(r)
    ensures forall d :: d in Decorators.Detectors(p) && old(allocated(d)) ==>
      d.transactionHistory == if r != null then Decorators.Recorded(old(d.transactionHistory), env.now)
                              else old(d.transactionHistory)
  {
    Decorators.DetectorsAllocated(p);
    ghost var inner := Decorators.Expected(p, amount, env);
    var check := ValidateAmount(s, amount);
    if check.Fail? {
      return null, Some(check.error);
    }
    r, err := Decorators.Process(p, amount, env, Decorators.HistoriesOf(Decorators.Detectors(p)));
    assert Payments.Delivers(r, err, inner);
    if r == null {
      return null, Some(Wrap(err.value, PaymentFailed, "instant payment processing failed"));
    }
    r.metadata := r.metadata[PaymentStrategyKey := Domain.MStr("instant")];
  }

  method ExecuteDeferred(s: Strategy, p: Decorators.Payment, amount: real, env: Payments.Env)
    returns (r: Payments.PaymentResult?, err: Option<Error>)
    requires s.Deferred? && s.installments > 0 && Payments.ValidEnv(env) && Decorators.WellFormed(p)
    modifies Decorators.Detectors(p)
    ensures Payments.Delivers(r, err,
      old(DeferredOutcome(s, p, amount, env, Decorators.HistoriesOf(Decorators.Detectors(p)))))
    ensures r != null ==> fresh(r)
    ensures forall d :: d in Decorators.Detectors(p) && old(allocated(d)) ==>
      d.transactionHistory == if r != null then Decorators.Recorded(old(d.transactionHistory), env.now)
                              else old(d.transactionHistory)
  {
    Decorators.DetectorsAllocated(p);
    ghost var inner := Decorators.Expected(p, InstallmentAmount(amount, s.installments, s.interestRate), env);
    var check := ValidateAmount(s, amount);
    if check.Fail? {
      return null, Some(check.error);
    }
    var schedule := CreateDeferredSchedule(amount, s.installments, s.interestRate, env.scheduleId);
    var first := schedule.payments[0].amount;
    r, err := Decorators.Process(p, first, env, Decorators.HistoriesOf(Decorators.Detectors(p)));
    assert Payments.Delivers(r, err, inner);
    if r == null {
      return null, Some(Wrap(err.value, PaymentFailed, "deferred payment processing failed"));
    }
    MarkFirstInstallment(s, amount, first, env, r);
  }

  /** The deferred strategy's edits of the first installment's result: the schedule's metadata and the amounts. */
  method MarkFirstInstallment(s: Strategy, amount: real, first: real, env: Payments.Env, r: Payments.PaymentResult)
    requires s.Deferred? && s.installments > 0 && first == InstallmentAmount(amount, s.installments, s.interestRate)
    modifies r
    ensures r.View() == old(r.View()).(originalAmount := amount, amount := first, processedAmount := first,
                                       metadata := old(r.View()).metadata + DeferredMetadata(s, amount, env))
  {
    r.metadata := r.metadata + DeferredMetadata(s, amount, env);
    r.originalAmount := amount;
    r.amount := first;
    r.processedAmount := first;
  }

  /** With no interest and three installments the deferred strategy charges a third of the amount. */
  lemma DeferredChargesFirstThird(p: Decorators.Payment, amount: real, env: Payments.Env, h: Decorators.Histories,
                                  min: real, max: real)
    requires Payments.ValidEnv(env) && Decorators.WellFormed(p) && Decorators.Detectors(p) <= h.Keys
    ensures var s := Deferred(min, max, 3, 0.0);
      DeferredOutcome(s, p, amount, env, h).Ok? ==>
        DeferredOutcome(s, p, amount, env, h).value.amount == amount / 3.0 &&
        DeferredOutcome(s, p, amount, env, h).value.processedAmount == amount / 3.0 &&
        DeferredOutcome(s, p, amount, env, h).value.originalAmount == amount
  {
  }

  // ---------------------------------------------------------------- split

  /** The fraud detectors of the parts from the `i`-th on. */
  function PartsDetectorsFrom(parts: seq<SplitItem>, i: nat): set<Decorators.FraudDetector>
    requires i <= |parts|
    decreases |parts| - i
  {
    if i == |parts| then {} else Decorators.Detectors(parts[i].payment) + PartsDetectorsFrom(parts, i + 1)
  }

  /** The fraud detectors of all parts. */
  function PartsDetectors(parts: seq<SplitItem>): set<Decorators.FraudDetector>
  {
    PartsDetectorsFrom(parts, 0)
  }

  lemma {:induction false} PartDetectorsIncluded(parts: seq<SplitItem>, i: nat, j: nat)
    requires i <= j < |parts|
    ensures Decorators.Detectors(parts[j].payment) <= PartsDetectorsFrom(parts, i)
    decreases j - i
  {
    if i < j {
      PartDetectorsIncluded(parts, i + 1, j);
    }
  }

  lemma {:induction false} PartsDetectorsAllocated(parts: seq<SplitItem>, i: nat)
    requires i <= |parts|
    ensures forall d :: d in PartsDetectorsFrom(parts, i) ==> allocated(d)
    decreases |parts| - i
  {
    if i < |parts| {
      Decorators.DetectorsAllocated(parts[i].payment);
      PartsDetectorsAllocated(parts, i + 1);
    }
  }

  /** One world per part, every part a well-formed chain, and no detector shared by two parts. */
  predicate PartsReady(parts: seq<SplitItem>, envs: seq<Payments.Env>)
  {
    |envs| >= |parts| &&
    (forall j :: 0 <= j < |parts| ==> Payments.ValidEnv(envs[j]) && Decorators.WellFormed(parts[j].payment)) &&
    forall i, j :: 0 <= i < j < |parts| ==>
      Decorators.Detectors(parts[i].payment) !! Decorators.Detectors(parts[j].payment)
  }

  /** A part shares no detector with the parts after it. */
  lemma {:induction false} LaterPartsDisjoint(parts: seq<SplitItem>, envs: seq<Payments.Env>, i: nat, k: nat)
    requires PartsReady(parts, envs) && i < k <= |parts|
    ensures Decorators.Detectors(parts[i].payment) !! PartsDetectorsFrom(parts, k)
    decreases |parts| - k
  {
    if k < |parts| {
      LaterPartsDisjoint(parts, envs, i, k + 1);
    }
  }

  /** `h` holds a history for every detector of every part. */
  predicate Covers(parts: seq<SplitItem>, h: Decorators.Histories)
  {
    forall j :: 0 <= j < |parts| ==> Decorators.Detectors(parts[j].payment) <= h.Keys
  }

  lemma CoversNow(parts: seq<SplitItem>)
    ensures Covers(parts, Decorators.HistoriesOf(PartsDetectors(parts)))
  {
    forall j | 0 <= j < |parts|
      ensures Decorators.Detectors(parts[j].payment) <= PartsDetectors(parts)
    {
      PartDetectorsIncluded(parts, 0, j);
    }
  }

  /** What the parts return when their detectors hold the histories `h` gives them. */
  function SnapshotIn(parts: seq<SplitItem>, envs: seq<Payments.Env>, h: Decorators.Histories)
    : (outs: seq<Result<Payments.ResultView>>)
    requires PartsReady(parts, envs) && Covers(parts, h)
    ensures Matches(parts, envs, h, outs)
  {
    seq(|parts|, j requires 0 <= j < |parts| => Decorators.ExpectedIn(parts[j].payment, parts[j].amount, envs[j], h))
  }

  /** What each part would return if charged now. */
  function Snapshot(parts: seq<SplitItem>, envs: seq<Payments.Env>): (outs: seq<Result<Payments.ResultView>>)
    requires PartsReady(parts, envs)
    reads PartsDetectors(parts)
    ensures |outs| == |parts|
  {
    CoversNow(parts);
    SnapshotIn(parts, envs, Decorators.HistoriesOf(PartsDetectors(parts)))
  }

  /** `outs` holds what each part returns when the detectors hold the histories `h` gives them. */
  predicate Matches(parts: seq<SplitItem>, envs: seq<Payments.Env>, h: Decorators.Histories,
                    outs: seq<Result<Payments.ResultView>>)
    requires PartsReady(parts, envs) && Covers(parts, h)
  {
    |outs| == |parts| &&
    forall j {:trigger Decorators.ExpectedIn(parts[j].payment, parts[j].amount, envs[j], h)} :: 0 <= j < |parts| ==>
      outs[j] == Decorators.ExpectedIn(parts[j].payment, parts[j].amount, envs[j], h)
  }

  function SumParts(parts: seq<SplitItem>): real
  {
    if parts == [] then 0.0 else SumParts(parts[..|parts| - 1]) + parts[|parts| - 1].amount
  }

  /** The index of the first failing outcome, or the number of outcomes. */
  function FirstErr(outs: seq<Result<Payments.ResultView>>): (k: nat)
    ensures k <= |outs|
    ensures forall j :: 0 <= j < k ==> outs[j].Ok?
    ensures k < |outs| ==> outs[k].Err?
  {
    if outs == [] then 0 else if outs[0].Err? then 0 else 1 + FirstErr(outs[1..])
  }

  function Values(outs: seq<Result<Payments.ResultView>>): (vs: seq<Payments.ResultView>)
    requires forall j :: 0 <= j < |outs| ==> outs[j].Ok?
    ensures |vs| == |outs| && forall j :: 0 <= j < |outs| ==> vs[j] == outs[j].value
  {
    if outs == [] then [] else [outs[0].value] + Values(outs[1..])
  }

  function Detail(part: nat, v: Payments.ResultView): Domain.Metadata
  {
    map["part" := Domain.MInt(part), "payment_method" := Domain.MStr(v.paymentMethod),
        "amount" := Domain.MReal(v.amount), "transaction_id" := Domain.MStr(v.transactionId),
        "status" := Domain.MStr("completed")]
  }

  /** `getSplitDetails`: one entry per part, numbered from 1. */
  function SplitDetails(vs: seq<Payments.ResultView>): (ds: seq<Domain.Metadata>)
    ensures |ds| == |vs|
    ensures forall k :: 0 <= k < |vs| ==> ds[k] == Detail(k + 1, vs[k])
  {
    if vs == [] then [] else SplitDetails(vs[..|vs| - 1]) + [Detail(|vs|, vs[|vs| - 1])]
  }

  /** The amounts the two checks before any charge compare: the sum and the total, both to the cent. */
  predicate SumMatches(parts: seq<SplitItem>, total: real)
  {
    Fixed2(SumParts(parts)) == Fixed2(total)
  }

  /** The checks a split payment makes before charging any part: the amounts, then the sum to the cent. */
  function SplitChecks(parts: seq<SplitItem>, total: real): (o: Outcome)
    ensures o.Pass? <==> AmountOutcome(Split(parts), total).Pass? && SumMatches(parts, total)
    ensures o.Fail? ==> IsErrorCode(o.error, Validation)
  {
    var check := AmountOutcome(Split(parts), total);
    if check.Fail? then check
    else if !SumMatches(parts, total) then
      Fail(MismatchError(SumParts(parts), total))
    else Pass
  }

  /** The error of a split whose parts, rendered to cents, do not add up to the total. */
  function MismatchError(sum: real, total: real): (e: Error)
    ensures IsErrorCode(e, Validation)
  {
    NewValidationError("split payment amounts (" + Fixed2(sum) + ") do not match total amount (" + Fixed2(total) + ")")
  }

  /** The error of a split payment whose part `k`, counted from 0, failed with `e`. */
  function PartFailure(k: nat, e: Error): (w: Error)
    ensures IsErrorCode(w, PaymentFailed) && Unwrap(w) == Some(e)
  {
    Wrap(e, PaymentFailed, "split payment part " + NatToString(k + 1) + " failed")
  }

  /** The combined result of a split payment whose every part succeeded. */
  function Combined(parts: seq<SplitItem>, total: real, vs: seq<Payments.ResultView>): Payments.ResultView
    requires |vs| >= 1
  {
    SplitView(|parts|, total, vs[0].transactionId, SumParts(parts), SplitDetails(vs))
  }

  /** The combined result object's fields, from the parts' count, the first transaction and the details. */
  function SplitView(count: nat, total: real, transactionId: string, processed: real, details: seq<Domain.Metadata>)
    : Payments.ResultView
  {
    Payments.ResultView(
      true, transactionId, total, total, processed, "USD", "split",
      "Split payment completed across " + NatToString(count) + " methods",
      map[PaymentStrategyKey := Domain.MStr("split"), "payment_count" := Domain.MInt(count),
          "split_details" := Domain.MRecords(details)],
      [])
  }

  /**
   * A split payment over given part outcomes: the amount checks, then the
   * sum check, then the first failing part, named from 1, else the
   * combined result.
   */
  function SplitResult(parts: seq<SplitItem>, total: real, outs: seq<Result<Payments.ResultView>>)
    : (r: Result<Payments.ResultView>)
    requires 1 <= |parts| && |outs| == |parts|
    ensures r.Ok? <==> AmountOutcome(Split(parts), total).Pass? && SumMatches(parts, total) &&
                       forall j :: 0 <= j < |outs| ==> outs[j].Ok?
    ensures AmountOutcome(Split(parts), total).Pass? && SumMatches(parts, total) && FirstErr(outs) < |outs| ==>
      r == Err(PartFailure(FirstErr(outs), outs[FirstErr(outs)].error))
    ensures r.Ok? ==>
      r.value.amount == total && r.value.originalAmount == total && r.value.processedAmount == SumParts(parts) &&
      r.value.paymentMethod == "split" && r.value.appliedDecorators == [] &&
      r.value.transactionId == outs[0].value.transactionId
  {
    var check := SplitChecks(parts, total);
    if check.Fail? then Err(check.error)
    else
      var k := FirstErr(outs);
      if k < |outs| then
        Err(PartFailure(k, outs[k].error))
      else Ok(Combined(parts, total, Values(outs)))
  }

  /** How many parts a split payment charges: none when a check fails, else every part before the first failure. */
  function Charged(parts: seq<SplitItem>, total: real, outs: seq<Result<Payments.ResultView>>): (n: nat)
    requires |outs| == |parts|
    ensures n <= |parts|
  {
    if SplitChecks(parts, total).Fail? then 0
    else if FirstErr(outs) < |outs| then FirstErr(outs) else |outs|
  }

  /** `Execute` of the split strategy, in the state before the call. */
  function SplitOutcome(parts: seq<SplitItem>, total: real, envs: seq<Payments.Env>): Result<Payments.ResultView>
    requires 1 <= |parts| && PartsReady(parts, envs)
    reads PartsDetectors(parts)
  {
    SplitResult(parts, total, Snapshot(parts, envs))
  }

  /** How many parts `Execute` of the split strategy charges, in the state before the call. */
  function SplitCharged(parts: seq<SplitItem>, total: real, envs: seq<Payments.Env>): nat
    requires PartsReady(parts, envs)
    reads PartsDetectors(parts)
  {
    Charged(parts, total, Snapshot(parts, envs))
  }

  /** `getSplitDetails` over the result objects of the parts. */
  method GetSplitDetails(results: seq<Payments.PaymentResult>) returns (details: seq<Domain.Metadata>)
    ensures details == SplitDetails(Views(results))
  {
    details := [];
    var i := 0;
    while i < |results|
      invariant 0 <= i <= |results|
      invariant details == SplitDetails(Views(results[..i]))
    {
      assert results[..i + 1][..i] == results[..i];
      details := details + [Detail(i + 1, results[i].View())];
      i := i + 1;
    }
    assert results[..i] == results;
  }

  function Views(results: seq<Payments.PaymentResult>): (vs: seq<Payments.ResultView>)
    reads set x | x in results
    ensures |vs| == |results| && forall j :: 0 <= j < |results| ==> vs[j] == results[j].View()
  {
    if results == [] then [] else Views(results[..|results| - 1]) + [results[|results| - 1].View()]
  }

  /** `splitSum`: the parts' amounts added in order. */
  method SumOfParts(parts: seq<SplitItem>) returns (sum: real)
    ensures sum == SumParts(parts)
  {
    sum := 0.0;
    var i := 0;
    while i < |parts|
      invariant 0 <= i <= |parts| && sum == SumParts(parts[..i])
    {
      assert parts[..i + 1][..i] == parts[..i];
      sum := sum + parts[i].amount;
      i := i + 1;
    }
    assert parts[..i] == parts;
  }

  /** The detectors of the first `n` parts have recorded one more transaction since `h`; the others are as in `h`. */
  predicate HistoriesAfter(parts: seq<SplitItem>, envs: seq<Payments.Env>, h: Decorators.Histories, n: nat)
    requires PartsReady(parts, envs) && Covers(parts, h)
    reads h.Keys
  {
    forall j, d :: 0 <= j < |parts| && d in Decorators.Detectors(parts[j].payment) ==>
      d.transactionHistory == if j < n then Decorators.Recorded(h[d], envs[j].now) else h[d]
  }

  /**
   * The charging loop of the split strategy: parts are charged in order
   * until one fails. `failed` is the index of the failing part, or the
   * number of parts when all succeed; the parts before it stay charged (the
   * rollback only logs), so their detectors keep what they recorded.
   */
  method ChargeParts(parts: seq<SplitItem>, envs: seq<Payments.Env>, ghost h: Decorators.Histories,
                     ghost outs: seq<Result<Payments.ResultView>>)
    returns (results: seq<Payments.PaymentResult>, failed: nat, err: Option<Error>)
    requires PartsReady(parts, envs) && Covers(parts, h) && Matches(parts, envs, h, outs)
    requires HistoriesAfter(parts, envs, h, 0)
    modifies PartsDetectors(parts)
    ensures failed == FirstErr(outs)
    ensures failed < |parts| ==> err == Some(outs[failed].error)
    ensures failed == |parts| ==>
      |results| == |parts| && Views(results) == Values(outs) && forall j :: 0 <= j < |results| ==> fresh(results[j])
    ensures HistoriesAfter(parts, envs, h, failed)
  {
    results := [];
    var i := 0;
    while i < |parts|
      invariant 0 <= i <= |parts| && |results| == i
      invariant forall j :: 0 <= j < i ==> outs[j].Ok? && fresh(results[j]) && results[j].View() == outs[j].value
      invariant HistoriesAfter(parts, envs, h, i)
    {
      PartDetectorsIncluded(parts, 0, i);
      var res, e := ChargePart(parts, envs, h, outs, i, results);
      if res == null {
        FirstErrIs(outs, i);
        return results, i, e;
      }
      results := results + [res];
      i := i + 1;
    }
    FirstErrAll(outs);
    return results, i, None;
  }

  /** One turn of the charging loop: the `i`-th part delivers its outcome and leaves the other parts alone. */
  method ChargePart(parts: seq<SplitItem>, envs: seq<Payments.Env>, ghost h: Decorators.Histories,
                    ghost outs: seq<Result<Payments.ResultView>>, i: nat, ghost done: seq<Payments.PaymentResult>)
    returns (r: Payments.PaymentResult?, err: Option<Error>)
    requires PartsReady(parts, envs) && Covers(parts, h) && Matches(parts, envs, h, outs) && i < |parts|
    requires HistoriesAfter(parts, envs, h, i)
    modifies Decorators.Detectors(parts[i].payment)
    ensures Payments.Delivers(r, err, outs[i])
    ensures r != null ==> fresh(r)
    ensures forall j :: 0 <= j < |done| ==> done[j].View() == old(done[j].View())
    ensures HistoriesAfter(parts, envs, h, if r != null then i + 1 else i)
  {
    r, err := Decorators.Process(parts[i].payment, parts[i].amount, envs[i], h);
  }

  /** The checks of `Execute` before the first charge, as the split strategy runs them. */
  method CheckSplit(parts: seq<SplitItem>, total: real) returns (o: Outcome)
    ensures o == SplitChecks(parts, total)
  {
    o := ValidateAmount(Split(parts), total);
    if o.Fail? {
      return;
    }
    var splitSum := SumOfParts(parts);
    if Fixed2(splitSum) != Fixed2(total) {
      return Fail(MismatchError(splitSum, total));
    }
  }

  /** The combined result object, built once every part has succeeded. */
  method Combine(parts: seq<SplitItem>, total: real, results: seq<Payments.PaymentResult>)
    returns (r: Payments.PaymentResult)
    requires |results| >= 1
    ensures fresh(r) && r.View() == Combined(parts, total, Views(results))
  {
    ghost var vs := Views(results);
    var details := GetSplitDetails(results);
    var totalProcessed := SumOfParts(parts);
    assert vs[0].transactionId == results[0].transactionId;
    var v := SplitView(|parts|, total, results[0].transactionId, totalProcessed, details);
    assert Combined(parts, total, vs) == v;
    r := new Payments.PaymentResult(v);
    assert Views(results) == vs;
  }

  /** The charging half of the split strategy, once both checks have passed. */
  method ChargeChecked(parts: seq<SplitItem>, total: real, envs: seq<Payments.Env>)
    returns (r: Payments.PaymentResult?, err: Option<Error>)
    requires 1 <= |parts| && PartsReady(parts, envs) && SplitChecks(parts, total).Pass?
    modifies PartsDetectors(parts)
    ensures Payments.Delivers(r, err, old(SplitOutcome(parts, total, envs)))
    ensures r != null ==> fresh(r)
    ensures Covers(parts, old(Decorators.HistoriesOf(PartsDetectors(parts))))
    ensures HistoriesAfter(parts, envs, old(Decorators.HistoriesOf(PartsDetectors(parts))),
                           old(SplitCharged(parts, total, envs)))
  {
    ghost var outs := Snapshot(parts, envs);
    ghost var expected := SplitResult(parts, total, outs);
    ghost var charged := Charged(parts, total, outs);
    assert SplitOutcome(parts, total, envs) == expected;
    ghost var h := Decorators.HistoriesOf(PartsDetectors(parts));
    CoversNow(parts);
    assert Matches(parts, envs, h, SnapshotIn(parts, envs, h));
    assert HistoriesAfter(parts, envs, h, 0);
    var results, failed, e := ChargeParts(parts, envs, h, outs);
    if failed < |parts| {
      assert charged == failed && e.value == outs[failed].error;
      err := Some(PartFailure(failed, e.value));
      assert expected == Err(err.value);
      return null, err;
    }
    assert charged == |parts|;
    r := Combine(parts, total, results);
    assert expected == Ok(Combined(parts, total, Values(outs)));
    err := None;
  }

  /**
   * `Execute` of the split strategy: both checks come before any charge,
   * and a failing part is reported by its number, counted from 1.
   */
  method ExecuteSplit(parts: seq<SplitItem>, total: real, envs: seq<Payments.Env>)
    returns (r: Payments.PaymentResult?, err: Option<Error>)
    requires 1 <= |parts| && PartsReady(parts, envs)
    modifies PartsDetectors(parts)
    ensures Payments.Delivers(r, err, old(SplitOutcome(parts, total, envs)))
    ensures r != null ==> fresh(r)
    ensures forall j, d :: 0 <= j < |parts| && d in Decorators.Detectors(parts[j].payment) && old(allocated(d)) ==>
      d.transactionHistory ==
        if j < old(SplitCharged(parts, total, envs))
        then Decorators.Recorded(old(d.transactionHistory), envs[j].now)
        else old(d.transactionHistory)
  {
    ghost var outs := Snapshot(parts, envs);
    PartsDetectorsAllocated(parts, 0);
    var check := CheckSplit(parts, total);
    if check.Fail? {
      assert SplitResult(parts, total, outs) == Err(check.error);
      assert Charged(parts, total, outs) == 0;
      return null, Some(check.error);
    }
    assert Snapshot(parts, envs) == outs;
    ghost var h := Decorators.HistoriesOf(PartsDetectors(parts));
    r, err := ChargeChecked(parts, total, envs);
    forall j, d | 0 <= j < |parts| && d in Decorators.Detectors(parts[j].payment)
      ensures h[d] == old(d.transactionHistory)
    {
      PartDetectorsIncluded(parts, 0, j);
    }
  }

  lemma {:induction false} FirstErrAll(outs: seq<Result<Payments.ResultView>>)
    requires forall j :: 0 <= j < |outs| ==> outs[j].Ok?
    ensures FirstErr(outs) == |outs|
  {
    if outs != [] {
      FirstErrAll(outs[1..]);
    }
  }

  lemma {:induction false} FirstErrIs(outs: seq<Result<Payments.ResultView>>, i: nat)
    requires i < |outs| && outs[i].Err?
    requires forall j :: 0 <= j < i ==> outs[j].Ok?
    ensures FirstErr(outs) == i
  {
    if i > 0 {
      FirstErrIs(outs[1..], i - 1);
    }
  }

  /** A part that fails ends the run: no part after it is ever charged. */
  lemma LaterPartsUntouched(parts: seq<SplitItem>, total: real, outs: seq<Result<Payments.ResultView>>, i: nat)
    requires 1 <= |parts| && |outs| == |parts| && i < |outs| && outs[i].Err?
    ensures Charged(parts, total, outs) <= i
    ensures SplitResult(parts, total, outs).Err?
  {
  }

  // ---------------------------------------------------------------- the context

  /** What a strategy needs to run: the worlds its charges see and well-formed chains. */
  predicate Ready(s: Strategy, p: Decorators.Payment, envs: seq<Payments.Env>)
  {
    match s
    case Split(parts) => 1 <= |parts| && PartsReady(parts, envs)
    case Deferred(_, _, n, _) => n > 0 && |envs| >= 1 && Payments.ValidEnv(envs[0]) && Decorators.WellFormed(p)
    case Instant(_, _) => |envs| >= 1 && Payments.ValidEnv(envs[0]) && Decorators.WellFormed(p)
  }

  /** The detectors a strategy's run may change: the split parts' own, or the given chain's. */
  function Footprint(s: Strategy, p: Decorators.Payment): set<Decorators.FraudDetector>
  {
    if s.Split? then PartsDetectors(s.parts) else Decorators.Detectors(p)
  }

  function ExecuteOutcome(s: Strategy, p: Decorators.Payment, amount: real, envs: seq<Payments.Env>)
    : Result<Payments.ResultView>
    requires Ready(s, p, envs)
    reads Footprint(s, p)
  {
    match s
    case Instant(_, _) => InstantOutcome(s, p, amount, envs[0], Decorators.HistoriesOf(Decorators.Detectors(p)))
    case Deferred(_, _, _, _) =>
      DeferredOutcome(s, p, amount, envs[0], Decorators.HistoriesOf(Decorators.Detectors(p)))
    case Split(parts) => SplitOutcome(parts, amount, envs)
  }

  /** `Execute` of any strategy; the split strategy ignores the payment it is given. */
  method Execute(s: Strategy, p: Decorators.Payment, amount: real, envs: seq<Payments.Env>)
    returns (r: Payments.PaymentResult?, err: Option<Error>)
    requires Ready(s, p, envs)
    modifies Footprint(s, p)
    ensures Payments.Delivers(r, err, old(ExecuteOutcome(s, p, amount, envs)))
    ensures r != null ==> fresh(r)
    ensures !s.Split? ==> forall d :: d in Decorators.Detectors(p) && old(allocated(d)) ==>
      d.transactionHistory == if r != null then Decorators.Recorded(old(d.transactionHistory), envs[0].now)
                              else old(d.transactionHistory)
  {
    match s
    case Instant(_, _) =>
      r, err := ExecuteInstant(s, p, amount, envs[0]);
    case Deferred(_, _, _, _) =>
      r, err := ExecuteDeferred(s, p, amount, envs[0]);
    case Split(parts) =>
      r, err := ExecuteSplit(parts, amount, envs);
  }

  /** `PaymentContext`: holds the strategy every payment is executed with. */
  class PaymentContext {
    var strategy: Strategy

    constructor (s: Strategy)
      ensures strategy == s
    {
      strategy := s;
    }

    method SetStrategy(s: Strategy)
      modifies this
      ensures strategy == s
    {
      strategy := s;
    }

    /** `ExecutePayment`: the current strategy's `Execute`. */
    method ExecutePayment(p: Decorators.Payment, amount: real, envs: seq<Payments.Env>)
      returns (r: Payments.PaymentResult?, err: Option<Error>)
      requires Ready(strategy, p, envs)
      modifies Footprint(strategy, p)
      ensures Payments.Delivers(r, err, old(ExecuteOutcome(strategy, p, amount, envs)))
      ensures r != null ==> fresh(r)
    {
      r, err := Execute(strategy, p, amount, envs);
    }
  }
}
