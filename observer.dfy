/*
 * Payment events and their observers: the subject that keeps the list of
 * observers and delivers each event to a snapshot of it, the metrics
 * collector's counters, and the SMS notifier's sliding-window rate limit.
 * Delivery is sequential; locks, goroutines and logging are not modelled.
 * Instants are nanoseconds on one clock.
 */
module Observers {
  import opened AppErrors
  import opened Text
  import Domain
  import Payments
  import Decorators

  datatype EventType = PaymentStarted | PaymentSuccess | PaymentFailed | RefundIssued | OtherType(name: string)
  {
    /** The event type's wire name. */
    function Text(): (s: string)
      ensures OtherType? ==> s == name
    {
      match this
      case PaymentStarted => "payment_started"
      case PaymentSuccess => "payment_success"
      case PaymentFailed => "payment_failed"
      case RefundIssued => "refund_issued"
      case OtherType(n) => n
    }
  }

  datatype Event = Event(
    kind: EventType, transactionId: string, customerId: string, amount: real, paymentMethod: string,
    result: Option<Payments.ResultView>, error: Option<Error>, metadata: Domain.Metadata, timestamp: string)

  /** What one observer made of an event: nothing went wrong, an error, or a recovered panic. */
  datatype Delivery = Delivered | Refused(error: Error) | Panicked

  // ---------------------------------------------------------------- metrics

  const Uint64Range: int := 0x1_0000_0000_0000_0000

  /** Go's `uint64(x * 100)` has a defined result only in [0, 2^64). */
  predicate CentsDefined(x: real)
  {
    0.0 <= x * 100.0 < Uint64Range as real
  }

  /** `uint64(x * 100)`: the cents, truncated. */
  function Cents(x: real): (c: nat)
    requires CentsDefined(x)
    ensures c < Uint64Range
    ensures c as real <= x * 100.0 < c as real + 1.0
  {
    (x * 100.0).Floor
  }

  /** The events whose amount the collector can convert: a success adds its amount, a refund subtracts its own. */
  predicate Recordable(e: Event)
  {
    match e.kind
    case PaymentSuccess => CentsDefined(e.amount)
    case RefundIssued => CentsDefined(-e.amount)
    case _ => true
  }

  /** The collector's state; `totalCents` is the unsigned 64-bit total. */
  datatype Counters = Counters(successCount: int, failureCount: int, totalCents: nat, paymentCounts: map<string, int>)

  const NoCounts := Counters(0, 0, 0, map[])

  /** `atomic.Uint64.Add`: the sum wraps at 2^64. */
  function AddCents(total: nat, x: real): (r: nat)
    requires CentsDefined(x)
    ensures r < Uint64Range
    ensures total + Cents(x) < Uint64Range ==> r == total + Cents(x)
  {
    (total + Cents(x)) % Uint64Range
  }

  /** `incrementPaymentMethodCount`: a missing counter starts at 0. */
  function Incremented(counts: map<string, int>, pm: string): (r: map<string, int>)
    ensures r.Keys == counts.Keys + {pm}
    ensures r[pm] == (if pm in counts then counts[pm] else 0) + 1
    ensures forall m :: m in counts && m != pm ==> r[m] == counts[m]
  {
    counts[pm := (if pm in counts then counts[pm] else 0) + 1]
  }

  /** The counters after the collector's `Notify` switch. */
  function Collected(c: Counters, e: Event): Counters
    requires Recordable(e)
  {
    match e.kind
    case PaymentSuccess =>
      c.(successCount := c.successCount + 1, totalCents := AddCents(c.totalCents, e.amount),
         paymentCounts := Incremented(c.paymentCounts, e.paymentMethod))
    case PaymentFailed => c.(failureCount := c.failureCount + 1)
    case RefundIssued => c.(totalCents := AddCents(c.totalCents, -e.amount))
    case _ => c
  }

  /** The counters after the same event `k` times. */
  function CollectedTimes(c: Counters, e: Event, k: nat): Counters
    requires Recordable(e)
  {
    if k == 0 then c else Collected(CollectedTimes(c, e, k - 1), e)
  }

  /** The sum of a map's values. */
  ghost function SumOf(m: map<string, int>): int
    decreases |m|
  {
    if m == map[] then 0 else var k :| k in m; m[k] + SumOf(m - {k})
  }

  /** The counters' invariant: the per-method counts add up to the successes, and the total fits 64 bits. */
  ghost predicate Balanced(c: Counters)
  {
    c.totalCents < Uint64Range && SumOf(c.paymentCounts) == c.successCount
  }

  /** What `GetMetrics` reports. */
  datatype Metrics = Metrics(successCount: int, failureCount: int, totalAmount: real, paymentMethodCounts: map<string, int>)

  function Report(c: Counters): (m: Metrics)
    ensures m.totalAmount * 100.0 == c.totalCents as real
    ensures m.successCount == c.successCount && m.failureCount == c.failureCount
    ensures m.paymentMethodCounts == c.paymentCounts
  {
    Metrics(c.successCount, c.failureCount, c.totalCents as real / 100.0, c.paymentCounts)
  }

  class MetricsCollector {
    var successCount: int
    var failureCount: int
    var totalCents: nat
    var paymentCounts: map<string, int>

    function State(): Counters
      reads this
    {
      Counters(successCount, failureCount, totalCents, paymentCounts)
    }

    /** `GetName`. */
    function Name(): (s: string)
      ensures s == "metrics_collector"
    {
      "metrics_collector"
    }

    constructor ()
      ensures State() == NoCounts
    {
      successCount, failureCount, totalCents, paymentCounts := 0, 0, 0, map[];
    }

    /** `Notify`: count the event; the collector never fails. */
    method Notify(e: Event) returns (d: Delivery)
      requires Recordable(e)
      modifies this
      ensures State() == Collected(old(State()), e)
      ensures d == Delivered
    {
      match e.kind {
        case PaymentSuccess =>
          successCount := successCount + 1;
          AddAmount(e.amount);
          IncrementPaymentMethodCount(e.paymentMethod);
        case PaymentFailed =>
          failureCount := failureCount + 1;
        case RefundIssued =>
          AddAmount(-e.amount);
        case _ =>
      }
      d := Delivered;
    }

    method AddAmount(x: real)
      requires CentsDefined(x)
      modifies this
      ensures State() == old(State()).(totalCents := AddCents(old(totalCents), x))
    {
      totalCents := (totalCents + Cents(x)) % Uint64Range;
    }

    method IncrementPaymentMethodCount(pm: string)
      modifies this
      ensures State() == old(State()).(paymentCounts := Incremented(old(paymentCounts), pm))
    {
      var current := 0;
      if pm in paymentCounts {
        current := paymentCounts[pm];
      }
      paymentCounts := paymentCounts[pm := current + 1];
    }

    /** `GetMetrics`: the counts, the total in currency units and a copy of the per-method counts. */
    method GetMetrics() returns (m: Metrics)
      ensures m == Report(State())
    {
      m := Metrics(successCount, failureCount, totalCents as real / 100.0, paymentCounts);
    }

    /** `Reset`: every counter back to zero and no per-method counts. */
    method Reset()
      modifies this
      ensures State() == NoCounts
    {
      successCount, failureCount, totalCents := 0, 0, 0;
      paymentCounts := map[];
    }
  }

  lemma {:induction false} SumOfRemove(m: map<string, int>, k: string)
    requires k in m
    ensures SumOf(m) == m[k] + SumOf(m - {k})
    decreases |m|
  {
    var j :| j in m && SumOf(m) == m[j] + SumOf(m - {j});
    if j != k {
      var mj := m - {j};
      var mk := m - {k};
      assert k in mj && mj[k] == m[k];
      assert j in mk && mk[j] == m[j];
      SumOfRemove(mj, k);
      SumOfRemove(mk, j);
      assert mj - {k} == mk - {j};
    }
  }

  /** Raising one method's count by one raises the sum by one. */
  lemma SumOfIncremented(counts: map<string, int>, pm: string)
    ensures SumOf(Incremented(counts, pm)) == SumOf(counts) + 1
  {
    var r := Incremented(counts, pm);
    SumOfRemove(r, pm);
    assert r - {pm} == counts - {pm};
    if pm in counts {
      SumOfRemove(counts, pm);
    } else {
      assert counts - {pm} == counts;
    }
  }

  /** A success counts once in the successes, once for its method and adds its truncated cents. */
  lemma SuccessCounted(c: Counters, e: Event)
    requires e.kind.PaymentSuccess? && Recordable(e)
    ensures Collected(c, e).successCount == c.successCount + 1
    ensures Collected(c, e).failureCount == c.failureCount
    ensures Collected(c, e).totalCents == (c.totalCents + Cents(e.amount)) % Uint64Range
    ensures Collected(c, e).paymentCounts[e.paymentMethod] == (if e.paymentMethod in c.paymentCounts then c.paymentCounts[e.paymentMethod] else 0) + 1
    ensures forall m :: m in c.paymentCounts && m != e.paymentMethod ==>
              Collected(c, e).paymentCounts[m] == c.paymentCounts[m]
  {
  }

  /** A failure counts only as a failure. */
  lemma FailureCountedAlone(c: Counters, e: Event)
    requires e.kind.PaymentFailed?
    ensures Collected(c, e) == c.(failureCount := c.failureCount + 1)
  {
  }

  /** A started event, or one of a type the collector does not know, changes no counter. */
  lemma StartedChangesNothing(c: Counters, e: Event)
    requires e.kind.PaymentStarted? || e.kind.OtherType?
    ensures Collected(c, e) == c
  {
  }

  /** Counting keeps the per-method counts in step with the successes, from the reset state on. */
  lemma CollectedKeepsBalance(c: Counters, e: Event)
    requires Recordable(e) && Balanced(c)
    ensures Balanced(Collected(c, e))
  {
    if e.kind.PaymentSuccess? {
      SumOfIncremented(c.paymentCounts, e.paymentMethod);
    }
  }

  lemma ResetIsBalanced()
    ensures Balanced(NoCounts)
  {
  }

  // ---------------------------------------------------------------- SMS

  const Minute: int := 60_000_000_000

  function RateLimitError(rateLimit: int): (e: Error)
    ensures AsApp(e) == None
  {
    Plain("SMS rate limit exceeded (" + IntToString(rateLimit) + " messages per minute)")
  }

  /** `createSMSMessage`; the id must have the eight characters it quotes. */
  function SmsMessage(e: Event): (s: string)
    requires |e.transactionId| >= 8
    ensures !e.kind.PaymentFailed? ==> |s| >= 8 && s[|s| - 8..] == e.transactionId[..8]
    ensures e.kind.PaymentFailed? ==> |s| >= 27 && s[|s| - 27..|s| - 19] == e.transactionId[..8]
  {
    var tx := e.transactionId[..8];
    var amount := Fixed2(e.amount);
    match e.kind
    case PaymentStarted => "Payment of $" + amount + " is being processed. TX: " + tx
    case PaymentSuccess => "Payment of $" + amount + " successful! TX: " + tx
    case PaymentFailed => "Payment of $" + amount + " failed. TX: " + tx + ". Please try again."
    case RefundIssued => "Refund of $" + amount + " issued. TX: " + tx
    case OtherType(_) => "Payment notification. TX: " + tx
  }

  /**
   * What one SMS `Notify` returns, given the instants of earlier messages:
   * the rate check at `now`, the message, then the send, whose context
   * error is `sendErr`. An id shorter than eight characters panics in the
   * message.
   */
  function SmsDelivery(times: seq<int>, rateLimit: int, e: Event, now: int, sendErr: Option<Error>): Delivery
  {
    if |Decorators.After(times, now - Minute)| >= rateLimit then Refused(RateLimitError(rateLimit))
    else if |e.transactionId| < 8 then Panicked
    else if sendErr.Some? then Refused(Context("failed to send SMS", sendErr.value))
    else Delivered
  }

  /** The instants one SMS `Notify` leaves: the pruned window, plus `sentAt` when the message went out. */
  function SmsRecorded(times: seq<int>, rateLimit: int, e: Event, now: int, sentAt: int, sendErr: Option<Error>)
    : seq<int>
  {
    var kept := Decorators.After(times, now - Minute);
    if SmsDelivery(times, rateLimit, e, now, sendErr) == Delivered then kept + [sentAt] else kept
  }

  /** The instants after the same event `k` times with the same clock readings. */
  function SmsTimes(times: seq<int>, rateLimit: int, e: Event, now: int, sentAt: int, sendErr: Option<Error>, k: nat)
    : seq<int>
  {
    if k == 0 then times
    else SmsRecorded(SmsTimes(times, rateLimit, e, now, sentAt, sendErr, k - 1), rateLimit, e, now, sentAt, sendErr)
  }

  class SmsNotifier {
    const provider: string
    const rateLimit: int
    var messageTimes: seq<int>

    constructor (provider: string, rateLimit: int)
      ensures this.provider == provider && this.rateLimit == rateLimit && messageTimes == []
    {
      this.provider, this.rateLimit := provider, rateLimit;
      messageTimes := [];
    }

    function Name(): (s: string)
      ensures s == "sms_notifier"
    {
      "sms_notifier"
    }

    /** `checkRateLimit` at `now`: forget messages a minute old or older, then refuse a full window. */
    method CheckRateLimit(now: int) returns (err: Option<Error>)
      modifies this
      ensures messageTimes == Decorators.After(old(messageTimes), now - Minute)
      ensures err.Some? <==> |messageTimes| >= rateLimit
      ensures err.Some? ==> err.value == RateLimitError(rateLimit)
    {
      var cutoff := now - Minute;
      var recent := [];
      var i := 0;
      while i < |messageTimes|
        invariant 0 <= i <= |messageTimes|
        invariant recent == Decorators.After(messageTimes[..i], cutoff)
      {
        assert messageTimes[..i + 1][..i] == messageTimes[..i];
        if messageTimes[i] > cutoff {
          recent := recent + [messageTimes[i]];
        }
        i := i + 1;
      }
      assert messageTimes[..i] == messageTimes;
      messageTimes := recent;
      err := None;
      if |messageTimes| >= rateLimit {
        err := Some(RateLimitError(rateLimit));
      }
    }

    /** `recordMessage` at `sentAt`. */
    method RecordMessage(sentAt: int)
      modifies this
      ensures messageTimes == old(messageTimes) + [sentAt]
    {
      messageTimes := messageTimes + [sentAt];
    }

    /** `Notify`: rate check, message, send, and only then the record. */
    method Notify(e: Event, now: int, sentAt: int, sendErr: Option<Error>) returns (d: Delivery)
      modifies this
      ensures d == SmsDelivery(old(messageTimes), rateLimit, e, now, sendErr)
      ensures messageTimes == SmsRecorded(old(messageTimes), rateLimit, e, now, sentAt, sendErr)
    {
      var err := CheckRateLimit(now);
      if err.Some? {
        return Refused(err.value);
      }
      if |e.transactionId| < 8 {
        return Panicked;
      }
      var message := SmsMessage(e);
      if sendErr.Some? {
        return Refused(Context("failed to send SMS", sendErr.value));
      }
      RecordMessage(sentAt);
      d := Delivered;
    }
  }

  lemma {:induction false} AfterKeepsLater(s: seq<int>, cutoff: int)
    requires forall k :: 0 <= k < |s| ==> s[k] > cutoff
    ensures Decorators.After(s, cutoff) == s
    decreases |s|
  {
    if s != [] {
      AfterKeepsLater(s[..|s| - 1], cutoff);
    }
  }

  /** A notifier whose limit is zero or less refuses every message and records nothing. */
  lemma NonPositiveLimitRefusesAll(times: seq<int>, rateLimit: int, e: Event, now: int, sentAt: int, sendErr: Option<Error>)
    requires rateLimit <= 0
    ensures SmsDelivery(times, rateLimit, e, now, sendErr) == Refused(RateLimitError(rateLimit))
    ensures SmsRecorded(times, rateLimit, e, now, sentAt, sendErr) == Decorators.After(times, now - Minute)
  {
  }

  /** After a delivered message the window, read at the same instant, holds at most `rateLimit` messages. */
  lemma DeliveredStaysWithinLimit(times: seq<int>, rateLimit: int, e: Event, now: int, sentAt: int, sendErr: Option<Error>)
    requires sentAt >= now
    requires SmsDelivery(times, rateLimit, e, now, sendErr) == Delivered
    ensures 0 < |Decorators.After(SmsRecorded(times, rateLimit, e, now, sentAt, sendErr), now - Minute)| <= rateLimit
  {
    var kept := Decorators.After(times, now - Minute);
    AfterKeepsLater(kept + [sentAt], now - Minute);
  }

  /** A message that did not go out leaves only the pruned window: nothing is recorded before the send succeeds. */
  lemma UndeliveredRecordsNothing(times: seq<int>, rateLimit: int, e: Event, now: int, sentAt: int, sendErr: Option<Error>)
    requires SmsDelivery(times, rateLimit, e, now, sendErr) != Delivered
    ensures SmsRecorded(times, rateLimit, e, now, sentAt, sendErr) == Decorators.After(times, now - Minute)
    ensures |SmsRecorded(times, rateLimit, e, now, sentAt, sendErr)| <= |times|
  {
  }

  // ---------------------------------------------------------------- subject

  /** The observers the model knows, and any other by its name only. */
  datatype Observer = MetricsObserver(collector: MetricsCollector) | SmsObserver(notifier: SmsNotifier) | OtherObserver(name: string)

  function Name(o: Observer): string
  {
    match o
    case MetricsObserver(c) => c.Name()
    case SmsObserver(n) => n.Name()
    case OtherObserver(name) => name
  }

  /** The position of the first observer called `name`, or `|obs|`. */
  function FirstNamed(obs: seq<Observer>, name: string): (k: nat)
    ensures k <= |obs|
    ensures forall j :: 0 <= j < k ==> Name(obs[j]) != name
    ensures k < |obs| ==> Name(obs[k]) == name
  {
    if obs == [] then 0 else if Name(obs[0]) == name then 0 else 1 + FirstNamed(obs[1..], name)
  }

  /** The list after `Detach` of an observer called `name`. */
  function Detached(obs: seq<Observer>, name: string): seq<Observer>
  {
    var k := FirstNamed(obs, name);
    if k < |obs| then obs[..k] + obs[k + 1..] else obs
  }

  /** How often `c` is in the list. */
  function CollectorVisits(obs: seq<Observer>, c: MetricsCollector): nat
  {
    if obs == [] then 0 else CollectorVisits(obs[..|obs| - 1], c) + (if obs[|obs| - 1] == MetricsObserver(c) then 1 else 0)
  }

  function NotifierVisits(obs: seq<Observer>, n: SmsNotifier): nat
  {
    if obs == [] then 0 else NotifierVisits(obs[..|obs| - 1], n) + (if obs[|obs| - 1] == SmsObserver(n) then 1 else 0)
  }

  function Collectors(obs: seq<Observer>): set<MetricsCollector>
  {
    set i | 0 <= i < |obs| && obs[i].MetricsObserver? :: obs[i].collector
  }

  function Notifiers(obs: seq<Observer>): set<SmsNotifier>
  {
    set i | 0 <= i < |obs| && obs[i].SmsObserver? :: obs[i].notifier
  }

  function Targets(obs: seq<Observer>): set<object>
  {
    Collectors(obs) + Notifiers(obs)
  }

  class Subject {
    var observers: seq<Observer>

    constructor ()
      ensures observers == []
    {
      observers := [];
    }

    /** `Attach`: at the end, duplicates allowed. */
    method Attach(o: Observer)
      modifies this
      ensures observers == old(observers) + [o]
    {
      observers := observers + [o];
    }

    /** `Detach`: the first observer with the same name goes. */
    method Detach(o: Observer)
      modifies this
      ensures observers == Detached(old(observers), Name(o))
    {
      var i := 0;
      while i < |observers|
        invariant 0 <= i <= |observers|
        invariant forall j :: 0 <= j < i ==> Name(observers[j]) != Name(o)
      {
        if Name(observers[i]) == Name(o) {
          DetachedAt(observers, Name(o), i);
          observers := observers[..i] + observers[i + 1..];
          return;
        }
        i := i + 1;
      }
      DetachedAt(observers, Name(o), i);
    }

    /**
     * `Notify`: each observer of a snapshot of the list gets the event once
     * per occurrence, in order; what each of them returns is dropped. The
     * SMS notifiers read the clock as `now` and `sentAt` and see `sendErr`
     * from their context.
     */
    method Notify(e: Event, now: int, sentAt: int, sendErr: Option<Error>)
      requires Collectors(observers) != {} ==> Recordable(e)
      modifies Targets(observers)
      ensures observers == old(observers)
      ensures forall c :: c in Collectors(observers) ==>
                c.State() == CollectedTimes(old(c.State()), e, CollectorVisits(observers, c))
      ensures forall n :: n in Notifiers(observers) ==>
                n.messageTimes == SmsTimes(old(n.messageTimes), n.rateLimit, e, now, sentAt, sendErr, NotifierVisits(observers, n))
    {
      var snapshot := observers;
      ghost var counters := map c | c in Collectors(snapshot) :: c.State();
      ghost var times := map n | n in Notifiers(snapshot) :: n.messageTimes;
      assert snapshot[..0] == [];
      var i := 0;
      while i < |snapshot|
        invariant 0 <= i <= |snapshot| && observers == snapshot
        invariant CollectorsAt(snapshot, i, e, counters)
        invariant NotifiersAt(snapshot, i, e, now, sentAt, sendErr, times)
      {
        Deliver(snapshot, i, e, now, sentAt, sendErr, counters, times);
        i := i + 1;
      }
      assert snapshot[..i] == snapshot;
    }
  }

  /** After the first `i` deliveries, every collector has counted the event once per visit so far. */
  ghost predicate CollectorsAt(snap: seq<Observer>, i: nat, e: Event, counters: map<MetricsCollector, Counters>)
    requires i <= |snap|
    requires Collectors(snap) != {} ==> Recordable(e)
    reads Collectors(snap)
  {
    forall c :: c in Collectors(snap) ==>
      c in counters && c.State() == CollectedTimes(counters[c], e, CollectorVisits(snap[..i], c))
  }

  ghost predicate NotifiersAt(snap: seq<Observer>, i: nat, e: Event, now: int, sentAt: int, sendErr: Option<Error>,
                              times: map<SmsNotifier, seq<int>>)
    requires i <= |snap|
    reads Notifiers(snap)
  {
    forall n :: n in Notifiers(snap) ==>
      n in times && n.messageTimes == SmsTimes(times[n], n.rateLimit, e, now, sentAt, sendErr, NotifierVisits(snap[..i], n))
  }

  /** The delivery to the `i`-th observer of the snapshot. */
  method Deliver(snap: seq<Observer>, i: nat, e: Event, now: int, sentAt: int, sendErr: Option<Error>,
                 ghost counters: map<MetricsCollector, Counters>, ghost times: map<SmsNotifier, seq<int>>)
    requires i < |snap|
    requires Collectors(snap) != {} ==> Recordable(e)
    requires CollectorsAt(snap, i, e, counters) && NotifiersAt(snap, i, e, now, sentAt, sendErr, times)
    modifies Targets(snap)
    ensures CollectorsAt(snap, i + 1, e, counters) && NotifiersAt(snap, i + 1, e, now, sentAt, sendErr, times)
  {
    match snap[i] {
      case MetricsObserver(c) =>
        assert c in Collectors(snap);
        NotifiersSkip(snap, i, e, now, sentAt, sendErr, times);
        DeliverToCollector(snap, i, c, e, counters);
      case SmsObserver(n) =>
        assert n in Notifiers(snap);
        CollectorsSkip(snap, i, e, counters);
        DeliverToNotifier(snap, i, n, e, now, sentAt, sendErr, times);
      case OtherObserver(_) =>
        NotifiersSkip(snap, i, e, now, sentAt, sendErr, times);
        CollectorsSkip(snap, i, e, counters);
    }
  }

  method DeliverToCollector(snap: seq<Observer>, i: nat, c: MetricsCollector, e: Event,
                            ghost counters: map<MetricsCollector, Counters>)
    requires i < |snap| && snap[i] == MetricsObserver(c) && c in Collectors(snap)
    requires Recordable(e)
    requires CollectorsAt(snap, i, e, counters)
    modifies c
    ensures CollectorsAt(snap, i + 1, e, counters)
  {
    VisitsStep(snap, i);
    var _ := c.Notify(e);
    forall c' | c' in Collectors(snap)
      ensures c' in counters && c'.State() == CollectedTimes(counters[c'], e, CollectorVisits(snap[..i + 1], c'))
    {
      if c' != c {
        assert CollectorVisits(snap[..i + 1], c') == CollectorVisits(snap[..i], c');
      }
    }
  }

  method DeliverToNotifier(snap: seq<Observer>, i: nat, n: SmsNotifier, e: Event, now: int, sentAt: int,
                           sendErr: Option<Error>, ghost times: map<SmsNotifier, seq<int>>)
    requires i < |snap| && snap[i] == SmsObserver(n) && n in Notifiers(snap)
    requires NotifiersAt(snap, i, e, now, sentAt, sendErr, times)
    modifies n
    ensures NotifiersAt(snap, i + 1, e, now, sentAt, sendErr, times)
  {
    VisitsStep(snap, i);
    ghost var k := NotifierVisits(snap[..i], n);
    assert n.messageTimes == SmsTimes(times[n], n.rateLimit, e, now, sentAt, sendErr, k);
    var _ := n.Notify(e, now, sentAt, sendErr);
    assert n.messageTimes == SmsTimes(times[n], n.rateLimit, e, now, sentAt, sendErr, k + 1);
    forall n' | n' in Notifiers(snap)
      ensures n' in times &&
              n'.messageTimes == SmsTimes(times[n'], n'.rateLimit, e, now, sentAt, sendErr, NotifierVisits(snap[..i + 1], n'))
    {
      if n' != n {
        assert NotifierVisits(snap[..i + 1], n') == NotifierVisits(snap[..i], n');
      }
    }
  }

  /** A delivery to anything but a collector leaves every collector's count of visits as it was. */
  lemma CollectorsSkip(snap: seq<Observer>, i: nat, e: Event, counters: map<MetricsCollector, Counters>)
    requires i < |snap| && !snap[i].MetricsObserver?
    requires Collectors(snap) != {} ==> Recordable(e)
    requires CollectorsAt(snap, i, e, counters)
    ensures CollectorsAt(snap, i + 1, e, counters)
  {
    VisitsStep(snap, i);
  }

  lemma NotifiersSkip(snap: seq<Observer>, i: nat, e: Event, now: int, sentAt: int, sendErr: Option<Error>,
                      times: map<SmsNotifier, seq<int>>)
    requires i < |snap| && !snap[i].SmsObserver?
    requires NotifiersAt(snap, i, e, now, sentAt, sendErr, times)
    ensures NotifiersAt(snap, i + 1, e, now, sentAt, sendErr, times)
  {
    VisitsStep(snap, i);
  }

  /** One more delivery adds one visit to the observer delivered to and none to any other. */
  lemma VisitsStep(snap: seq<Observer>, i: nat)
    requires i < |snap|
    ensures forall c :: CollectorVisits(snap[..i + 1], c) ==
              CollectorVisits(snap[..i], c) + (if snap[i] == MetricsObserver(c) then 1 else 0)
    ensures forall n :: NotifierVisits(snap[..i + 1], n) ==
              NotifierVisits(snap[..i], n) + (if snap[i] == SmsObserver(n) then 1 else 0)
  {
    assert snap[..i + 1][..i] == snap[..i];
  }

  lemma DetachedAt(obs: seq<Observer>, name: string, i: nat)
    requires i <= |obs|
    requires forall j :: 0 <= j < i ==> Name(obs[j]) != name
    requires i < |obs| ==> Name(obs[i]) == name
    ensures Detached(obs, name) == if i < |obs| then obs[..i] + obs[i + 1..] else obs
  {
    var k := FirstNamed(obs, name);
    assert k == i;
  }

  lemma {:induction false} CollectorVisitsAppend(a: seq<Observer>, b: seq<Observer>, c: MetricsCollector)
    ensures CollectorVisits(a + b, c) == CollectorVisits(a, c) + CollectorVisits(b, c)
    decreases |b|
  {
    if b == [] {
      assert a + b == a;
    } else {
      assert (a + b)[..|a + b| - 1] == a + b[..|b| - 1];
      CollectorVisitsAppend(a, b[..|b| - 1], c);
    }
  }

  /** `Detach` matches by name: the first observer so called leaves, whoever it is, and nothing else does. */
  lemma DetachMatchesByName(obs: seq<Observer>, o: Observer, c: MetricsCollector)
    ensures var k := FirstNamed(obs, Name(o));
            CollectorVisits(Detached(obs, Name(o)), c) ==
              CollectorVisits(obs, c) - (if k < |obs| && obs[k] == MetricsObserver(c) then 1 else 0)
    ensures |Detached(obs, Name(o))| == |obs| - (if FirstNamed(obs, Name(o)) < |obs| then 1 else 0)
  {
    var k := FirstNamed(obs, Name(o));
    if k < |obs| {
      assert obs == obs[..k] + [obs[k]] + obs[k + 1..];
      CollectorVisitsAppend(obs[..k] + [obs[k]], obs[k + 1..], c);
      CollectorVisitsAppend(obs[..k], [obs[k]], c);
      CollectorVisitsAppend(obs[..k], obs[k + 1..], c);
      assert [obs[k]][..0] == [];
    }
  }

  /** Two different collectors attached once each see the event exactly once each. */
  lemma EachAttachedOnceSeesOnce(c1: MetricsCollector, c2: MetricsCollector)
    requires c1 != c2
    ensures CollectorVisits([MetricsObserver(c1), MetricsObserver(c2)], c1) == 1
    ensures CollectorVisits([MetricsObserver(c1), MetricsObserver(c2)], c2) == 1
  {
    var obs := [MetricsObserver(c1), MetricsObserver(c2)];
    assert obs[..1] == [MetricsObserver(c1)];
    assert [MetricsObserver(c1)][..0] == [];
    assert CollectorVisits([MetricsObserver(c1)], c1) == 1;
    assert CollectorVisits([MetricsObserver(c1)], c2) == 0;
  }
}
