/**
 * Coded application errors (pkg/errors/errors.go).
 *
 * An error value is one of three shapes: a plain error with a text (what
 * `errors.New`, a context's `Err()` or `fmt.Errorf` without `%w` produce), a
 * context layer added by `fmt.Errorf("<prefix>: %w", cause)`, or an
 * `*AppError` carrying a code, a message and an optional inner error.
 */
module AppErrors {

  /** The error codes of the package's constants. */
  datatype Code =
    | Validation | NotFound | AlreadyExists | Unauthorized | InternalError | PaymentFailed
    | InsufficientFunds | InvalidPayment | FraudDetected | InventoryError | Timeout

  /** The text each code constant stands for. */
  function CodeText(c: Code): string
  {
    match c
    case Validation => "VALIDATION_ERROR"
    case NotFound => "NOT_FOUND"
    case AlreadyExists => "ALREADY_EXISTS"
    case Unauthorized => "UNAUTHORIZED"
    case InternalError => "INTERNAL_ERROR"
    case PaymentFailed => "PAYMENT_FAILED"
    case InsufficientFunds => "INSUFFICIENT_FUNDS"
    case InvalidPayment => "INVALID_PAYMENT"
    case FraudDetected => "FRAUD_DETECTED"
    case InventoryError => "INVENTORY_ERROR"
    case Timeout => "TIMEOUT"
  }

  datatype Option<T> = None | Some(value: T)

  datatype Error =
    | Plain(text: string)
    | Context(prefix: string, cause: Error)
    | App(code: Code, message: string, inner: Option<Error>)

  /** A check that either passes or fails with an error (Go's `error` result alone). */
  datatype Outcome = Pass | Fail(error: Error)

  /** A value or the error that prevented it (Go's `(T, error)` pair). */
  datatype Result<T> = Ok(value: T) | Err(error: Error)
  {
    predicate IsFailure() { Err? }
    function PropagateFailure<U>(): Result<U> requires Err? { Err(error) }
    function Extract(): T requires Ok? { value }
  }

  /** The text `Error()` renders. */
  function Text(e: Error): string
  {
    match e
    case Plain(t) => t
    case Context(p, c) => p + ": " + Text(c)
    case App(code, msg, inner) =>
      if inner.Some? then CodeText(code) + ": " + msg + ": " + Text(inner.value) else CodeText(code) + ": " + msg
  }

  /** `errors.Unwrap`: the next error down the chain, if any. */
  function Unwrap(e: Error): (r: Option<Error>)
    ensures r.Some? ==> r.value < e
    ensures r.None? <==> e.Plain? || (e.App? && e.inner.None?)
  {
    match e
    case Plain(_) => None
    case Context(_, c) => Some(c)
    case App(_, _, inner) => inner
  }

  /** The unwrap chain starting at `e`, outermost first. */
  function Chain(e: Error): (r: seq<Error>)
    ensures |r| >= 1 && r[0] == e
  {
    match Unwrap(e)
    case None => [e]
    case Some(next) => [e] + Chain(next)
  }

  /** `errors.As(err, &appErr)`: the first `*AppError` on the chain. */
  function AsApp(e: Error): (r: Option<Error>)
    ensures r.Some? ==> r.value.App?
  {
    match e
    case Plain(_) => None
    case Context(_, c) => AsApp(c)
    case App(_, _, _) => Some(e)
  }

  predicate IsErrorCode(e: Error, code: Code)
  {
    AsApp(e).Some? && AsApp(e).value.code == code
  }

  function GetErrorCode(e: Error): (code: Code)
    ensures AsApp(e).None? ==> code == InternalError
    ensures IsErrorCode(e, code) || AsApp(e).None?
  {
    match AsApp(e)
    case Some(a) => a.code
    case None => InternalError
  }

  function New(code: Code, message: string): (e: Error)
    ensures AsApp(e) == Some(e) && GetErrorCode(e) == code
    ensures Unwrap(e).None?
    ensures Text(e) == CodeText(code) + ": " + message
  {
    App(code, message, None)
  }

  function Wrap(err: Error, code: Code, message: string): (e: Error)
    ensures AsApp(e) == Some(e) && GetErrorCode(e) == code
    ensures Unwrap(e) == Some(err)
    ensures Text(e) == CodeText(code) + ": " + message + ": " + Text(err)
  {
    App(code, message, Some(err))
  }

  function NewValidationError(message: string): (e: Error)
    ensures IsErrorCode(e, Validation) && Unwrap(e).None?
    ensures e.message == message
  {
    New(Validation, message)
  }

  function NewNotFoundError(resource: string): (e: Error)
    ensures IsErrorCode(e, NotFound) && Unwrap(e).None?
    ensures Text(e) == CodeText(NotFound) + ": " + resource + " not found"
  {
    New(NotFound, resource + " not found")
  }

  function NewAlreadyExistsError(resource: string): (e: Error)
    ensures IsErrorCode(e, AlreadyExists) && Unwrap(e).None?
    ensures Text(e) == CodeText(AlreadyExists) + ": " + resource + " already exists"
  {
    New(AlreadyExists, resource + " already exists")
  }

  function NewUnauthorizedError(message: string): (e: Error)
    ensures IsErrorCode(e, Unauthorized) && Unwrap(e).None?
    ensures e.message == message
  {
    New(Unauthorized, message)
  }

  function NewInternalError(message: string): (e: Error)
    ensures IsErrorCode(e, InternalError) && Unwrap(e).None?
    ensures e.message == message
  {
    New(InternalError, message)
  }

  function NewPaymentError(message: string): (e: Error)
    ensures IsErrorCode(e, PaymentFailed) && Unwrap(e).None?
    ensures e.message == message
  {
    New(PaymentFailed, message)
  }

  function NewInsufficientFundsError(): (e: Error)
    ensures IsErrorCode(e, InsufficientFunds) && Unwrap(e).None?
    ensures e.message == "insufficient funds"
  {
    New(InsufficientFunds, "insufficient funds")
  }

  function NewInvalidPaymentError(message: string): (e: Error)
    ensures IsErrorCode(e, InvalidPayment) && Unwrap(e).None?
    ensures e.message == message
  {
    New(InvalidPayment, message)
  }

  function NewFraudDetectedError(message: string): (e: Error)
    ensures IsErrorCode(e, FraudDetected) && Unwrap(e).None?
    ensures e.message == message
  {
    New(FraudDetected, message)
  }

  function NewInventoryError(message: string): (e: Error)
    ensures IsErrorCode(e, InventoryError) && Unwrap(e).None?
    ensures e.message == message
  {
    New(InventoryError, message)
  }

  function NewTimeoutError(message: string): (e: Error)
    ensures IsErrorCode(e, Timeout) && Unwrap(e).None?
    ensures e.message == message
  {
    New(Timeout, message)
  }

  /**
   * `errors.As` finds exactly the first `*AppError` of the unwrap chain: the
   * error it returns sits at some position of the chain and no layer above it
   * is an `*AppError`; when it finds none, the chain holds none.
   */
  lemma {:induction false} AsAppIsFirstOnChain(e: Error)
    ensures AsApp(e).Some? ==>
      exists i :: 0 <= i < |Chain(e)| && Chain(e)[i] == AsApp(e).value &&
        forall j :: 0 <= j < i ==> !Chain(e)[j].App?
    ensures AsApp(e).None? ==> forall j :: 0 <= j < |Chain(e)| ==> !Chain(e)[j].App?
  {
    match e
    case Plain(_) =>
    case App(_, _, _) =>
      assert Chain(e)[0] == e;
    case Context(_, c) =>
      AsAppIsFirstOnChain(c);
      assert Chain(e) == [e] + Chain(c);
      if AsApp(c).Some? {
        var i :| 0 <= i < |Chain(c)| && Chain(c)[i] == AsApp(c).value &&
          forall j :: 0 <= j < i ==> !Chain(c)[j].App?;
        assert Chain(e)[i + 1] == AsApp(e).value;
        assert forall j :: 0 <= j < i + 1 ==> !Chain(e)[j].App? by {
          forall j | 0 <= j < i + 1 ensures !Chain(e)[j].App? {
            if j > 0 { assert Chain(e)[j] == Chain(c)[j - 1]; }
          }
        }
      } else {
        forall j | 0 <= j < |Chain(e)| ensures !Chain(e)[j].App? {
          if j > 0 { assert Chain(e)[j] == Chain(c)[j - 1]; }
        }
      }
  }

  /** `IsErrorCode` asks for the code of the first `AppError` on the unwrap chain, and of no later one. */
  lemma IsErrorCodeIsFirstAppCode(e: Error, code: Code)
    ensures IsErrorCode(e, code) <==>
      exists i :: 0 <= i < |Chain(e)| && Chain(e)[i].App? && Chain(e)[i].code == code &&
        forall j :: 0 <= j < i ==> !Chain(e)[j].App?
  {
    AsAppIsFirstOnChain(e);
    if i :| 0 <= i < |Chain(e)| && Chain(e)[i].App? && Chain(e)[i].code == code &&
            (forall j :: 0 <= j < i ==> !Chain(e)[j].App?) {
      assert AsApp(e).Some?;
      var k :| 0 <= k < |Chain(e)| && Chain(e)[k] == AsApp(e).value &&
        forall j :: 0 <= j < k ==> !Chain(e)[j].App?;
      assert !(i < k) && !(k < i);
    }
  }

  /** `Error()` leads with an `AppError`'s code and message, and with a `%w` layer's prefix. */
  lemma TextLeads(e: Error)
    ensures e.App? ==> CodeText(e.code) + ": " + e.message <= Text(e)
    ensures e.Context? ==> e.prefix + ": " <= Text(e)
    ensures e.Plain? ==> Text(e) == e.text
  {
  }

  predicate EndsWith(s: string, t: string)
  {
    |t| <= |s| && s[|s| - |t|..] == t
  }

  lemma EndsWithAppend(x: string, y: string)
    ensures EndsWith(x + y, y)
  {
    assert (x + y)[|x + y| - |y|..] == y;
  }

  lemma EndsWithTrans(a: string, b: string, c: string)
    requires EndsWith(a, b) && EndsWith(b, c)
    ensures EndsWith(a, c)
  {
    assert a[|a| - |c|..] == b[|b| - |c|..];
  }

  /** The text of an error ends with the text of the error it unwraps to. */
  lemma TextEndsWithNext(e: Error)
    requires Unwrap(e).Some?
    ensures EndsWith(Text(e), Text(Unwrap(e).value))
  {
    match e
    case Context(p, c) =>
      EndsWithAppend(p + ": ", Text(c));
    case App(code, msg, inner) =>
      EndsWithAppend(CodeText(code) + ": " + msg + ": ", Text(inner.value));
  }

  /** `Error()` renders the whole chain: every error `Unwrap` reaches is rendered at the end of the text. */
  lemma {:induction false} TextEndsWithChain(e: Error)
    ensures forall k :: 0 <= k < |Chain(e)| ==> EndsWith(Text(e), Text(Chain(e)[k]))
  {
    match Unwrap(e)
    case None =>
      assert Chain(e) == [e];
      EndsWithAppend([], Text(e));
    case Some(next) =>
      TextEndsWithChain(next);
      TextEndsWithNext(e);
      assert Chain(e) == [e] + Chain(next);
      forall k | 0 <= k < |Chain(e)|
        ensures EndsWith(Text(e), Text(Chain(e)[k]))
      {
        if k == 0 {
          EndsWithAppend([], Text(e));
        } else {
          assert Chain(e)[k] == Chain(next)[k - 1];
          EndsWithTrans(Text(e), Text(next), Text(Chain(next)[k - 1]));
        }
      }
  }

  /**
   * Wrapping hides the inner code: a wrap's code is the only one `IsErrorCode`
   * sees, so a fraud rejection wrapped as a payment failure no longer reads
   * as a fraud rejection.
   */
  lemma OutermostCodeWins(inner: Error, code: Code, message: string, asked: Code)
    ensures IsErrorCode(Wrap(inner, code, message), asked) <==> asked == code
  {
  }

  /** A context layer (`fmt.Errorf` with `%w`) keeps the code of what it wraps. */
  lemma ContextKeepsCode(prefix: string, cause: Error)
    ensures GetErrorCode(Context(prefix, cause)) == GetErrorCode(cause)
    ensures forall code :: IsErrorCode(Context(prefix, cause), code) <==> IsErrorCode(cause, code)
  {
  }
}
