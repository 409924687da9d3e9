/** Bounded retries of read-only upstream calls (src/grantora/adapters/http.py). */
module Retry {
  import opened Prelude
  import opened Json
  import opened Tables

  /** An upstream answer: status, body size, and the parsed body if it is JSON. */
  datatype HttpResponse = HttpResponse(status: int, size: nat, body: Option<Json>)

  datatype SendOutcome = Timeout | RequestError | Answer(response: HttpResponse)

  /** What invoke returns, or that it lets an exception through. */
  datatype AdapterResult =
    | AdapterOk(data: Json)
    | AdapterError(code: string, upstreamStatus: Option<int>, retryable: bool)
    | AdapterRaised

  /** A code the pipeline hands on as it is, and the events can hold. */
  predicate IsErrorCode(code: string) {
    0 < |code| <= 128 && '\0' !in code
  }

  /** _attempts_for_capability */
  function Attempts(risk: RiskClass, readOnlyAttempts: int): (n: int)
    ensures n >= 1 && (n > 1 ==> n == readOnlyAttempts)
    ensures n == 1 <==> !risk.ReadOnly? || readOnlyAttempts <= 1
  {
    if risk.ReadOnly? && readOnlyAttempts > 1 then readOnlyAttempts else 1
  }

  /** _retryable_status */
  predicate RetryableStatus(status: int) {
    status == 429 || status >= 500
  }

  predicate Retryable(outcome: SendOutcome) {
    outcome.Answer? ==> RetryableStatus(outcome.response.status)
  }

  /** How the outcome of the last send is reported: a response, or an adapter error, never both. */
  function Report(outcome: SendOutcome): (Option<HttpResponse>, Option<AdapterResult>) {
    match outcome
    case Timeout => (None, Some(AdapterError("upstream_timeout", None, true)))
    case RequestError => (None, Some(AdapterError("upstream_error", None, true)))
    case Answer(response) => (Some(response), None)
  }

  /** How often the loop sends, counted from the given attempt on. */
  function SendsFrom(outcomes: nat -> SendOutcome, attempt: nat, attempts: nat): nat
    requires attempt < attempts
    decreases attempts - attempt
  {
    if attempt + 1 < attempts && Retryable(outcomes(attempt)) then SendsFrom(outcomes, attempt + 1, attempts)
      else attempt + 1
  }

  function Sends(risk: RiskClass, readOnlyAttempts: int, outcomes: nat -> SendOutcome): nat {
    SendsFrom(outcomes, 0, Attempts(risk, readOnlyAttempts))
  }

  lemma {:induction false} SomethingIsSent(outcomes: nat -> SendOutcome, attempt: nat, attempts: nat)
    requires attempt < attempts
    ensures attempt < SendsFrom(outcomes, attempt, attempts) <= attempts
    decreases attempts - attempt
  {
    if attempt + 1 < attempts { SomethingIsSent(outcomes, attempt + 1, attempts); }
  }

  /** The outcome the loop reports. */
  function LastOutcome(risk: RiskClass, readOnlyAttempts: int, outcomes: nat -> SendOutcome): SendOutcome {
    SomethingIsSent(outcomes, 0, Attempts(risk, readOnlyAttempts));
    outcomes(Sends(risk, readOnlyAttempts, outcomes) - 1)
  }

  /** send_with_read_only_retries against a stream of outcomes. It reports the first outcome that is not
      retryable among the allowed attempts, or the last attempt's, and sends no more than that. The return
      after the source's loop is unreachable. */
  method SendWithReadOnlyRetries(risk: RiskClass, readOnlyAttempts: int, outcomes: nat -> SendOutcome)
    returns (response: Option<HttpResponse>, error: Option<AdapterResult>, sent: nat)
    ensures sent == Sends(risk, readOnlyAttempts, outcomes)
    ensures 1 <= sent <= Attempts(risk, readOnlyAttempts)
    ensures forall i :: 0 <= i < sent - 1 ==> Retryable(outcomes(i))
    ensures !Retryable(outcomes(sent - 1)) || sent == Attempts(risk, readOnlyAttempts)
    ensures (response, error) == Report(outcomes(sent - 1))
    ensures response.None? <==> error.Some?
    ensures !risk.ReadOnly? ==> sent == 1
  {
    var attempts := Attempts(risk, readOnlyAttempts);
    for attempt := 0 to attempts
      invariant attempt < attempts
      invariant Sends(risk, readOnlyAttempts, outcomes) == SendsFrom(outcomes, attempt, attempts)
      invariant forall i :: 0 <= i < attempt ==> Retryable(outcomes(i))
    {
      var outcome := outcomes(attempt);
      sent := attempt + 1;
      match outcome
      case Timeout =>
        if attempt < attempts - 1 { continue; }
        return None, Some(AdapterError("upstream_timeout", None, true)), sent;
      case RequestError =>
        if attempt < attempts - 1 { continue; }
        return None, Some(AdapterError("upstream_error", None, true)), sent;
      case Answer(answer) =>
        if attempt < attempts - 1 && RetryableStatus(answer.status) { continue; }
        return Some(answer), None, sent;
    }
    assert false;
  }
}
