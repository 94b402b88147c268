/** The relay's `callOpenRouterAPI` (backend/server.js): up to `retries` POSTs
    to the completion endpoint, the first usable answer filtered and returned,
    the last error rethrown. The endpoint itself is not modelled: what each
    attempt would produce is given as a sequence of outcomes. */
module Upstream {
  import opened Wrappers
  import opened Text
  import opened ReasoningFilter

  /** What one POST produced. */
  datatype Attempt =
    /** The call threw: a network error, the 30-second timeout or a non-2xx status. */
    | Unreachable(reason: string)
    /** A response arrived; `choices` is its list of candidate completions
        (empty when `data` or `choices` is missing), each with the content of
        its message, or None when that content is missing. */
    | Answered(choices: seq<Option<string>>)

  /** The error an attempt throws. */
  datatype UpstreamError =
    | Transport(reason: string)
    /** "Invalid response from OpenRouter API: No choices found". */
    | NoChoices
    /** `filterReasoning` was handed a missing content and threw a TypeError. */
    | MissingContent

  /** The default of the `retries` parameter, the only value the handler uses. */
  const Retries: nat := 3

  /** The attempt's first choice carries content: the body of the loop returns. */
  predicate Succeeds(a: Attempt) {
    a.Answered? && |a.choices| > 0 && a.choices[0].Some?
  }

  /** The error a failing attempt throws. */
  function ErrorOf(a: Attempt): UpstreamError
    requires !Succeeds(a)
  {
    match a
    case Unreachable(reason) => Transport(reason)
    case Answered(choices) => if |choices| == 0 then NoChoices else MissingContent
  }

  /** The outcome of the body of one iteration of the retry loop. */
  function AttemptResult(a: Attempt): Result<string, UpstreamError> {
    if Succeeds(a) then Success(FilterReasoning(a.choices[0].value)) else Failure(ErrorOf(a))
  }

  /** What `callOpenRouterAPI` resolves or rejects with, given the outcomes
      of its attempts in order. */
  function FirstSuccess(outcomes: seq<Attempt>, retries: nat): (r: Result<string, UpstreamError>)
    requires 0 < retries <= |outcomes|
    ensures r.Success? ==> r.value != [] && IsTrimmed(r.value)
  {
    if Succeeds(outcomes[0]) || retries == 1 then AttemptResult(outcomes[0])
    else FirstSuccess(outcomes[1..], retries - 1)
  }

  /** The call settles with attempt `k` when every earlier attempt failed and
      `k` either succeeded or was the last allowed: the first success is
      returned, and after `retries` failures the last error is rethrown. */
  lemma {:induction false} FirstSuccessAt(outcomes: seq<Attempt>, retries: nat, k: nat)
    requires 0 < retries <= |outcomes| && k < retries
    requires forall j :: 0 <= j < k ==> !Succeeds(outcomes[j])
    requires Succeeds(outcomes[k]) || k == retries - 1
    ensures FirstSuccess(outcomes, retries) == AttemptResult(outcomes[k])
  {
    if k > 0 {
      var later := outcomes[1..];
      assert !Succeeds(outcomes[0]);
      assert FirstSuccess(outcomes, retries) == FirstSuccess(later, retries - 1);
      assert later[k - 1] == outcomes[k];
      forall j | 0 <= j < k - 1 ensures !Succeeds(later[j]) {
        assert later[j] == outcomes[j + 1];
      }
      FirstSuccessAt(later, retries - 1, k - 1);
    }
  }

  /** The call succeeds exactly when one of the first `retries` attempts does,
      and its value is then a filtered reply, never empty. */
  lemma {:induction false} FirstSuccessSucceeds(outcomes: seq<Attempt>, retries: nat)
    requires 0 < retries <= |outcomes|
    ensures FirstSuccess(outcomes, retries).Success? <==> exists k :: 0 <= k < retries && Succeeds(outcomes[k])
    ensures FirstSuccess(outcomes, retries).Success? ==> FirstSuccess(outcomes, retries).value != []
  {
    if !Succeeds(outcomes[0]) && retries > 1 {
      FirstSuccessSucceeds(outcomes[1..], retries - 1);
      if exists k :: 0 <= k < retries && Succeeds(outcomes[k]) {
        var k :| 0 <= k < retries && Succeeds(outcomes[k]);
        assert outcomes[1..][k - 1] == outcomes[k];
      }
    }
  }

  /** The retry loop. `attempts` counts the POSTs made. */
  method CallOpenRouter(outcomes: seq<Attempt>, retries: nat) returns (r: Result<string, UpstreamError>, attempts: nat)
    requires 0 < retries <= |outcomes|
    ensures r == FirstSuccess(outcomes, retries)
    ensures 0 < attempts <= retries && r == AttemptResult(outcomes[attempts - 1])
    ensures forall j :: 0 <= j < attempts - 1 ==> !Succeeds(outcomes[j])
    ensures r.Failure? ==> attempts == retries
  {
    var i := 0;
    while true
      invariant 0 <= i < retries
      invariant forall j :: 0 <= j < i ==> !Succeeds(outcomes[j])
      decreases retries - i
    {
      var result := AttemptResult(outcomes[i]);
      if result.Success? || i == retries - 1 {
        // the first success is returned; the last attempt's error is rethrown
        FirstSuccessAt(outcomes, retries, i);
        return result, i + 1;
      }
      i := i + 1;
    }
  }
}
