/**
 * What connectWebSocketWithRetry decides (chrome.go:80-91, firefox.go:156-167, the
 * same loop in both): attempt i for i = 0, 1, ... while i < maxRetries, stop at the
 * first attempt that succeeds, and otherwise fail with an error that names maxRetries
 * and the last attempt's error. Attempt outcomes are an input: `outcome(i)` is the
 * error of attempt i, or None when it connects. The delay between attempts is not
 * modelled.
 */
module Retry {
  import opened Browser

  /** How a retry run ends: attempt `attempt` connected, or every attempt failed. */
  datatype Outcome = Connected(attempt: nat) | Exhausted(attempts: nat, last: Option<Error>)

  /** The run from attempt `i` on, `last` being the error of attempt i - 1 (nil before any). */
  function From(maxRetries: int, outcome: nat -> Option<Error>, i: nat, last: Option<Error>): (o: Outcome)
    ensures o.Connected? ==> i <= o.attempt < maxRetries && outcome(o.attempt).None?
    decreases if i < maxRetries then maxRetries - i else 0
  {
    if i < maxRetries then
      match outcome(i)
      case None => Connected(i)
      case Some(e) => From(maxRetries, outcome, i + 1, Some(e))
    else
      Exhausted(i, last)
  }

  function Run(maxRetries: int, outcome: nat -> Option<Error>): Outcome {
    From(maxRetries, outcome, 0, None)
  }

  /** The error the Go function returns for a run. */
  function ErrorOf(maxRetries: int, o: Outcome): Option<Error> {
    match o
    case Connected(_) => None
    case Exhausted(_, last) => Some(RetriesExhausted(maxRetries, last))
  }

  /** How many attempts a run makes. */
  function AttemptsOf(o: Outcome): nat {
    match o
    case Connected(k) => k + 1
    case Exhausted(n, _) => n
  }

  lemma {:induction false} FromFirstSuccess(maxRetries: int, outcome: nat -> Option<Error>, i: nat, last: Option<Error>, k: nat)
    requires i <= k < maxRetries && outcome(k).None?
    requires forall j :: i <= j < k ==> outcome(j).Some?
    ensures From(maxRetries, outcome, i, last) == Connected(k)
    decreases k - i
  {
    if i < k {
      FromFirstSuccess(maxRetries, outcome, i + 1, outcome(i), k);
    }
  }

  /**
   * When attempt k is the first to connect and k < maxRetries, the run connects at
   * attempt k: it has made exactly k + 1 attempts and returns success.
   */
  lemma FirstSuccess(maxRetries: int, outcome: nat -> Option<Error>, k: nat)
    requires k < maxRetries && outcome(k).None?
    requires forall j :: 0 <= j < k ==> outcome(j).Some?
    ensures Run(maxRetries, outcome) == Connected(k)
    ensures AttemptsOf(Run(maxRetries, outcome)) == k + 1
    ensures ErrorOf(maxRetries, Run(maxRetries, outcome)).None?
  {
    FromFirstSuccess(maxRetries, outcome, 0, None, k);
  }

  lemma {:induction false} FromAllFail(maxRetries: int, outcome: nat -> Option<Error>, i: nat, last: Option<Error>)
    requires forall j :: i <= j < maxRetries ==> outcome(j).Some?
    ensures From(maxRetries, outcome, i, last)
      == if i < maxRetries then Exhausted(maxRetries, outcome(maxRetries - 1)) else Exhausted(i, last)
    decreases if i < maxRetries then maxRetries - i else 0
  {
    if i < maxRetries {
      FromAllFail(maxRetries, outcome, i + 1, outcome(i));
    }
  }

  /**
   * When every attempt fails, the run makes exactly maxRetries attempts (none when
   * maxRetries <= 0) and its error names maxRetries and the last attempt's error
   * (nil when no attempt was made).
   */
  lemma AllFail(maxRetries: int, outcome: nat -> Option<Error>)
    requires forall j :: 0 <= j < maxRetries ==> outcome(j).Some?
    ensures var o := Run(maxRetries, outcome);
      && AttemptsOf(o) == (if maxRetries > 0 then maxRetries else 0)
      && ErrorOf(maxRetries, o)
         == Some(RetriesExhausted(maxRetries, if maxRetries > 0 then outcome(maxRetries - 1) else None))
  {
    FromAllFail(maxRetries, outcome, 0, None);
  }

  lemma {:induction false} FromConnectedIsFirst(maxRetries: int, outcome: nat -> Option<Error>, i: nat, last: Option<Error>)
    ensures var o := From(maxRetries, outcome, i, last);
      o.Connected? ==>
        && i <= o.attempt < maxRetries && outcome(o.attempt).None?
        && forall j :: i <= j < o.attempt ==> outcome(j).Some?
    ensures var o := From(maxRetries, outcome, i, last);
      o.Exhausted? ==> forall j :: i <= j < maxRetries ==> outcome(j).Some?
    decreases if i < maxRetries then maxRetries - i else 0
  {
    if i < maxRetries && outcome(i).Some? {
      FromConnectedIsFirst(maxRetries, outcome, i + 1, outcome(i));
    }
  }

  /**
   * The converse: a run succeeds only at the first connecting attempt, within
   * maxRetries attempts, and fails only when every attempt failed; it never makes
   * more than maxRetries attempts.
   */
  lemma RunIsFirstSuccess(maxRetries: int, outcome: nat -> Option<Error>)
    ensures var o := Run(maxRetries, outcome);
      && (o.Connected? ==>
            && o.attempt < maxRetries && outcome(o.attempt).None?
            && forall j :: 0 <= j < o.attempt ==> outcome(j).Some?)
      && (o.Exhausted? ==> forall j :: 0 <= j < maxRetries ==> outcome(j).Some?)
      && AttemptsOf(o) <= (if maxRetries > 0 then maxRetries else 0)
  {
    FromConnectedIsFirst(maxRetries, outcome, 0, None);
    var o := Run(maxRetries, outcome);
    if o.Exhausted? {
      AllFail(maxRetries, outcome);
    }
  }
}
