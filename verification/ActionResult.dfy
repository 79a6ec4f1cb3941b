/** The results an action can report (internal/controller/metal3.io/action_result.go). */
module ActionResults {
  import opened HostTypes

  /** NoAction is Go's nil; DeleteComplete is a type of its own, which no handler takes for a completion. */
  datatype ActionResult =
    | NoAction
    | ActionContinue(delay: nat)
    | ActionUpdate(delay: nat)
    | ActionDelayed
    | ActionComplete
    | DeleteComplete
    | ActionError(needsRegistration: bool)
    | ActionFailed(errorType: ErrorType, errorCount: nat)

  predicate Dirty(r: ActionResult) {
    r.ActionUpdate? || r.ActionDelayed? || r.ActionComplete? || r.ActionFailed?
  }

  /** What controller-runtime is told: requeue at once, requeue after a delay (seconds), or an error. */
  datatype Requeue = Requeue(immediately: bool, after: real, error: bool) {
    predicate ComesBack() { immediately || after > 0.0 || error }
  }

  const MAX_BACKOFF_COUNT: nat := 9

  function Exp2(n: nat): (r: real)
    ensures r >= 1.0
  {
    if n == 0 then 1.0 else 2.0 * Exp2(n - 1)
  }

  /** calculateBackoff, in minutes; `draw` is the random number in [0, 1). */
  function CalculateBackoff(errorCount: nat, draw: real): real {
    var base := Exp2(if errorCount > MAX_BACKOFF_COUNT then MAX_BACKOFF_COUNT else errorCount);
    base - draw * base * 0.5
  }

  function Outcome(r: ActionResult, draw: real): Requeue
    requires !r.NoAction?
  {
    match r
    case ActionContinue(delay) => Requeue(true, delay as real, false)
    case ActionUpdate(delay) => Requeue(true, delay as real, false)
    case ActionDelayed => Requeue(true, 60.0 * CalculateBackoff(1, draw), false)
    case ActionComplete => Requeue(true, 0.0, false)
    case DeleteComplete => Requeue(false, 0.0, false)
    case ActionError(_) => Requeue(false, 0.0, true)
    case ActionFailed(_, errorCount) => Requeue(false, 60.0 * CalculateBackoff(errorCount, draw), false)
  }

  lemma {:induction false} Exp2Monotone(m: nat, n: nat)
    requires m <= n
    ensures Exp2(m) <= Exp2(n)
    decreases n
  {
    if m < n {
      Exp2Monotone(m, n - 1);
    }
  }

  /** The n-th failure in a row waits between 2^(n-1) and 2^n minutes, and never longer than the ninth. */
  lemma BackoffBounds(errorCount: nat, draw: real)
    requires 0.0 <= draw < 1.0
    ensures var n := if errorCount > 9 then 9 else errorCount;
            Exp2(n) / 2.0 < CalculateBackoff(errorCount, draw) <= Exp2(n)
    ensures 0.5 < CalculateBackoff(errorCount, draw) <= 512.0
  {
  }

  /** When the host is looked at again: after the delay that the result names, at once after a completion; after one or
      two minutes when there was no capacity; and after a failure in the time that the number of failures asks for. */
  lemma DelaysMean(r: ActionResult, draw: real)
    requires !r.NoAction? && 0.0 <= draw < 1.0
    ensures r.ActionContinue? || r.ActionUpdate? ==>
              Outcome(r, draw).after == r.delay as real && !Outcome(r, draw).error
    ensures r.ActionComplete? ==> Outcome(r, draw) == Requeue(true, 0.0, false)
    ensures r.ActionDelayed? ==> 60.0 < Outcome(r, draw).after <= 120.0
    ensures r.ActionError? <==> Outcome(r, draw).error
    ensures r.ActionFailed? ==>
              var n := if r.errorCount > 9 then 9 else r.errorCount;
              30.0 * Exp2(n) < Outcome(r, draw).after <= 60.0 * Exp2(n)
  {
    if r.ActionFailed? {
      BackoffBounds(r.errorCount, draw);
    }
    BackoffBounds(1, draw);
  }

  /** The only result after which nobody looks at the host again is deleteComplete. */
  lemma OnlyDeletionStops(r: ActionResult, draw: real)
    requires !r.NoAction? && 0.0 <= draw < 1.0
    ensures Outcome(r, draw).ComesBack() <==> !r.DeleteComplete?
  {
  }
}
