/** The life of an operation: which state may follow which, and what a cancel request does. */
module Operations {

  datatype OperationState =
    | Proposed | AwaitingApproval | Approved | Queued | Running | Verifying | Succeeded | Failed
    | Cancelling | Cancelled | RollbackRequested | RollingBack | RolledBack | RollbackFailed

  function Transitions(state: OperationState): seq<OperationState> {
    match state
    case Proposed => [AwaitingApproval, Approved, Queued, Cancelled]
    case AwaitingApproval => [Approved, Cancelled]
    case Approved => [Queued, Cancelled]
    case Queued => [Running, Cancelling, Cancelled]
    case Running => [Verifying, Succeeded, Failed, Cancelling]
    case Verifying => [Succeeded, Failed, Cancelling]
    case Succeeded => [RollbackRequested]
    case Failed => [RollbackRequested]
    case Cancelling => [Cancelled, Failed]
    case Cancelled => []
    case RollbackRequested => [RollingBack, RollbackFailed]
    case RollingBack => [RolledBack, RollbackFailed]
    case RolledBack => []
    case RollbackFailed => []
  }

  function Rank(state: OperationState): nat {
    match state
    case Proposed => 10
    case AwaitingApproval => 9
    case Approved => 8
    case Queued => 7
    case Running => 6
    case Verifying => 5
    case Cancelling => 4
    case Succeeded => 3
    case Failed => 3
    case RollbackRequested => 2
    case RollingBack => 1
    case Cancelled => 0
    case RolledBack => 0
    case RollbackFailed => 0
  }

  /** One stored operation; `sessionId` and the like are left to the caller's type. */
  datatype Life = Life(state: OperationState, cancelRequested: bool)

  datatype Outcome = Ok(life: Life) | Refused

  /** Moving to the state it is already in returns the operation untouched, patch and all. */
  function Transition(life: Life, state: OperationState, cancel: bool): Outcome {
    if life.state == state then Ok(life)
    else if state !in Transitions(life.state) then Refused
    else Ok(Life(state, life.cancelRequested || cancel))
  }

  function RequestCancel(life: Life): Outcome {
    if life.state in {Succeeded, Failed, Cancelled, RolledBack, RollbackFailed} then Ok(life)
    else Transition(life, if life.state == Queued then Cancelled else Cancelling, true)
  }

  /** No cycle: every transition goes down in rank. */
  lemma TransitionsDescend(state: OperationState, next: OperationState)
    requires next in Transitions(state)
    ensures Rank(next) < Rank(state)
  {
  }

  /** However an operation is moved about, it changes state at most `Rank` times. */
  lemma {:induction false} BoundedTransitions(states: seq<OperationState>)
    requires states != []
    requires forall i :: 0 < i < |states| ==> states[i] in Transitions(states[i - 1])
    ensures |states| <= Rank(states[0]) + 1
  {
    if |states| > 1 {
      assert states[1] in Transitions(states[0]);
      TransitionsDescend(states[0], states[1]);
      forall i | 0 < i < |states[1..]| ensures states[1..][i] in Transitions(states[1..][i - 1]) {
        assert states[i + 1] in Transitions(states[i]);
      }
      BoundedTransitions(states[1..]);
    }
  }

  /** A cancel request is refused exactly where the graph has no way to `Cancelling`; where it is
      accepted the operation is over, or the request is recorded and it can no longer succeed
      without one. */
  lemma CancelOutcome(life: Life)
    requires life.cancelRequested ==> life.state in {Cancelling, Cancelled, Failed}
    requires life.state == Cancelling ==> life.cancelRequested
    ensures RequestCancel(life) == Refused <==>
      life.state in {Proposed, AwaitingApproval, Approved, RollbackRequested, RollingBack}
    ensures RequestCancel(life).Ok? ==>
      var after := RequestCancel(life).life;
      && (life.state in {Queued, Running, Verifying, Cancelling} ==>
            after.cancelRequested && Succeeded !in Transitions(after.state) && after.state in {Cancelling, Cancelled})
      && (life.state !in {Queued, Running, Verifying, Cancelling} ==> after == life)
  {
  }
}
