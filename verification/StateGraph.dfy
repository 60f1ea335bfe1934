/** The pure transition function over operation and batch states
    (domain/statemachine/__init__.py). */
module StateGraph {

  datatype OperationState = Prepared | Started | Succeeded | Failed | OutcomeUnknown

  datatype BatchState =
    | Created
    | RunningBatch
    | WaitingCapability
    | CompletedTarget
    | CompletedExhausted
    | FailedSystem

  datatype Transition<S> = Moved(state: S, revision: int) | RevisionConflict(actual: int) | Forbidden

  function Attempt<S(==)>(current: S, currentRevision: int, expectedRevision: int, requested: S,
                          edges: set<(S, S)>, evidenceEdges: set<(S, S)>, evidence: bool): Transition<S>
  {
    if expectedRevision != currentRevision then RevisionConflict(currentRevision)
    else if (current, requested) !in edges || ((current, requested) in evidenceEdges && !evidence) then Forbidden
    else Moved(requested, currentRevision + 1)
  }

  const OPERATION_EVIDENCE_EDGES: set<(OperationState, OperationState)> :=
    {(OutcomeUnknown, Succeeded), (OutcomeUnknown, Failed)}

  const OPERATION_EDGES: set<(OperationState, OperationState)> :=
    {(Prepared, Started), (Started, Succeeded), (Started, Failed), (Started, OutcomeUnknown)} + OPERATION_EVIDENCE_EDGES

  const BATCH_EDGES: set<(BatchState, BatchState)> :=
    {(Created, RunningBatch), (RunningBatch, WaitingCapability), (WaitingCapability, RunningBatch),
     (RunningBatch, CompletedTarget), (RunningBatch, CompletedExhausted), (RunningBatch, FailedSystem),
     (WaitingCapability, CompletedTarget), (WaitingCapability, CompletedExhausted), (WaitingCapability, FailedSystem)}

  function TransitionOperation(current: OperationState, currentRevision: int, expectedRevision: int,
                               requested: OperationState, evidence: bool): Transition<OperationState> {
    Attempt(current, currentRevision, expectedRevision, requested, OPERATION_EDGES, OPERATION_EVIDENCE_EDGES, evidence)
  }

  function TransitionBatch(current: BatchState, currentRevision: int, expectedRevision: int,
                           requested: BatchState): Transition<BatchState> {
    Attempt(current, currentRevision, expectedRevision, requested, BATCH_EDGES, {}, false)
  }

  // ----- what the graphs mean -----

  /** How many moves an operation has left at most. */
  function MovesLeft(s: OperationState): nat {
    match s
    case Prepared => 3
    case Started => 2
    case OutcomeUnknown => 1
    case _ => 0
  }

  /** A move needs the current revision and takes the next one; it starts a prepared operation, decides a
      started one or leaves its outcome open, and decides an open outcome only on evidence. */
  lemma OperationMovesExactly(current: OperationState, currentRevision: int, expectedRevision: int,
                              requested: OperationState, evidence: bool)
    ensures var t := TransitionOperation(current, currentRevision, expectedRevision, requested, evidence);
            var decided := requested.Succeeded? || requested.Failed?;
            && (t.RevisionConflict? <==> expectedRevision != currentRevision)
            && (t.RevisionConflict? ==> t.actual == currentRevision)
            && (t.Moved? <==>
                  && expectedRevision == currentRevision
                  && match current
                     case Prepared => requested.Started?
                     case Started => decided || requested.OutcomeUnknown?
                     case OutcomeUnknown => decided && evidence
                     case _ => false)
            && (t.Moved? ==> t.state == requested && t.revision == currentRevision + 1
                             && MovesLeft(requested) < MovesLeft(current))
  {
  }

  predicate Final(s: BatchState) {
    s.CompletedTarget? || s.CompletedExhausted? || s.FailedSystem?
  }

  /** A batch runs after it was created, waits and runs in turn, and ends from either; a move never needs
      evidence. */
  lemma BatchMovesExactly(current: BatchState, currentRevision: int, expectedRevision: int, requested: BatchState)
    ensures var t := TransitionBatch(current, currentRevision, expectedRevision, requested);
            && (t.RevisionConflict? <==> expectedRevision != currentRevision)
            && (t.RevisionConflict? ==> t.actual == currentRevision)
            && (t.Moved? <==>
                  && expectedRevision == currentRevision
                  && match current
                     case Created => requested.RunningBatch?
                     case RunningBatch => requested.WaitingCapability? || Final(requested)
                     case WaitingCapability => requested.RunningBatch? || Final(requested)
                     case _ => false)
            && (t.Moved? ==> t.state == requested && t.revision == currentRevision + 1)
  {
  }
}
