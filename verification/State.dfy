/** The three state surfaces of a project and their transition tables. */
module State {
  datatype ProjectState =
    | Draft
    | InputValidated
    | ThreeChainReady
    | MatrixReady
    | WaitingBudget
    | WaitingConfirmation
    | AdvisoryReady
    | FailedClosed
    | ProjectClosed

  datatype ExecutionState =
    | NoExecution
    | TestWriteAuthorized
    | ProductionCreateAuthorized
    | WriteInProgress
    | PartiallyCreatedPaused
    | PauseFailedEmergency
    | CreatePaused
    | ReadbackVerified
    | ReadbackMismatch
    | ReconcileRequired
    | RecoveryRequired
    | RelockFailed
    | WaitingReleaseAuthorization

  datatype DeliveryState =
    | NotReleased
    | FeedLearning
    | SearchEligible
    | Stable
    | Closing
    | DeliveryClosed

  function ProjectTransitions(current: ProjectState): set<ProjectState> {
    match current
    case Draft => {InputValidated, FailedClosed}
    case InputValidated => {ThreeChainReady, FailedClosed}
    case ThreeChainReady => {MatrixReady, WaitingBudget, FailedClosed}
    case MatrixReady => {WaitingConfirmation, WaitingBudget, FailedClosed}
    case WaitingBudget => {InputValidated, MatrixReady, ProjectClosed}
    case WaitingConfirmation => {AdvisoryReady, FailedClosed}
    case AdvisoryReady => {InputValidated, ProjectClosed, FailedClosed}
    case FailedClosed => {InputValidated, ProjectClosed}
    case ProjectClosed => {}
  }

  function ExecutionTransitions(current: ExecutionState): set<ExecutionState> {
    match current
    case NoExecution => {TestWriteAuthorized, ProductionCreateAuthorized}
    case TestWriteAuthorized => {WriteInProgress, NoExecution}
    case ProductionCreateAuthorized => {WriteInProgress, NoExecution}
    case WriteInProgress =>
      {PartiallyCreatedPaused, PauseFailedEmergency, CreatePaused, ReadbackVerified, ReadbackMismatch,
       ReconcileRequired, RecoveryRequired, RelockFailed, WaitingReleaseAuthorization}
    case PartiallyCreatedPaused => {ReconcileRequired, RecoveryRequired}
    case PauseFailedEmergency => {ReconcileRequired, RecoveryRequired}
    case CreatePaused => {ReadbackVerified, ReadbackMismatch, ReconcileRequired, RelockFailed}
    case ReadbackVerified => {TestWriteAuthorized, WaitingReleaseAuthorization}
    case ReadbackMismatch => {ReconcileRequired, RecoveryRequired}
    case ReconcileRequired => {ReadbackVerified, RecoveryRequired, RelockFailed}
    case RecoveryRequired => {ReconcileRequired, TestWriteAuthorized, ProductionCreateAuthorized}
    case RelockFailed => {RecoveryRequired, ReconcileRequired}
    case WaitingReleaseAuthorization => {TestWriteAuthorized}
  }

  function DeliveryTransitions(current: DeliveryState): set<DeliveryState> {
    match current
    case NotReleased => {FeedLearning, DeliveryClosed}
    case FeedLearning => {SearchEligible, Stable, Closing}
    case SearchEligible => {Stable, Closing}
    case Stable => {Closing}
    case Closing => {DeliveryClosed}
    case DeliveryClosed => {}
  }

  /** How far delivery has advanced; every allowed move raises it. */
  function DeliveryRank(s: DeliveryState): nat {
    match s
    case NotReleased => 0
    case FeedLearning => 1
    case SearchEligible => 2
    case Stable => 3
    case Closing => 4
    case DeliveryClosed => 5
  }
}
