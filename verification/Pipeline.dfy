/** The migration lifecycle: server states, the table of legal transitions, job types,
    human gates, and the states in which each job may run. */
module Pipeline {

  datatype State =
    | Pending
    | AgentInstalled
    | ReplicationConfigured
    | AwaitingReplicationApproval
    | ReplicationStarted
    | ReadyForTesting
    | TestTemplateConfigured
    | AwaitingTestLaunchApproval
    | TestInstanceLaunching
    | TestInstanceRunning
    | AwaitingTestValidation
    | TestFinalized
    | CutoverTemplateConfigured
    | AwaitingCutoverLaunchApproval
    | CutoverStarted
    | CutoverSyncInProgress
    | ReadyForCutoverLaunch
    | CutoverInstanceLaunching
    | CutoverInstanceRunning
    | AwaitingCutoverValidation
    | CutoverFinalized
    | Disconnecting
    | Disconnected
    | AwaitingArchiveApproval
    | Archived
    | AwaitingCleanupApproval
    | CleanupComplete
    | Failed
    | Frozen

  predicate IsError(s: State) { s.Failed? || s.Frozen? }

  predicate IsTerminal(s: State) { IsError(s) || s.CleanupComplete? }

  /** The table of legal transitions, one entry per state. */
  function NextStates(s: State): set<State> {
    match s
    case Pending => {AgentInstalled, Failed, Frozen}
    case AgentInstalled => {ReplicationConfigured, Failed, Frozen}
    case ReplicationConfigured => {AwaitingReplicationApproval, Failed, Frozen}
    case AwaitingReplicationApproval => {ReplicationStarted, Failed, Frozen}
    case ReplicationStarted => {ReadyForTesting, Failed, Frozen}
    case ReadyForTesting => {TestTemplateConfigured, Failed, Frozen}
    case TestTemplateConfigured => {AwaitingTestLaunchApproval, Failed, Frozen}
    case AwaitingTestLaunchApproval => {TestInstanceLaunching, Failed, Frozen}
    case TestInstanceLaunching => {TestInstanceRunning, Failed, Frozen}
    case TestInstanceRunning => {AwaitingTestValidation, Failed, Frozen}
    case AwaitingTestValidation => {TestFinalized, Failed, Frozen}
    case TestFinalized => {CutoverTemplateConfigured, Failed, Frozen}
    case CutoverTemplateConfigured => {AwaitingCutoverLaunchApproval, Failed, Frozen}
    case AwaitingCutoverLaunchApproval => {CutoverStarted, Failed, Frozen}
    case CutoverStarted => {CutoverSyncInProgress, Failed, Frozen}
    case CutoverSyncInProgress => {ReadyForCutoverLaunch, Failed, Frozen}
    case ReadyForCutoverLaunch => {CutoverInstanceLaunching, Failed, Frozen}
    case CutoverInstanceLaunching => {CutoverInstanceRunning, Failed, Frozen}
    case CutoverInstanceRunning => {AwaitingCutoverValidation, Failed, Frozen}
    case AwaitingCutoverValidation => {CutoverFinalized, Failed, Frozen}
    case CutoverFinalized => {Disconnecting, Failed, Frozen}
    case Disconnecting => {Disconnected, Failed, Frozen}
    case Disconnected => {AwaitingArchiveApproval, Failed, Frozen}
    case AwaitingArchiveApproval => {Archived, Failed, Frozen}
    case Archived => {AwaitingCleanupApproval, Failed, Frozen}
    case AwaitingCleanupApproval => {CleanupComplete, Failed, Frozen}
    case CleanupComplete => {}
    case Failed => {}
    case Frozen => {}
  }

  /** The validator: terminal states first, then membership in the table. */
  predicate Allowed(from: State, to: State) {
    !IsTerminal(from) && to in NextStates(from)
  }

  /** Position in the 27-state pipeline; the two error states come after it. */
  function Rank(s: State): nat {
    match s
    case Pending => 0
    case AgentInstalled => 1
    case ReplicationConfigured => 2
    case AwaitingReplicationApproval => 3
    case ReplicationStarted => 4
    case ReadyForTesting => 5
    case TestTemplateConfigured => 6
    case AwaitingTestLaunchApproval => 7
    case TestInstanceLaunching => 8
    case TestInstanceRunning => 9
    case AwaitingTestValidation => 10
    case TestFinalized => 11
    case CutoverTemplateConfigured => 12
    case AwaitingCutoverLaunchApproval => 13
    case CutoverStarted => 14
    case CutoverSyncInProgress => 15
    case ReadyForCutoverLaunch => 16
    case CutoverInstanceLaunching => 17
    case CutoverInstanceRunning => 18
    case AwaitingCutoverValidation => 19
    case CutoverFinalized => 20
    case Disconnecting => 21
    case Disconnected => 22
    case AwaitingArchiveApproval => 23
    case Archived => 24
    case AwaitingCleanupApproval => 25
    case CleanupComplete => 26
    case Failed => 27
    case Frozen => 28
  }

  lemma RankBounds(s: State)
    ensures Rank(s) <= 28
    ensures Rank(s) == 26 <==> s.CleanupComplete?
    ensures Rank(s) <= 26 <==> !IsError(s)
    ensures Rank(s) < 26 <==> !IsTerminal(s)
  {
  }

  /** The state at a given position of the pipeline, and Failed past its end. */
  function StateAt(n: nat): State {
    if n == 0 then Pending
    else if n == 1 then AgentInstalled
    else if n == 2 then ReplicationConfigured
    else if n == 3 then AwaitingReplicationApproval
    else if n == 4 then ReplicationStarted
    else if n == 5 then ReadyForTesting
    else if n == 6 then TestTemplateConfigured
    else if n == 7 then AwaitingTestLaunchApproval
    else if n == 8 then TestInstanceLaunching
    else if n == 9 then TestInstanceRunning
    else if n == 10 then AwaitingTestValidation
    else if n == 11 then TestFinalized
    else if n == 12 then CutoverTemplateConfigured
    else if n == 13 then AwaitingCutoverLaunchApproval
    else if n == 14 then CutoverStarted
    else if n == 15 then CutoverSyncInProgress
    else if n == 16 then ReadyForCutoverLaunch
    else if n == 17 then CutoverInstanceLaunching
    else if n == 18 then CutoverInstanceRunning
    else if n == 19 then AwaitingCutoverValidation
    else if n == 20 then CutoverFinalized
    else if n == 21 then Disconnecting
    else if n == 22 then Disconnected
    else if n == 23 then AwaitingArchiveApproval
    else if n == 24 then Archived
    else if n == 25 then AwaitingCleanupApproval
    else if n == 26 then CleanupComplete
    else Failed
  }

  lemma RankIsPosition(s: State)
    requires !IsError(s)
    ensures Rank(s) <= 26 && StateAt(Rank(s)) == s
  {
  }

  lemma TableRow(s: State, t: State)
    requires Rank(s) < 26
    ensures t in NextStates(s) <==> t == StateAt(Rank(s) + 1) || IsError(t)
  {
    match s
    case Pending => case AgentInstalled => case ReplicationConfigured =>
    case AwaitingReplicationApproval => case ReplicationStarted => case ReadyForTesting =>
    case TestTemplateConfigured => case AwaitingTestLaunchApproval => case TestInstanceLaunching =>
    case TestInstanceRunning => case AwaitingTestValidation => case TestFinalized =>
    case CutoverTemplateConfigured => case AwaitingCutoverLaunchApproval => case CutoverStarted =>
    case CutoverSyncInProgress => case ReadyForCutoverLaunch => case CutoverInstanceLaunching =>
    case CutoverInstanceRunning => case AwaitingCutoverValidation => case CutoverFinalized =>
    case Disconnecting => case Disconnected => case AwaitingArchiveApproval =>
    case Archived => case AwaitingCleanupApproval => case CleanupComplete =>
    case Failed => case Frozen =>
  }

  lemma NextPosition(n: nat, t: State)
    requires n < 26
    ensures t == StateAt(n + 1) <==> Rank(t) == n + 1
  {
    RankBounds(t);
    if !IsError(t) { RankIsPosition(t); }
  }

  /** The table is exactly the linear pipeline plus an exit to either error state
      from every state that is not terminal. */
  lemma TableIsPipeline(from: State, to: State)
    ensures Allowed(from, to) <==> Rank(from) < 26 && (IsError(to) || Rank(to) == Rank(from) + 1)
  {
    RankBounds(from);
    if Rank(from) < 26 {
      TableRow(from, to);
      NextPosition(Rank(from), to);
    }
  }

  lemma RankInjective(s: State, t: State)
    requires Rank(s) == Rank(t)
    ensures s == t
  {
    RankBounds(s);
    RankBounds(t);
    if !IsError(s) {
      RankIsPosition(s);
      RankIsPosition(t);
    }
  }

  datatype Job =
    | AddServer
    | ConfigureReplication
    | StartReplication
    | ConfigureTestLaunch
    | LaunchTest
    | FinalizeTest
    | ConfigureCutoverLaunch
    | StartCutover
    | LaunchCutover
    | FinalizeCutover
    | DisconnectSource
    | ArchiveSource
    | DeleteReplication
    | PollReplication
    | PollTestInstance
    | PollCutoverSync
    | PollCutoverInstance
    | PollDisconnect

  /** Which of the two work queues the routing table sends a job to. */
  predicate IsPoll(j: Job) {
    j.PollReplication? || j.PollTestInstance? || j.PollCutoverSync? || j.PollCutoverInstance? || j.PollDisconnect?
  }

  /** The two stale-message tables: the state in which a message of this type is not stale. */
  function ExpectedState(j: Job): State {
    match j
    case AddServer => Pending
    case ConfigureReplication => AgentInstalled
    case StartReplication => ReplicationStarted
    case ConfigureTestLaunch => ReadyForTesting
    case LaunchTest => TestInstanceLaunching
    case FinalizeTest => TestFinalized
    case ConfigureCutoverLaunch => CutoverTemplateConfigured
    case StartCutover => CutoverStarted
    case LaunchCutover => ReadyForCutoverLaunch
    case FinalizeCutover => CutoverFinalized
    case DisconnectSource => Disconnecting
    case ArchiveSource => Archived
    case DeleteReplication => CleanupComplete
    case PollReplication => ReplicationStarted
    case PollTestInstance => TestInstanceLaunching
    case PollCutoverSync => CutoverSyncInProgress
    case PollCutoverInstance => CutoverInstanceLaunching
    case PollDisconnect => Disconnecting
  }

  datatype Gate =
    | ReplicationGate
    | TestLaunchGate
    | TestValidationGate
    | CutoverLaunchGate
    | CutoverValidationGate
    | ArchiveGate
    | CleanupGate

  /** The state in which a gate waits for its engineer. */
  function GateState(g: Gate): State {
    match g
    case ReplicationGate => AwaitingReplicationApproval
    case TestLaunchGate => AwaitingTestLaunchApproval
    case TestValidationGate => AwaitingTestValidation
    case CutoverLaunchGate => AwaitingCutoverLaunchApproval
    case CutoverValidationGate => AwaitingCutoverValidation
    case ArchiveGate => AwaitingArchiveApproval
    case CleanupGate => AwaitingCleanupApproval
  }

  function ApprovedState(g: Gate): State {
    match g
    case ReplicationGate => ReplicationStarted
    case TestLaunchGate => TestInstanceLaunching
    case TestValidationGate => TestFinalized
    case CutoverLaunchGate => CutoverStarted
    case CutoverValidationGate => CutoverFinalized
    case ArchiveGate => Archived
    case CleanupGate => CleanupComplete
  }

  /** The job an approval dispatches. */
  function GateJob(g: Gate): Job {
    match g
    case ReplicationGate => StartReplication
    case TestLaunchGate => LaunchTest
    case TestValidationGate => FinalizeTest
    case CutoverLaunchGate => StartCutover
    case CutoverValidationGate => FinalizeCutover
    case ArchiveGate => ArchiveSource
    case CleanupGate => DeleteReplication
  }

  /** The states only an approval may write. */
  predicate IsApproved(s: State) {
    || s.ReplicationStarted? || s.TestInstanceLaunching? || s.TestFinalized? || s.CutoverStarted?
    || s.CutoverFinalized? || s.Archived? || s.CleanupComplete?
  }

  /** An approval is the pipeline edge out of its gate, and the job it dispatches
      expects precisely the state the approval writes. */
  lemma GateEdges(g: Gate)
    ensures Rank(ApprovedState(g)) == Rank(GateState(g)) + 1 <= 26
    ensures ExpectedState(GateJob(g)) == ApprovedState(g)
    ensures Allowed(GateState(g), ApprovedState(g))
    ensures IsApproved(ApprovedState(g))
  {
    TableIsPipeline(GateState(g), ApprovedState(g));
  }

  lemma GatesDistinct(g: Gate, h: Gate)
    requires Rank(GateState(g)) == Rank(GateState(h)) || ApprovedState(g) == ApprovedState(h)
    ensures g == h
  {
  }
}
