/** What AWS can answer, what a message carries, and the control flow of every message handler and
    API endpoint, written as programs whose steps are the points where other actors may interleave. */
module Handlers {
  import opened Wrappers
  import opened Pipeline
  import opened Store

  // ---- AWS ----

  datatype AwsCall =
    | UpdateReplicationConfiguration
    | UpdateTestLaunchConfiguration
    | UpdateCutoverLaunchConfiguration
    | StartReplicationCall
    | StartTestCall
    | TerminateTargetInstances
    | StartCutoverCall
    | FinalizeCutoverCall
    | DisconnectFromService
    | MarkAsArchived
    | DeleteSourceServer
    | StopReplication

  datatype SourceServer = SourceServer(lifecycle: string, instance: Option<string>)

  datatype Participant = Participant(source: Option<string>, instance: Option<string>)

  datatype MgnJob = MgnJob(status: string, participants: seq<Participant>)

  datatype InstanceStatus = InstanceStatus(state: string, system: string, instance: string)

  /** An answer to an AWS call. For a completed launch job, `fallback` is what a follow-up
      describe_source_servers returns, empty when that raises. */
  datatype Answer =
    | Raised
    | Servers(servers: seq<SourceServer>)
    | Jobs(jobs: seq<MgnJob>, fallback: seq<SourceServer>)
    | Statuses(statuses: seq<InstanceStatus>)
    | Started(mgnJob: Option<string>)

  datatype Turn = Turn(luck: Luck, answer: Answer)

  /** A Python string that may be missing counts as false when missing or empty. */
  predicate Truthy(s: Option<string>) { s.Some? && s.value != "" }

  lemma TruthyMeans(s: Option<string>)
    ensures Truthy(s) <==> s !in {None, Some("")}
  {
    if s.Some? && s.value == "" { assert s == Some(""); }
  }

  /** The instance id of the first participant with the given source server id. */
  function FindInstance(ps: seq<Participant>, source: Option<string>): Option<string> {
    if ps == [] then None
    else if ps[0].source == source then ps[0].instance
    else FindInstance(ps[1..], source)
  }

  function LaunchedInstance(job: MgnJob, fallback: seq<SourceServer>, source: Option<string>): Option<string> {
    var found := FindInstance(job.participants, source);
    if !Truthy(found) && Truthy(source) && fallback != [] then fallback[0].instance else found
  }

  // ---- messages ----

  datatype Msg = Msg(
    job: Job,
    server: string,
    aws: Option<string>,
    mgnJob: Option<string>,
    ec2: Option<string>,
    attempt: nat)

  const MAX_POLL_ATTEMPTS: nat := 30

  function Fresh(job: Job, server: string, aws: Option<string>): Msg {
    Msg(job, server, aws, None, None, 1)
  }

  /** A poll whose payload already names the EC2 instance. */
  predicate SecondPhase(m: Msg) {
    (m.job.PollTestInstance? || m.job.PollCutoverInstance?) && Truthy(m.ec2)
  }

  function RunningState(j: Job): State {
    if j.PollTestInstance? then TestInstanceRunning else CutoverInstanceRunning
  }

  // ---- configuration ----

  /** phaseAware: the poll table admits a second-phase poll in the state the first phase leaves
      (the shipped table does not). operator: someone enqueues LAUNCH_CUTOVER_INSTANCE (no shipped
      code does). dbUp: no database operation fails for lack of a connection. */
  datatype Config = Config(phaseAware: bool, operator: bool, dbUp: bool)

  /** The state the stale check wants to read before it lets a message through. */
  function GuardState(c: Config, m: Msg): State {
    if c.phaseAware && SecondPhase(m) then RunningState(m.job) else ExpectedState(m.job)
  }

  // ---- programs ----

  /** What is left to do of one handler run or API call. */
  datatype Prog =
    | Start                                               // the initial read of the servers row
    | Ask                                                 // a describe_* call
    | Act(call: AwsCall)                                  // a call that changes AWS
    | Undo(plan: seq<AwsCall>, final: State, seen: State) // the rest of a rollback plan
    | SaveAws(next: Prog)
    | Move(to: State, why: Label, next: Prog)             // advance_state
    | Publish(msg: Msg, next: Prog)
    | Settle(ack: bool)                                   // ack, or nack to the dead-letter exchange
    | Finished
    | Crashed

  datatype Setup = ReplicationSetup | TestLaunchSetup | CutoverLaunchSetup | CutoverInstanceSetup

  datatype Request =
    | Begin(aws: string)
    | Configure(setup: Setup)
    | Approve(gate: Gate, engineer: string)
    | Reject(gate: Gate, engineer: string)
    | Retry(engineer: string)

  datatype Task =
    | Consumer(msg: Msg, prog: Prog)
    | Rollbacker(msg: Msg, prog: Prog)
    | Api(server: string, request: Request, prog: Prog)

  function ServerOf(t: Task): string {
    match t
    case Consumer(m, _) => m.server
    case Rollbacker(m, _) => m.server
    case Api(s, _, _) => s
  }

  function WithProg(t: Task, p: Prog): Task {
    match t
    case Consumer(m, _) => Consumer(m, p)
    case Rollbacker(m, _) => Rollbacker(m, p)
    case Api(s, r, _) => Api(s, r, p)
  }

  const ACK: Prog := Settle(true)
  const NACK: Prog := Settle(false)

  /** Where an exception leads: workers nack, the rollback worker acks, the API answers with an error. */
  function Abort(t: Task): Prog {
    match t
    case Consumer(_, _) => NACK
    case Rollbacker(_, _) => ACK
    case Api(_, _, _) => Finished
  }

  function SetupJob(s: Setup): Job {
    match s
    case ReplicationSetup => ConfigureReplication
    case TestLaunchSetup => ConfigureTestLaunch
    case CutoverLaunchSetup => ConfigureCutoverLaunch
    case CutoverInstanceSetup => LaunchCutover
  }

  function Step(m: Msg, to: State, next: Prog): Prog { Move(to, ByJob(m.job), next) }

  /** A handler's first AWS access, once the stale check has let the message through. */
  function AfterGuard(m: Msg): Prog {
    match m.job
    case AddServer => Ask
    case ConfigureReplication => Act(UpdateReplicationConfiguration)
    case StartReplication => Act(StartReplicationCall)
    case ConfigureTestLaunch => Act(UpdateTestLaunchConfiguration)
    case LaunchTest => Ask
    case FinalizeTest => Act(TerminateTargetInstances)
    case ConfigureCutoverLaunch => Act(UpdateCutoverLaunchConfiguration)
    case StartCutover => Ask
    case LaunchCutover => Ask
    case FinalizeCutover => Act(FinalizeCutoverCall)
    case DisconnectSource => Act(DisconnectFromService)
    case ArchiveSource => Act(MarkAsArchived)
    case DeleteReplication => Act(DeleteSourceServer)
    case PollReplication => Ask
    case PollTestInstance => if SecondPhase(m) || Truthy(m.mgnJob) then Ask else NACK
    case PollCutoverSync => if Truthy(m.mgnJob) then Ask else NACK
    case PollCutoverInstance => Ask
    case PollDisconnect => Ask
  }

  function InProgress(m: Msg): Prog {
    if m.attempt >= MAX_POLL_ATTEMPTS then NACK else Publish(m.(attempt := m.attempt + 1), ACK)
  }

  function SecondPoll(m: Msg, ec2: Option<string>): Prog {
    Step(m, RunningState(m.job), Publish(Fresh(m.job, m.server, m.aws).(ec2 := ec2), ACK))
  }

  /** EC2 reachability, shared by the second phase of both instance polls. */
  function Reachability(m: Msg, statuses: seq<InstanceStatus>, gate: State): Prog {
    if statuses == [] then InProgress(m)
    else if statuses[0].state == "terminated" || statuses[0].state == "stopped" then NACK
    else if statuses[0].system == "ok" && statuses[0].instance == "ok" then Step(m, gate, ACK)
    else InProgress(m)
  }

  function AfterAsk(m: Msg, a: Answer): Prog {
    match m.job
    case AddServer =>
      if !a.Servers? || a.servers == [] || a.servers[0].lifecycle == "DISCONNECTED" then NACK
      else SaveAws(Step(m, AgentInstalled, ACK))
    case LaunchTest =>
      if !a.Servers? || a.servers == [] || a.servers[0].lifecycle != "READY_FOR_TEST" then NACK
      else Act(StartTestCall)
    case StartCutover =>
      if !a.Servers? || a.servers == [] || a.servers[0].lifecycle != "READY_FOR_CUTOVER" then NACK
      else Act(StartCutoverCall)
    case LaunchCutover =>
      if !a.Servers? || a.servers == [] then NACK
      else Step(m, CutoverInstanceLaunching, Publish(Fresh(PollCutoverInstance, m.server, m.aws), ACK))
    case PollReplication =>
      if !a.Servers? || a.servers == [] then NACK
      else if a.servers[0].lifecycle == "READY_FOR_TEST" then Step(m, ReadyForTesting, ACK)
      else if a.servers[0].lifecycle == "DISCONNECTED" then NACK
      else InProgress(m)
    case PollTestInstance =>
      if SecondPhase(m) then
        if !a.Statuses? then NACK else Reachability(m, a.statuses, AwaitingTestValidation)
      else if !a.Jobs? || a.jobs == [] then NACK
      else if a.jobs[0].status == "COMPLETED" then
        var ec2 := LaunchedInstance(a.jobs[0], a.fallback, m.aws);
        if !Truthy(ec2) then NACK else SecondPoll(m, ec2)
      else if a.jobs[0].status == "FAILED" || a.jobs[0].status == "PARTIALLY_COMPLETED" then NACK
      else InProgress(m)
    case PollCutoverSync =>
      if !a.Jobs? || a.jobs == [] then NACK
      else if a.jobs[0].status == "COMPLETED" then Step(m, ReadyForCutoverLaunch, ACK)
      else if a.jobs[0].status == "FAILED" || a.jobs[0].status == "PARTIALLY_COMPLETED" then NACK
      else InProgress(m)
    case PollCutoverInstance =>
      if SecondPhase(m) then
        if !a.Statuses? then NACK else Reachability(m, a.statuses, AwaitingCutoverValidation)
      else if !a.Servers? || a.servers == [] then NACK
      else if a.servers[0].lifecycle == "CUTOVER" then
        if !Truthy(a.servers[0].instance) then NACK else SecondPoll(m, a.servers[0].instance)
      else if a.servers[0].lifecycle == "DISCONNECTED" then NACK
      else InProgress(m)
    case PollDisconnect =>
      if !a.Servers? then NACK
      else if a.servers != [] && a.servers[0].lifecycle != "DISCONNECTED" then InProgress(m)
      else Step(m, Disconnected, Step(m, AwaitingArchiveApproval, ACK))
    case _ => NACK
  }

  /** What follows a successful AWS call. */
  function AfterAct(m: Msg, a: Answer): Prog {
    var mgnJob := if a.Started? then a.mgnJob else None;
    match m.job
    case ConfigureReplication => Step(m, ReplicationConfigured, Step(m, AwaitingReplicationApproval, ACK))
    case StartReplication => Publish(Fresh(PollReplication, m.server, m.aws), ACK)
    case ConfigureTestLaunch => Step(m, TestTemplateConfigured, Step(m, AwaitingTestLaunchApproval, ACK))
    case LaunchTest => Publish(Fresh(PollTestInstance, m.server, m.aws).(mgnJob := mgnJob), ACK)
    case FinalizeTest => Step(m, CutoverTemplateConfigured, ACK)
    case ConfigureCutoverLaunch => Step(m, AwaitingCutoverLaunchApproval, ACK)
    case StartCutover =>
      Step(m, CutoverSyncInProgress, Publish(Fresh(PollCutoverSync, m.server, m.aws).(mgnJob := mgnJob), ACK))
    case FinalizeCutover => Step(m, Disconnecting, Publish(Fresh(DisconnectSource, m.server, m.aws), ACK))
    case DisconnectSource => Publish(Fresh(PollDisconnect, m.server, m.aws), ACK)
    case ArchiveSource => Step(m, AwaitingCleanupApproval, ACK)
    case DeleteReplication => ACK
    case _ => NACK
  }

  /** The undo steps for a server seen in state `st`, and the state it is then meant to end in. */
  function RollbackPlan(st: State, aws: Option<string>): (seq<AwsCall>, State) {
    if st in {Pending, AgentInstalled, ReplicationConfigured, AwaitingReplicationApproval} then ([], Failed)
    else if st in {ReplicationStarted, ReadyForTesting, TestTemplateConfigured, AwaitingTestLaunchApproval} then
      (if aws.None? then [] else [StopReplication], Failed)
    else if st in {TestInstanceLaunching, TestInstanceRunning, AwaitingTestValidation} then
      (if aws.None? then [] else [TerminateTargetInstances], Failed)
    else if st in {TestFinalized, CutoverTemplateConfigured, AwaitingCutoverLaunchApproval} then ([], Failed)
    else if st in {CutoverStarted, CutoverSyncInProgress, ReadyForCutoverLaunch, CutoverInstanceLaunching} then
      (if aws.None? then [] else [TerminateTargetInstances], Frozen)
    else ([], Frozen)
  }

  function RunPlan(plan: seq<AwsCall>, final: State, seen: State, m: Msg): Prog {
    if plan == [] then Move(final, RolledBack(m.job, seen), ACK) else Undo(plan, final, seen)
  }

  /** The endpoints, after the row has been read. */
  function AfterRequire(s: string, r: Request, row: Row): Prog {
    match r
    case Begin(aws) =>
      if row.current != Pending then Finished else Publish(Fresh(AddServer, s, Some(aws)), Finished)
    case Configure(setup) =>
      if row.current != ExpectedState(SetupJob(setup)) then Finished
      else Publish(Fresh(SetupJob(setup), s, row.aws), Finished)
    case Approve(g, _) =>
      if row.current != GateState(g) then Finished
      else Move(ApprovedState(g), Approved(g), Publish(Fresh(GateJob(g), s, row.aws), Finished))
    case Reject(g, _) =>
      if row.current != GateState(g) then Finished else Move(Failed, Rejected(g), Finished)
    case Retry(_) => Finished
  }

  /** Who a state change is recorded under. */
  function ActorOf(t: Task): string {
    if t.Api? && (t.request.Approve? || t.request.Reject? || t.request.Retry?) then t.request.engineer else "system"
  }
}
