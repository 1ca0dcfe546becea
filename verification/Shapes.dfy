/** What the rest of a handler run or API call can look like at any moment, whatever has failed so far. */
module Shapes {
  import opened Wrappers
  import opened Pipeline
  import opened Store
  import opened Handlers
  import opened Machine
  import opened Safety
  import opened Steps
  import opened Undivided
  import opened Guarantees

  /** The states a server leaves only when somebody asks for it: an engineer at a gate or elsewhere, or the operator. */
  predicate AwaitsPeople(st: State) {
    || st in {Pending, AgentInstalled, ReadyForTesting, CutoverTemplateConfigured, ReadyForCutoverLaunch}
    || st in {AwaitingReplicationApproval, AwaitingTestLaunchApproval, AwaitingTestValidation,
              AwaitingCutoverLaunchApproval, AwaitingCutoverValidation, AwaitingArchiveApproval,
              AwaitingCleanupApproval}
  }

  /** The states the system itself must take a server out of. */
  predicate Working(st: State) { !IsTerminal(st) && !AwaitsPeople(st) }

  /** Those of them out of which a handler does take a server. With the shipped poll table none handles a second-phase
      poll in the states that the first phases leave. */
  predicate Tended(c: Config, st: State) {
    Working(st) && (c.phaseAware || (!st.TestInstanceRunning? && !st.CutoverInstanceRunning?))
  }

  /** The jobs that only an approval dispatches. */
  predicate IsGateJob(j: Job) {
    || j.StartReplication? || j.LaunchTest? || j.FinalizeTest? || j.StartCutover? || j.FinalizeCutover?
    || j.ArchiveSource? || j.DeleteReplication?
  }

  lemma GateJobs(g: Gate)
    ensures IsGateJob(GateJob(g)) && CallOf(GateJob(g)).Some?
  {
  }

  /** The program sees to it that a server it has just taken to state `to` does not stay there unattended. */
  predicate Covers(c: Config, to: State, p: Prog) {
    || (p.Move? && Rank(p.to) == Rank(to) + 1)
    || (p.Publish? && GuardState(c, p.msg) == to)
  }

  /** The rest of a handler's program once its AWS calls are done. */
  predicate Chain(c: Config, m: Msg, p: Prog) {
    match p
    case SaveAws(next) => next.Move? && Chain(c, m, next)
    case Move(to, _, next) =>
      && to != GuardState(c, m)
      && (Tended(c, to) ==> Covers(c, to, next))
      && Chain(c, m, next)
    case Publish(x, next) => x.server == m.server && !IsGateJob(x.job) && next == ACK
    case Settle(_) => true
    case Finished => true
    case Crashed => true
    case _ => false
  }

  predicate Shaped(c: Config, t: Task) {
    match t
    case Consumer(m, p) =>
      p.Start? || p.Ask? || (p.Act? && CallOf(m.job) == Some(p.call)) || Chain(c, m, p)
    case Rollbacker(m, p) =>
      || p.Start? || p.Settle? || IsDone(p)
      || (p.Undo? && p.plan != [] && IsError(p.final)) || (p.Move? && IsError(p.to) && p.next == ACK)
    case Api(s, r, p) =>
      || p.Start? || IsDone(p)
      || (p.Publish? && p.msg.server == s && p.next == Finished)
      || (p.Move? && p.why.Rejected? && p.to.Failed? && p.next == Finished)
      || (p.Move? && p.why.Approved? && p.next.Publish? && p.next.next == Finished
          && p.next.msg.server == s && p.next.msg.job == GateJob(p.why.gate) && GuardState(c, p.next.msg) == p.to)
  }

  // ---- programs ----

  lemma EndsChained(c: Config, m: Msg)
    ensures Chain(c, m, ACK) && Chain(c, m, NACK)
  {
  }

  lemma PublishChained(c: Config, m: Msg, x: Msg)
    requires x.server == m.server && !IsGateJob(x.job)
    ensures Chain(c, m, Publish(x, ACK))
  {
  }

  lemma MoveChained(c: Config, m: Msg, to: State, next: Prog)
    requires to != GuardState(c, m) && Chain(c, m, next)
    requires Tended(c, to) ==> Covers(c, to, next)
    ensures Chain(c, m, Handlers.Step(m, to, next))
  {
  }

  lemma InProgressChained(c: Config, m: Msg)
    requires IsPoll(m.job)
    ensures Chain(c, m, InProgress(m))
  {
    EndsChained(c, m);
    PublishChained(c, m, m.(attempt := m.attempt + 1));
  }

  lemma ReachabilityChained(c: Config, m: Msg, statuses: seq<InstanceStatus>, gate: State)
    requires SecondPhase(m) && IsValidationGate(gate)
    ensures Chain(c, m, Reachability(m, statuses, gate))
  {
    EndsChained(c, m);
    InProgressChained(c, m);
    MoveChained(c, m, gate, ACK);
  }

  lemma SecondPollChained(c: Config, m: Msg, ec2: Option<string>)
    requires (m.job.PollTestInstance? || m.job.PollCutoverInstance?) && !SecondPhase(m) && Truthy(ec2)
    ensures Chain(c, m, SecondPoll(m, ec2))
  {
    var x := Fresh(m.job, m.server, m.aws).(ec2 := ec2);
    PublishChained(c, m, x);
    MoveChained(c, m, RunningState(m.job), Publish(x, ACK));
  }

  lemma PollChained(c: Config, m: Msg, a: Answer)
    requires m.job.PollTestInstance? || m.job.PollCutoverInstance?
    ensures Chain(c, m, AfterAsk(m, a))
  {
    EndsChained(c, m);
    InProgressChained(c, m);
    if SecondPhase(m) {
      if a.Statuses? {
        ReachabilityChained(c, m, a.statuses,
                            if m.job.PollTestInstance? then AwaitingTestValidation else AwaitingCutoverValidation);
      }
    } else if m.job.PollTestInstance? {
      if a.Jobs? && a.jobs != [] && Truthy(LaunchedInstance(a.jobs[0], a.fallback, m.aws)) {
        SecondPollChained(c, m, LaunchedInstance(a.jobs[0], a.fallback, m.aws));
      }
    } else if a.Servers? && a.servers != [] && Truthy(a.servers[0].instance) {
      SecondPollChained(c, m, a.servers[0].instance);
    }
  }

  lemma PlainPollChained(c: Config, m: Msg, a: Answer)
    requires m.job.PollReplication? || m.job.PollCutoverSync? || m.job.PollDisconnect?
    ensures Chain(c, m, AfterAsk(m, a))
  {
    hide Chain, InProgress;
    EndsChained(c, m);
    InProgressChained(c, m);
    match m.job
    case PollReplication => MoveChained(c, m, ReadyForTesting, ACK);
    case PollCutoverSync => MoveChained(c, m, ReadyForCutoverLaunch, ACK);
    case PollDisconnect =>
      MoveChained(c, m, AwaitingArchiveApproval, ACK);
      MoveChained(c, m, Disconnected, Handlers.Step(m, AwaitingArchiveApproval, ACK));
  }

  lemma AddServerChained(c: Config, m: Msg)
    requires m.job.AddServer?
    ensures Chain(c, m, SaveAws(Handlers.Step(m, AgentInstalled, ACK)))
  {
    EndsChained(c, m);
    MoveChained(c, m, AgentInstalled, ACK);
  }

  lemma AskChained(c: Config, m: Msg, a: Answer)
    ensures var p := AfterAsk(m, a); (p.Act? && CallOf(m.job) == Some(p.call)) || Chain(c, m, p)
  {
    hide Chain, Reachability, InProgress, SecondPoll;
    EndsChained(c, m);
    match m.job
    case PollTestInstance => PollChained(c, m, a);
    case PollCutoverInstance => PollChained(c, m, a);
    case AddServer => AddServerChained(c, m);
    case LaunchCutover =>
      PublishChained(c, m, Fresh(PollCutoverInstance, m.server, m.aws));
      MoveChained(c, m, CutoverInstanceLaunching, Publish(Fresh(PollCutoverInstance, m.server, m.aws), ACK));
    case LaunchTest =>
    case StartCutover =>
    case _ => if IsPoll(m.job) { PlainPollChained(c, m, a); }
  }

  lemma ActChained(c: Config, m: Msg, a: Answer)
    ensures Chain(c, m, AfterAct(m, a))
  {
    EndsChained(c, m);
    var p := AfterAct(m, a);
    if p.Publish? { PublishChained(c, m, p.msg); }
    if p.Move? {
      if p.next.Publish? { PublishChained(c, m, p.next.msg); }
      if p.next.Move? { MoveChained(c, m, p.next.to, ACK); }
      MoveChained(c, m, p.to, p.next);
    }
  }

  // ---- steps ----

  lemma ConsumerShaped(c: Config, db: Db, t: Task, turn: Turn)
    requires t.Consumer? && Shaped(c, t)
    ensures Shaped(c, WithProg(t, Effect(c, db, t, turn).prog))
  {
    hide AfterAsk, AfterAct;
    EndsChained(c, t.msg);
    match t.prog
    case Ask => AskChained(c, t.msg, turn.answer);
    case Act(_) => ActChained(c, t.msg, turn.answer);
    case _ =>
  }

  lemma RollbackerShaped(c: Config, db: Db, t: Task, turn: Turn)
    requires t.Rollbacker? && Shaped(c, t)
    ensures Shaped(c, WithProg(t, Effect(c, db, t, turn).prog))
  {
    if t.prog.Start? && t.msg.server in db.rows && !IsTerminal(db.rows[t.msg.server].current) {
      RollbackGroups(db.rows[t.msg.server].current, db.rows[t.msg.server].aws);
    }
  }

  lemma ApiShaped(c: Config, db: Db, t: Task, turn: Turn)
    requires t.Api? && Shaped(c, t)
    ensures Shaped(c, WithProg(t, Effect(c, db, t, turn).prog))
  {
    if t.prog.Start? && t.request.Approve? { GateEdges(t.request.gate); }
  }

  lemma StepShaped(c: Config, db: Db, t: Task, turn: Turn)
    requires Shaped(c, t)
    ensures Shaped(c, WithProg(t, Effect(c, db, t, turn).prog))
  {
    hide Shaped, Effect;
    match t
    case Consumer(_, _) => ConsumerShaped(c, db, t, turn);
    case Rollbacker(_, _) => RollbackerShaped(c, db, t, turn);
    case Api(_, _, _) => ApiShaped(c, db, t, turn);
  }

  // ---- runs ----

  ghost predicate AllShaped(c: Config, w: World) { forall i :: 0 <= i < |w.tasks| ==> Shaped(c, w.tasks[i]) }

  lemma ApplyShaped(c: Config, w: World, e: Event)
    requires AllShaped(c, w)
    ensures AllShaped(c, Apply(c, w, e))
  {
    hide Effect;
    match e
    case Run(i, turn) => if i < |w.tasks| { StepShaped(c, w.db, w.tasks[i], turn); }
    case _ =>
  }

  lemma {:induction false} RunsShaped(c: Config, events: seq<Event>)
    ensures AllShaped(c, WorldAfter(c, events))
  {
    if events != [] {
      RunsShaped(c, events[..|events| - 1]);
      ApplyShaped(c, WorldAfter(c, events[..|events| - 1]), events[|events| - 1]);
    }
  }
}
