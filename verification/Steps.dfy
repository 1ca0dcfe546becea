/** Every step of every handler keeps the invariant, hence every run does. */
module Steps {
  import opened Wrappers
  import opened Pipeline
  import opened Store
  import opened AuditTrail
  import opened Handlers
  import opened Machine
  import opened Safety

  // ---- what the programs of the handlers may count on ----

  lemma GuardRank(c: Config, m: Msg)
    ensures Rank(GuardState(c, m)) <= 26 && !IsError(GuardState(c, m))
    ensures JobGate(m.job).Some? ==> Rank(ApprovedState(JobGate(m.job).value)) <= Rank(GuardState(c, m))
    ensures SecondPhase(m) && !c.phaseAware ==> Rank(GuardState(c, m)) < Rank(Posted(m))
  {
  }

  lemma GuardPasses(c: Config, db: Db, m: Msg)
    requires TablesOk(c, db) && MsgOk(db, m, {}) && db.rows[m.server].current == GuardState(c, m)
    ensures Passed(c, db, m)
  {
    GuardRank(c, m);
    ReachedSoFar(db, m.server, GuardState(c, m));
    if JobGate(m.job).Some? { GatesPassed(db, m.server, JobGate(m.job).value); }
    if SecondPhase(m) && !c.phaseAware && !HasReset(db, m.server) { NeverBack(db, m.server, Posted(m)); }
  }

  lemma AfterGuardOk(c: Config, db: Db, t: Task)
    requires t.Consumer? && Passed(c, db, t.msg)
    ensures ProgOk(c, db, t, AfterGuard(t.msg), {})
  {
  }

  lemma StepOk(c: Config, db: Db, t: Task, to: State, next: Prog, hope: set<Fact>)
    requires t.Consumer? && !IsError(to) && !IsApproved(to) && MoveOk(c, db, t.msg.server, to, hope)
    requires IsValidationGate(to) ==> SecondPhase(t.msg)
    requires ProgOk(c, db, t, next, hope + {Got(to)})
    ensures ProgOk(c, db, t, Handlers.Step(t.msg, to, next), hope)
  {
  }

  lemma PublishOk(c: Config, db: Db, t: Task, m: Msg, hope: set<Fact>)
    requires t.Consumer? && Passed(c, db, t.msg) && m.server == t.msg.server && m.aws == t.msg.aws
    requires Reached(db, m.server, Posted(m)) || Got(Posted(m)) in hope
    requires 1 <= m.attempt <= MAX_POLL_ATTEMPTS
    ensures ProgOk(c, db, t, Publish(m, ACK), hope)
  {
  }

  lemma InProgressOk(c: Config, db: Db, t: Task)
    requires t.Consumer? && Passed(c, db, t.msg) && IsPoll(t.msg.job)
    ensures ProgOk(c, db, t, InProgress(t.msg), {})
  {
    var m := t.msg;
    if m.attempt < MAX_POLL_ATTEMPTS { PublishOk(c, db, t, m.(attempt := m.attempt + 1), {}); }
  }

  lemma SecondPollOk(c: Config, db: Db, t: Task, ec2: Option<string>)
    requires t.Consumer? && Passed(c, db, t.msg) && (t.msg.job.PollTestInstance? || t.msg.job.PollCutoverInstance?)
    requires Truthy(ec2)
    ensures ProgOk(c, db, t, SecondPoll(t.msg, ec2), {})
  {
    var m := t.msg;
    var next := Fresh(m.job, m.server, m.aws).(ec2 := ec2);
    PublishOk(c, db, t, next, {Got(RunningState(m.job))});
    assert {} + {Got(RunningState(m.job))} == {Got(RunningState(m.job))};
    StepOk(c, db, t, RunningState(m.job), Publish(next, ACK), {});
  }

  lemma ReachabilityOk(c: Config, db: Db, t: Task, statuses: seq<InstanceStatus>, gate: State)
    requires t.Consumer? && Passed(c, db, t.msg) && SecondPhase(t.msg) && IsValidationGate(gate)
    ensures ProgOk(c, db, t, Reachability(t.msg, statuses, gate), {})
  {
    InProgressOk(c, db, t);
    StepOk(c, db, t, gate, ACK, {});
  }

  lemma MovePublishOk(c: Config, db: Db, t: Task, to: State, m: Msg)
    requires t.Consumer? && Passed(c, db, t.msg) && m.server == t.msg.server && m.aws == t.msg.aws
    requires !IsError(to) && !IsApproved(to) && !to.AgentInstalled? && !IsValidationGate(to)
    requires Posted(m) == to && m.attempt == 1
    ensures ProgOk(c, db, t, Handlers.Step(t.msg, to, Publish(m, ACK)), {})
  {
    PublishOk(c, db, t, m, {Got(to)});
    assert {} + {Got(to)} == {Got(to)};
    StepOk(c, db, t, to, Publish(m, ACK), {});
  }

  lemma AfterAskTestInstanceOk(c: Config, db: Db, t: Task, a: Answer)
    requires t.Consumer? && Passed(c, db, t.msg) && t.msg.job.PollTestInstance?
    ensures ProgOk(c, db, t, AfterAsk(t.msg, a), {})
  {
    var m := t.msg;
    InProgressOk(c, db, t);
    if SecondPhase(m) {
      if a.Statuses? { ReachabilityOk(c, db, t, a.statuses, AwaitingTestValidation); }
    } else if a.Jobs? && a.jobs != [] && Truthy(LaunchedInstance(a.jobs[0], a.fallback, m.aws)) {
      SecondPollOk(c, db, t, LaunchedInstance(a.jobs[0], a.fallback, m.aws));
    }
  }

  lemma AfterAskCutoverInstanceOk(c: Config, db: Db, t: Task, a: Answer)
    requires t.Consumer? && Passed(c, db, t.msg) && t.msg.job.PollCutoverInstance?
    ensures ProgOk(c, db, t, AfterAsk(t.msg, a), {})
  {
    InProgressOk(c, db, t);
    if SecondPhase(t.msg) {
      if a.Statuses? { ReachabilityOk(c, db, t, a.statuses, AwaitingCutoverValidation); }
    } else if a.Servers? && a.servers != [] && Truthy(a.servers[0].instance) {
      SecondPollOk(c, db, t, a.servers[0].instance);
    }
  }

  lemma TwoStepsOk(c: Config, db: Db, t: Task, to: State, second: State)
    requires t.Consumer? && Passed(c, db, t.msg)
    requires !IsError(to) && !IsApproved(to) && !to.AgentInstalled? && !IsValidationGate(to)
    requires !IsError(second) && !IsApproved(second) && !second.AgentInstalled? && !IsValidationGate(second)
    ensures ProgOk(c, db, t, Handlers.Step(t.msg, to, Handlers.Step(t.msg, second, ACK)), {})
  {
    StepOk(c, db, t, second, ACK, {Got(to)});
    assert {} + {Got(to)} == {Got(to)};
    StepOk(c, db, t, to, Handlers.Step(t.msg, second, ACK), {});
  }

  lemma AfterAskPlainPollOk(c: Config, db: Db, t: Task, a: Answer)
    requires t.Consumer? && Passed(c, db, t.msg) && IsPoll(t.msg.job)
    requires !t.msg.job.PollTestInstance? && !t.msg.job.PollCutoverInstance?
    ensures ProgOk(c, db, t, AfterAsk(t.msg, a), {})
  {
    var p := AfterAsk(t.msg, a);
    if p == NACK {
    } else if p == InProgress(t.msg) {
      InProgressOk(c, db, t);
    } else if t.msg.job.PollDisconnect? {
      assert p == Handlers.Step(t.msg, Disconnected, Handlers.Step(t.msg, AwaitingArchiveApproval, ACK));
      TwoStepsOk(c, db, t, Disconnected, AwaitingArchiveApproval);
    } else {
      assert p == Handlers.Step(t.msg, p.to, ACK);
      StepOk(c, db, t, p.to, ACK, {});
    }
  }

  lemma AfterAskAddOk(c: Config, db: Db, t: Task, a: Answer)
    requires t.Consumer? && Passed(c, db, t.msg) && t.msg.job.AddServer?
    ensures ProgOk(c, db, t, AfterAsk(t.msg, a), {})
  {
    StepOk(c, db, t, AgentInstalled, ACK, {KnowsAws});
    assert {} + {KnowsAws} == {KnowsAws};
  }

  lemma AfterAskLaunchCutoverOk(c: Config, db: Db, t: Task, a: Answer)
    requires t.Consumer? && Passed(c, db, t.msg) && t.msg.job.LaunchCutover?
    ensures ProgOk(c, db, t, AfterAsk(t.msg, a), {})
  {
    MovePublishOk(c, db, t, CutoverInstanceLaunching, Fresh(PollCutoverInstance, t.msg.server, t.msg.aws));
  }

  lemma AfterAskLaunchOk(c: Config, db: Db, t: Task, a: Answer)
    requires t.Consumer? && Passed(c, db, t.msg) && (t.msg.job.LaunchTest? || t.msg.job.StartCutover?)
    ensures ProgOk(c, db, t, AfterAsk(t.msg, a), {})
  {
  }

  lemma AfterAskOk(c: Config, db: Db, t: Task, a: Answer)
    requires t.Consumer? && Passed(c, db, t.msg)
    ensures ProgOk(c, db, t, AfterAsk(t.msg, a), {})
  {
    var j := t.msg.job;
    if j.AddServer? { AfterAskAddOk(c, db, t, a); }
    else if j.LaunchCutover? { AfterAskLaunchCutoverOk(c, db, t, a); }
    else if j.LaunchTest? || j.StartCutover? { AfterAskLaunchOk(c, db, t, a); }
    else if j.PollTestInstance? { AfterAskTestInstanceOk(c, db, t, a); }
    else if j.PollCutoverInstance? { AfterAskCutoverInstanceOk(c, db, t, a); }
    else if IsPoll(j) { AfterAskPlainPollOk(c, db, t, a); }
    else { assert AfterAsk(t.msg, a) == NACK; }
  }

  lemma AfterActPublishOk(c: Config, db: Db, t: Task, a: Answer)
    requires t.Consumer? && Passed(c, db, t.msg)
    requires t.msg.job.StartReplication? || t.msg.job.LaunchTest? || t.msg.job.DisconnectSource?
    ensures ProgOk(c, db, t, AfterAct(t.msg, a), {})
  {
    var m := t.msg;
    var next := AfterAct(m, a).msg;
    assert Posted(next) == GuardState(c, m);
    PublishOk(c, db, t, next, {});
  }

  lemma AfterActMovePublishOk(c: Config, db: Db, t: Task, a: Answer)
    requires t.Consumer? && Passed(c, db, t.msg) && (t.msg.job.StartCutover? || t.msg.job.FinalizeCutover?)
    ensures ProgOk(c, db, t, AfterAct(t.msg, a), {})
  {
    var m := t.msg;
    var p := AfterAct(m, a);
    MovePublishOk(c, db, t, p.to, p.next.msg);
  }

  lemma AfterActMoveOk(c: Config, db: Db, t: Task, a: Answer)
    requires t.Consumer? && Passed(c, db, t.msg)
    requires t.msg.job.FinalizeTest? || t.msg.job.ConfigureCutoverLaunch? || t.msg.job.ArchiveSource?
    ensures ProgOk(c, db, t, AfterAct(t.msg, a), {})
  {
    var p := AfterAct(t.msg, a);
    assert p == Handlers.Step(t.msg, p.to, ACK);
    StepOk(c, db, t, p.to, ACK, {});
  }

  lemma AfterActOk(c: Config, db: Db, t: Task, a: Answer)
    requires t.Consumer? && Passed(c, db, t.msg)
    ensures ProgOk(c, db, t, AfterAct(t.msg, a), {})
  {
    var j := t.msg.job;
    if j.StartReplication? || j.LaunchTest? || j.DisconnectSource? { AfterActPublishOk(c, db, t, a); }
    else if j.StartCutover? || j.FinalizeCutover? { AfterActMovePublishOk(c, db, t, a); }
    else if j.FinalizeTest? || j.ConfigureCutoverLaunch? || j.ArchiveSource? { AfterActMoveOk(c, db, t, a); }
    else if j.ConfigureReplication? { TwoStepsOk(c, db, t, ReplicationConfigured, AwaitingReplicationApproval); }
    else if j.ConfigureTestLaunch? { TwoStepsOk(c, db, t, TestTemplateConfigured, AwaitingTestLaunchApproval); }
    else { assert AfterAct(t.msg, a).Settle?; }
  }

  // ---- the first step: reading the servers row ----

  lemma PlanOk(c: Config, db: Db, t: Task, aws: Option<string>)
    requires TablesOk(c, db) && t.Rollbacker? && t.msg.server in db.rows
    requires !IsTerminal(db.rows[t.msg.server].current)
    ensures var seen := db.rows[t.msg.server].current;
            var (plan, final) := RollbackPlan(seen, aws);
            ProgOk(c, db, t, RunPlan(plan, final, seen, t.msg), {})
  {
    var seen := db.rows[t.msg.server].current;
    var (plan, final) := RollbackPlan(seen, aws);
    RollbackGroups(seen, aws);
    RankBounds(seen);
    if plan == [] {
      RunEmptyPlanOk(c, db, t, final, seen);
    } else {
      GateEdges(ReplicationGate);
      GateEdges(TestLaunchGate);
      GatesPassed(db, t.msg.server, CallGate(plan[0], true).value);
    }
  }

  lemma RunEmptyPlanOk(c: Config, db: Db, t: Task, final: State, seen: State)
    requires t.Rollbacker? && IsError(final) && Rank(seen) < 26 && (final.Failed? ==> Rank(seen) <= 13)
    ensures ProgOk(c, db, t, RunPlan([], final, seen, t.msg), {})
  {
    assert {} + {Got(final)} == {Got(final)};
  }

  /** The six rollback groups by position: Failed before cutover has started, Frozen after, and an
      undo call exactly where a launch or a replication start may have left something behind. */
  lemma RollbackGroups(st: State, aws: Option<string>)
    requires !IsTerminal(st)
    ensures var (plan, final) := RollbackPlan(st, aws);
            && final == (if Rank(st) <= 13 then Failed else Frozen)
            && plan == (if aws.None? then []
                        else if 4 <= Rank(st) <= 7 then [StopReplication]
                        else if 8 <= Rank(st) <= 10 || 14 <= Rank(st) <= 17 then [TerminateTargetInstances]
                        else [])
  {
  }

  lemma DispatchOk(c: Config, db: Db, t: Task, m: Msg)
    requires t.Api? && MsgOk(db, m, {}) && m.server == t.server
    ensures ProgOk(c, db, t, Publish(m, Finished), {})
  {
  }

  lemma ConfigureOk(c: Config, db: Db, t: Task, setup: Setup)
    requires TablesOk(c, db) && t.Api? && t.server in db.rows
    requires db.rows[t.server].current == ExpectedState(SetupJob(setup))
    ensures ProgOk(c, db, t, Publish(Fresh(SetupJob(setup), t.server, db.rows[t.server].aws), Finished), {})
  {
    RowKnown(c, db, t.server);
    DispatchOk(c, db, t, Fresh(SetupJob(setup), t.server, db.rows[t.server].aws));
  }

  lemma ApprovalOk(c: Config, db: Db, t: Task, g: Gate)
    requires TablesOk(c, db) && t.Api? && t.server in db.rows && t.request.Approve? && t.request.gate == g
    requires db.rows[t.server].current == GateState(g)
    ensures ProgOk(c, db, t, AfterRequire(t.server, t.request, db.rows[t.server]), {})
  {
    RowKnown(c, db, t.server);
    ApproveOk(c, db, t, g, Fresh(GateJob(g), t.server, db.rows[t.server].aws));
  }

  lemma AfterRequireOk(c: Config, db: Db, t: Task)
    requires TablesOk(c, db) && t.Api? && t.server in db.rows
    ensures ProgOk(c, db, t, AfterRequire(t.server, t.request, db.rows[t.server]), {})
  {
    var s, r, row := t.server, t.request, db.rows[t.server];
    if AfterRequire(s, r, row) == Finished { return; }
    match r
    case Begin(aws) => DispatchOk(c, db, t, Fresh(AddServer, s, Some(aws)));
    case Configure(setup) => ConfigureOk(c, db, t, setup);
    case Approve(g, _) => ApprovalOk(c, db, t, g);
    case Reject(g, _) =>
    case Retry(_) =>
  }

  lemma ApproveOk(c: Config, db: Db, t: Task, g: Gate, m: Msg)
    requires t.Api? && t.server in db.rows && t.request.Approve? && t.request.gate == g
    requires m.server == t.server && m.aws.Some? && !IsPoll(m.job) && m.job == GateJob(g)
    ensures ProgOk(c, db, t, Move(ApprovedState(g), Approved(g), Publish(m, Finished)), {})
  {
    GateEdges(g);
    assert {} + {Got(ApprovedState(g))} == {Got(ApprovedState(g))};
  }

  /** Past Pending, the current state has been reached and the AWS id is known. */
  lemma RowKnown(c: Config, db: Db, s: string)
    requires TablesOk(c, db) && s in db.rows && !IsError(db.rows[s].current)
    ensures Reached(db, s, db.rows[s].current)
    ensures 1 <= Rank(db.rows[s].current) ==> HasAws(db, s)
  {
    ReachedSoFar(db, s, db.rows[s].current);
    if 1 <= Rank(db.rows[s].current) { ReachedSoFar(db, s, AgentInstalled); }
  }

  // ---- any step ----

  ghost predicate DeltaOk(c: Config, db: Db, t: Task, d: Delta) {
    && TablesOk(c, d.db) && Growth(db, d.db)
    && ProgOk(c, d.db, t, d.prog, {})
    && (forall m :: m in d.out ==> MsgOk(d.db, m, {}))
    && (forall r :: r in d.calls ==> CallOk(d.db.history, r))
  }

  lemma ResetOk(c: Config, db: Db, t: Task, l: Luck)
    requires TablesOk(c, db) && TaskOk(c, db, t) && t.Api? && t.request.Retry?
    ensures DeltaOk(c, db, t, StartEffect(c, db, t, l))
  {
    if Reset(db, t.server, t.request.engineer).Ok? {
      WriteGrows(c, db, Entry(t.server, Failed, Pending, t.request.engineer, WasReset));
    }
  }

  lemma StartOk(c: Config, db: Db, t: Task, l: Luck)
    requires TablesOk(c, db) && TaskOk(c, db, t) && (c.dbUp ==> l.Fine?)
    ensures DeltaOk(c, db, t, StartEffect(c, db, t, l))
  {
    if t.Api? && t.request.Retry? {
      ResetOk(c, db, t, l);
    } else if l.Fine? && ServerOf(t) in db.rows {
      match t
      case Consumer(m, _) =>
        if db.rows[m.server].current == GuardState(c, m) {
          GuardPasses(c, db, m);
          AfterGuardOk(c, db, t);
        }
      case Rollbacker(m, _) =>
        if !IsTerminal(db.rows[m.server].current) { PlanOk(c, db, t, db.rows[m.server].aws); }
      case Api(s, r, _) => AfterRequireOk(c, db, t);
    }
  }

  lemma MoveStepOk(c: Config, db: Db, t: Task, turn: Turn)
    requires TablesOk(c, db) && TaskOk(c, db, t) && t.prog.Move?
    ensures DeltaOk(c, db, t, Effect(c, db, t, turn))
  {
    hide Growth, TablesOk, StartEffect, AfterAsk, AfterAct, RunPlan;
    NoGrowth(db);
    var s, to, why, next := ServerOf(t), t.prog.to, t.prog.why, t.prog.next;
    var r := Advance(db, s, to, ActorOf(t), why);
    var l := DbLuck(c, turn.luck);
    var d := Effect(c, db, t, turn);
    if r.Ok? && !l.Before? {
      WriteGrows(c, db, Entry(s, db.rows[s].current, to, ActorOf(t), why));
      if l.Fine? {
        ProgGrows(c, db, d.db, t, next, {} + {Got(to)});
        Discharge(c, d.db, t, next, {}, {} + {Got(to)}, Got(to));
      }
    }
  }

  lemma SaveStepOk(c: Config, db: Db, t: Task, turn: Turn)
    requires TablesOk(c, db) && TaskOk(c, db, t) && t.prog.SaveAws?
    ensures DeltaOk(c, db, t, Effect(c, db, t, turn))
  {
    hide Growth, TablesOk, StartEffect, AfterAsk, AfterAct, RunPlan;
    NoGrowth(db);
    var s, next := ServerOf(t), t.prog.next;
    var l := DbLuck(c, turn.luck);
    var d := Effect(c, db, t, turn);
    if !l.Before? {
      SameStoryGrows(c, db, StoreAws(db, s, t.msg.aws).value);
      if l.Fine? {
        ProgGrows(c, db, d.db, t, next, {} + {KnowsAws});
        Discharge(c, d.db, t, next, {}, {} + {KnowsAws}, KnowsAws);
      }
    }
  }

  lemma UndoStepOk(c: Config, db: Db, t: Task, turn: Turn)
    requires TablesOk(c, db) && TaskOk(c, db, t) && t.prog.Undo?
    ensures DeltaOk(c, db, t, Effect(c, db, t, turn))
  {
    hide Growth, TablesOk, StartEffect, AfterAsk, AfterAct;
    NoGrowth(db);
    var plan, final, seen := t.prog.plan, t.prog.final, t.prog.seen;
    assert plan[0] in plan;
    assert db.history[..|db.history|] == db.history;
    RunEmptyPlanOk(c, db, t, Frozen, seen);
    if plan[1..] == [] {
      RunEmptyPlanOk(c, db, t, final, seen);
    } else {
      assert forall call :: call in plan[1..] ==> call in plan;
    }
  }

  lemma EffectOk(c: Config, db: Db, t: Task, turn: Turn)
    requires TablesOk(c, db) && TaskOk(c, db, t)
    ensures DeltaOk(c, db, t, Effect(c, db, t, turn))
  {
    hide Growth, TablesOk, StartEffect, AfterAsk, AfterAct, RunPlan;
    NoGrowth(db);
    match t.prog
    case Start => StartOk(c, db, t, DbLuck(c, turn.luck));
    case Ask => AfterAskOk(c, db, t, turn.answer);
    case Act(call) =>
      assert db.history[..|db.history|] == db.history;
      AfterActOk(c, db, t, turn.answer);
    case Undo(_, _, _) => UndoStepOk(c, db, t, turn);
    case SaveAws(_) => SaveStepOk(c, db, t, turn);
    case Move(_, _, _) => MoveStepOk(c, db, t, turn);
    case Publish(m, next) => PublishStepOk(c, db, t, turn);
    case Settle(_) =>
    case Finished =>
    case Crashed =>
  }

  lemma PublishStepOk(c: Config, db: Db, t: Task, turn: Turn)
    requires TablesOk(c, db) && TaskOk(c, db, t) && t.prog.Publish?
    ensures DeltaOk(c, db, t, Effect(c, db, t, turn))
  {
    hide Growth, TablesOk, StartEffect, AfterAsk, AfterAct, RunPlan;
    NoGrowth(db);
  }

  // ---- any event, any run ----

  /** The program of a task is all that a step changes in it, and no condition looks at the old one. */
  lemma {:induction false} OnlyIdentityMatters(c: Config, db: Db, t: Task, t': Task, p: Prog, hope: set<Fact>)
    requires ProgOk(c, db, t, p, hope) && t' == WithProg(t, t'.prog)
    ensures ProgOk(c, db, t', p, hope)
    decreases p
  {
    match p
    case SaveAws(next) => OnlyIdentityMatters(c, db, t, t', next, hope + {KnowsAws});
    case Move(to, why, next) => OnlyIdentityMatters(c, db, t, t', next, hope + {Got(to)});
    case Publish(m, next) => OnlyIdentityMatters(c, db, t, t', next, hope);
    case _ =>
  }

  /** When the tables grow, everything but the tables themselves stays valid. */
  lemma RestGrows(c: Config, w: World, db': Db)
    requires Inv(c, w) && Growth(w.db, db') && TablesOk(c, db')
    ensures Inv(c, w.(db := db'))
  {
    forall m | m in w.ready || m in w.failed ensures MsgOk(db', m, {}) { MsgGrows(w.db, db', m, {}); }
    forall i | 0 <= i < |w.tasks| ensures TaskOk(c, db', w.tasks[i]) { TaskGrows(c, w.db, db', w.tasks[i]); }
    forall r | r in w.calls ensures CallOk(db'.history, r) { CallGrows(w.db.history, db'.history, r); }
  }

  lemma RunKeeps(c: Config, w: World, i: nat, turn: Turn)
    requires Inv(c, w) && i < |w.tasks|
    ensures Inv(c, RunTask(c, w, i, turn))
  {
    var t := w.tasks[i];
    var d := Effect(c, w.db, t, turn);
    EffectOk(c, w.db, t, turn);
    RestGrows(c, w, d.db);
    OnlyIdentityMatters(c, d.db, t, WithProg(t, d.prog), d.prog, {});
    assert TaskOk(c, d.db, WithProg(t, d.prog)) by { assert TaskOk(c, d.db, t); }
  }

  lemma CrashKeeps(c: Config, w: World, i: nat)
    requires Inv(c, w) && i < |w.tasks|
    ensures Inv(c, CrashTask(w, i))
  {
    assert TaskOk(c, w.db, w.tasks[i]);
  }

  /** A message that goes back to its queue is as good as it was; the handler that runs on needs no message. */
  lemma SeverKeeps(c: Config, w: World, i: nat)
    requires Inv(c, w) && i < |w.tasks|
    ensures Inv(c, SeverTask(w, i))
  {
    assert TaskOk(c, w.db, w.tasks[i]);
  }

  predicate IsAdmin(e: Event) { e.NewBatch? || e.Enroll? || e.ReadIds? || e.MoveIds? }

  /** Batches, registrations and assignments to batches do not touch what the history speaks of. */
  lemma AdminKeepsStory(c: Config, w: World, e: Event)
    requires IsAdmin(e)
    ensures SameStory(w.db, Apply(c, w, e).db)
    ensures var w' := Apply(c, w, e); w' == w.(db := w'.db, assigning := w'.assigning)
  {
  }

  lemma AdminKeeps(c: Config, w: World, e: Event)
    requires Inv(c, w) && IsAdmin(e)
    ensures Inv(c, Apply(c, w, e))
  {
    hide Apply, SameStory, Growth, TablesOk;
    var w' := Apply(c, w, e);
    AdminKeepsStory(c, w, e);
    SameStoryGrows(c, w.db, w'.db);
    RestGrows(c, w, w'.db);
  }

  lemma ApplyKeeps(c: Config, w: World, e: Event)
    requires Inv(c, w)
    ensures Inv(c, Apply(c, w, e))
  {
    match e
    case Submit(s, r) =>
    case Deliver(k) => if k < |w.ready| { assert w.ready[k] in w.ready; }
    case Collect(k) => if k < |w.failed| { assert w.failed[k] in w.failed; }
    case Run(i, turn) => if i < |w.tasks| { RunKeeps(c, w, i, turn); }
    case Crash(i) => if i < |w.tasks| { CrashKeeps(c, w, i); }
    case Sever(i) => if i < |w.tasks| { SeverKeeps(c, w, i); }
    case _ => AdminKeeps(c, w, e);
  }

  /** The invariant holds after any sequence of events whatsoever. */
  lemma {:induction false} RunsKeep(c: Config, events: seq<Event>)
    ensures Inv(c, Exec(c, INITIAL, events))
  {
    if events != [] {
      RunsKeep(c, events[..|events| - 1]);
      ApplyKeeps(c, Exec(c, INITIAL, events[..|events| - 1]), events[|events| - 1]);
    }
  }
}
