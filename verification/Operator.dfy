/** What no shipped code does: enqueue LAUNCH_CUTOVER_INSTANCE. Without somebody who does, no server gets past
    READY_FOR_CUTOVER_LAUNCH. */
module Operator {
  import opened Wrappers
  import opened Pipeline
  import opened Store
  import opened AuditTrail
  import opened Handlers
  import opened Machine
  import opened Safety
  import opened Steps
  import opened Guarantees

  /** Nothing the program does launches a cutover instance or asks for one. */
  predicate Inert(p: Prog) {
    match p
    case Undo(_, final, _) => IsError(final)
    case SaveAws(next) => Inert(next)
    case Move(to, _, next) => !to.CutoverInstanceLaunching? && Inert(next)
    case Publish(m, next) => !m.job.LaunchCutover? && Inert(next)
    case _ => true
  }

  predicate InertTask(t: Task) {
    && (match t
        case Consumer(m, _) => !m.job.LaunchCutover?
        case Rollbacker(m, _) => !m.job.LaunchCutover?
        case Api(_, r, _) => r.Configure? ==> !r.setup.CutoverInstanceSetup?)
    && Inert(t.prog)
  }

  ghost predicate NeverLaunched(h: seq<Entry>) { forall e :: e in h ==> !e.to.CutoverInstanceLaunching? }

  ghost predicate Quiet(w: World) {
    && NeverLaunched(w.db.history)
    && (forall m :: m in w.ready || m in w.failed ==> !m.job.LaunchCutover?)
    && (forall i :: 0 <= i < |w.tasks| ==> InertTask(w.tasks[i]))
  }

  // ---- programs ----

  lemma GuardInert(m: Msg)
    ensures Inert(AfterGuard(m))
  {
  }

  lemma ReachabilityInert(m: Msg, statuses: seq<InstanceStatus>, gate: State)
    requires IsPoll(m.job) && IsValidationGate(gate)
    ensures Inert(Reachability(m, statuses, gate)) && Inert(InProgress(m))
  {
    assert Inert(ACK) && Inert(NACK);
  }

  lemma SecondPollInert(m: Msg, ec2: Option<string>)
    requires IsPoll(m.job)
    ensures Inert(SecondPoll(m, ec2))
  {
    assert Inert(ACK);
    assert Inert(Publish(Fresh(m.job, m.server, m.aws).(ec2 := ec2), ACK));
  }

  lemma AskInert(m: Msg, a: Answer)
    requires !m.job.LaunchCutover?
    ensures Inert(AfterAsk(m, a))
  {
    assert Inert(ACK) && Inert(NACK);
    if IsPoll(m.job) { ReachabilityInert(m, [], AwaitingTestValidation); }
    match m.job
    case PollTestInstance =>
      if a.Statuses? { ReachabilityInert(m, a.statuses, AwaitingTestValidation); }
      if a.Jobs? && a.jobs != [] { SecondPollInert(m, LaunchedInstance(a.jobs[0], a.fallback, m.aws)); }
    case PollCutoverInstance =>
      if a.Statuses? { ReachabilityInert(m, a.statuses, AwaitingCutoverValidation); }
      if a.Servers? && a.servers != [] { SecondPollInert(m, a.servers[0].instance); }
    case PollDisconnect => assert Inert(Handlers.Step(m, AwaitingArchiveApproval, ACK));
    case AddServer => assert Inert(Handlers.Step(m, AgentInstalled, ACK));
    case _ =>
  }

  lemma ActInert(m: Msg, a: Answer)
    ensures Inert(AfterAct(m, a))
  {
    assert Inert(ACK) && Inert(NACK);
    var p := AfterAct(m, a);
    if p.Move? { assert Inert(p.next); }
  }

  lemma PlanInert(plan: seq<AwsCall>, final: State, seen: State, m: Msg)
    requires IsError(final)
    ensures Inert(RunPlan(plan, final, seen, m))
  {
    assert Inert(ACK);
  }

  lemma RequestInert(s: string, r: Request, row: Row)
    requires r.Configure? ==> !r.setup.CutoverInstanceSetup?
    ensures Inert(AfterRequire(s, r, row))
  {
    assert Inert(Finished);
    var p := AfterRequire(s, r, row);
    if p.Move? { assert Inert(p.next); }
  }

  // ---- steps ----

  lemma StartInert(c: Config, db: Db, t: Task, l: Luck)
    requires InertTask(t) && NeverLaunched(db.history)
    ensures var d := StartEffect(c, db, t, l); Inert(d.prog) && d.out == [] && NeverLaunched(d.db.history)
  {
    assert Inert(ACK) && Inert(NACK);
    if ServerOf(t) in db.rows {
      var row := db.rows[ServerOf(t)];
      match t
      case Consumer(m, _) => GuardInert(m);
      case Rollbacker(m, _) =>
        var (plan, final) := RollbackPlan(row.current, row.aws);
        PlanInert(plan, final, row.current, m);
      case Api(s, r, _) => RequestInert(s, r, row);
    }
  }

  lemma StepInert(c: Config, db: Db, t: Task, turn: Turn)
    requires InertTask(t) && NeverLaunched(db.history)
    ensures var d := Effect(c, db, t, turn);
            && InertTask(WithProg(t, d.prog)) && NeverLaunched(d.db.history)
            && forall m :: m in d.out ==> !m.job.LaunchCutover?
  {
    hide StartEffect, AfterAsk, AfterAct, RunPlan;
    assert Inert(ACK) && Inert(NACK);
    match t.prog
    case Start => StartInert(c, db, t, DbLuck(c, turn.luck));
    case Ask => if t.Consumer? { AskInert(t.msg, turn.answer); }
    case Act(_) => if t.Consumer? { ActInert(t.msg, turn.answer); }
    case Undo(plan, final, seen) =>
      if plan != [] && t.Rollbacker? {
        PlanInert(plan[1..], final, seen, t.msg);
        PlanInert([], Frozen, seen, t.msg);
      }
    case _ =>
  }

  lemma RunQuiet(c: Config, w: World, i: nat, turn: Turn)
    requires Quiet(w) && i < |w.tasks|
    ensures Quiet(RunTask(c, w, i, turn))
  {
    hide Effect;
    StepInert(c, w.db, w.tasks[i], turn);
  }

  lemma ApplyQuiet(c: Config, w: World, e: Event)
    requires Quiet(w) && !c.operator
    ensures Quiet(Apply(c, w, e))
  {
    match e
    case Run(i, turn) => if i < |w.tasks| { RunQuiet(c, w, i, turn); }
    case Deliver(k) => if k < |w.ready| { assert w.ready[k] in w.ready; }
    case Collect(k) => if k < |w.failed| { assert w.failed[k] in w.failed; }
    case Crash(i) => if i < |w.tasks| { assert InertTask(w.tasks[i]); }
    case Sever(i) => if i < |w.tasks| { assert InertTask(w.tasks[i]); }
    case Submit(_, _) =>
    case _ => AdminKeepsStory(c, w, e);
  }

  lemma {:induction false} RunsQuiet(c: Config, events: seq<Event>)
    requires !c.operator
    ensures Quiet(WorldAfter(c, events))
  {
    if events != [] {
      RunsQuiet(c, events[..|events| - 1]);
      ApplyQuiet(c, WorldAfter(c, events[..|events| - 1]), events[|events| - 1]);
    }
  }

  /** With nobody to enqueue LAUNCH_CUTOVER_INSTANCE, and whatever the poll table, no row of any history enters
      CUTOVER_INSTANCE_LAUNCHING, and every server is in an error state or no further than READY_FOR_CUTOVER_LAUNCH,
      however often it has been reset. */
  lemma {:induction false} WithoutOperatorStopsAtReady(c: Config, events: seq<Event>, s: string)
    requires !c.operator && s in WorldAfter(c, events).db.rows
    ensures var db := WorldAfter(c, events).db;
            && (forall e :: e in db.history ==> !e.to.CutoverInstanceLaunching?)
            && (IsError(db.rows[s].current) || Rank(db.rows[s].current) <= Rank(ReadyForCutoverLaunch))
  {
    hide Apply;
    var db := WorldAfter(c, events).db;
    RunsQuiet(c, events);
    RunsKeep(c, events);
    if !IsError(db.rows[s].current) && Rank(db.rows[s].current) > Rank(ReadyForCutoverLaunch) {
      ReachedSoFar(db, s, CutoverInstanceLaunching);
    }
  }
}
