/** A concrete run that takes a server through the whole pipeline. */
module Runs {
  import opened Wrappers
  import opened Pipeline
  import opened Store
  import opened Handlers
  import opened Machine
  import opened Coarse
  import opened Undivided
  import opened TestInstances
  import opened Services
  import Single = ServersApi

  const SERVER := "web-1"
  const AWS_ID := Some("s-1")
  const JOB := Started(Some("job-1"))

  /** AWS answers the first query of a handler run with a, and everything goes through. */
  function Smooth(a: Answer): Tape { (n: nat) => Turn(Fine, if n == 1 then a else JOB) }

  // ---- handler runs in which nothing fails ----

  /** The state a program leaves the server in, and the messages it publishes. */
  function EndState(st: State, p: Prog): State
    decreases p
  {
    match p
    case SaveAws(next) => EndState(st, next)
    case Move(to, _, next) => EndState(to, next)
    case _ => st
  }

  function Outs(p: Prog): seq<Msg> {
    match p
    case SaveAws(next) => Outs(next)
    case Move(_, _, next) => Outs(next)
    case Publish(m, _) => [m]
    case _ => []
  }

  predicate EndsInAck(p: Prog) {
    match p
    case SaveAws(next) => EndsInAck(next)
    case Move(_, _, next) => EndsInAck(next)
    case Publish(_, next) => next == ACK
    case _ => p == ACK
  }

  ghost predicate AllFine(tape: Tape) { forall n :: tape(n).luck.Fine? }

  lemma {:induction false} RunsStraight(c: Config, s: Snap, m: Msg, p: Prog, tape: Tape)
    requires m.server in s.db.rows && Straight(s.db.rows[m.server].current, p) && EndsInAck(p) && AllFine(tape)
    requires m.aws == s.db.rows[m.server].aws || p.SaveAws?
    ensures var (s', q) := Fly(c, s, Consumer(m, p), tape);
            && q == ACK && m.server in s'.db.rows && s'.db.rows[m.server].aws == m.aws
            && s'.db.rows[m.server].current == EndState(s.db.rows[m.server].current, p)
            && s'.published == s.published + Outs(p) && s'.calls == s.calls
    decreases p
  {
    if !Resting(p) {
      Unroll(c, s, Consumer(m, p), tape);
      if p.Move? { TableIsPipeline(s.db.rows[m.server].current, p.to); }
      RunsStraight(c, Once(c, s, Consumer(m, p), tape), m, p.next, tape);
    }
  }

  /** The rest of a handler's program after its AWS calls. */
  function Rest(m: Msg, a: Answer): Prog {
    if AfterGuard(m) == Ask then (if AfterAsk(m, a).Act? then AfterAct(m, JOB) else AfterAsk(m, a))
    else AfterAct(m, a)
  }

  /** The calls that change AWS which that handler run makes, h history rows being written by then. */
  function CallsMade(m: Msg, a: Answer, h: nat): seq<CallRecord> {
    if AfterGuard(m).Act? then [CallRecord(m.server, AfterGuard(m).call, false, Fine, h)]
    else if AfterAsk(m, a).Act? then [CallRecord(m.server, AfterAsk(m, a).call, false, Fine, h)]
    else []
  }

  lemma HandlerRuns(c: Config, s: Snap, m: Msg, a: Answer)
    requires s.clock == 0 && m.server in s.db.rows && s.db.rows[m.server].current == GuardState(c, m) && !a.Raised?
    requires AfterGuard(m).Ask? || AfterGuard(m).Act?
    requires Straight(GuardState(c, m), Rest(m, a)) && EndsInAck(Rest(m, a))
    requires m.aws == s.db.rows[m.server].aws || Rest(m, a).SaveAws?
    ensures var (s', q) := Fly(c, s, Consumer(m, Start), Smooth(a));
            && q == ACK && m.server in s'.db.rows && s'.db.rows[m.server].aws == m.aws
            && s'.db.rows[m.server].current == EndState(GuardState(c, m), Rest(m, a))
            && s'.published == s.published + Outs(Rest(m, a)) && s'.calls == s.calls + CallsMade(m, a, |s.db.history|)
  {
    hide Fly, Straight, EndsInAck, EndState, Outs;
    var tape := Smooth(a);
    ReadStep(c, s, m, tape);
    var s1 := s.(clock := 1);
    if AfterGuard(m).Ask? {
      AskStep(c, s1, m, tape);
      if AfterAsk(m, a).Act? { ActStep(c, s.(clock := 2), m, AfterAsk(m, a).call, tape); }
    } else {
      ActStep(c, s1, m, AfterGuard(m).call, tape);
    }
    forall s': Snap | s'.db == s.db && s'.published == s.published
      ensures var (s'', q) := Fly(c, s', Consumer(m, Rest(m, a)), tape);
              && q == ACK && m.server in s''.db.rows && s''.db.rows[m.server].aws == m.aws
              && s''.db.rows[m.server].current == EndState(GuardState(c, m), Rest(m, a))
              && s''.published == s.published + Outs(Rest(m, a)) && s''.calls == s'.calls
    {
      RunsStraight(c, s', m, Rest(m, a), tape);
    }
  }

  // ---- the same, as steps of a world ----

  /** The server is in state st, knows its AWS id once it has one, and the work queue holds just these messages. */
  ghost predicate Stands(w: World, st: State, queue: seq<Msg>) {
    && SERVER in w.db.rows && w.db.rows[SERVER].current == st && w.ready == queue
    && (st != Pending ==> w.db.rows[SERVER].aws == AWS_ID)
    && w.orphans == {}
  }

  lemma SettlementOnly(c: Config, w: World, i: nat)
    requires i < |w.tasks| && i !in w.orphans && Resting(w.tasks[i].prog)
    ensures var w' := RunTask(c, w, i, SETTLE_TURN);
            && w'.db == w.db && w'.ready == w.ready && w'.failed == w.failed + Nacked(w.tasks[i])
            && w'.calls == w.calls && w'.orphans == w.orphans
            && |w'.tasks| == |w.tasks| && forall j :: 0 <= j < |w.tasks| && j != i ==> w'.tasks[j] == w.tasks[j]
  {
    assert w.ready + [] == w.ready && w.calls + [] == w.calls;
  }

  lemma OpeningKeepsOrphans(c: Config, w: World, b: Burst)
    requires !b.Admin?
    ensures Apply(c, w, Opening(b)).orphans == w.orphans
  {
  }

  lemma BurstFlies(c: Config, w: World, b: Burst)
    requires !b.Admin? && (b.Serve? || !b.lost) && w.orphans == {}
    requires |Apply(c, w, Opening(b)).tasks| == |w.tasks| + 1
    ensures var w1 := Apply(c, w, Opening(b));
            var (s, p) := Fly(c, Snap(w1.db, w1.published, w1.calls, 0), w1.tasks[|w.tasks|], b.tape);
            var w' := ApplyBurst(c, w, b);
            && w1.published <= s.published && w'.orphans == {}
            && w'.db == s.db && w'.ready == w1.ready + s.published[|w1.published|..] && w'.calls == s.calls
            && w'.failed == w1.failed + Nacked(WithProg(w1.tasks[|w.tasks|], p))
            && |w'.tasks| == |w.tasks| + 1 && forall j :: 0 <= j < |w.tasks| ==> w'.tasks[j] == w1.tasks[j]
  {
    hide Fly, Drive, Apply, Effect, Nacked;
    var w1 := Apply(c, w, Opening(b));
    OpeningKeepsOrphans(c, w, b);
    FlyIsDrive(c, w1, |w.tasks|, b.tape, 0);
    SettlementOnly(c, Drive(c, w1, |w.tasks|, b.tape, 0), |w.tasks|);
  }

  lemma HandleStands(c: Config, w: World, st: State, m: Msg, a: Answer)
    requires Stands(w, st, [m]) && m.server == SERVER && m.aws == AWS_ID && st == GuardState(c, m) && !a.Raised?
    requires AfterGuard(m).Ask? || AfterGuard(m).Act?
    requires Straight(st, Rest(m, a)) && EndsInAck(Rest(m, a)) && (st == Pending ==> Rest(m, a).SaveAws?)
    ensures var w' := ApplyBurst(c, w, Handle(0, Smooth(a), false));
            && Stands(w', EndState(st, Rest(m, a)), Outs(Rest(m, a))) && w'.failed == w.failed
            && w'.calls == w.calls + CallsMade(m, a, |w.db.history|)
  {
    hide Fly, Straight, EndsInAck, Outs, EndState;
    var w1 := Apply(c, w, Deliver(0));
    BurstFlies(c, w, Handle(0, Smooth(a), false));
    HandlerRuns(c, Snap(w1.db, w1.published, w1.calls, 0), m, a);
    assert w1.ready == [] && w1.tasks[|w.tasks|] == Consumer(m, Start);
    assert w1.published <= w1.published + Outs(Rest(m, a));
    assert (w1.published + Outs(Rest(m, a)))[|w1.published|..] == Outs(Rest(m, a));
  }

  /** What an endpoint that goes through does: the new state and the message it dispatches. */
  function Served(r: Request, st: State, aws: Option<string>): (State, Msg)
    requires r.Begin? || r.Configure? || r.Approve?
  {
    match r
    case Begin(id) => (st, Fresh(AddServer, SERVER, Some(id)))
    case Configure(setup) => (st, Fresh(SetupJob(setup), SERVER, aws))
    case Approve(g, _) => (ApprovedState(g), Fresh(GateJob(g), SERVER, aws))
  }

  predicate Fits(r: Request, st: State) {
    match r
    case Begin(_) => st == Pending
    case Configure(setup) => st == ExpectedState(SetupJob(setup))
    case Approve(g, _) => st == GateState(g)
    case _ => false
  }

  lemma EndpointRuns(c: Config, s: Snap, r: Request)
    requires s.clock == 0 && SERVER in s.db.rows && Fits(r, s.db.rows[SERVER].current)
    ensures var row := s.db.rows[SERVER];
            var (s', p) := Fly(c, s, Api(SERVER, r, Start), Smooth(JOB));
            && p == Finished && SERVER in s'.db.rows && s'.db.rows[SERVER].aws == row.aws
            && s'.db.rows[SERVER].current == Served(r, row.current, row.aws).0
            && s'.published == s.published + [Served(r, row.current, row.aws).1] && s'.calls == s.calls
  {
    hide Fly;
    var tape, row := Smooth(JOB), s.db.rows[SERVER];
    var out := Served(r, row.current, row.aws).1;
    Single.RequireStep(c, s, SERVER, r, tape);
    if r.Approve? {
      GateEdges(r.gate);
      var next := Publish(out, Finished);
      Single.DecideStep(c, s.(clock := 1), SERVER, r, ApprovedState(r.gate), Approved(r.gate), next, tape);
      var e := Entry(SERVER, GateState(r.gate), ApprovedState(r.gate), r.engineer, Approved(r.gate));
      Single.DispatchStep(c, s.(db := Write(s.db, e), clock := 2), SERVER, r, out, tape);
    } else {
      Single.DispatchStep(c, s.(clock := 1), SERVER, r, out, tape);
    }
  }

  lemma ServeStands(c: Config, w: World, st: State, r: Request)
    requires Stands(w, st, []) && Fits(r, st) && (r.Configure? && r.setup.CutoverInstanceSetup? ==> c.operator)
    ensures var w' := ApplyBurst(c, w, Serve(SERVER, r, Smooth(JOB)));
            && Stands(w', Served(r, st, AWS_ID).0, [Served(r, st, w.db.rows[SERVER].aws).1])
            && w'.calls == w.calls && w'.failed == w.failed
  {
    hide Fly, Served;
    var w1 := Apply(c, w, Submit(SERVER, r));
    BurstFlies(c, w, Serve(SERVER, r, Smooth(JOB)));
    EndpointRuns(c, Snap(w1.db, w1.published, w1.calls, 0), r);
    var m := Served(r, st, w.db.rows[SERVER].aws).1;
    assert (w1.published + [m])[|w1.published|..] == [m];
    ServedState(r, st, w.db.rows[SERVER].aws);
  }

  lemma ServedState(r: Request, st: State, aws: Option<string>)
    requires Fits(r, st)
    ensures Served(r, st, aws).0 == Served(r, st, AWS_ID).0
    ensures st == Pending ==> Served(r, st, aws).0 == Pending
  {
  }

  // ---- the whole pipeline ----

  lemma Extends(c: Config, bs: seq<Burst>, b: Burst)
    ensures ExecBursts(c, INITIAL, bs + [b]) == ApplyBurst(c, ExecBursts(c, INITIAL, bs), b)
  {
    assert (bs + [b])[..|bs|] == bs;
  }

  ghost predicate After(c: Config, bs: seq<Burst>, st: State, queue: seq<Msg>) {
    Stands(ExecBursts(c, INITIAL, bs), st, queue) && ExecBursts(c, INITIAL, bs).failed == []
  }

  /** A test instance of the server is running. */
  ghost predicate TestUp(c: Config, bs: seq<Burst>) { TestLive(ExecBursts(c, INITIAL, bs).calls, SERVER) }

  /** Handled in state st with AWS first answering a, message m leads to state st' and publishes just `out`. */
  ghost predicate Yields(c: Config, st: State, m: Msg, a: Answer, st': State, out: seq<Msg>) {
    && st == GuardState(c, m) && !a.Raised? && m.server == SERVER && m.aws == AWS_ID
    && (AfterGuard(m).Ask? || AfterGuard(m).Act?)
    && Straight(st, Rest(m, a)) && EndsInAck(Rest(m, a)) && (st == Pending ==> Rest(m, a).SaveAws?)
    && EndState(st, Rest(m, a)) == st' && Outs(Rest(m, a)) == out
  }

  lemma HandleNext(c: Config, bs: seq<Burst>, st: State, m: Msg, a: Answer, st': State, out: seq<Msg>)
    returns (bs': seq<Burst>)
    requires After(c, bs, st, [m]) && Yields(c, st, m, a, st', out)
    ensures After(c, bs', st', out)
    ensures TestUp(c, bs) && CallsMade(m, a, 0) == [] ==> TestUp(c, bs')
    ensures CallsMade(m, a, 0) == [CallRecord(SERVER, StartTestCall, false, Fine, 0)] ==> TestUp(c, bs')
  {
    var w := ExecBursts(c, INITIAL, bs);
    HandleStands(c, w, st, m, a);
    bs' := bs + [Handle(0, Smooth(a), false)];
    Extends(c, bs, Handle(0, Smooth(a), false));
    if CallsMade(m, a, 0) == [] {
      assert w.calls + [] == w.calls;
    } else {
      LiveAppend(w.calls, CallsMade(m, a, |w.db.history|)[0], SERVER);
    }
  }

  lemma ServeNext(c: Config, bs: seq<Burst>, st: State, r: Request) returns (bs': seq<Burst>)
    requires After(c, bs, st, []) && Fits(r, st) && (r.Configure? && r.setup.CutoverInstanceSetup? ==> c.operator)
    ensures After(c, bs', Served(r, st, AWS_ID).0, [Served(r, st, AWS_ID).1])
    ensures TestUp(c, bs) ==> TestUp(c, bs')
  {
    hide ApplyBurst, ExecBursts;
    ServeStands(c, ExecBursts(c, INITIAL, bs), st, r);
    bs' := bs + [Serve(SERVER, r, Smooth(JOB))];
    Extends(c, bs, Serve(SERVER, r, Smooth(JOB)));
  }

  function MsgFor(j: Job): Msg { Fresh(j, SERVER, AWS_ID) }

  function LaunchPoll(j: Job): Msg { MsgFor(j).(mgnJob := Some("job-1")) }

  function CheckPoll(j: Job): Msg { MsgFor(j).(ec2 := Some("i-1")) }

  function Seen(lifecycle: string): Answer { Servers([SourceServer(lifecycle, Some("i-1"))]) }

  const COMPLETED := Jobs([MgnJob("COMPLETED", [Participant(AWS_ID, Some("i-1"))])], [])
  const REACHABLE := Statuses([InstanceStatus("", "ok", "ok")])

  lemma AddServerYields(c: Config)
    ensures Yields(c, Pending, MsgFor(AddServer), Seen(""), AgentInstalled, [])
  {
  }

  lemma ConfigureReplicationYields(c: Config)
    ensures Yields(c, AgentInstalled, MsgFor(ConfigureReplication), JOB, AwaitingReplicationApproval, [])
  {
  }

  lemma StartReplicationYields(c: Config)
    ensures Yields(c, ReplicationStarted, MsgFor(StartReplication), JOB, ReplicationStarted, [MsgFor(PollReplication)])
  {
  }

  lemma PollReplicationYields(c: Config)
    ensures Yields(c, ReplicationStarted, MsgFor(PollReplication), Seen("READY_FOR_TEST"), ReadyForTesting, [])
  {
  }

  lemma ConfigureTestLaunchYields(c: Config)
    ensures Yields(c, ReadyForTesting, MsgFor(ConfigureTestLaunch), JOB, AwaitingTestLaunchApproval, [])
  {
  }

  lemma LaunchTestYields(c: Config)
    ensures Yields(c, TestInstanceLaunching, MsgFor(LaunchTest), Seen("READY_FOR_TEST"), TestInstanceLaunching,
                   [LaunchPoll(PollTestInstance)])
  {
  }

  lemma PollTestLaunchYields(c: Config)
    ensures Yields(c, TestInstanceLaunching, LaunchPoll(PollTestInstance), COMPLETED, TestInstanceRunning,
                   [CheckPoll(PollTestInstance)])
  {
  }

  lemma PollTestChecksYields(c: Config)
    requires c.phaseAware
    ensures Yields(c, TestInstanceRunning, CheckPoll(PollTestInstance), REACHABLE, AwaitingTestValidation, [])
  {
  }

  lemma FinalizeTestYields(c: Config)
    ensures Yields(c, TestFinalized, MsgFor(FinalizeTest), JOB, CutoverTemplateConfigured, [])
  {
  }

  lemma ConfigureCutoverLaunchYields(c: Config)
    ensures Yields(c, CutoverTemplateConfigured, MsgFor(ConfigureCutoverLaunch), JOB, AwaitingCutoverLaunchApproval, [])
  {
  }

  lemma StartCutoverYields(c: Config)
    ensures Yields(c, CutoverStarted, MsgFor(StartCutover), Seen("READY_FOR_CUTOVER"), CutoverSyncInProgress,
                   [LaunchPoll(PollCutoverSync)])
  {
  }

  lemma PollCutoverSyncYields(c: Config)
    ensures Yields(c, CutoverSyncInProgress, LaunchPoll(PollCutoverSync), COMPLETED, ReadyForCutoverLaunch, [])
  {
  }

  lemma LaunchCutoverYields(c: Config)
    ensures Yields(c, ReadyForCutoverLaunch, MsgFor(LaunchCutover), Seen("CUTOVER"), CutoverInstanceLaunching,
                   [MsgFor(PollCutoverInstance)])
  {
  }

  lemma PollCutoverLaunchYields(c: Config)
    ensures Yields(c, CutoverInstanceLaunching, MsgFor(PollCutoverInstance), Seen("CUTOVER"), CutoverInstanceRunning,
                   [CheckPoll(PollCutoverInstance)])
  {
  }

  lemma PollCutoverChecksYields(c: Config)
    requires c.phaseAware
    ensures Yields(c, CutoverInstanceRunning, CheckPoll(PollCutoverInstance), REACHABLE, AwaitingCutoverValidation, [])
  {
  }

  lemma FinalizeCutoverYields(c: Config)
    ensures Yields(c, CutoverFinalized, MsgFor(FinalizeCutover), JOB, Disconnecting, [MsgFor(DisconnectSource)])
  {
  }

  lemma DisconnectYields(c: Config)
    ensures Yields(c, Disconnecting, MsgFor(DisconnectSource), JOB, Disconnecting, [MsgFor(PollDisconnect)])
  {
  }

  lemma PollDisconnectYields(c: Config)
    ensures Yields(c, Disconnecting, MsgFor(PollDisconnect), Servers([]), AwaitingArchiveApproval, [])
  {
  }

  lemma ArchiveYields(c: Config)
    ensures Yields(c, Archived, MsgFor(ArchiveSource), JOB, AwaitingCleanupApproval, [])
  {
  }

  lemma Onboarded(c: Config) returns (bs: seq<Burst>)
    ensures After(c, bs, AgentInstalled, [])
  {
    var enroll := Admin(Enroll(SERVER, "web-1.example", None, None, Fine));
    Extends(c, [], enroll);
    bs := [] + [enroll];
    bs := ServeNext(c, bs, Pending, Begin("s-1"));
    AddServerYields(c);
    bs := HandleNext(c, bs, Pending, MsgFor(AddServer), Seen(""), AgentInstalled, []);
  }

  lemma Replicating(c: Config) returns (bs: seq<Burst>)
    ensures After(c, bs, ReadyForTesting, [])
  {
    hide After, Yields, TestUp;
    bs := Onboarded(c);
    bs := ServeNext(c, bs, AgentInstalled, Configure(ReplicationSetup));
    ConfigureReplicationYields(c);
    bs := HandleNext(c, bs, AgentInstalled, MsgFor(ConfigureReplication), JOB, AwaitingReplicationApproval, []);
    bs := ServeNext(c, bs, AwaitingReplicationApproval, Approve(ReplicationGate, "eve"));
    StartReplicationYields(c);
    bs := HandleNext(c, bs, ReplicationStarted, MsgFor(StartReplication), JOB, ReplicationStarted,
                     [MsgFor(PollReplication)]);
    PollReplicationYields(c);
    bs := HandleNext(c, bs, ReplicationStarted, MsgFor(PollReplication), Seen("READY_FOR_TEST"), ReadyForTesting, []);
  }

  lemma TestLaunched(c: Config) returns (bs: seq<Burst>)
    ensures After(c, bs, TestInstanceRunning, [CheckPoll(PollTestInstance)]) && TestUp(c, bs)
  {
    hide After, Yields, TestUp;
    bs := Replicating(c);
    bs := ServeNext(c, bs, ReadyForTesting, Configure(TestLaunchSetup));
    ConfigureTestLaunchYields(c);
    bs := HandleNext(c, bs, ReadyForTesting, MsgFor(ConfigureTestLaunch), JOB, AwaitingTestLaunchApproval, []);
    bs := ServeNext(c, bs, AwaitingTestLaunchApproval, Approve(TestLaunchGate, "eve"));
    LaunchTestYields(c);
    bs := HandleNext(c, bs, TestInstanceLaunching, MsgFor(LaunchTest), Seen("READY_FOR_TEST"), TestInstanceLaunching,
                     [LaunchPoll(PollTestInstance)]);
    PollTestLaunchYields(c);
    bs := HandleNext(c, bs, TestInstanceLaunching, LaunchPoll(PollTestInstance), COMPLETED, TestInstanceRunning,
                     [CheckPoll(PollTestInstance)]);
  }

  lemma TestAccepted(c: Config) returns (bs: seq<Burst>)
    requires c.phaseAware
    ensures After(c, bs, TestFinalized, [MsgFor(FinalizeTest)]) && TestUp(c, bs)
  {
    hide After, Yields, TestUp;
    bs := TestLaunched(c);
    PollTestChecksYields(c);
    bs := HandleNext(c, bs, TestInstanceRunning, CheckPoll(PollTestInstance), REACHABLE, AwaitingTestValidation, []);
    bs := ServeNext(c, bs, AwaitingTestValidation, Approve(TestValidationGate, "eve"));
  }

  lemma Tested(c: Config) returns (bs: seq<Burst>)
    requires c.phaseAware
    ensures After(c, bs, CutoverTemplateConfigured, [])
  {
    hide After, Yields, TestUp;
    bs := TestAccepted(c);
    FinalizeTestYields(c);
    bs := HandleNext(c, bs, TestFinalized, MsgFor(FinalizeTest), JOB, CutoverTemplateConfigured, []);
  }

  lemma CutoverApproved(c: Config) returns (bs: seq<Burst>)
    requires c.phaseAware
    ensures After(c, bs, CutoverStarted, [MsgFor(StartCutover)])
  {
    hide After, Yields, TestUp;
    bs := Tested(c);
    bs := ServeNext(c, bs, CutoverTemplateConfigured, Configure(CutoverLaunchSetup));
    ConfigureCutoverLaunchYields(c);
    bs := HandleNext(c, bs, CutoverTemplateConfigured, MsgFor(ConfigureCutoverLaunch), JOB,
                     AwaitingCutoverLaunchApproval, []);
    bs := ServeNext(c, bs, AwaitingCutoverLaunchApproval, Approve(CutoverLaunchGate, "eve"));
  }

  lemma CutOver(c: Config) returns (bs: seq<Burst>)
    requires c.phaseAware && c.operator
    ensures After(c, bs, ReadyForCutoverLaunch, [])
  {
    hide After, Yields, TestUp;
    bs := CutoverApproved(c);
    StartCutoverYields(c);
    bs := HandleNext(c, bs, CutoverStarted, MsgFor(StartCutover), Seen("READY_FOR_CUTOVER"), CutoverSyncInProgress,
                     [LaunchPoll(PollCutoverSync)]);
    PollCutoverSyncYields(c);
    bs := HandleNext(c, bs, CutoverSyncInProgress, LaunchPoll(PollCutoverSync), COMPLETED, ReadyForCutoverLaunch, []);
  }

  lemma CutoverRunning(c: Config) returns (bs: seq<Burst>)
    requires c.phaseAware && c.operator
    ensures After(c, bs, AwaitingCutoverValidation, [])
  {
    hide After, Yields, TestUp;
    bs := CutOver(c);
    bs := ServeNext(c, bs, ReadyForCutoverLaunch, Configure(CutoverInstanceSetup));
    LaunchCutoverYields(c);
    bs := HandleNext(c, bs, ReadyForCutoverLaunch, MsgFor(LaunchCutover), Seen("CUTOVER"), CutoverInstanceLaunching,
                     [MsgFor(PollCutoverInstance)]);
    PollCutoverLaunchYields(c);
    bs := HandleNext(c, bs, CutoverInstanceLaunching, MsgFor(PollCutoverInstance), Seen("CUTOVER"),
                     CutoverInstanceRunning, [CheckPoll(PollCutoverInstance)]);
    PollCutoverChecksYields(c);
    bs := HandleNext(c, bs, CutoverInstanceRunning, CheckPoll(PollCutoverInstance), REACHABLE,
                     AwaitingCutoverValidation, []);
  }

  lemma DisconnectedLater(c: Config) returns (bs: seq<Burst>)
    requires c.phaseAware && c.operator
    ensures After(c, bs, AwaitingArchiveApproval, [])
  {
    hide After, Yields, TestUp;
    bs := CutoverRunning(c);
    bs := ServeNext(c, bs, AwaitingCutoverValidation, Approve(CutoverValidationGate, "eve"));
    FinalizeCutoverYields(c);
    bs := HandleNext(c, bs, CutoverFinalized, MsgFor(FinalizeCutover), JOB, Disconnecting, [MsgFor(DisconnectSource)]);
    DisconnectYields(c);
    bs := HandleNext(c, bs, Disconnecting, MsgFor(DisconnectSource), JOB, Disconnecting, [MsgFor(PollDisconnect)]);
    PollDisconnectYields(c);
    bs := HandleNext(c, bs, Disconnecting, MsgFor(PollDisconnect), Servers([]), AwaitingArchiveApproval, []);
  }

  /** With a phase-aware poll table and an operator who enqueues LAUNCH_CUTOVER_INSTANCE, a server can get all
      the way to CLEANUP_COMPLETE: the guarantees about late states are not vacuous. */
  lemma PipelineCompletes(c: Config) returns (bs: seq<Burst>)
    requires c.phaseAware && c.operator
    ensures After(c, bs, CleanupComplete, [MsgFor(DeleteReplication)])
  {
    hide After, Yields, TestUp;
    bs := DisconnectedLater(c);
    bs := ServeNext(c, bs, AwaitingArchiveApproval, Approve(ArchiveGate, "eve"));
    ArchiveYields(c);
    bs := HandleNext(c, bs, Archived, MsgFor(ArchiveSource), JOB, AwaitingCleanupApproval, []);
    bs := ServeNext(c, bs, AwaitingCleanupApproval, Approve(CleanupGate, "eve"));
  }
}
