/** Concrete runs that show where the guarantees end: what is lost when a rollback can be interrupted, when a worker
    dies half-way, when the database is down, and what a rollback leaves behind. */
module Races {
  import opened Pipeline
  import opened Store
  import opened Handlers
  import opened Machine
  import opened Guarantees
  import opened Coarse
  import opened Undivided
  import opened OneTimeCalls
  import opened TestInstances
  import opened Services
  import opened Runs

  // ---- an interrupted rollback ----

  lemma ThenEvent(c: Config, events: seq<Machine.Event>, e: Machine.Event) returns (events': seq<Machine.Event>)
    ensures WorldAfter(c, events') == Apply(c, WorldAfter(c, events), e)
  {
    events' := events + [e];
    assert events'[..|events|] == events;
  }

  lemma ThenBurst(c: Config, events: seq<Machine.Event>, b: Burst) returns (events': seq<Machine.Event>)
    ensures WorldAfter(c, events') == ApplyBurst(c, WorldAfter(c, events), b)
  {
    var more := BurstIsFine(c, WorldAfter(c, events), b);
    events' := events + more;
    ExecConcat(c, INITIAL, events, more);
  }

  lemma BurstKeepsTasks(c: Config, w: World, b: Burst)
    requires !b.Admin? && (b.Serve? || !b.lost) && w.orphans == {}
    requires |Apply(c, w, Opening(b)).tasks| == |w.tasks| + 1
    ensures |ApplyBurst(c, w, b).tasks| == |w.tasks| + 1
    ensures forall j :: 0 <= j < |w.tasks| ==> ApplyBurst(c, w, b).tasks[j] == w.tasks[j]
  {
    hide Fly, ApplyBurst, Drive;
    BurstFlies(c, w, b);
  }

  /** AWS refuses the first call of a handler run. */
  function Refused(): Tape { (n: nat) => Turn(if n == 1 then Before else Fine, JOB) }

  lemma RefusedStands(c: Config, w: World, st: State, m: Msg)
    requires Stands(w, st, [m]) && m.server == SERVER && st == GuardState(c, m) && AfterGuard(m).Act?
    ensures var w' := ApplyBurst(c, w, Handle(0, Refused(), false));
            && Stands(w', st, []) && w'.failed == w.failed + [m]
            && w'.calls == w.calls + [CallRecord(SERVER, AfterGuard(m).call, false, Before, |w.db.history|)]
  {
    hide Fly;
    var w1 := Apply(c, w, Deliver(0));
    BurstFlies(c, w, Handle(0, Refused(), false));
    var s0 := Snap(w1.db, w1.published, w1.calls, 0);
    ReadStep(c, s0, m, Refused());
    ActStep(c, s0.(clock := 1), m, AfterGuard(m).call, Refused());
    var r := CallRecord(SERVER, AfterGuard(m).call, false, Before, |w.db.history|);
    AtRest(c, Snap(w1.db, w1.published, w1.calls + [r], 2), Consumer(m, NACK), Refused());
    assert w1.published[|w1.published|..] == [];
    assert w1.tasks[|w.tasks|] == Consumer(m, Start);
  }

  /** The rollback has read CUTOVER_LAUNCH_TEMPLATE_CONFIGURED, and is about to mark the server FAILED. */
  function Decided(): Task {
    Rollbacker(MsgFor(ConfigureCutoverLaunch),
               Move(Failed, RolledBack(ConfigureCutoverLaunch, CutoverTemplateConfigured), ACK))
  }

  lemma RollbackDecides(c: Config, w: World)
    requires Stands(w, CutoverTemplateConfigured, [])
    requires w.failed != [] && w.failed[|w.failed| - 1] == MsgFor(ConfigureCutoverLaunch)
    ensures var w1 := Apply(c, w, Collect(|w.failed| - 1));
            var w2 := Apply(c, w1, Run(|w.tasks|, Turn(Fine, JOB)));
            && Stands(w2, CutoverTemplateConfigured, []) && w2.failed == w.failed[..|w.failed| - 1]
            && |w2.tasks| == |w.tasks| + 1 && w2.tasks[|w.tasks|] == Decided()
  {
    var w1 := Apply(c, w, Collect(|w.failed| - 1));
    assert w1.tasks[|w.tasks|] == Rollbacker(MsgFor(ConfigureCutoverLaunch), Start);
    assert w1.ready + [] == [];
  }

  lemma RollbackWrites(c: Config, w: World, i: nat)
    requires SERVER in w.db.rows && w.db.rows[SERVER].current == CutoverStarted
    requires i < |w.tasks| && w.tasks[i] == Decided()
    ensures Apply(c, w, Run(i, Turn(Fine, JOB))).db == Write(w.db, Entry(SERVER, CutoverStarted, Failed, "system",
              RolledBack(ConfigureCutoverLaunch, CutoverTemplateConfigured)))
  {
    TableIsPipeline(CutoverStarted, Failed);
  }

  /** The same as Stands, with some messages dead-lettered, and some tasks, by index, interrupted where they are. */
  ghost predicate Poised(c: Config, events: seq<Machine.Event>, st: State, queue: seq<Msg>, held: map<nat, Task>,
                         failed: seq<Msg>) {
    var w := WorldAfter(c, events);
    Stands(w, st, queue) && w.failed == failed && forall i :: i in held ==> i < |w.tasks| && w.tasks[i] == held[i]
  }

  lemma PoisedServed(c: Config, events: seq<Machine.Event>, st: State, r: Request, held: map<nat, Task>,
                     failed: seq<Msg>)
    returns (events': seq<Machine.Event>)
    requires Poised(c, events, st, [], held, failed) && Fits(r, st) && (r.Configure? ==> !r.setup.CutoverInstanceSetup?)
    ensures Poised(c, events', Served(r, st, AWS_ID).0, [Served(r, st, AWS_ID).1], held, failed)
  {
    hide ApplyBurst, WorldAfter;
    var b := Serve(SERVER, r, Smooth(JOB));
    ServeStands(c, WorldAfter(c, events), st, r);
    BurstKeepsTasks(c, WorldAfter(c, events), b);
    events' := ThenBurst(c, events, b);
  }

  lemma PoisedHandled(c: Config, events: seq<Machine.Event>, st: State, m: Msg, a: Answer, st': State, out: seq<Msg>,
                      held: map<nat, Task>, failed: seq<Msg>)
    returns (events': seq<Machine.Event>)
    requires Poised(c, events, st, [m], held, failed) && Yields(c, st, m, a, st', out)
    ensures Poised(c, events', st', out, held, failed)
  {
    hide ApplyBurst, WorldAfter, Straight, EndsInAck, EndState, Outs, Rest;
    var b := Handle(0, Smooth(a), false);
    HandleStands(c, WorldAfter(c, events), st, m, a);
    BurstKeepsTasks(c, WorldAfter(c, events), b);
    events' := ThenBurst(c, events, b);
  }

  lemma RollbackPoised(c: Config) returns (events: seq<Machine.Event>, i: nat)
    requires c.phaseAware
    ensures Poised(c, events, CutoverTemplateConfigured, [], map[i := Decided()], [])
  {
    hide ApplyBurst, WorldAfter;
    var bs := Tested(c);
    var again := Serve(SERVER, Configure(CutoverLaunchSetup), Smooth(JOB));
    ServeStands(c, ExecBursts(c, INITIAL, bs), CutoverTemplateConfigured, Configure(CutoverLaunchSetup));
    Extends(c, bs, again);
    bs := bs + [again];
    RefusedStands(c, ExecBursts(c, INITIAL, bs), CutoverTemplateConfigured, MsgFor(ConfigureCutoverLaunch));
    Extends(c, bs, Handle(0, Refused(), false));
    bs := bs + [Handle(0, Refused(), false)];
    var w := ExecBursts(c, INITIAL, bs);
    RollbackDecides(c, w);
    i := |w.tasks|;
    events := CoarseRunsAreFine(c, bs);
    WorldIsExec(c, events);
    events := ThenEvent(c, events, Collect(|w.failed| - 1));
    events := ThenEvent(c, events, Run(i, Turn(Fine, JOB)));
  }

  lemma WorldIsExec(c: Config, events: seq<Machine.Event>)
    ensures WorldAfter(c, events) == Exec(c, INITIAL, events)
  {
  }

  /** Why a rollback must not be interrupted: between its read of the row and its write, an engineer configures the
      cutover again and approves it, and the server then goes to FAILED, from where it can be reset, although its
      cutover has started and nobody has rejected it. */
  lemma InterruptedRollback(c: Config) returns (events: seq<Machine.Event>)
    requires c.phaseAware
    ensures var db := WorldAfter(c, events).db;
            && SERVER in db.rows && db.rows[SERVER].current == Failed && db.history != []
            && var x := db.history[|db.history| - 1];
               x.server == SERVER && x.why.RolledBack? && x.from == CutoverStarted && x.to == Failed && !Undisturbed(x)
  {
    hide WorldAfter, Yields;
    var i := 0;
    events, i := RollbackPoised(c);
    var held := map[i := Decided()];
    events := PoisedServed(c, events, CutoverTemplateConfigured, Configure(CutoverLaunchSetup), held, []);
    ConfigureCutoverLaunchYields(c);
    events := PoisedHandled(c, events, CutoverTemplateConfigured, MsgFor(ConfigureCutoverLaunch), JOB,
                            AwaitingCutoverLaunchApproval, [], held, []);
    events := PoisedServed(c, events, AwaitingCutoverLaunchApproval, Approve(CutoverLaunchGate, "eve"), held, []);
    assert i in held;
    RollbackWrites(c, WorldAfter(c, events), i);
    events := ThenEvent(c, events, Run(i, Turn(Fine, JOB)));
  }

  // ---- a rollback that leaves a test instance ----

  lemma RecoverTestFinalized(c: Config, w: World)
    requires SERVER in w.db.rows && w.db.rows[SERVER].current == TestFinalized && w.orphans == {}
    requires w.failed != [] && w.failed[|w.failed| - 1] == MsgFor(FinalizeTest)
    ensures var w' := ApplyBurst(c, w, Recover(|w.failed| - 1, Smooth(JOB), false));
            && w'.db == Write(w.db, Entry(SERVER, TestFinalized, Failed, "system",
                                           RolledBack(FinalizeTest, TestFinalized)))
            && w'.calls == w.calls
  {
    hide Fly, Write, ApplyBurst, Drive, Effect, RunTask, NextStates;
    var m, tape := MsgFor(FinalizeTest), Smooth(JOB);
    var w1 := Apply(c, w, Collect(|w.failed| - 1));
    assert w1.tasks[|w.tasks|] == Rollbacker(m, Start);
    BurstFlies(c, w, Recover(|w.failed| - 1, tape, false));
    RollbackReadStep(c, Snap(w1.db, w1.published, w1.calls, 0), m, tape);
    FinalStep(c, Snap(w1.db, w1.published, w1.calls, 1), m, Failed, TestFinalized, tape);
    TableIsPipeline(TestFinalized, Failed);
  }

  /** The failure that a rollback does not clean up: the termination of the test instance is refused, and the rollback
      from TEST_FINALIZED, whose plan is empty, marks the server FAILED with the instance still running. */
  lemma TestInstanceLeftBehind(c: Config) returns (bs: seq<Burst>)
    requires c.phaseAware
    ensures var w := ExecBursts(c, INITIAL, bs);
            && SERVER in w.db.rows && w.db.rows[SERVER].current == Failed && TestLive(w.calls, SERVER)
            && w.db.history != [] && var x := w.db.history[|w.db.history| - 1];
               x.server == SERVER && x.why.RolledBack? && LeavesInstance(x)
  {
    hide ApplyBurst, ExecBursts;
    bs := TestAccepted(c);
    var w := ExecBursts(c, INITIAL, bs);
    RefusedStands(c, w, TestFinalized, MsgFor(FinalizeTest));
    LiveAppend(w.calls, CallRecord(SERVER, TerminateTargetInstances, false, Before, |w.db.history|), SERVER);
    Extends(c, bs, Handle(0, Refused(), false));
    bs := bs + [Handle(0, Refused(), false)];
    w := ExecBursts(c, INITIAL, bs);
    RecoverTestFinalized(c, w);
    Extends(c, bs, Recover(|w.failed| - 1, Smooth(JOB), false));
    bs := bs + [Recover(|w.failed| - 1, Smooth(JOB), false)];
  }

  // ---- a worker that dies between its AWS call and its state change ----

  function FirstCall(h: nat): CallRecord { CallRecord(SERVER, StartCutoverCall, false, Fine, h) }

  /** A step that neither writes, publishes nor settles. */
  lemma QuietStep(c: Config, w: World, i: nat, turn: Turn)
    requires i < |w.tasks| && w.tasks[i].Consumer? && !w.tasks[i].prog.Settle?
    requires Effect(c, w.db, w.tasks[i], turn).db == w.db && Effect(c, w.db, w.tasks[i], turn).out == []
    ensures var d := Effect(c, w.db, w.tasks[i], turn);
            var w' := Apply(c, w, Run(i, turn));
            && w'.db == w.db && w'.ready == w.ready && w'.failed == w.failed && w'.calls == w.calls + d.calls
            && w'.orphans == w.orphans && w'.tasks == w.tasks[i := WithProg(w.tasks[i], d.prog)]
  {
    hide Effect;
    assert w.ready + [] == w.ready;
  }

  lemma StartCutoverSteps(c: Config, db: Db)
    requires SERVER in db.rows && db.rows[SERVER].current == CutoverStarted
    ensures var m := MsgFor(StartCutover);
            && Effect(c, db, Consumer(m, Start), Turn(Fine, JOB)) == Delta(db, Ask, [], [])
            && Effect(c, db, Consumer(m, Ask), Turn(Fine, Seen("READY_FOR_CUTOVER"))) ==
                 Delta(db, Act(StartCutoverCall), [], [])
            && Effect(c, db, Consumer(m, Act(StartCutoverCall)), Turn(Fine, JOB)) ==
                 Delta(db, AfterAct(m, JOB), [], [FirstCall(|db.history|)])
  {
  }

  /** Delivery, stale check, lifecycle query, and the call itself. */
  lemma CallMade(c: Config, w: World)
    requires Stands(w, CutoverStarted, [MsgFor(StartCutover)])
    ensures var i := |w.tasks|;
            var w1 := Apply(c, w, Deliver(0));
            var w2 := Apply(c, w1, Run(i, Turn(Fine, JOB)));
            var w3 := Apply(c, w2, Run(i, Turn(Fine, Seen("READY_FOR_CUTOVER"))));
            var w4 := Apply(c, w3, Run(i, Turn(Fine, JOB)));
            && w4.db == w.db && w4.ready == [] && w4.calls == w.calls + [FirstCall(|w.db.history|)] && w4.orphans == {}
            && |w4.tasks| == i + 1 && w4.tasks[i] == Consumer(MsgFor(StartCutover), AfterAct(MsgFor(StartCutover), JOB))
  {
    hide Effect, AfterAct;
    var w1 := Apply(c, w, Deliver(0));
    var i := |w.tasks|;
    assert w1.tasks[i] == Consumer(MsgFor(StartCutover), Start) && w1.ready == [];
    StartCutoverSteps(c, w.db);
    QuietStep(c, w1, i, Turn(Fine, JOB));
    var w2 := Apply(c, w1, Run(i, Turn(Fine, JOB)));
    QuietStep(c, w2, i, Turn(Fine, Seen("READY_FOR_CUTOVER")));
    var w3 := Apply(c, w2, Run(i, Turn(Fine, Seen("READY_FOR_CUTOVER"))));
    QuietStep(c, w3, i, Turn(Fine, JOB));
    assert w.calls + [] + [] == w.calls;
  }

  lemma ThenCalled(c: Config, events: seq<Machine.Event>) returns (events': seq<Machine.Event>)
    requires Stands(WorldAfter(c, events), CutoverStarted, [MsgFor(StartCutover)])
    ensures var w, w' := WorldAfter(c, events), WorldAfter(c, events');
            && w'.db == w.db && w'.ready == [] && w'.calls == w.calls + [FirstCall(|w.db.history|)] && w'.orphans == {}
            && |w'.tasks| == |w.tasks| + 1
            && w'.tasks[|w.tasks|] == Consumer(MsgFor(StartCutover), AfterAct(MsgFor(StartCutover), JOB))
  {
    hide WorldAfter, Apply;
    var i := |WorldAfter(c, events).tasks|;
    CallMade(c, WorldAfter(c, events));
    events' := ThenEvent(c, events, Deliver(0));
    events' := ThenEvent(c, events', Run(i, Turn(Fine, JOB)));
    events' := ThenEvent(c, events', Run(i, Turn(Fine, Seen("READY_FOR_CUTOVER"))));
    events' := ThenEvent(c, events', Run(i, Turn(Fine, JOB)));
  }

  lemma ThenCrashed(c: Config, events: seq<Machine.Event>, i: nat) returns (events': seq<Machine.Event>)
    requires var w := WorldAfter(c, events);
             && i < |w.tasks| && w.ready == [] && w.orphans == {}
             && w.tasks[i] == Consumer(MsgFor(StartCutover), AfterAct(MsgFor(StartCutover), JOB))
    ensures var w, w' := WorldAfter(c, events), WorldAfter(c, events');
            w'.db == w.db && w'.calls == w.calls && w'.ready == [MsgFor(StartCutover)] && w'.orphans == {}
  {
    events' := ThenEvent(c, events, Crash(i));
  }

  /** Why one-time calls need coarse runs: a worker that dies after start_cutover has succeeded and before the state
      has changed leaves its message to be delivered again in the same state, and the call is repeated. */
  lemma CrashRepeatsCall(c: Config) returns (events: seq<Machine.Event>, k: nat, l: nat)
    requires c.phaseAware
    ensures var w := WorldAfter(c, events);
            && k < l < |w.calls| && Landmark(w.calls[k]) && Landmark(w.calls[l])
            && w.calls[k].server == w.calls[l].server && w.calls[k].call == w.calls[l].call
            && w.calls[k].seen == w.calls[l].seen <= |w.db.history|
            && EpochOfCall(w.db.history, w.calls[k]) == EpochOfCall(w.db.history, w.calls[l])
  {
    hide WorldAfter;
    var bs := CutoverApproved(c);
    events := CoarseRunsAreFine(c, bs);
    WorldIsExec(c, events);
    var w := WorldAfter(c, events);
    events := ThenCalled(c, events);
    events := ThenCrashed(c, events, |w.tasks|);
    events := ThenCalled(c, events);
    k, l := |w.calls|, |w.calls| + 1;
  }

  // ---- a message whose settlement never reaches the broker ----

  /** The broker forgets the settlement: the message of the burst goes back to its queue. */
  lemma BurstLost(c: Config, w: World, m: Msg, tape: Tape)
    requires w.ready == [m] && w.orphans == {}
    requires Fly(c, Snap(w.db, w.published, w.calls, 0), Consumer(m, Start), tape).1.Settle?
    ensures var (s, p) := Fly(c, Snap(w.db, w.published, w.calls, 0), Consumer(m, Start), tape);
            var w' := ApplyBurst(c, w, Handle(0, tape, true));
            && w.published <= s.published && w'.orphans == {}
            && w'.db == s.db && w'.calls == s.calls && w'.ready == s.published[|w.published|..] + [m]
  {
    hide Fly, Drive;
    var w1 := Apply(c, w, Deliver(0));
    assert w1.tasks[|w.tasks|] == Consumer(m, Start) && w1.ready == [];
    FlyIsDrive(c, w1, |w.tasks|, tape, 0);
  }

  /** AWS answers start_cutover with luck l; the state change after it fails for want of a connection. */
  function Faulty(l: Luck): Tape {
    (n: nat) =>
      if n == 1 then Turn(Fine, Seen("READY_FOR_CUTOVER"))
      else Turn(if n == 2 then l else if n == 3 then Before else Fine, JOB)
  }

  /** Either the call raises although it takes effect, or the database is down when the state should change: in both
      cases the state stays, and so does the message. */
  lemma FaultyStands(c: Config, w: World, l: Luck)
    requires Stands(w, CutoverStarted, [MsgFor(StartCutover)]) && (l.After? || (l.Fine? && !c.dbUp))
    ensures var w' := ApplyBurst(c, w, Handle(0, Faulty(l), true));
            && Stands(w', CutoverStarted, [MsgFor(StartCutover)]) && w'.db == w.db
            && w'.calls == w.calls + [CallRecord(SERVER, StartCutoverCall, false, l, |w.db.history|)]
  {
    hide Fly, Advance;
    var m, tape := MsgFor(StartCutover), Faulty(l);
    var s0 := Snap(w.db, w.published, w.calls, 0);
    ReadStep(c, s0, m, tape);
    AskStep(c, s0.(clock := 1), m, tape);
    ActStep(c, s0.(clock := 2), m, StartCutoverCall, tape);
    var s3 := s0.(calls := w.calls + [CallRecord(SERVER, StartCutoverCall, false, l, |w.db.history|)], clock := 3);
    if l.Fine? {
      var p := AfterAct(m, JOB);
      MoveStep(c, s3, m, CutoverSyncInProgress, p.next, tape);
      AtRest(c, s3.(clock := 4), Consumer(m, NACK), tape);
    } else {
      AtRest(c, s3, Consumer(m, NACK), tape);
    }
    BurstLost(c, w, m, tape);
    assert w.published[|w.published|..] == [];
  }

  lemma FaultyTwice(c: Config, l: Luck) returns (bs: seq<Burst>, k: nat)
    requires c.phaseAware && (l.After? || (l.Fine? && !c.dbUp))
    ensures var w := ExecBursts(c, INITIAL, bs);
            var r := CallRecord(SERVER, StartCutoverCall, false, l, |w.db.history|);
            k + 1 < |w.calls| && w.calls[k] == r && w.calls[k + 1] == r
  {
    hide ApplyBurst, ExecBursts;
    bs := CutoverApproved(c);
    var w := ExecBursts(c, INITIAL, bs);
    k := |w.calls|;
    FaultyStands(c, w, l);
    Extends(c, bs, Handle(0, Faulty(l), true));
    bs := bs + [Handle(0, Faulty(l), true)];
    FaultyStands(c, ExecBursts(c, INITIAL, bs), l);
    Extends(c, bs, Handle(0, Faulty(l), true));
    bs := bs + [Handle(0, Faulty(l), true)];
  }

  /** Why one-time calls need the database: in a coarse run with an outage, start_cutover returns successfully twice
      in one epoch, because the state change after it fails and the settlement is lost. */
  lemma OutageRepeatsCall(c: Config) returns (bs: seq<Burst>, k: nat)
    requires c.phaseAware && !c.dbUp
    ensures var w := ExecBursts(c, INITIAL, bs);
            && k + 1 < |w.calls| && Landmark(w.calls[k]) && w.calls[k] == w.calls[k + 1]
            && w.calls[k].call == StartCutoverCall && w.calls[k].seen == |w.db.history|
  {
    bs, k := FaultyTwice(c, Fine);
  }

  /** Why only calls that return count: in a coarse run, with or without the database, start_cutover takes effect
      twice in one epoch when it raises each time nevertheless. */
  lemma RaisingCallRepeats(c: Config) returns (bs: seq<Burst>, k: nat)
    requires c.phaseAware
    ensures var w := ExecBursts(c, INITIAL, bs);
            && k + 1 < |w.calls| && w.calls[k].luck.After? && w.calls[k] == w.calls[k + 1]
            && w.calls[k].call == StartCutoverCall && w.calls[k].seen == |w.db.history|
  {
    bs, k := FaultyTwice(c, After);
  }
}
