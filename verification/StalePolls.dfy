/** What a reset and an interrupted handler can do together: with the shipped poll table, a second-phase poll from
    before a reset takes its server to a validation gate. */
module StalePolls {
  import opened Wrappers
  import opened Pipeline
  import opened Store
  import opened Handlers
  import opened Machine
  import opened Guarantees
  import opened Coarse
  import opened Services
  import opened Runs
  import opened Races

  // ---- the pipeline up to the launch of the test instance ----

  lemma PoisedOnboarded(c: Config, events: seq<Machine.Event>, held: map<nat, Task>, failed: seq<Msg>)
    returns (events': seq<Machine.Event>)
    requires Poised(c, events, Pending, [], held, failed)
    ensures Poised(c, events', AgentInstalled, [], held, failed)
  {
    hide Poised, Yields;
    events' := PoisedServed(c, events, Pending, Begin("s-1"), held, failed);
    AddServerYields(c);
    events' := PoisedHandled(c, events', Pending, MsgFor(AddServer), Seen(""), AgentInstalled, [], held, failed);
  }

  lemma PoisedReplicating(c: Config, events: seq<Machine.Event>, held: map<nat, Task>, failed: seq<Msg>)
    returns (events': seq<Machine.Event>)
    requires Poised(c, events, AgentInstalled, [], held, failed)
    ensures Poised(c, events', ReadyForTesting, [], held, failed)
  {
    hide Poised, Yields;
    events' := PoisedServed(c, events, AgentInstalled, Configure(ReplicationSetup), held, failed);
    ConfigureReplicationYields(c);
    events' := PoisedHandled(c, events', AgentInstalled, MsgFor(ConfigureReplication), JOB,
                             AwaitingReplicationApproval, [], held, failed);
    events' := PoisedServed(c, events', AwaitingReplicationApproval, Approve(ReplicationGate, "eve"), held, failed);
    StartReplicationYields(c);
    events' := PoisedHandled(c, events', ReplicationStarted, MsgFor(StartReplication), JOB, ReplicationStarted,
                             [MsgFor(PollReplication)], held, failed);
    PollReplicationYields(c);
    events' := PoisedHandled(c, events', ReplicationStarted, MsgFor(PollReplication), Seen("READY_FOR_TEST"),
                             ReadyForTesting, [], held, failed);
  }

  lemma PoisedLaunching(c: Config, events: seq<Machine.Event>, held: map<nat, Task>, failed: seq<Msg>)
    returns (events': seq<Machine.Event>)
    requires Poised(c, events, ReadyForTesting, [], held, failed)
    ensures Poised(c, events', TestInstanceLaunching, [LaunchPoll(PollTestInstance)], held, failed)
  {
    hide Poised, Yields;
    events' := PoisedServed(c, events, ReadyForTesting, Configure(TestLaunchSetup), held, failed);
    ConfigureTestLaunchYields(c);
    events' := PoisedHandled(c, events', ReadyForTesting, MsgFor(ConfigureTestLaunch), JOB,
                             AwaitingTestLaunchApproval, [], held, failed);
    events' := PoisedServed(c, events', AwaitingTestLaunchApproval, Approve(TestLaunchGate, "eve"), held, failed);
    LaunchTestYields(c);
    events' := PoisedHandled(c, events', TestInstanceLaunching, MsgFor(LaunchTest), Seen("READY_FOR_TEST"),
                             TestInstanceLaunching, [LaunchPoll(PollTestInstance)], held, failed);
  }

  lemma PoisedRunning(c: Config, events: seq<Machine.Event>, held: map<nat, Task>, failed: seq<Msg>)
    returns (events': seq<Machine.Event>)
    requires Poised(c, events, TestInstanceLaunching, [LaunchPoll(PollTestInstance)], held, failed)
    ensures Poised(c, events', TestInstanceRunning, [CheckPoll(PollTestInstance)], held, failed)
  {
    hide Poised, Yields;
    PollTestLaunchYields(c);
    events' := PoisedHandled(c, events, TestInstanceLaunching, LaunchPoll(PollTestInstance), COMPLETED,
                             TestInstanceRunning, [CheckPoll(PollTestInstance)], held, failed);
  }

  // ---- a failure, its rollback, and the reset ----

  lemma Enrolled(c: Config) returns (events: seq<Machine.Event>)
    ensures Poised(c, events, Pending, [], map[], [])
  {
    events := ThenEvent(c, [], Enroll(SERVER, "web-1.example", None, None, Fine));
  }

  /** A message that AWS refuses ends up dead-lettered. */
  lemma PoisedRefused(c: Config, events: seq<Machine.Event>) returns (events': seq<Machine.Event>)
    requires Poised(c, events, AgentInstalled, [], map[], [])
    ensures Poised(c, events', AgentInstalled, [], map[], [MsgFor(ConfigureReplication)])
  {
    hide ApplyBurst, WorldAfter;
    events' := PoisedServed(c, events, AgentInstalled, Configure(ReplicationSetup), map[], []);
    RefusedStands(c, WorldAfter(c, events'), AgentInstalled, MsgFor(ConfigureReplication));
    events' := ThenBurst(c, events', Handle(0, Refused(), false));
  }

  lemma RecoverRunning(c: Config, w: World)
    requires Stands(w, TestInstanceRunning, []) && w.failed == [MsgFor(ConfigureReplication)]
    ensures var w' := ApplyBurst(c, w, Recover(0, Smooth(JOB), false)); Stands(w', Failed, []) && w'.failed == []
  {
    hide Fly, ApplyBurst, Drive, Effect, RunTask, NextStates, Allowed;
    var m, tape := MsgFor(ConfigureReplication), Smooth(JOB);
    var w1 := Apply(c, w, Collect(0));
    assert w1.tasks[|w.tasks|] == Rollbacker(m, Start) && w1.failed == [];
    BurstFlies(c, w, Recover(0, tape, false));
    var plan := [TerminateTargetInstances];
    RollbackReadStep(c, Snap(w1.db, w1.published, w1.calls, 0), m, tape);
    UndoStep(c, Snap(w1.db, w1.published, w1.calls, 1), m, plan, Failed, TestInstanceRunning, tape);
    assert plan[1..] == [];
    var r := CallRecord(SERVER, TerminateTargetInstances, true, Fine, |w1.db.history|);
    FinalStep(c, Snap(w1.db, w1.published, w1.calls + [r], 2), m, Failed, TestInstanceRunning, tape);
    TableIsPipeline(TestInstanceRunning, Failed);
  }

  lemma PoisedRecovered(c: Config, events: seq<Machine.Event>, held: map<nat, Task>)
    returns (events': seq<Machine.Event>)
    requires Poised(c, events, TestInstanceRunning, [], held, [MsgFor(ConfigureReplication)])
    ensures Poised(c, events', Failed, [], held, [])
  {
    hide ApplyBurst, WorldAfter;
    var b := Recover(0, Smooth(JOB), false);
    RecoverRunning(c, WorldAfter(c, events));
    BurstKeepsTasks(c, WorldAfter(c, events), b);
    events' := ThenBurst(c, events, b);
  }

  lemma RetryStands(c: Config, w: World)
    requires Stands(w, Failed, [])
    ensures var w' := ApplyBurst(c, w, Serve(SERVER, Retry("eve"), Smooth(JOB)));
            Stands(w', Pending, []) && w'.failed == w.failed
  {
    hide Fly;
    var w1 := Apply(c, w, Submit(SERVER, Retry("eve")));
    BurstFlies(c, w, Serve(SERVER, Retry("eve"), Smooth(JOB)));
    Single.ResetStep(c, Snap(w1.db, w1.published, w1.calls, 0), SERVER, "eve", Smooth(JOB));
    assert w1.published[|w1.published|..] == [];
  }

  lemma PoisedReset(c: Config, events: seq<Machine.Event>, held: map<nat, Task>) returns (events': seq<Machine.Event>)
    requires Poised(c, events, Failed, [], held, [])
    ensures Poised(c, events', Pending, [], held, [])
  {
    hide ApplyBurst, WorldAfter;
    var b := Serve(SERVER, Retry("eve"), Smooth(JOB));
    RetryStands(c, WorldAfter(c, events));
    BurstKeepsTasks(c, WorldAfter(c, events), b);
    events' := ThenBurst(c, events, b);
  }

  // ---- the second-phase poll, taken from its queue in the first epoch and handled in the second ----

  function Poll(p: Prog): Task { Consumer(CheckPoll(PollTestInstance), p) }

  function Pass(): Prog { Handlers.Step(CheckPoll(PollTestInstance), AwaitingTestValidation, ACK) }

  lemma PollDelivered(c: Config, events: seq<Machine.Event>, failed: seq<Msg>)
    returns (events': seq<Machine.Event>, i: nat)
    requires Poised(c, events, TestInstanceRunning, [CheckPoll(PollTestInstance)], map[], failed)
    ensures Poised(c, events', TestInstanceRunning, [], map[i := Poll(Start)], failed)
  {
    i := |WorldAfter(c, events).tasks|;
    events' := ThenEvent(c, events, Deliver(0));
  }

  lemma PollSteps(c: Config, db: Db)
    requires !c.phaseAware && SERVER in db.rows && db.rows[SERVER].current == TestInstanceLaunching
    ensures Effect(c, db, Poll(Start), Turn(Fine, JOB)) == Delta(db, Ask, [], [])
    ensures Effect(c, db, Poll(Ask), Turn(Fine, REACHABLE)) == Delta(db, Pass(), [], [])
  {
  }

  /** The stale check of the shipped table lets it through in the state the first phase starts from. */
  lemma PollLetThrough(c: Config, events: seq<Machine.Event>, i: nat, queue: seq<Msg>)
    returns (events': seq<Machine.Event>)
    requires !c.phaseAware && Poised(c, events, TestInstanceLaunching, queue, map[i := Poll(Start)], [])
    ensures Poised(c, events', TestInstanceLaunching, queue, map[i := Poll(Pass())], [])
  {
    hide WorldAfter, Effect, Apply, Pass;
    var w := WorldAfter(c, events);
    assert i in map[i := Poll(Start)];
    PollSteps(c, w.db);
    QuietStep(c, w, i, Turn(Fine, JOB));
    events' := ThenEvent(c, events, Run(i, Turn(Fine, JOB)));
    QuietStep(c, WorldAfter(c, events'), i, Turn(Fine, REACHABLE));
    events' := ThenEvent(c, events', Run(i, Turn(Fine, REACHABLE)));
  }

  lemma PollPasses(c: Config, w: World, i: nat)
    requires SERVER in w.db.rows && w.db.rows[SERVER].current == TestInstanceRunning
    requires i < |w.tasks| && w.tasks[i] == Poll(Pass())
    ensures Apply(c, w, Run(i, Turn(Fine, JOB))).db == Write(w.db, Entry(SERVER, TestInstanceRunning,
              AwaitingTestValidation, "system", ByJob(PollTestInstance)))
  {
    TableIsPipeline(TestInstanceRunning, AwaitingTestValidation);
  }

  lemma PollPassed(c: Config, events: seq<Machine.Event>, i: nat) returns (events': seq<Machine.Event>)
    requires Poised(c, events, TestInstanceRunning, [CheckPoll(PollTestInstance)], map[i := Poll(Pass())], [])
    ensures var db := WorldAfter(c, events').db;
            && SERVER in db.rows && db.rows[SERVER].current == AwaitingTestValidation
            && db.history != [] && db.history[|db.history| - 1].to == AwaitingTestValidation
  {
    hide WorldAfter;
    assert i in map[i := Poll(Pass())];
    PollPasses(c, WorldAfter(c, events), i);
    events' := ThenEvent(c, events, Run(i, Turn(Fine, JOB)));
  }

  /** Why a reset is needed for this, and a handler that is interrupted: with the shipped table, and the database up or
      not, a second-phase poll that was taken from its queue before a reset reads the server in the second epoch, is let
      through, and takes it to the validation gate that no server reaches otherwise. */
  lemma StalePollPassesGate(c: Config) returns (events: seq<Machine.Event>)
    requires !c.phaseAware
    ensures var db := WorldAfter(c, events).db;
            && SERVER in db.rows && db.rows[SERVER].current == AwaitingTestValidation
            && db.history != [] && db.history[|db.history| - 1].to == AwaitingTestValidation
  {
    hide Poised, WorldAfter;
    events := Enrolled(c);
    events := PoisedOnboarded(c, events, map[], []);
    events := PoisedRefused(c, events);
    var failed := [MsgFor(ConfigureReplication)];
    events := PoisedReplicating(c, events, map[], failed);
    events := PoisedLaunching(c, events, map[], failed);
    events := PoisedRunning(c, events, map[], failed);
    var i := 0;
    events, i := PollDelivered(c, events, failed);
    var held := map[i := Poll(Start)];
    events := PoisedRecovered(c, events, held);
    events := PoisedReset(c, events, held);
    events := PoisedOnboarded(c, events, held, []);
    events := PoisedReplicating(c, events, held, []);
    events := PoisedLaunching(c, events, held, []);
    events := PollLetThrough(c, events, i, [LaunchPoll(PollTestInstance)]);
    events := PoisedRunning(c, events, map[i := Poll(Pass())], []);
    events := PollPassed(c, events, i);
  }
}
