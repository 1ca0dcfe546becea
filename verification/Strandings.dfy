/** Concrete runs in which an accident strands a server: nothing is left in any queue, no handler is under way, and the
    server is in a state that only the system itself takes it out of. */
module Strandings {
  import opened Pipeline
  import opened Store
  import opened Handlers
  import opened Machine
  import opened Draining
  import opened Guarantees
  import opened Coarse
  import opened Runs
  import opened Races
  import opened Shapes

  ghost predicate Stranded(w: World) {
    Idle(w) && SERVER in w.db.rows && Working(w.db.rows[SERVER].current)
  }

  // ---- a coarse run leaves no task unfinished ----

  ghost predicate AllDone(w: World) { forall i :: 0 <= i < |w.tasks| ==> IsDone(w.tasks[i].prog) }

  lemma DriveKeepsOthers(c: Config, w: World, i: nat, tape: Tape, n: nat)
    requires i < |w.tasks|
    ensures var w' := Drive(c, w, i, tape, n);
            forall j :: 0 <= j < |w.tasks| && j != i ==> w'.tasks[j] == w.tasks[j]
    decreases Span(w.tasks[i].prog)
  {
    hide Effect;
    if !Resting(w.tasks[i].prog) {
      StepShortens(c, w.db, w.tasks[i], tape(n));
      DriveKeepsOthers(c, RunTask(c, w, i, tape(n)), i, tape, n + 1);
    }
  }

  lemma BurstDone(c: Config, w: World, b: Burst)
    requires AllDone(w)
    ensures AllDone(ApplyBurst(c, w, b))
  {
    hide Drive;
    var w1 := Apply(c, w, Opening(b));
    if !b.Admin? && |w1.tasks| != |w.tasks| { DriveKeepsOthers(c, w1, |w.tasks|, b.tape, 0); }
  }

  lemma {:induction false} CoarseRunsDone(c: Config, bs: seq<Burst>)
    ensures AllDone(ExecBursts(c, INITIAL, bs))
  {
    hide ApplyBurst;
    if bs != [] {
      CoarseRunsDone(c, bs[..|bs| - 1]);
      BurstDone(c, ExecBursts(c, INITIAL, bs[..|bs| - 1]), bs[|bs| - 1]);
    }
  }

  // ---- one task at work, and nothing else in the system ----

  ghost predicate OnlyTask(w: World, t: Task) {
    && w.ready == [] && w.failed == [] && w.orphans == {} && |w.tasks| > 0 && w.tasks[|w.tasks| - 1] == t
    && forall i :: 0 <= i < |w.tasks| - 1 ==> IsDone(w.tasks[i].prog)
  }

  /** The task takes a step that publishes nothing. */
  lemma ThenStep(c: Config, events: seq<Machine.Event>, t: Task, turn: Turn) returns (events': seq<Machine.Event>)
    requires OnlyTask(WorldAfter(c, events), t) && Nacked(t) == []
    requires Effect(c, WorldAfter(c, events).db, t, turn).out == []
    ensures var d := Effect(c, WorldAfter(c, events).db, t, turn);
            OnlyTask(WorldAfter(c, events'), WithProg(t, d.prog)) && WorldAfter(c, events').db == d.db
  {
    hide Effect, WorldAfter;
    var w := WorldAfter(c, events);
    events' := ThenEvent(c, events, Run(|w.tasks| - 1, turn));
  }

  lemma ThenDelivered(c: Config, events: seq<Machine.Event>, m: Msg) returns (events': seq<Machine.Event>)
    requires var w := WorldAfter(c, events); AllDone(w) && w.ready == [m] && w.failed == [] && w.orphans == {}
    ensures OnlyTask(WorldAfter(c, events'), Consumer(m, Start))
    ensures WorldAfter(c, events').db == WorldAfter(c, events).db
  {
    events' := ThenEvent(c, events, Deliver(0));
  }

  lemma ThenKilled(c: Config, events: seq<Machine.Event>, t: Task) returns (events': seq<Machine.Event>)
    requires OnlyTask(WorldAfter(c, events), t) && t.Consumer? && !IsDone(t.prog)
    ensures var w, w' := WorldAfter(c, events), WorldAfter(c, events');
            AllDone(w') && w'.ready == [t.msg] && w'.failed == [] && w'.orphans == {} && w'.db == w.db
  {
    events' := ThenEvent(c, events, Crash(|WorldAfter(c, events).tasks| - 1));
  }

  lemma ThenIdle(w: World, t: Task)
    requires OnlyTask(w, t) && IsDone(t.prog)
    ensures Idle(w)
  {
  }

  // ---- a worker that dies between two state changes ----

  lemma ConfigureSteps(c: Config, db: Db)
    requires SERVER in db.rows && db.rows[SERVER].current == AgentInstalled
    ensures var m := MsgFor(ConfigureReplication);
            var last := Handlers.Step(m, AwaitingReplicationApproval, ACK);
            var p := Handlers.Step(m, ReplicationConfigured, last);
            var d := Effect(c, db, Consumer(m, p), Turn(Fine, JOB));
            && Effect(c, db, Consumer(m, Start), Turn(Fine, JOB)) ==
                 Delta(db, Act(UpdateReplicationConfiguration), [], [])
            && Effect(c, db, Consumer(m, Act(UpdateReplicationConfiguration)), Turn(Fine, JOB)) ==
                 Delta(db, p, [], [CallRecord(SERVER, UpdateReplicationConfiguration, false, Fine, |db.history|)])
            && d.prog == last && d.out == [] && SERVER in d.db.rows
            && d.db.rows[SERVER].current == ReplicationConfigured
  {
    TableIsPipeline(AgentInstalled, ReplicationConfigured);
  }

  /** The worker gets as far as REPLICATION_CONFIGURED, and dies before it advances to the gate. */
  lemma HalfConfigured(c: Config, events: seq<Machine.Event>) returns (events': seq<Machine.Event>)
    requires OnlyTask(WorldAfter(c, events), Consumer(MsgFor(ConfigureReplication), Start))
    requires var db := WorldAfter(c, events).db; SERVER in db.rows && db.rows[SERVER].current == AgentInstalled
    ensures var w := WorldAfter(c, events');
            && AllDone(w) && w.ready == [MsgFor(ConfigureReplication)] && w.failed == [] && w.orphans == {}
            && SERVER in w.db.rows && w.db.rows[SERVER].current == ReplicationConfigured
  {
    hide WorldAfter, Effect;
    var m := MsgFor(ConfigureReplication);
    var last := Handlers.Step(m, AwaitingReplicationApproval, ACK);
    ConfigureSteps(c, WorldAfter(c, events).db);
    events' := ThenStep(c, events, Consumer(m, Start), Turn(Fine, JOB));
    events' := ThenStep(c, events', Consumer(m, Act(UpdateReplicationConfiguration)), Turn(Fine, JOB));
    events' := ThenStep(c, events', Consumer(m, Handlers.Step(m, ReplicationConfigured, last)), Turn(Fine, JOB));
    events' := ThenKilled(c, events', Consumer(m, last));
  }

  /** Redelivered, the message is stale: it is acknowledged and gone. */
  lemma StaleAcknowledged(c: Config, events: seq<Machine.Event>) returns (events': seq<Machine.Event>)
    requires OnlyTask(WorldAfter(c, events), Consumer(MsgFor(ConfigureReplication), Start))
    requires var db := WorldAfter(c, events).db; SERVER in db.rows && db.rows[SERVER].current == ReplicationConfigured
    ensures OnlyTask(WorldAfter(c, events'), Consumer(MsgFor(ConfigureReplication), Finished))
    ensures WorldAfter(c, events').db == WorldAfter(c, events).db
  {
    hide WorldAfter;
    var m := MsgFor(ConfigureReplication);
    events' := ThenStep(c, events, Consumer(m, Start), Turn(Fine, JOB));
    events' := ThenStep(c, events', Consumer(m, ACK), Turn(Fine, JOB));
  }

  /** Why no worker may die half-way: one that dies between its two state changes leaves its server in
      REPLICATION_CONFIGURED for good, with nothing in any queue and nobody at work. */
  lemma CrashStrandsServer(c: Config) returns (events: seq<Machine.Event>)
    ensures Stranded(WorldAfter(c, events))
  {
    hide WorldAfter;
    var m := MsgFor(ConfigureReplication);
    var bs := Onboarded(c);
    bs := ServeNext(c, bs, AgentInstalled, Configure(ReplicationSetup));
    CoarseRunsDone(c, bs);
    events := CoarseRunsAreFine(c, bs);
    WorldIsExec(c, events);
    events := ThenDelivered(c, events, m);
    events := HalfConfigured(c, events);
    events := ThenDelivered(c, events, m);
    events := StaleAcknowledged(c, events);
    ThenIdle(WorldAfter(c, events), Consumer(m, Finished));
  }

  // ---- an approval whose job is lost ----

  lemma ApprovalSteps(c: Config, db: Db)
    requires SERVER in db.rows && db.rows[SERVER].current == AwaitingReplicationApproval
    ensures var r := Approve(ReplicationGate, "eve");
            var p := AfterRequire(SERVER, r, db.rows[SERVER]);
            var d := Effect(c, db, Api(SERVER, r, p), Turn(Fine, JOB));
            && Effect(c, db, Api(SERVER, r, Start), Turn(Fine, JOB)) == Delta(db, p, [], [])
            && p.Move? && p.next.Publish? && d.prog == p.next && d.out == [] && SERVER in d.db.rows
            && d.db.rows[SERVER].current == ReplicationStarted
            && Effect(c, d.db, Api(SERVER, r, p.next), Turn(Before, JOB)) == Delta(d.db, Finished, [], [])
  {
    TableIsPipeline(AwaitingReplicationApproval, ReplicationStarted);
  }

  lemma ThenLost(c: Config, events: seq<Machine.Event>) returns (events': seq<Machine.Event>)
    requires OnlyTask(WorldAfter(c, events), Api(SERVER, Approve(ReplicationGate, "eve"), Start))
    requires var db := WorldAfter(c, events).db;
             SERVER in db.rows && db.rows[SERVER].current == AwaitingReplicationApproval
    ensures OnlyTask(WorldAfter(c, events'), Api(SERVER, Approve(ReplicationGate, "eve"), Finished))
    ensures var db := WorldAfter(c, events').db;
            SERVER in db.rows && db.rows[SERVER].current == ReplicationStarted
  {
    hide WorldAfter, Effect;
    var r, db := Approve(ReplicationGate, "eve"), WorldAfter(c, events).db;
    ApprovalSteps(c, db);
    var p := AfterRequire(SERVER, r, db.rows[SERVER]);
    events' := ThenStep(c, events, Api(SERVER, r, Start), Turn(Fine, JOB));
    events' := ThenStep(c, events', Api(SERVER, r, p), Turn(Fine, JOB));
    events' := ThenStep(c, events', Api(SERVER, r, p.next), Turn(Before, JOB));
  }

  lemma ThenSubmitted(c: Config, events: seq<Machine.Event>, r: Request) returns (events': seq<Machine.Event>)
    requires var w := WorldAfter(c, events); AllDone(w) && w.ready == [] && w.failed == [] && w.orphans == {}
    requires !r.Configure?
    ensures OnlyTask(WorldAfter(c, events'), Api(SERVER, r, Start))
    ensures WorldAfter(c, events').db == WorldAfter(c, events).db
  {
    events' := ThenEvent(c, events, Submit(SERVER, r));
  }

  lemma ApprovalAwaited(c: Config) returns (events: seq<Machine.Event>)
    ensures var w := WorldAfter(c, events);
            && AllDone(w) && w.ready == [] && w.failed == [] && w.orphans == {}
            && SERVER in w.db.rows && w.db.rows[SERVER].current == AwaitingReplicationApproval
  {
    hide WorldAfter, ExecBursts, Yields, TestUp;
    var bs := Onboarded(c);
    bs := ServeNext(c, bs, AgentInstalled, Configure(ReplicationSetup));
    ConfigureReplicationYields(c);
    bs := HandleNext(c, bs, AgentInstalled, MsgFor(ConfigureReplication), JOB, AwaitingReplicationApproval, []);
    CoarseRunsDone(c, bs);
    events := CoarseRunsAreFine(c, bs);
    WorldIsExec(c, events);
  }

  /** Why an approval's publication must go through: lost after the approval is committed, it leaves the server in
      REPLICATION_STARTED for good; the same request is refused from then on. */
  lemma LostDispatchStrandsServer(c: Config) returns (events: seq<Machine.Event>)
    ensures Stranded(WorldAfter(c, events))
  {
    hide WorldAfter, Effect;
    var r := Approve(ReplicationGate, "eve");
    events := ApprovalAwaited(c);
    events := ThenSubmitted(c, events, r);
    events := ThenLost(c, events);
    ThenIdle(WorldAfter(c, events), Api(SERVER, r, Finished));
  }
}
