/** With no new requests the queues run empty: a weight over everything queued or in progress falls at
    every step, whatever AWS, the broker and the database do, and only a redelivery can raise it. */
module Draining {
  import opened Wrappers
  import opened Pipeline
  import opened Store
  import opened Handlers
  import opened Machine
  import opened Safety
  import opened Steps
  import opened Guarantees
  import opened Conservation

  // ---- weights ----

  /** Handlings left to a poll message, counting this one. */
  function Left(attempt: nat): nat { if attempt >= MAX_POLL_ATTEMPTS then 1 else 31 - attempt }

  /** The heaviest message that handling m can publish. */
  function Follow(m: Msg): nat {
    match m.job
    case StartReplication => 420
    case LaunchTest => 840
    case StartCutover => 420
    case LaunchCutover => 840
    case FinalizeCutover => 434
    case DisconnectSource => 420
    case PollReplication => 14 * (Left(m.attempt) - 1)
    case PollTestInstance => 14 * (Left(m.attempt) - 1) + if SecondPhase(m) then 0 else 420
    case PollCutoverSync => 14 * (Left(m.attempt) - 1)
    case PollCutoverInstance => 14 * (Left(m.attempt) - 1) + if SecondPhase(m) then 0 else 420
    case PollDisconnect => 14 * (Left(m.attempt) - 1)
    case _ => 0
  }

  function Weight(m: Msg): nat { 14 + Follow(m) }

  const FAILED_WEIGHT: nat := 5
  const MAX_WEIGHT: nat := 868

  function RequestWeight(r: Request): nat {
    match r
    case Begin(_) => 14
    case Configure(setup) => Weight(Fresh(SetupJob(setup), "", None))
    case Approve(g, _) => Weight(Fresh(GateJob(g), "", None))
    case Reject(_, _) => 0
    case Retry(_) => 0
  }

  function Cost(t: Task, p: Prog): nat
    decreases p
  {
    match p
    case Start =>
      (match t
       case Consumer(m, _) => Follow(m) + 13
       case Rollbacker(_, _) => 4
       case Api(_, r, _) => RequestWeight(r) + 3)
    case Ask => if t.Consumer? then Follow(t.msg) + 12 else 7
    case Act(_) => if t.Consumer? then Follow(t.msg) + 11 else 7
    case Undo(plan, _, _) => 7 + |plan| - if t.Rollbacker? then 5 else 0
    case SaveAws(next) => (if t.Consumer? then 1 else 7) + Cost(t, next)
    case Move(_, _, next) => 1 + Cost(t, next)
    case Publish(m, next) => 1 + Weight(m) + Cost(t, next)
    case Settle(_) => if t.Rollbacker? then 1 else 6
    case Finished => 0
    case Crashed => 0
  }

  function QueueWeight(q: seq<Msg>): nat {
    if q == [] then 0 else QueueWeight(q[..|q| - 1]) + Weight(q[|q| - 1])
  }

  function TaskWeight(ts: seq<Task>): nat {
    if ts == [] then 0 else TaskWeight(ts[..|ts| - 1]) + Cost(ts[|ts| - 1], ts[|ts| - 1].prog)
  }

  function TotalWeight(w: World): nat {
    QueueWeight(w.ready) + FAILED_WEIGHT * |w.failed| + TaskWeight(w.tasks)
  }

  lemma WeightBounded(m: Msg)
    ensures Weight(m) <= MAX_WEIGHT
  {
  }

  lemma {:induction false} QueueConcat(p: seq<Msg>, q: seq<Msg>)
    ensures QueueWeight(p + q) == QueueWeight(p) + QueueWeight(q)
  {
    if q == [] {
      assert p + q == p;
    } else {
      QueueConcat(p, q[..|q| - 1]);
      assert (p + q)[..|p + q| - 1] == p + q[..|q| - 1];
    }
  }

  lemma QueueOne(m: Msg)
    ensures QueueWeight([m]) == Weight(m)
  {
    assert [m][..0] == [];
  }

  lemma {:induction false} QueueWithout(q: seq<Msg>, k: nat)
    requires k < |q|
    ensures QueueWeight(Without(q, k)) + Weight(q[k]) == QueueWeight(q)
  {
    var n := |q| - 1;
    if k < n {
      QueueWithout(q[..n], k);
      assert Without(q, k)[..n - 1] == Without(q[..n], k);
    } else {
      assert Without(q, k) == q[..n];
    }
  }

  lemma {:induction false} TaskUpdate(ts: seq<Task>, i: nat, t: Task)
    requires i < |ts|
    ensures TaskWeight(ts[i := t]) + Cost(ts[i], ts[i].prog) == TaskWeight(ts) + Cost(t, t.prog)
  {
    var n := |ts| - 1;
    if i < n {
      TaskUpdate(ts[..n], i, t);
      assert ts[i := t][..n] == ts[..n][i := t];
    } else {
      assert ts[i := t][..n] == ts[..n];
    }
  }

  lemma TaskAppend(ts: seq<Task>, t: Task)
    ensures TaskWeight(ts + [t]) == TaskWeight(ts) + Cost(t, t.prog)
  {
    assert (ts + [t])[..|ts|] == ts;
  }

  // ---- every step of a task lowers its cost by more than it publishes or dead-letters ----

  lemma {:induction false} CostPositive(t: Task, p: Prog)
    requires EndsInSettle(p) && !t.Api?
    ensures Cost(t, p) >= if t.Consumer? then 6 else 1
    decreases p
  {
    match p
    case SaveAws(next) => CostPositive(t, next);
    case Move(_, _, next) => CostPositive(t, next);
    case Publish(_, next) => CostPositive(t, next);
    case _ =>
  }

  lemma {:induction false} CostByIdentity(t: Task, q: Prog, p: Prog)
    ensures Cost(WithProg(t, q), p) == Cost(t, p)
    decreases p
  {
    match p
    case SaveAws(next) => CostByIdentity(t, q, next);
    case Move(_, _, next) => CostByIdentity(t, q, next);
    case Publish(_, next) => CostByIdentity(t, q, next);
    case _ =>
  }

  lemma AfterGuardCost(t: Task)
    requires t.Consumer?
    ensures Cost(t, AfterGuard(t.msg)) <= Follow(t.msg) + 12
  {
  }

  lemma InProgressCost(t: Task)
    requires t.Consumer? && IsPoll(t.msg.job)
    ensures Cost(t, InProgress(t.msg)) <= Follow(t.msg) + 7
  {
  }

  lemma PublishCost(t: Task, m: Msg)
    ensures t.Consumer? ==> Cost(t, Publish(m, ACK)) == Weight(m) + 7
    ensures Cost(t, Publish(m, Finished)) == Weight(m) + 1
  {
    assert t.Consumer? ==> Cost(t, ACK) == 6;
    assert Cost(t, Finished) == 0;
  }

  lemma SecondPollCost(t: Task, ec2: Option<string>)
    requires t.Consumer? && (t.msg.job.PollTestInstance? || t.msg.job.PollCutoverInstance?)
    requires !SecondPhase(t.msg) && Truthy(ec2)
    ensures Cost(t, SecondPoll(t.msg, ec2)) <= Follow(t.msg) + 8
  {
    PublishCost(t, Fresh(t.msg.job, t.msg.server, t.msg.aws).(ec2 := ec2));
  }

  lemma ReachabilityCost(t: Task, statuses: seq<InstanceStatus>, gate: State)
    requires t.Consumer? && IsPoll(t.msg.job)
    ensures Cost(t, Reachability(t.msg, statuses, gate)) <= Follow(t.msg) + 8
  {
    InProgressCost(t);
  }

  lemma AfterAskPollCost(t: Task, a: Answer)
    requires t.Consumer? && IsPoll(t.msg.job)
    ensures Cost(t, AfterAsk(t.msg, a)) <= Follow(t.msg) + 11
  {
    var m := t.msg;
    InProgressCost(t);
    if a.Statuses? {
      ReachabilityCost(t, a.statuses, AwaitingTestValidation);
      ReachabilityCost(t, a.statuses, AwaitingCutoverValidation);
    }
    if m.job.PollTestInstance? && !SecondPhase(m) && a.Jobs? && a.jobs != []
       && Truthy(LaunchedInstance(a.jobs[0], a.fallback, m.aws)) {
      SecondPollCost(t, LaunchedInstance(a.jobs[0], a.fallback, m.aws));
    }
    if m.job.PollCutoverInstance? && !SecondPhase(m) && a.Servers? && a.servers != [] && Truthy(a.servers[0].instance) {
      SecondPollCost(t, a.servers[0].instance);
    }
  }

  lemma AfterAskCost(t: Task, a: Answer)
    requires t.Consumer?
    ensures Cost(t, AfterAsk(t.msg, a)) <= Follow(t.msg) + 11
  {
    if IsPoll(t.msg.job) { AfterAskPollCost(t, a); return; }
    assert Cost(t, ACK) == 6 && Cost(t, NACK) == 6;
    var p := AfterAsk(t.msg, a);
    if p.Move? { PublishCost(t, p.next.msg); }
    if p.SaveAws? { assert p.next.next == ACK; }
  }

  lemma AfterActCost(t: Task, a: Answer)
    requires t.Consumer?
    ensures Cost(t, AfterAct(t.msg, a)) <= Follow(t.msg) + 10
  {
    var p := AfterAct(t.msg, a);
    if p.Publish? { PublishCost(t, p.msg); }
    if p.Move? && p.next.Publish? { PublishCost(t, p.next.msg); }
  }

  lemma RequestCost(t: Task, row: Row)
    requires t.Api?
    ensures Cost(t, AfterRequire(t.server, t.request, row)) < RequestWeight(t.request) + 3
  {
    var p := AfterRequire(t.server, t.request, row);
    if p.Publish? { PublishCost(t, p.msg); }
    if p.Move? && p.next.Publish? { PublishCost(t, p.next.msg); }
  }

  lemma RollbackCost(t: Task, row: Row)
    requires t.Rollbacker? && !IsTerminal(row.current)
    ensures var (plan, final) := RollbackPlan(row.current, row.aws);
            Cost(t, RunPlan(plan, final, row.current, t.msg)) < 4
  {
    RollbackGroups(row.current, row.aws);
    assert Cost(t, ACK) == 1;
  }

  lemma StartCost(c: Config, db: Db, t: Task, l: Luck)
    ensures Cost(t, StartEffect(c, db, t, l).prog) < Cost(t, Start)
  {
    if ServerOf(t) in db.rows {
      var row := db.rows[ServerOf(t)];
      if t.Consumer? { AfterGuardCost(t); }
      else if t.Api? { RequestCost(t, row); }
      else if !IsTerminal(row.current) { RollbackCost(t, row); }
    }
  }

  lemma UndoCost(c: Config, db: Db, t: Task, turn: Turn)
    requires t.prog.Undo?
    ensures Cost(t, Effect(c, db, t, turn).prog) < Cost(t, t.prog) && Effect(c, db, t, turn).out == []
  {
    if t.Rollbacker? { assert Cost(t, ACK) == 1; }
  }

  lemma ChainCost(c: Config, db: Db, t: Task, turn: Turn)
    requires WillSettle(t) && (t.prog.SaveAws? || t.prog.Move? || t.prog.Publish?)
    ensures var d := Effect(c, db, t, turn);
            Cost(t, d.prog) + QueueWeight(d.out) < Cost(t, t.prog)
  {
    if !t.Api? { CostPositive(t, t.prog.next); }
    if t.prog.Publish? { QueueOne(t.prog.msg); }
  }

  lemma StepCost(c: Config, db: Db, t: Task, turn: Turn)
    requires WillSettle(t) && !IsDone(t.prog)
    ensures var d := Effect(c, db, t, turn);
            Cost(t, d.prog) + QueueWeight(d.out) + FAILED_WEIGHT * |Nacked(t)| < Cost(t, t.prog)
  {
    match t.prog
    case Start => StartCost(c, db, t, DbLuck(c, turn.luck));
    case Ask => if t.Consumer? { AfterAskCost(t, turn.answer); }
    case Act(_) => if t.Consumer? { AfterActCost(t, turn.answer); }
    case Undo(_, _, _) => UndoCost(c, db, t, turn);
    case SaveAws(_) => ChainCost(c, db, t, turn);
    case Move(_, _, _) => ChainCost(c, db, t, turn);
    case Publish(_, _) => ChainCost(c, db, t, turn);
    case Settle(_) =>
  }

  // ---- events ----

  /** An event by which a worker, or an API call already accepted, gets on with its work. */
  predicate Progress(w: World, e: Event) {
    match e
    case Deliver(k) => k < |w.ready|
    case Collect(k) => k < |w.failed|
    case Run(i, _) => i < |w.tasks| && !IsDone(w.tasks[i].prog)
    case _ => false
  }

  lemma RunLightens(c: Config, w: World, i: nat, turn: Turn)
    requires Settling(w) && i < |w.tasks| && !IsDone(w.tasks[i].prog)
    ensures TotalWeight(RunTask(c, w, i, turn)) < TotalWeight(w)
  {
    hide Effect, Cost, Nacked;
    var t := w.tasks[i];
    var d := Effect(c, w.db, t, turn);
    StepCost(c, w.db, t, turn);
    CostByIdentity(t, d.prog, d.prog);
    TaskUpdate(w.tasks, i, WithProg(t, d.prog));
    QueueConcat(w.ready, d.out);
  }

  lemma ProgressLightens(c: Config, w: World, e: Event)
    requires Settling(w) && Progress(w, e)
    ensures TotalWeight(Apply(c, w, e)) < TotalWeight(w)
  {
    match e
    case Deliver(k) =>
      QueueWithout(w.ready, k);
      TaskAppend(w.tasks, Consumer(w.ready[k], Start));
    case Collect(k) => TaskAppend(w.tasks, Rollbacker(w.failed[k], Start));
    case Run(i, turn) => RunLightens(c, w, i, turn);
  }

  lemma RedeliveryBounded(w: World, i: nat, w': World)
    requires i < |w.tasks| && (w' == CrashTask(w, i) || w' == SeverTask(w, i))
    ensures TotalWeight(w') <= TotalWeight(w) + MAX_WEIGHT
  {
    var t := w.tasks[i];
    if !IsDone(t.prog) {
      assert w.tasks[i := t] == w.tasks;
      TaskUpdate(w.tasks, i, w'.tasks[i]);
      if t.Consumer? {
        WeightBounded(t.msg);
        QueueOne(t.msg);
        QueueConcat(w.ready, [t.msg]);
      }
    }
  }

  lemma {:induction false} WeightlessIsIdle(ts: seq<Task>)
    requires forall i :: 0 <= i < |ts| ==> WillSettle(ts[i])
    requires TaskWeight(ts) == 0
    ensures forall i :: 0 <= i < |ts| ==> IsDone(ts[i].prog)
  {
    if ts != [] {
      var t := ts[|ts| - 1];
      assert forall i :: 0 <= i < |ts| - 1 ==> ts[..|ts| - 1][i] == ts[i];
      WeightlessIsIdle(ts[..|ts| - 1]);
      forall i | 0 <= i < |ts| ensures IsDone(ts[i].prog) {
        if i < |ts| - 1 { assert ts[..|ts| - 1][i] == ts[i]; }
      }
    }
  }

  ghost predicate Idle(w: World) {
    w.ready == [] && w.failed == [] && forall i :: 0 <= i < |w.tasks| ==> IsDone(w.tasks[i].prog)
  }

  /** The machine can only stop when nothing is queued and nothing is in progress. */
  lemma NeverStuck(w: World)
    ensures Idle(w) <==> forall e :: !Progress(w, e)
  {
    if !Idle(w) {
      if w.ready != [] { assert Progress(w, Deliver(0)); }
      else if w.failed != [] { assert Progress(w, Collect(0)); }
      else {
        var i :| 0 <= i < |w.tasks| && !IsDone(w.tasks[i].prog);
        assert Progress(w, Run(i, Turn(Fine, Raised)));
      }
    }
  }

  predicate IsRedelivery(e: Event) { e.Crash? || e.Sever? }

  function Redeliveries(events: seq<Event>): nat {
    if events == [] then 0
    else Redeliveries(events[..|events| - 1]) + if IsRedelivery(events[|events| - 1]) then 1 else 0
  }

  /** A run in which no request arrives and no worker sits idle on purpose. */
  ghost predicate Busy(c: Config, w: World, events: seq<Event>) {
    forall n :: 0 <= n < |events| ==> IsRedelivery(events[n]) || Progress(Exec(c, w, events[..n]), events[n])
  }

  lemma RedeliveryEventBounded(c: Config, w: World, e: Event)
    requires IsRedelivery(e)
    ensures TotalWeight(Apply(c, w, e)) <= TotalWeight(w) + MAX_WEIGHT
  {
    if e.Crash? { if e.victim < |w.tasks| { RedeliveryBounded(w, e.victim, CrashTask(w, e.victim)); } }
    else if e.cut < |w.tasks| { RedeliveryBounded(w, e.cut, SeverTask(w, e.cut)); }
  }

  lemma ReachableSettles(c: Config, events: seq<Event>)
    ensures Settling(WorldAfter(c, events))
  {
    MessagesConserved(c, events, Fresh(AddServer, "", None));
  }

  /** From any reachable world, such a run has at most as many steps as the weight it started with, plus a
      constant for every redelivery; each publish-and-nack, retry and follow-up is already paid for. */
  lemma {:induction false} QueuesDrain(c: Config, past: seq<Event>, events: seq<Event>)
    requires Busy(c, WorldAfter(c, past), events)
    ensures TotalWeight(Exec(c, WorldAfter(c, past), events)) + (|events| - Redeliveries(events))
         <= TotalWeight(WorldAfter(c, past)) + MAX_WEIGHT * Redeliveries(events)
  {
    if events != [] {
      var init, last := events[..|events| - 1], events[|events| - 1];
      forall n | 0 <= n < |init|
        ensures IsRedelivery(init[n]) || Progress(Exec(c, WorldAfter(c, past), init[..n]), init[n])
      {
        assert init[..n] == events[..n] && init[n] == events[n];
      }
      QueuesDrain(c, past, init);
      var w := Exec(c, WorldAfter(c, past), init);
      ExecConcat(c, INITIAL, past, init);
      ReachableSettles(c, past + init);
      if IsRedelivery(last) {
        RedeliveryEventBounded(c, w, last);
      } else {
        assert events[..|events| - 1] == init;
        ProgressLightens(c, w, last);
      }
    }
  }

  // ---- the queues end up empty ----

  lemma {:induction false} IdleIsWeightless(ts: seq<Task>)
    requires forall i :: 0 <= i < |ts| ==> IsDone(ts[i].prog)
    ensures TaskWeight(ts) == 0
  {
    if ts != [] { IdleIsWeightless(ts[..|ts| - 1]); }
  }

  /** In every reachable world, no weight left and no work left are the same. */
  lemma WeightlessMeansIdle(c: Config, events: seq<Event>)
    ensures TotalWeight(WorldAfter(c, events)) == 0 <==> Idle(WorldAfter(c, events))
  {
    var w := WorldAfter(c, events);
    ReachableSettles(c, events);
    if Idle(w) { IdleIsWeightless(w.tasks); }
    if TotalWeight(w) == 0 {
      WeightlessIsIdle(w.tasks);
    }
  }

  /** A busy run that nothing can extend has ended with empty queues and every handler finished. */
  lemma StuckRunsAreDrained(c: Config, past: seq<Event>, events: seq<Event>)
    requires Busy(c, WorldAfter(c, past), events)
    requires forall e :: !Progress(Exec(c, WorldAfter(c, past), events), e)
    ensures Idle(WorldAfter(c, past + events)) && TotalWeight(WorldAfter(c, past + events)) == 0
  {
    ExecConcat(c, INITIAL, past, events);
    NeverStuck(WorldAfter(c, past + events));
    WeightlessMeansIdle(c, past + events);
  }

  lemma OneEventMore(c: Config, past: seq<Event>, e: Event)
    ensures WorldAfter(c, past + [e]) == Apply(c, WorldAfter(c, past), e)
  {
    assert (past + [e])[..|past|] == past;
  }

  lemma NothingToDo(c: Config, w: World)
    ensures Busy(c, w, []) && Redeliveries([]) == 0
  {
  }

  /** An event in which nothing fails. */
  predicate Smooth(e: Event) { !IsRedelivery(e) && (e.Run? ==> e.turn.luck.Fine?) }

  lemma SmoothProgress(w: World) returns (e: Event)
    requires !Idle(w)
    ensures Progress(w, e) && Smooth(e)
  {
    if w.ready != [] {
      e := Deliver(0);
    } else if w.failed != [] {
      e := Collect(0);
    } else {
      var i :| 0 <= i < |w.tasks| && !IsDone(w.tasks[i].prog);
      e := Run(i, Turn(Fine, Raised));
    }
  }

  /** From every reachable world some busy run in which nothing fails empties the queues, in no more steps than the
      weight. */
  lemma {:induction false} DrainingRun(c: Config, past: seq<Event>) returns (events: seq<Event>)
    ensures Busy(c, WorldAfter(c, past), events) && Redeliveries(events) == 0
    ensures |events| <= TotalWeight(WorldAfter(c, past)) && Idle(WorldAfter(c, past + events))
    ensures forall e :: e in events ==> Smooth(e)
    decreases TotalWeight(WorldAfter(c, past))
  {
    hide Exec, WorldAfter, Apply, TotalWeight, Busy, Idle, Progress, Redeliveries, Smooth;
    var w := WorldAfter(c, past);
    if Idle(w) {
      events := [];
      NothingToDo(c, w);
      assert past + [] == past;
    } else {
      var e := SmoothProgress(w);
      ReachableSettles(c, past);
      ProgressLightens(c, w, e);
      OneEventMore(c, past, e);
      var rest := DrainingRun(c, past + [e]);
      events := [e] + rest;
      assert past + events == past + [e] + rest;
      BusyFrom(c, w, e, rest);
    }
  }

  lemma {:induction false} NoRedeliveries(events: seq<Event>)
    ensures Redeliveries(events) == 0 <==> forall n :: 0 <= n < |events| ==> !IsRedelivery(events[n])
  {
    if events != [] {
      NoRedeliveries(events[..|events| - 1]);
      assert events == events[..|events| - 1] + [events[|events| - 1]];
    }
  }

  lemma BusyFrom(c: Config, w: World, e: Event, rest: seq<Event>)
    requires Progress(w, e) && Busy(c, Apply(c, w, e), rest) && Redeliveries(rest) == 0
    ensures Busy(c, w, [e] + rest) && Redeliveries([e] + rest) == 0
  {
    var events := [e] + rest;
    NoRedeliveries(rest);
    NoRedeliveries(events);
    assert [e][..0] == [];
    forall n | 0 <= n < |events| ensures IsRedelivery(events[n]) || Progress(Exec(c, w, events[..n]), events[n]) {
      if n > 0 {
        assert events[..n] == [e] + rest[..n - 1];
        ExecConcat(c, w, [e], rest[..n - 1]);
      }
    }
  }

  /** A poll message is never handled beyond its thirtieth attempt. */
  lemma {:induction false} AttemptsBounded(c: Config, events: seq<Event>, m: Msg)
    requires InSystem(WorldAfter(c, events), m) && IsPoll(m.job)
    ensures 1 <= m.attempt <= MAX_POLL_ATTEMPTS
  {
    RunsKeep(c, events);
    var w := WorldAfter(c, events);
    if m !in w.ready && m !in w.failed {
      var i :| 0 <= i < |w.tasks| && !w.tasks[i].Api? && w.tasks[i].msg == m;
      assert TaskOk(c, w.db, w.tasks[i]);
    }
  }

  /** The messages a program may still publish. */
  predicate MayPublish(p: Prog, m: Msg) {
    match p
    case SaveAws(next) => MayPublish(next, m)
    case Move(_, _, next) => MayPublish(next, m)
    case Publish(out, next) => m == out || MayPublish(next, m)
    case _ => false
  }

  lemma InProgressPublishes(m: Msg, out: Msg)
    ensures MayPublish(InProgress(m), out) <==> m.attempt < MAX_POLL_ATTEMPTS && out == m.(attempt := m.attempt + 1)
  {
    assert !MayPublish(ACK, out);
  }

  lemma SecondPollPublishes(m: Msg, ec2: Option<string>, out: Msg)
    ensures MayPublish(SecondPoll(m, ec2), out) <==> out == Fresh(m.job, m.server, m.aws).(ec2 := ec2)
  {
    var next := Fresh(m.job, m.server, m.aws).(ec2 := ec2);
    assert !MayPublish(ACK, out);
    assert MayPublish(Publish(next, ACK), out) <==> out == next;
  }

  lemma MovesPublishNothing(m: Msg, to: State, second: State, out: Msg)
    ensures !MayPublish(Handlers.Step(m, to, ACK), out)
    ensures !MayPublish(Handlers.Step(m, to, Handlers.Step(m, second, ACK)), out)
  {
    assert !MayPublish(ACK, out);
    assert !MayPublish(Handlers.Step(m, second, ACK), out);
  }

  /** What handling a poll publishes is the same poll with its attempt counter one higher, up to thirty, or else the
      first attempt of the second phase, which no second-phase poll publishes. */
  lemma PollSuccessor(m: Msg, a: Answer, out: Msg)
    requires IsPoll(m.job) && MayPublish(AfterAsk(m, a), out)
    ensures || (m.attempt < MAX_POLL_ATTEMPTS && out == m.(attempt := m.attempt + 1))
            || (!SecondPhase(m) && SecondPhase(out) && out == Fresh(m.job, m.server, m.aws).(ec2 := out.ec2))
  {
    var p := AfterAsk(m, a);
    InProgressPublishes(m, out);
    if p.Move? && p.next.Publish? {
      SecondPollPublishes(m, p.next.msg.ec2, out);
    } else if p.Move? {
      MovesPublishNothing(m, p.to, if p.next.Move? then p.next.to else p.to, out);
    }
  }

  /** Some answer of AWS makes the handling of m publish next. */
  ghost predicate Begets(m: Msg, next: Msg) { exists a :: MayPublish(AfterAsk(m, a), next) }

  /** Polls of which each is published by handling the one before. */
  ghost predicate IsChain(ms: seq<Msg>) {
    && ms != [] && IsPoll(ms[0].job) && 1 <= ms[0].attempt
    && forall k :: 0 <= k < |ms| - 1 ==> Begets(ms[k], ms[k + 1])
  }

  /** A chain of polls has at most thirty polls of the first phase and then at most thirty of the second. */
  lemma {:induction false} ChainBounded(ms: seq<Msg>) returns (first: nat)
    requires IsChain(ms)
    ensures first <= |ms| && first <= MAX_POLL_ATTEMPTS && |ms| - first <= MAX_POLL_ATTEMPTS
    ensures forall k :: 0 <= k < |ms| ==> (SecondPhase(ms[k]) <==> first <= k)
    ensures var last := ms[|ms| - 1];
            && IsPoll(last.job) && last.attempt >= (if first < |ms| then |ms| - first else first)
            && (|ms| > 1 ==> last.attempt <= MAX_POLL_ATTEMPTS)
  {
    var n := |ms| - 1;
    if n == 0 {
      first := if SecondPhase(ms[0]) then 0 else 1;
    } else {
      var init := ms[..n];
      forall k | 0 <= k < |init| - 1 ensures Begets(init[k], init[k + 1]) { assert Begets(ms[k], ms[k + 1]); }
      first := ChainBounded(init);
      assert Begets(ms[n - 1], ms[n]);
      var a :| MayPublish(AfterAsk(ms[n - 1], a), ms[n]);
      PollSuccessor(ms[n - 1], a, ms[n]);
      assert init[n - 1] == ms[n - 1];
      if first == n && !SecondPhase(ms[n]) { first := n + 1; }
    }
  }
}
