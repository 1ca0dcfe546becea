/** No server is stranded: in a run with no accident of the kind described here, whatever state the system itself must
    take a server out of, some message or task is on its way to do so. With the queues drained, every server then
    waits for people or has come to its end. */
module Attended {
  import opened Pipeline
  import opened Store
  import opened Handlers
  import opened Machine
  import opened Steps
  import opened Guarantees
  import opened Conservation
  import opened Draining
  import opened Shapes

  // ---- accidents ----

  /** The worker has not finished what it owes a server that has already left the state its message was let through in:
      to the stale check the message, delivered again, is stale. */
  predicate Owing(c: Config, db: Db, t: Task) {
    match t
    case Consumer(m, p) =>
      && (p.SaveAws? || p.Move? || p.Publish? || p == NACK)
      && m.server in db.rows && Tended(c, db.rows[m.server].current) && db.rows[m.server].current != GuardState(c, m)
    case Rollbacker(_, _) => false
    case Api(_, _, p) => p.Publish? && Tended(c, GuardState(c, p.msg))
  }

  /** What nothing in the system makes good for server s: a worker or API process that dies or is cut off between its
      state change and what it owes, and a publication lost with nobody left to dead-letter the message behind it. */
  predicate Accident(c: Config, w: World, e: Event, s: string) {
    match e
    case Run(i, turn) =>
      && i < |w.tasks| && ServerOf(w.tasks[i]) == s && w.tasks[i].prog.Publish? && turn.luck.Before?
      && (i in w.orphans || !w.tasks[i].Consumer?) && Tended(c, GuardState(c, w.tasks[i].prog.msg))
    case Crash(i) => i < |w.tasks| && ServerOf(w.tasks[i]) == s && Owing(c, w.db, w.tasks[i])
    case Sever(i) =>
      i < |w.tasks| && ServerOf(w.tasks[i]) == s && w.tasks[i].Consumer? && Owing(c, w.db, w.tasks[i])
    case _ => false
  }

  ghost predicate NoAccidents(c: Config, events: seq<Event>, s: string) {
    forall n :: 0 <= n < |events| ==> !Accident(c, WorldAfter(c, events[..n]), events[n], s)
  }

  // ---- who takes a server out of its state ----

  /** Task t will take server s out of state st, or pass on a message that will, or dead-letter its own. */
  predicate Carries(c: Config, t: Task, orphan: bool, s: string, st: State) {
    ServerOf(t) == s &&
    match t
    case Consumer(m, p) =>
      if orphan then st != GuardState(c, m) && Covers(c, st, p)
      else
        || ((p.Start? || p.Ask? || p.Act?) && GuardState(c, m) == st)
        || p.SaveAws? || p.Move? || p == NACK
        || (p.Publish? && GuardState(c, p.msg) == st)
    case Rollbacker(_, p) => !orphan && (p.Start? || p.Undo? || p.Move?)
    case Api(_, _, p) => p.Publish? && GuardState(c, p.msg) == st
  }

  lemma CarriesItsOwn(c: Config, t: Task, orphan: bool, s: string, st: State)
    requires Carries(c, t, orphan, s, st)
    ensures ServerOf(t) == s
  {
  }

  ghost predicate Carried(c: Config, w: World, s: string, st: State) {
    || (exists m :: m in w.ready && m.server == s && GuardState(c, m) == st)
    || (exists m :: m in w.failed && m.server == s)
    || (exists i :: 0 <= i < |w.tasks| && Carries(c, w.tasks[i], i in w.orphans, s, st))
  }

  ghost predicate Attended(c: Config, w: World, s: string) {
    s in w.db.rows && Tended(c, w.db.rows[s].current) ==> Carried(c, w, s, w.db.rows[s].current)
  }

  // ---- one step ----

  lemma GuardedAnswers(c: Config, m: Msg, a: Answer)
    requires Tended(c, GuardState(c, m))
    ensures var p := AfterAsk(m, a);
            p.Act? || p.SaveAws? || p.Move? || p == NACK || (p.Publish? && GuardState(c, p.msg) == GuardState(c, m))
  {
  }

  lemma GuardedActs(c: Config, m: Msg, a: Answer)
    requires Tended(c, GuardState(c, m))
    ensures var p := AfterAct(m, a);
            p.Move? || p == NACK || (p.Publish? && GuardState(c, p.msg) == GuardState(c, m))
  {
  }

  /** What becomes of a task that carries: it still does, or it has published the message that does, or it dead-letters
      its own. */
  ghost predicate Handed(c: Config, t: Task, orphan: bool, d: Delta, s: string, st: State) {
    || Carries(c, WithProg(t, d.prog), orphan, s, st)
    || (d.out != [] && d.out[0].server == s && GuardState(c, d.out[0]) == st)
    || (!orphan && Nacked(t) != [])
  }

  lemma HeldStepCarries(c: Config, db: Db, t: Task, turn: Turn, s: string, st: State)
    requires c.dbUp && t.Consumer? && Shaped(c, t) && s in db.rows && db.rows[s].current == st && Tended(c, st)
    requires Carries(c, t, false, s, st)
    ensures var d := Effect(c, db, t, turn);
            s in d.db.rows && (d.db.rows[s].current == st ==> Handed(c, t, false, d, s, st))
  {
    hide AfterAsk, AfterAct, NextStates, GuardState, Tended, Allowed;
    match t.prog
    case Ask => GuardedAnswers(c, t.msg, turn.answer);
    case Act(_) => GuardedActs(c, t.msg, turn.answer);
    case Move(to, _, _) => TableIsPipeline(st, to);
    case _ =>
  }

  lemma OrphanStepCarries(c: Config, db: Db, t: Task, turn: Turn, s: string, st: State)
    requires c.dbUp && t.Consumer? && Shaped(c, t) && s in db.rows && db.rows[s].current == st && Tended(c, st)
    requires Carries(c, t, true, s, st) && (t.prog.Publish? ==> !turn.luck.Before?)
    ensures var d := Effect(c, db, t, turn);
            s in d.db.rows && (d.db.rows[s].current == st ==> Handed(c, t, true, d, s, st))
  {
    hide AfterAsk, AfterAct, NextStates, GuardState, Allowed;
    RankBounds(st);
    if t.prog.Move? { TableIsPipeline(st, t.prog.to); }
  }

  lemma RollbackStepCarries(c: Config, db: Db, t: Task, turn: Turn, s: string, st: State)
    requires c.dbUp && t.Rollbacker? && Shaped(c, t) && s in db.rows && db.rows[s].current == st && Tended(c, st)
    requires Carries(c, t, false, s, st) && s != ""
    ensures var d := Effect(c, db, t, turn);
            s in d.db.rows && (d.db.rows[s].current == st ==> Handed(c, t, false, d, s, st))
  {
    hide AfterAsk, AfterAct, NextStates, GuardState, Allowed, RollbackPlan;
    RankBounds(st);
    if t.prog.Move? { TableIsPipeline(st, t.prog.to); RankBounds(t.prog.to); }
  }

  lemma ApiStepCarries(c: Config, db: Db, t: Task, turn: Turn, orphan: bool, s: string, st: State)
    requires t.Api? && s in db.rows && Carries(c, t, orphan, s, st) && Shaped(c, t) && !turn.luck.Before?
    ensures Handed(c, t, orphan, Effect(c, db, t, turn), s, st)
  {
  }

  lemma NoNewState(c: Config, db: Db, t: Task, turn: Turn, s: string)
    requires !t.prog.Move? && s in db.rows
    ensures var d := Effect(c, db, t, turn);
            && s in d.db.rows
            && (d.db.rows[s].current == db.rows[s].current || d.db.rows[s].current.Pending?)
  {
    hide AfterAsk, AfterAct, AfterGuard, AfterRequire, NextStates, GuardState, RollbackPlan;
  }

  /** A state change leaves its server in a state that its own task, if the state needs it, takes it out of again. */
  lemma NewStateCarried(c: Config, db: Db, t: Task, turn: Turn, orphan: bool, s: string)
    requires c.dbUp && Shaped(c, t) && s in db.rows
    ensures var d := Effect(c, db, t, turn);
            && s in d.db.rows
            && (d.db.rows[s].current != db.rows[s].current && Tended(c, d.db.rows[s].current) ==>
                  Carries(c, WithProg(t, d.prog), orphan, s, d.db.rows[s].current))
  {
    if t.prog.Move? { MoveCarried(c, db, t, turn, orphan, s); } else { NoNewState(c, db, t, turn, s); }
  }

  lemma MoveCarried(c: Config, db: Db, t: Task, turn: Turn, orphan: bool, s: string)
    requires c.dbUp && Shaped(c, t) && s in db.rows && t.prog.Move?
    ensures var d := Effect(c, db, t, turn);
            && s in d.db.rows
            && (d.db.rows[s].current != db.rows[s].current && Tended(c, d.db.rows[s].current) ==>
                  Carries(c, WithProg(t, d.prog), orphan, s, d.db.rows[s].current))
  {
    hide NextStates, GuardState, Allowed;
  }

  lemma StepCarries(c: Config, db: Db, t: Task, turn: Turn, orphan: bool, s: string, st: State)
    requires c.dbUp && Shaped(c, t) && s in db.rows && s != "" && db.rows[s].current == st && Tended(c, st)
    requires Carries(c, t, orphan, s, st)
    requires t.prog.Publish? && turn.luck.Before? && Tended(c, GuardState(c, t.prog.msg)) ==> !orphan && t.Consumer?
    ensures var d := Effect(c, db, t, turn);
            && ServerOf(t) == s && s in d.db.rows
            && (d.db.rows[s].current == st ==> Handed(c, t, orphan, d, s, st))
  {
    hide Effect, Shaped, Handed, Tended;
    if t.Api? { ApiStepCarries(c, db, t, turn, orphan, s, st); NoNewState(c, db, t, turn, s); }
    else if t.Rollbacker? { RollbackStepCarries(c, db, t, turn, s, st); }
    else if orphan { OrphanStepCarries(c, db, t, turn, s, st); }
    else { HeldStepCarries(c, db, t, turn, s, st); }
  }

  // ---- events ----

  lemma InReady(c: Config, w: World, s: string, st: State, m: Msg)
    requires m in w.ready && m.server == s && GuardState(c, m) == st
    ensures Carried(c, w, s, st)
  {
  }

  lemma InFailed(c: Config, w: World, s: string, st: State, m: Msg)
    requires m in w.failed && m.server == s
    ensures Carried(c, w, s, st)
  {
  }

  lemma ByTask(c: Config, w: World, s: string, st: State, i: nat)
    requires i < |w.tasks| && Carries(c, w.tasks[i], i in w.orphans, s, st)
    ensures Carried(c, w, s, st)
  {
  }

  lemma StepsRegisterNobody(c: Config, db: Db, t: Task, turn: Turn, s: string)
    requires s !in db.rows
    ensures s !in Effect(c, db, t, turn).db.rows
  {
    hide AfterAsk, AfterAct, AfterGuard, AfterRequire, NextStates, GuardState, RollbackPlan;
  }

  lemma RunAttends(c: Config, w: World, i: nat, turn: Turn, s: string)
    requires c.dbUp && AllShaped(c, w) && s != "" && i < |w.tasks|
    requires Attended(c, w, s) && !Accident(c, w, Run(i, turn), s)
    ensures Attended(c, RunTask(c, w, i, turn), s)
  {
    hide Effect, Shaped, Carries, Tended;
    var t := w.tasks[i];
    var w' := RunTask(c, w, i, turn);
    var d := Effect(c, w.db, t, turn);
    if s !in w.db.rows { StepsRegisterNobody(c, w.db, t, turn, s); return; }
    NewStateCarried(c, w.db, t, turn, i in w.orphans, s);
    if Tended(c, w'.db.rows[s].current) {
      var st := w'.db.rows[s].current;
      if st != w.db.rows[s].current { ByTask(c, w', s, st, i); return; }
      if m :| m in w.ready && m.server == s && GuardState(c, m) == st { InReady(c, w', s, st, m); return; }
      if m :| m in w.failed && m.server == s { InFailed(c, w', s, st, m); return; }
      var k :| 0 <= k < |w.tasks| && Carries(c, w.tasks[k], k in w.orphans, s, st);
      if k != i { ByTask(c, w', s, st, k); return; }
      assert ServerOf(t) == s by { CarriesItsOwn(c, t, i in w.orphans, s, st); }
      StepCarries(c, w.db, t, turn, i in w.orphans, s, st);
      HandedCarried(c, w, i, turn, s, st);
    }
  }

  lemma HandedCarried(c: Config, w: World, i: nat, turn: Turn, s: string, st: State)
    requires i < |w.tasks| && ServerOf(w.tasks[i]) == s
    requires Handed(c, w.tasks[i], i in w.orphans, Effect(c, w.db, w.tasks[i], turn), s, st)
    ensures Carried(c, RunTask(c, w, i, turn), s, st)
  {
    hide Effect, Carries;
    var w' := RunTask(c, w, i, turn);
    var d := Effect(c, w.db, w.tasks[i], turn);
    if Carries(c, WithProg(w.tasks[i], d.prog), i in w.orphans, s, st) { ByTask(c, w', s, st, i); }
    else if d.out != [] && d.out[0].server == s && GuardState(c, d.out[0]) == st { InReady(c, w', s, st, d.out[0]); }
    else { InFailed(c, w', s, st, w.tasks[i].msg); }
  }

  /** A redelivery of either kind that is no accident. */
  lemma RedeliveryAttends(c: Config, w: World, i: nat, e: Event, w': World, s: string)
    requires i < |w.tasks| && ((e == Crash(i) && w' == CrashTask(w, i)) || (e == Sever(i) && w' == SeverTask(w, i)))
    requires Attended(c, w, s) && !Accident(c, w, e, s)
    ensures Attended(c, w', s)
  {
    hide Tended, GuardState;
    if !IsDone(w.tasks[i].prog) && s in w.db.rows && Tended(c, w.db.rows[s].current) {
      var st := w.db.rows[s].current;
      if m :| m in w.ready && m.server == s && GuardState(c, m) == st { InReady(c, w', s, st, m); return; }
      if m :| m in w.failed && m.server == s { InFailed(c, w', s, st, m); return; }
      var k :| 0 <= k < |w.tasks| && Carries(c, w.tasks[k], k in w.orphans, s, st);
      if k != i { ByTask(c, w', s, st, k); return; }
      TakenBack(c, w, i, e, w', s, st);
    }
  }

  lemma TakenBack(c: Config, w: World, i: nat, e: Event, w': World, s: string, st: State)
    requires i < |w.tasks| && ((e == Crash(i) && w' == CrashTask(w, i)) || (e == Sever(i) && w' == SeverTask(w, i)))
    requires !Accident(c, w, e, s) && !IsDone(w.tasks[i].prog)
    requires s in w.db.rows && st == w.db.rows[s].current && Tended(c, st)
    requires Carries(c, w.tasks[i], i in w.orphans, s, st)
    ensures Carried(c, w', s, st)
  {
    hide Tended, GuardState;
    var t := w.tasks[i];
    match t
    case Consumer(m, _) =>
      if i in w.orphans { ByTask(c, w', s, st, i); } else { InReady(c, w', s, st, m); }
    case Rollbacker(m, _) => InFailed(c, w', s, st, m);
    case Api(_, _, _) => ByTask(c, w', s, st, i);
  }

  lemma DeliveryAttends(c: Config, w: World, k: nat, s: string)
    requires Settling(w) && k < |w.ready| && Attended(c, w, s)
    ensures Attended(c, Apply(c, w, Deliver(k)), s)
  {
    hide Tended, GuardState;
    var w' := Apply(c, w, Deliver(k));
    if s in w.db.rows && Tended(c, w.db.rows[s].current) {
      var st := w.db.rows[s].current;
      if m :| m in w.ready && m.server == s && GuardState(c, m) == st {
        if m == w.ready[k] { ByTask(c, w', s, st, |w.tasks|); } else { InReady(c, w', s, st, m); }
      } else if m :| m in w.failed && m.server == s {
        InFailed(c, w', s, st, m);
      } else {
        var i :| 0 <= i < |w.tasks| && Carries(c, w.tasks[i], i in w.orphans, s, st);
        ByTask(c, w', s, st, i);
      }
    }
  }

  lemma CollectionAttends(c: Config, w: World, k: nat, s: string)
    requires Settling(w) && k < |w.failed| && Attended(c, w, s)
    ensures Attended(c, Apply(c, w, Collect(k)), s)
  {
    hide Tended, GuardState;
    var w' := Apply(c, w, Collect(k));
    if s in w.db.rows && Tended(c, w.db.rows[s].current) {
      var st := w.db.rows[s].current;
      if m :| m in w.failed && m.server == s {
        if m == w.failed[k] { ByTask(c, w', s, st, |w.tasks|); } else { InFailed(c, w', s, st, m); }
      } else if m :| m in w.ready && m.server == s && GuardState(c, m) == st {
        InReady(c, w', s, st, m);
      } else {
        var i :| 0 <= i < |w.tasks| && Carries(c, w.tasks[i], i in w.orphans, s, st);
        ByTask(c, w', s, st, i);
      }
    }
  }

  lemma SubmissionAttends(c: Config, w: World, e: Event, s: string)
    requires e.Submit? && Attended(c, w, s)
    ensures Attended(c, Apply(c, w, e), s)
  {
    hide Tended, GuardState;
    var w' := Apply(c, w, e);
    if s in w.db.rows && Tended(c, w.db.rows[s].current) {
      var st := w.db.rows[s].current;
      if i: nat :| i < |w.tasks| && Carries(c, w.tasks[i], i in w.orphans, s, st) { ByTask(c, w', s, st, i); }
    }
  }

  lemma AdminAttends(c: Config, w: World, e: Event, s: string)
    requires IsAdmin(e) && Attended(c, w, s)
    ensures Attended(c, Apply(c, w, e), s)
  {
    hide Apply, GuardState, Carries;
    var w' := Apply(c, w, e);
    AdminKeepsStory(c, w, e);
    if s in w'.db.rows && Tended(c, w'.db.rows[s].current) {
      assert s in w.db.rows;
      assert Carried(c, w, s, w.db.rows[s].current);
    }
  }

  lemma ApplyAttends(c: Config, w: World, e: Event, s: string)
    requires c.dbUp && AllShaped(c, w) && Settling(w) && s != ""
    requires Attended(c, w, s) && !Accident(c, w, e, s)
    ensures Attended(c, Apply(c, w, e), s)
  {
    hide Attended, AllShaped, Effect, CrashTask, SeverTask;
    if IsAdmin(e) { AdminAttends(c, w, e, s); }
    else if e.Submit? { SubmissionAttends(c, w, e, s); }
    else if e.Deliver? { if e.ready < |w.ready| { DeliveryAttends(c, w, e.ready, s); } }
    else if e.Collect? { if e.failed < |w.failed| { CollectionAttends(c, w, e.failed, s); } }
    else if e.Run? {
      if e.task < |w.tasks| {
        RunAttends(c, w, e.task, e.turn, s);
      }
    }
    else if e.Crash? { if e.victim < |w.tasks| { RedeliveryAttends(c, w, e.victim, e, CrashTask(w, e.victim), s); } }
    else if e.cut < |w.tasks| { RedeliveryAttends(c, w, e.cut, e, SeverTask(w, e.cut), s); }
  }

  lemma {:induction false} RunsAttend(c: Config, events: seq<Event>, s: string)
    requires c.dbUp && s != "" && NoAccidents(c, events, s)
    ensures Attended(c, WorldAfter(c, events), s)
  {
    hide Accident, Apply, Carried;
    if events != [] {
      var init := events[..|events| - 1];
      forall n | 0 <= n < |init| ensures !Accident(c, WorldAfter(c, init[..n]), init[n], s) {
        assert init[..n] == events[..n] && init[n] == events[n];
      }
      RunsAttend(c, init, s);
      RunsShaped(c, init);
      ReachableSettles(c, init);
      ApplyAttends(c, WorldAfter(c, init), events[|events| - 1], s);
    }
  }

  /** No server is stranded. With the database up and no accident, a server that nothing is queued or under way for has
      come to a terminal state, or waits at a human gate or for a request; or else the shipped poll table has left it in
      one of the two running states, for good as StrandedForever says. */
  lemma {:induction false} NoServerStranded(c: Config, events: seq<Event>, s: string)
    requires c.dbUp && s != "" && NoAccidents(c, events, s)
    requires Idle(WorldAfter(c, events)) && s in WorldAfter(c, events).db.rows
    ensures var st := WorldAfter(c, events).db.rows[s].current;
            || st in {Failed, Frozen, CleanupComplete}
            || (exists g :: GateState(g) == st)
            || st in {Pending, AgentInstalled, ReadyForTesting, CutoverTemplateConfigured, ReadyForCutoverLaunch}
            || (!c.phaseAware && st in {TestInstanceRunning, CutoverInstanceRunning})
  {
    hide Exec;
    var w := WorldAfter(c, events);
    RunsAttend(c, events, s);
    NobodyLeft(c, w, s, w.db.rows[s].current);
    GateOf(c, w.db.rows[s].current);
  }

  lemma NobodyLeft(c: Config, w: World, s: string, st: State)
    requires Idle(w)
    ensures !Carried(c, w, s, st)
  {
    hide Carries;
    forall i | 0 <= i < |w.tasks| ensures !Carries(c, w.tasks[i], i in w.orphans, s, st) {
      DoneCarriesNothing(c, w.tasks[i], i in w.orphans, s, st);
    }
  }

  lemma DoneCarriesNothing(c: Config, t: Task, orphan: bool, s: string, st: State)
    requires IsDone(t.prog)
    ensures !Carries(c, t, orphan, s, st)
  {
  }

  lemma GateOf(c: Config, st: State)
    ensures !Tended(c, st) ==>
              || IsTerminal(st) || (exists g :: GateState(g) == st)
              || st in {Pending, AgentInstalled, ReadyForTesting, CutoverTemplateConfigured, ReadyForCutoverLaunch}
              || (!c.phaseAware && st in {TestInstanceRunning, CutoverInstanceRunning})
  {
    assert GateState(ReplicationGate) == AwaitingReplicationApproval;
    assert GateState(TestLaunchGate) == AwaitingTestLaunchApproval;
    assert GateState(TestValidationGate) == AwaitingTestValidation;
    assert GateState(CutoverLaunchGate) == AwaitingCutoverLaunchApproval;
    assert GateState(CutoverValidationGate) == AwaitingCutoverValidation;
    assert GateState(ArchiveGate) == AwaitingArchiveApproval;
    assert GateState(CleanupGate) == AwaitingCleanupApproval;
  }

  lemma SmoothIsNoAccident(c: Config, w: World, e: Event, s: string)
    requires Smooth(e)
    ensures !Accident(c, w, e, s)
  {
  }

  lemma SmoothContinues(c: Config, past: seq<Event>, events: seq<Event>, s: string)
    requires NoAccidents(c, past, s) && forall e :: e in events ==> Smooth(e)
    ensures NoAccidents(c, past + events, s)
  {
    hide WorldAfter, Smooth, Accident;
    var all := past + events;
    forall n | 0 <= n < |all| ensures !Accident(c, WorldAfter(c, all[..n]), all[n], s) {
      if n < |past| {
        assert all[..n] == past[..n];
      } else {
        SmoothIsNoAccident(c, WorldAfter(c, all[..n]), all[n], s);
      }
    }
  }

  /** From every reachable world the queues can be drained, in no more steps than the weight, such that every server
      that has had no accident before has then been attended to. */
  lemma {:induction false} DrainsAttended(c: Config, past: seq<Event>) returns (events: seq<Event>)
    requires c.dbUp
    ensures Busy(c, WorldAfter(c, past), events) && |events| <= TotalWeight(WorldAfter(c, past))
    ensures Idle(WorldAfter(c, past + events))
    ensures forall s :: s in WorldAfter(c, past + events).db.rows && s != "" && NoAccidents(c, past, s) ==>
              !Tended(c, WorldAfter(c, past + events).db.rows[s].current)
  {
    hide Exec, Tended, Smooth, NoAccidents;
    events := DrainingRun(c, past);
    var w := WorldAfter(c, past + events);
    forall s | s in w.db.rows && s != "" && NoAccidents(c, past, s) ensures !Tended(c, w.db.rows[s].current) {
      SmoothContinues(c, past, events, s);
      RunsAttend(c, past + events, s);
      NobodyLeft(c, w, s, w.db.rows[s].current);
    }
  }

  // ---- a stranded server stays where it is ----

  /** Nothing is queued or under way for the server but requests that have not been looked at yet. */
  ghost predicate Forsaken(w: World, s: string, st: State) {
    && s in w.db.rows && w.db.rows[s].current == st
    && (forall m :: m in w.ready || m in w.failed ==> m.server != s)
    && forall i :: 0 <= i < |w.tasks| && ServerOf(w.tasks[i]) == s ==>
         IsDone(w.tasks[i].prog) || (w.tasks[i].Api? && w.tasks[i].prog.Start?)
  }

  /** Every request is refused in a state that the system itself must leave. */
  lemma RequestRefused(c: Config, db: Db, t: Task, turn: Turn)
    requires t.Api? && t.prog.Start? && t.server in db.rows && Working(db.rows[t.server].current)
    ensures Effect(c, db, t, turn) == Delta(db, Finished, [], [])
  {
  }

  lemma OtherServersStep(c: Config, db: Db, t: Task, turn: Turn, s: string)
    requires Shaped(c, t) && ServerOf(t) != s && s in db.rows
    ensures var d := Effect(c, db, t, turn);
            && s in d.db.rows && d.db.rows[s].current == db.rows[s].current
            && (forall m :: m in d.out ==> m.server != s) && (forall m :: m in Nacked(t) ==> m.server != s)
  {
    hide AfterAsk, AfterAct, AfterGuard, AfterRequire, NextStates, GuardState, RollbackPlan, Covers;
  }

  lemma DoneStep(c: Config, db: Db, t: Task, turn: Turn)
    requires IsDone(t.prog)
    ensures Effect(c, db, t, turn) == Delta(db, t.prog, [], []) && Nacked(t) == []
  {
  }

  lemma RunForsakes(c: Config, w: World, i: nat, turn: Turn, s: string, st: State)
    requires i < |w.tasks| && AllShaped(c, w) && Working(st) && Forsaken(w, s, st)
    ensures Forsaken(RunTask(c, w, i, turn), s, st)
  {
    hide Effect, Shaped, Working;
    var t := w.tasks[i];
    if ServerOf(t) != s { OtherServersStep(c, w.db, t, turn, s); }
    else if IsDone(t.prog) { DoneStep(c, w.db, t, turn); }
    else { RequestRefused(c, w.db, t, turn); }
  }

  lemma ApplyForsakes(c: Config, w: World, e: Event, s: string, st: State)
    requires AllShaped(c, w) && Working(st) && Forsaken(w, s, st)
    ensures Forsaken(Apply(c, w, e), s, st)
  {
    hide Working, RunTask, Shaped;
    if IsAdmin(e) { AdminKeepsStory(c, w, e); }
    if e.Run? && e.task < |w.tasks| { RunForsakes(c, w, e.task, e.turn, s, st); }
  }

  lemma {:induction false} StaysForsaken(c: Config, past: seq<Event>, more: seq<Event>, s: string, st: State)
    requires Forsaken(WorldAfter(c, past), s, st) && Working(st)
    ensures Forsaken(WorldAfter(c, past + more), s, st)
  {
    hide Apply, Forsaken, Working;
    if more == [] {
      assert past + more == past;
    } else {
      var init := more[..|more| - 1];
      StaysForsaken(c, past, init, s, st);
      RunsShaped(c, past + init);
      assert (past + more)[..|past + more| - 1] == past + init;
      ApplyForsakes(c, WorldAfter(c, past + init), more[|more| - 1], s, st);
    }
  }

  /** A stranded server is stranded for good: when nothing is queued or under way, a server in a state that the system
      itself must leave is in that state after every continuation, whatever anybody asks for. */
  lemma {:induction false} StrandedForever(c: Config, past: seq<Event>, more: seq<Event>, s: string)
    requires Idle(WorldAfter(c, past)) && s in WorldAfter(c, past).db.rows
    requires Working(WorldAfter(c, past).db.rows[s].current)
    ensures s in WorldAfter(c, past + more).db.rows
    ensures WorldAfter(c, past + more).db.rows[s].current == WorldAfter(c, past).db.rows[s].current
  {
    hide Exec;
    StaysForsaken(c, past, more, s, WorldAfter(c, past).db.rows[s].current);
  }
}
