/** What every state change of a worker and every guarded AWS call rests on: the answer that the same handler run had
    from AWS just before. Interleavings, failures and redeliveries included, no poll completes on a bad answer and no
    launch or cutover starts without its pre-flight check. */
module Evidence {
  import opened Wrappers
  import opened Pipeline
  import opened Store
  import opened Handlers
  import opened Machine
  import opened Safety
  import opened Steps
  import opened Undivided
  import opened Guarantees
  import opened Shapes

  // ---- where the program of a handler run comes from ----

  /** Program q is what a handler that had p to do has left at some later moment. */
  predicate LeftOf(p: Prog, q: Prog) {
    || q.Settle? || IsDone(q) || p == q
    || match p
       case SaveAws(next) => LeftOf(next, q)
       case Move(_, _, next) => LeftOf(next, q)
       case Publish(_, next) => LeftOf(next, q)
       case _ => false
  }

  /** Event n is a step of task i, which is then this one. */
  ghost predicate StepOf(c: Config, events: seq<Event>, n: nat, i: nat, t: Task) {
    && n < |events| && events[n].Run? && events[n].task == i
    && i < |WorldAfter(c, events[..n]).tasks| && WorldAfter(c, events[..n]).tasks[i] == t
  }

  /** In event n, task i has its query answered. */
  ghost predicate AskedAt(c: Config, events: seq<Event>, n: nat, i: nat, m: Msg) {
    StepOf(c, events, n, i, Consumer(m, Ask)) && !events[n].turn.answer.Raised?
  }

  /** In event n, the AWS call of task i returns. */
  ghost predicate CalledAt(c: Config, events: seq<Event>, n: nat, i: nat, m: Msg) {
    && CallOf(m.job).Some? && StepOf(c, events, n, i, Consumer(m, Act(CallOf(m.job).value)))
    && events[n].turn.luck.Fine?
  }

  ghost predicate FromAnswer(c: Config, events: seq<Event>, i: nat, m: Msg, p: Prog) {
    exists n: nat :: AskedAt(c, events, n, i, m) && LeftOf(AfterAsk(m, events[n].turn.answer), p)
  }

  ghost predicate FromCall(c: Config, events: seq<Event>, i: nat, m: Msg, p: Prog) {
    exists n: nat :: CalledAt(c, events, n, i, m) && LeftOf(AfterAct(m, events[n].turn.answer), p)
  }

  /** What a consumer has to do rests on an answer it has had. */
  ghost predicate Grounded(c: Config, events: seq<Event>, i: nat, t: Task) {
    match t
    case Consumer(m, p) =>
      || p.Start? || p.Ask? || p.Settle? || IsDone(p) || (p.Act? && p == AfterGuard(m))
      || FromAnswer(c, events, i, m, p)
      || FromCall(c, events, i, m, p)
    case _ => true
  }

  ghost predicate AllGrounded(c: Config, events: seq<Event>) {
    forall i :: 0 <= i < |WorldAfter(c, events).tasks| ==> Grounded(c, events, i, WorldAfter(c, events).tasks[i])
  }

  lemma LeftNext(p: Prog, q: Prog)
    requires LeftOf(p, q) && (q.SaveAws? || q.Move? || q.Publish?)
    ensures LeftOf(p, q.next)
  {
    if p == q {
      assert LeftOf(q.next, q.next);
    } else {
      LeftNext(p.next, q);
    }
  }

  /** What a step makes of the program of a consumer. */
  lemma ConsumerStep(c: Config, db: Db, t: Task, turn: Turn)
    requires t.Consumer?
    ensures var p, q := t.prog, Effect(c, db, t, turn).prog;
            || q.Settle? || IsDone(q)
            || (p.Start? && q == AfterGuard(t.msg))
            || (p.Ask? && !turn.answer.Raised? && q == AfterAsk(t.msg, turn.answer))
            || (p.Act? && turn.luck.Fine? && q == AfterAct(t.msg, turn.answer))
            || ((p.SaveAws? || p.Move? || p.Publish?) && q == p.next)
  {
    hide AfterAsk, AfterAct, AfterGuard, NextStates;
  }

  // ---- every run ----

  lemma PrefixesStay(c: Config, events: seq<Event>, e: Event, i: nat, t: Task)
    requires Grounded(c, events, i, t)
    ensures Grounded(c, events + [e], i, t)
  {
    hide WorldAfter, AfterAsk, AfterAct, AfterGuard;
    assert forall n :: 0 <= n <= |events| ==> (events + [e])[..n] == events[..n];
    if t.Consumer? {
      if FromAnswer(c, events, i, t.msg, t.prog) {
        var n: nat :| AskedAt(c, events, n, i, t.msg) && LeftOf(AfterAsk(t.msg, events[n].turn.answer), t.prog);
        assert AskedAt(c, events + [e], n, i, t.msg);
      }
      if FromCall(c, events, i, t.msg, t.prog) {
        var n: nat :| CalledAt(c, events, n, i, t.msg) && LeftOf(AfterAct(t.msg, events[n].turn.answer), t.prog);
        assert CalledAt(c, events + [e], n, i, t.msg);
      }
    }
  }

  lemma StepGrounds(c: Config, events: seq<Event>, i: nat, turn: Turn)
    requires var w := WorldAfter(c, events);
             i < |w.tasks| && Grounded(c, events, i, w.tasks[i]) && Shaped(c, w.tasks[i])
    ensures var w := WorldAfter(c, events);
            Grounded(c, events + [Run(i, turn)], i, WithProg(w.tasks[i], Effect(c, w.db, w.tasks[i], turn).prog))
  {
    hide WorldAfter, Effect, AfterAsk, AfterAct, AfterGuard, LeftOf, Chain;
    var w := WorldAfter(c, events);
    var t := w.tasks[i];
    var all := events + [Run(i, turn)];
    if t.Consumer? {
      var m, p, q := t.msg, t.prog, Effect(c, w.db, t, turn).prog;
      ConsumerStep(c, w.db, t, turn);
      assert all[..|events|] == events;
      if p.Ask? && !turn.answer.Raised? && q == AfterAsk(m, turn.answer) {
        LeftItself(q);
        assert AskedAt(c, all, |events|, i, m);
      } else if p.Act? && turn.luck.Fine? && q == AfterAct(m, turn.answer) {
        ActIsOwn(c, t);
        LeftItself(q);
        assert CalledAt(c, all, |events|, i, m);
      } else if (p.SaveAws? || p.Move? || p.Publish?) && q == p.next {
        NextGrounds(c, events, i, m, p);
        PrefixesStay(c, events, Run(i, turn), i, Consumer(m, q));
      } else if p.Start? {
        GuardFirst(m);
      }
    }
  }

  lemma LeftItself(p: Prog)
    ensures LeftOf(p, p)
  {
  }

  lemma ActIsOwn(c: Config, t: Task)
    requires t.Consumer? && t.prog.Act? && Shaped(c, t)
    ensures CallOf(t.msg.job) == Some(t.prog.call)
  {
  }

  lemma GuardFirst(m: Msg)
    ensures AfterGuard(m).Ask? || AfterGuard(m).Act? || AfterGuard(m).Settle?
  {
  }

  lemma NextGrounds(c: Config, events: seq<Event>, i: nat, m: Msg, p: Prog)
    requires Grounded(c, events, i, Consumer(m, p)) && (p.SaveAws? || p.Move? || p.Publish?)
    ensures Grounded(c, events, i, Consumer(m, p.next))
  {
    hide WorldAfter, AfterAsk, AfterAct, AfterGuard, LeftOf;
    if FromAnswer(c, events, i, m, p) {
      var n: nat :| AskedAt(c, events, n, i, m) && LeftOf(AfterAsk(m, events[n].turn.answer), p);
      LeftNext(AfterAsk(m, events[n].turn.answer), p);
      assert FromAnswer(c, events, i, m, p.next);
    } else {
      var n: nat :| CalledAt(c, events, n, i, m) && LeftOf(AfterAct(m, events[n].turn.answer), p);
      LeftNext(AfterAct(m, events[n].turn.answer), p);
      assert FromCall(c, events, i, m, p.next);
    }
  }

  /** An event changes the program of at most one task; tasks it adds are at their start. */
  lemma OthersAsBefore(c: Config, w: World, e: Event, i: nat)
    requires i < |Apply(c, w, e).tasks| && !(e.Run? && e.task == i)
    ensures var t := Apply(c, w, e).tasks[i];
            t.prog.Start? || t.prog.Crashed? || (i < |w.tasks| && t == w.tasks[i])
  {
    hide Effect;
  }

  lemma OwnStepProg(c: Config, w: World, i: nat, turn: Turn)
    requires i < |w.tasks|
    ensures i < |Apply(c, w, Run(i, turn)).tasks|
    ensures Apply(c, w, Run(i, turn)).tasks[i] == WithProg(w.tasks[i], Effect(c, w.db, w.tasks[i], turn).prog)
  {
    hide Effect;
  }

  lemma {:induction false} RunsGround(c: Config, events: seq<Event>)
    ensures AllGrounded(c, events)
  {
    hide Apply, Effect, AllShaped, Shaped, FromAnswer, FromCall;
    if events != [] {
      var init, e := events[..|events| - 1], events[|events| - 1];
      RunsGround(c, init);
      RunsShaped(c, init);
      var w, w' := WorldAfter(c, init), WorldAfter(c, events);
      assert events == init + [e];
      forall i | 0 <= i < |w'.tasks| ensures Grounded(c, events, i, w'.tasks[i]) {
        if e.Run? && e.task == i && i < |w.tasks| {
          ShapedTask(c, w, i);
          StepGrounds(c, init, i, e.turn);
          OwnStepProg(c, w, i, e.turn);
        } else {
          NotItsStep(c, w, e, i);
          if i < |w.tasks| && w'.tasks[i] == w.tasks[i] { PrefixesStay(c, init, e, i, w.tasks[i]); }
        }
      }
    }
  }

  lemma ShapedTask(c: Config, w: World, i: nat)
    requires AllShaped(c, w) && i < |w.tasks|
    ensures Shaped(c, w.tasks[i])
  {
  }

  lemma NotItsStep(c: Config, w: World, e: Event, i: nat)
    requires i < |Apply(c, w, e).tasks| && !(e.Run? && e.task == i && i < |w.tasks|)
    ensures var t := Apply(c, w, e).tasks[i];
            t.prog.Start? || t.prog.Crashed? || (i < |w.tasks| && t == w.tasks[i])
  {
    if !(e.Run? && e.task == i) { OthersAsBefore(c, w, e, i); }
  }

  // ---- state changes ----

  /** In a program with at most two steps before its settlement, a state change to come is one of those steps. */
  lemma MoveIsNear(p: Prog, q: Prog)
    requires q.Move? && LeftOf(p, q)
    ensures p == q || ((p.SaveAws? || p.Move? || p.Publish?) && LeftOf(p.next, q))
    ensures !p.Settle?
  {
  }

  lemma MoveWithin(p: Prog, q: Prog)
    requires q.Move? && LeftOf(p, q)
    requires p.SaveAws? || p.Move? || p.Publish? ==>
               p.next.Settle? || ((p.next.Move? || p.next.Publish?) && p.next.next.Settle?)
    ensures p == q || ((p.SaveAws? || p.Move? || p.Publish?) && p.next == q)
  {
    MoveIsNear(p, q);
    if p != q {
      MoveIsNear(p.next, q);
      if p.next != q { MoveIsNear(p.next.next, q); }
    }
  }

  lemma ReachabilityMeans(m: Msg, statuses: seq<InstanceStatus>, gate: State, q: Prog)
    requires q.Move? && LeftOf(Reachability(m, statuses, gate), q)
    ensures q.to == gate && statuses != [] && statuses[0].state !in {"terminated", "stopped"}
    ensures statuses[0].system == "ok" && statuses[0].instance == "ok"
  {
    hide LeftOf;
    MoveWithin(Reachability(m, statuses, gate), q);
  }

  lemma LaunchMeans(m: Msg, a: Answer, q: Prog)
    requires (m.job.PollTestInstance? || m.job.PollCutoverInstance?) && !SecondPhase(m)
    requires q.Move? && LeftOf(AfterAsk(m, a), q)
    ensures if m.job.PollTestInstance? then
              q.to == TestInstanceRunning && a.Jobs? && a.jobs != [] && a.jobs[0].status == "COMPLETED"
            else
              && q.to == CutoverInstanceRunning && a.Servers? && a.servers != []
              && a.servers[0].lifecycle == "CUTOVER" && Truthy(a.servers[0].instance)
  {
    hide LeftOf;
    MoveWithin(AfterAsk(m, a), q);
  }

  lemma PlainAnswerMeans(m: Msg, a: Answer, q: Prog)
    requires !m.job.PollTestInstance? && !m.job.PollCutoverInstance? && q.Move? && LeftOf(AfterAsk(m, a), q)
    ensures match m.job
            case AddServer =>
              q.to == AgentInstalled && a.Servers? && a.servers != [] && a.servers[0].lifecycle != "DISCONNECTED"
            case LaunchCutover => q.to == CutoverInstanceLaunching && a.Servers? && a.servers != []
            case PollReplication =>
              q.to == ReadyForTesting && a.Servers? && a.servers != [] && a.servers[0].lifecycle == "READY_FOR_TEST"
            case PollCutoverSync =>
              q.to == ReadyForCutoverLaunch && a.Jobs? && a.jobs != [] && a.jobs[0].status == "COMPLETED"
            case PollDisconnect =>
              && q.to in {Disconnected, AwaitingArchiveApproval} && a.Servers?
              && (a.servers == [] || a.servers[0].lifecycle == "DISCONNECTED")
            case _ => false
  {
    hide LeftOf;
    MoveWithin(AfterAsk(m, a), q);
  }

  /** The answers on which a handler that asks first changes the state of its server. */
  lemma AnswerMeans(m: Msg, a: Answer, to: State, why: Label, next: Prog)
    requires LeftOf(AfterAsk(m, a), Move(to, why, next))
    ensures match m.job
            case AddServer =>
              to == AgentInstalled && a.Servers? && a.servers != [] && a.servers[0].lifecycle != "DISCONNECTED"
            case LaunchCutover => to == CutoverInstanceLaunching && a.Servers? && a.servers != []
            case PollReplication =>
              to == ReadyForTesting && a.Servers? && a.servers != [] && a.servers[0].lifecycle == "READY_FOR_TEST"
            case PollTestInstance =>
              if m.ec2 in {None, Some("")} then
                to == TestInstanceRunning && a.Jobs? && a.jobs != [] && a.jobs[0].status == "COMPLETED"
              else
                && to == AwaitingTestValidation && a.Statuses? && a.statuses != []
                && a.statuses[0].state !in {"terminated", "stopped"}
                && a.statuses[0].system == "ok" && a.statuses[0].instance == "ok"
            case PollCutoverSync =>
              to == ReadyForCutoverLaunch && a.Jobs? && a.jobs != [] && a.jobs[0].status == "COMPLETED"
            case PollCutoverInstance =>
              if m.ec2 in {None, Some("")} then
                && to == CutoverInstanceRunning && a.Servers? && a.servers != []
                && a.servers[0].lifecycle == "CUTOVER" && a.servers[0].instance !in {None, Some("")}
              else
                && to == AwaitingCutoverValidation && a.Statuses? && a.statuses != []
                && a.statuses[0].state !in {"terminated", "stopped"}
                && a.statuses[0].system == "ok" && a.statuses[0].instance == "ok"
            case PollDisconnect =>
              && to in {Disconnected, AwaitingArchiveApproval} && a.Servers?
              && (a.servers == [] || a.servers[0].lifecycle == "DISCONNECTED")
            case _ => false
  {
    hide LeftOf, AfterAsk;
    var q := Move(to, why, next);
    TruthyMeans(m.ec2);
    if !m.job.PollTestInstance? && !m.job.PollCutoverInstance? {
      PlainAnswerMeans(m, a, q);
    } else if SecondPhase(m) {
      SecondPhaseAsks(m, a);
      MoveIsNear(AfterAsk(m, a), q);
      ReachabilityMeans(m, a.statuses,
                        if m.job.PollTestInstance? then AwaitingTestValidation else AwaitingCutoverValidation, q);
    } else {
      LaunchMeans(m, a, q);
      if a.Servers? && a.servers != [] { TruthyMeans(a.servers[0].instance); }
    }
  }

  lemma SecondPhaseAsks(m: Msg, a: Answer)
    requires SecondPhase(m)
    ensures AfterAsk(m, a) ==
            if !a.Statuses? then NACK
            else Reachability(m, a.statuses, if m.job.PollTestInstance? then AwaitingTestValidation
                                             else AwaitingCutoverValidation)
  {
  }

  /** The state changes that follow a handler's AWS call. */
  lemma CallMeans(m: Msg, a: Answer, to: State, why: Label, next: Prog)
    requires LeftOf(AfterAct(m, a), Move(to, why, next))
    ensures match m.job
            case ConfigureReplication => to in {ReplicationConfigured, AwaitingReplicationApproval}
            case ConfigureTestLaunch => to in {TestTemplateConfigured, AwaitingTestLaunchApproval}
            case FinalizeTest => to == CutoverTemplateConfigured
            case ConfigureCutoverLaunch => to == AwaitingCutoverLaunchApproval
            case StartCutover => to == CutoverSyncInProgress
            case FinalizeCutover => to == Disconnecting
            case ArchiveSource => to == AwaitingCleanupApproval
            case _ => false
  {
    hide LeftOf;
    MoveWithin(AfterAct(m, a), Move(to, why, next));
  }

  /** Row k of the history, if a worker wrote it, is the state change of a handler run. */
  ghost predicate WrittenAt(c: Config, events: seq<Event>, n: nat, i: nat, m: Msg, next: Prog, k: nat, x: Entry) {
    && StepOf(c, events, n, i, Consumer(m, Move(x.to, x.why, next)))
    && |WorldAfter(c, events[..n]).db.history| == k && m.server == x.server && x.why == ByJob(m.job)
  }

  lemma StepWrites(c: Config, db: Db, t: Task, turn: Turn)
    requires TaskOk(c, db, t)
    ensures var h := Effect(c, db, t, turn).db.history;
            || h == db.history
            || (|h| == |db.history| + 1 && h[..|db.history|] == db.history
                && var x := h[|db.history|];
                   x.why.ByJob? ==>
                     t.Consumer? && t.prog.Move? && t.prog.to == x.to && t.prog.why == x.why
                     && t.msg.server == x.server && x.why == ByJob(t.msg.job))
  {
    hide AfterAsk, AfterAct, AfterGuard, NextStates;
  }

  lemma LastWrites(c: Config, w: World, e: Event)
    requires Inv(c, w)
    ensures w.db.history <= Apply(c, w, e).db.history && |Apply(c, w, e).db.history| <= |w.db.history| + 1
    ensures |Apply(c, w, e).db.history| == |w.db.history| + 1 ==>
              var x := Apply(c, w, e).db.history[|w.db.history|];
              x.why.ByJob? ==>
                && e.Run? && e.task < |w.tasks|
                && var t := w.tasks[e.task];
                   t.Consumer? && t.prog.Move? && t.prog.to == x.to && t.prog.why == x.why
                   && t.msg.server == x.server && x.why == ByJob(t.msg.job)
  {
    hide Effect;
    if e.Run? && e.task < |w.tasks| {
      assert TaskOk(c, w.db, w.tasks[e.task]);
      StepWrites(c, w.db, w.tasks[e.task], e.turn);
    } else if IsAdmin(e) {
      AdminKeepsStory(c, w, e);
    }
  }

  lemma StepsPersist(c: Config, events: seq<Event>, init: seq<Event>, n: nat, i: nat, t: Task)
    requires init <= events && StepOf(c, init, n, i, t)
    ensures StepOf(c, events, n, i, t) && events[n] == init[n] && events[..n] == init[..n]
  {
    hide WorldAfter;
    assert init == events[..|init|];
    assert events[..n] == init[..n];
  }

  lemma {:induction false} RowIsWritten(c: Config, events: seq<Event>, k: nat)
    returns (n: nat, i: nat, m: Msg, next: Prog)
    requires k < |WorldAfter(c, events).db.history| && WorldAfter(c, events).db.history[k].why.ByJob?
    ensures WrittenAt(c, events, n, i, m, next, k, WorldAfter(c, events).db.history[k])
  {
    hide Apply, Inv;
    if events == [] { return; }
    var init, e := events[..|events| - 1], events[|events| - 1];
    var w := WorldAfter(c, init);
    RunsKeep(c, init);
    LastWrites(c, w, e);
    if k < |w.db.history| {
      n, i, m, next := RowIsWritten(c, init, k);
      var x := w.db.history[k];
      StepsPersist(c, events, init, n, i, Consumer(m, Move(x.to, x.why, next)));
    } else {
      n, i := |events| - 1, e.task;
      m, next := w.tasks[i].msg, w.tasks[i].prog.next;
    }
  }

  /** In every fine-grained run, each row that a worker has written comes from a handler run of that job for that server
      whose query AWS had answered as the job demands, or, for the jobs that call AWS first, whose call had returned. */
  lemma {:induction false} RowsAreEarned(c: Config, events: seq<Event>, k: nat)
    returns (earned: nat, wrote: nat, i: nat, m: Msg, next: Prog)
    requires k < |WorldAfter(c, events).db.history| && WorldAfter(c, events).db.history[k].why.ByJob?
    ensures earned < wrote < |events| && events[earned].Run?
    ensures WrittenAt(c, events, wrote, i, m, next, k, WorldAfter(c, events).db.history[k])
    ensures var x, a := WorldAfter(c, events).db.history[k], events[earned].turn.answer;
            if CallOf(x.why.job) == None then
              && AskedAt(c, events, earned, i, m)
              && match x.why.job
                 case AddServer =>
                   x.to == AgentInstalled && a.Servers? && a.servers != [] && a.servers[0].lifecycle != "DISCONNECTED"
                 case LaunchCutover => x.to == CutoverInstanceLaunching && a.Servers? && a.servers != []
                 case PollReplication =>
                   && x.to == ReadyForTesting && a.Servers? && a.servers != []
                   && a.servers[0].lifecycle == "READY_FOR_TEST"
                 case PollTestInstance =>
                   if m.ec2 in {None, Some("")} then
                     x.to == TestInstanceRunning && a.Jobs? && a.jobs != [] && a.jobs[0].status == "COMPLETED"
                   else
                     && x.to == AwaitingTestValidation && a.Statuses? && a.statuses != []
                     && a.statuses[0].state !in {"terminated", "stopped"}
                     && a.statuses[0].system == "ok" && a.statuses[0].instance == "ok"
                 case PollCutoverSync =>
                   x.to == ReadyForCutoverLaunch && a.Jobs? && a.jobs != [] && a.jobs[0].status == "COMPLETED"
                 case PollCutoverInstance =>
                   if m.ec2 in {None, Some("")} then
                     && x.to == CutoverInstanceRunning && a.Servers? && a.servers != []
                     && a.servers[0].lifecycle == "CUTOVER" && a.servers[0].instance !in {None, Some("")}
                   else
                     && x.to == AwaitingCutoverValidation && a.Statuses? && a.statuses != []
                     && a.statuses[0].state !in {"terminated", "stopped"}
                     && a.statuses[0].system == "ok" && a.statuses[0].instance == "ok"
                 case PollDisconnect =>
                   && x.to in {Disconnected, AwaitingArchiveApproval} && a.Servers?
                   && (a.servers == [] || a.servers[0].lifecycle == "DISCONNECTED")
                 case _ => false
            else
              && CalledAt(c, events, earned, i, m)
              && match x.why.job
                 case ConfigureReplication => x.to in {ReplicationConfigured, AwaitingReplicationApproval}
                 case ConfigureTestLaunch => x.to in {TestTemplateConfigured, AwaitingTestLaunchApproval}
                 case FinalizeTest => x.to == CutoverTemplateConfigured
                 case ConfigureCutoverLaunch => x.to == AwaitingCutoverLaunchApproval
                 case StartCutover => x.to == CutoverSyncInProgress
                 case FinalizeCutover => x.to == Disconnecting
                 case ArchiveSource => x.to == AwaitingCleanupApproval
                 case _ => false
  {
    hide Exec, AfterAsk, AfterAct, LeftOf;
    wrote, i, m, next := RowIsWritten(c, events, k);
    var x := WorldAfter(c, events).db.history[k];
    var p := Move(x.to, x.why, next);
    var init := events[..wrote];
    RunsGround(c, init);
    assert Grounded(c, init, i, Consumer(m, p));
    if FromAnswer(c, init, i, m, p) {
      earned :| AskedAt(c, init, earned, i, m) && LeftOf(AfterAsk(m, init[earned].turn.answer), p);
      AnswerMeans(m, init[earned].turn.answer, x.to, x.why, next);
      StepsPersist(c, events, init, earned, i, Consumer(m, Ask));
    } else {
      earned :| CalledAt(c, init, earned, i, m) && LeftOf(AfterAct(m, init[earned].turn.answer), p);
      CallMeans(m, init[earned].turn.answer, x.to, x.why, next);
      StepsPersist(c, events, init, earned, i, Consumer(m, Act(CallOf(m.job).value)));
    }
  }

  // ---- calls ----

  lemma LastCalls(c: Config, w: World, e: Event)
    requires Inv(c, w)
    ensures w.calls <= Apply(c, w, e).calls && |Apply(c, w, e).calls| <= |w.calls| + 1
    ensures |Apply(c, w, e).calls| == |w.calls| + 1 && !Apply(c, w, e).calls[|w.calls|].rollback ==>
              var r := Apply(c, w, e).calls[|w.calls|];
              && e.Run? && e.task < |w.tasks| && r.luck == e.turn.luck
              && var t := w.tasks[e.task];
                 t.Consumer? && t.prog == Act(r.call) && t.msg.server == r.server
  {
    if e.Run? && e.task < |w.tasks| { StepCalls(c, w, e.task, e.turn); }
    else if IsAdmin(e) { AdminKeepsStory(c, w, e); }
  }

  lemma StepCalls(c: Config, w: World, i: nat, turn: Turn)
    requires Inv(c, w) && i < |w.tasks|
    ensures var t, calls := w.tasks[i], Effect(c, w.db, w.tasks[i], turn).calls;
            || calls == []
            || (|calls| == 1 && calls[0].luck == turn.luck
                && (!calls[0].rollback ==>
                      t.Consumer? && t.prog == Act(calls[0].call) && t.msg.server == calls[0].server))
  {
    hide AfterAsk, AfterAct, AfterGuard, NextStates, StartEffect;
    assert TaskOk(c, w.db, w.tasks[i]);
    if w.tasks[i].prog.Start? { StartCallsNothing(c, w.db, w.tasks[i], DbLuck(c, turn.luck)); }
  }

  lemma StartCallsNothing(c: Config, db: Db, t: Task, l: Luck)
    ensures StartEffect(c, db, t, l).calls == []
  {
  }

  lemma {:induction false} CallIsMade(c: Config, events: seq<Event>, k: nat) returns (n: nat, i: nat, m: Msg)
    requires k < |WorldAfter(c, events).calls| && !WorldAfter(c, events).calls[k].rollback
    ensures var r := WorldAfter(c, events).calls[k];
            && StepOf(c, events, n, i, Consumer(m, Act(r.call))) && events[n].turn.luck == r.luck
            && |WorldAfter(c, events[..n]).calls| == k && m.server == r.server
  {
    hide Apply, Inv;
    if events == [] { return; }
    var init, e := events[..|events| - 1], events[|events| - 1];
    var w := WorldAfter(c, init);
    RunsKeep(c, init);
    LastCalls(c, w, e);
    if k < |w.calls| {
      n, i, m := CallIsMade(c, init, k);
      StepsPersist(c, events, init, n, i, Consumer(m, Act(w.calls[k].call)));
    } else {
      n, i := |events| - 1, e.task;
      m := w.tasks[i].msg;
    }
  }

  lemma CheckMeans(m: Msg, a: Answer, call: AwsCall)
    requires LeftOf(AfterAsk(m, a), Act(call))
    ensures call == StartTestCall || call == StartCutoverCall
    ensures a.Servers? && a.servers != []
    ensures a.servers[0].lifecycle == if call == StartTestCall then "READY_FOR_TEST" else "READY_FOR_CUTOVER"
  {
    ChainsCallNothing(AfterAsk(m, a), call);
  }

  lemma ChainsCallNothing(p: Prog, call: AwsCall)
    requires LeftOf(p, Act(call))
    ensures p == Act(call) || ((p.SaveAws? || p.Move? || p.Publish?) && LeftOf(p.next, Act(call)))
  {
  }

  lemma LastStepCallsNothing(p: Prog, call: AwsCall)
    requires p.Settle? || ((p.Move? || p.Publish?) && p.next.Settle?)
    ensures !LeftOf(p, Act(call))
  {
    if !p.Settle? { LastStepCallsNothing(p.next, call); }
  }

  lemma UncheckedCalls(m: Msg, a: Answer, call: AwsCall)
    ensures AfterGuard(m) == Act(call) ==> call != StartTestCall && call != StartCutoverCall
    ensures !LeftOf(AfterAct(m, a), Act(call))
  {
    var p := AfterAct(m, a);
    LastStepCallsNothing(if p.Move? then p.next else p, call);
  }

  /** In every fine-grained run, each launch of a test instance and each start of a cutover is made by a handler run
      whose query AWS had answered with a server in the lifecycle state that the pre-flight check demands. */
  lemma {:induction false} LaunchesAreChecked(c: Config, events: seq<Event>, k: nat)
    returns (asked: nat, acted: nat, i: nat, m: Msg)
    requires k < |WorldAfter(c, events).calls| && !WorldAfter(c, events).calls[k].rollback
    requires WorldAfter(c, events).calls[k].call in {StartTestCall, StartCutoverCall}
    ensures asked < acted < |events| && events[asked].Run?
    ensures var r, w := WorldAfter(c, events).calls[k], WorldAfter(c, events[..acted]);
            && StepOf(c, events, acted, i, Consumer(m, Act(r.call))) && |w.calls| == k
            && m.server == r.server && AskedAt(c, events, asked, i, m)
            && var a := events[asked].turn.answer;
               a.Servers? && a.servers != []
               && a.servers[0].lifecycle == if r.call == StartTestCall then "READY_FOR_TEST" else "READY_FOR_CUTOVER"
  {
    hide Exec, AfterAsk, AfterAct, AfterGuard, LeftOf;
    acted, i, m := CallIsMade(c, events, k);
    var call := WorldAfter(c, events).calls[k].call;
    var init := events[..acted];
    RunsGround(c, init);
    assert Grounded(c, init, i, Consumer(m, Act(call)));
    UncheckedCalls(m, Raised, call);
    if FromCall(c, init, i, m, Act(call)) {
      var n: nat :| CalledAt(c, init, n, i, m) && LeftOf(AfterAct(m, init[n].turn.answer), Act(call));
      UncheckedCalls(m, init[n].turn.answer, call);
    }
    asked :| AskedAt(c, init, asked, i, m) && LeftOf(AfterAsk(m, init[asked].turn.answer), Act(call));
    CheckMeans(m, init[asked].turn.answer, call);
    StepsPersist(c, events, init, asked, i, Consumer(m, Ask));
  }
}
