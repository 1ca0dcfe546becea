/** No message is lost or invented: what was published is ready, in hand, acknowledged, or dead-lettered. */
module Conservation {
  import opened Pipeline
  import opened Store
  import opened Handlers
  import opened Machine
  import opened Steps

  // ---- every program settles its message, once, as its last step ----

  predicate EndsInSettle(p: Prog) {
    match p
    case Start => true
    case Ask => true
    case Act(_) => true
    case Undo(_, _, _) => true
    case SaveAws(next) => EndsInSettle(next)
    case Move(_, _, next) => EndsInSettle(next)
    case Publish(_, next) => EndsInSettle(next)
    case Settle(_) => true
    case Finished => false
    case Crashed => false
  }

  lemma NotDone(p: Prog)
    requires EndsInSettle(p)
    ensures !IsDone(p)
  {
  }

  predicate WillSettle(t: Task) { t.Api? || IsDone(t.prog) || EndsInSettle(t.prog) }

  lemma GuardsSettle(m: Msg)
    ensures EndsInSettle(AfterGuard(m))
  {
  }

  lemma HandlersSettle(m: Msg, a: Answer)
    ensures EndsInSettle(AfterAct(m, a))
  {
  }

  lemma PlansSettle(plan: seq<AwsCall>, final: State, seen: State, m: Msg)
    ensures EndsInSettle(RunPlan(plan, final, seen, m))
  {
  }

  lemma PollsSettle(m: Msg, a: Answer)
    ensures EndsInSettle(AfterAsk(m, a))
  {
    assert EndsInSettle(InProgress(m));
    if m.job.PollTestInstance? && a.Jobs? && a.jobs != [] {
      assert EndsInSettle(SecondPoll(m, LaunchedInstance(a.jobs[0], a.fallback, m.aws)));
    }
    if m.job.PollCutoverInstance? && a.Servers? && a.servers != [] {
      assert EndsInSettle(SecondPoll(m, a.servers[0].instance));
    }
    if a.Statuses? {
      assert EndsInSettle(Reachability(m, a.statuses, AwaitingTestValidation));
      assert EndsInSettle(Reachability(m, a.statuses, AwaitingCutoverValidation));
    }
  }

  /** A message leaves a handler by its settling step and in no other way. */
  lemma StepSettles(c: Config, db: Db, t: Task, turn: Turn)
    requires WillSettle(t) && !t.Api? && !IsDone(t.prog)
    ensures var p := Effect(c, db, t, turn).prog;
            if t.prog.Settle? then p == Finished else !IsDone(p) && EndsInSettle(p)
  {
    match t.prog
    case Start =>
      if ServerOf(t) in db.rows {
        var row := db.rows[ServerOf(t)];
        var (plan, final) := RollbackPlan(row.current, row.aws);
        GuardsSettle(t.msg);
        PlansSettle(plan, final, row.current, t.msg);
      }
    case Ask => PollsSettle(t.msg, turn.answer);
    case Act(_) => HandlersSettle(t.msg, turn.answer);
    case Undo(plan, final, seen) =>
      PlansSettle([], Frozen, seen, t.msg);
      if plan != [] { PlansSettle(plan[1..], final, seen, t.msg); }
    case SaveAws(next) => NotDone(next);
    case Move(_, _, next) => NotDone(next);
    case Publish(_, next) => NotDone(next);
    case Settle(_) =>
  }

  // ---- counting one message ----

  /** How often a message occurs in a queue. */
  function Times(q: seq<Msg>, m: Msg): nat {
    if q == [] then 0 else Times(q[..|q| - 1], m) + if q[|q| - 1] == m then 1 else 0
  }

  lemma {:induction false} TimesConcat(p: seq<Msg>, q: seq<Msg>, m: Msg)
    ensures Times(p + q, m) == Times(p, m) + Times(q, m)
  {
    if q == [] {
      assert p + q == p;
    } else {
      TimesConcat(p, q[..|q| - 1], m);
      assert (p + q)[..|p + q| - 1] == p + q[..|q| - 1];
    }
  }

  lemma {:induction false} TimesWithout(q: seq<Msg>, k: nat, m: Msg)
    requires k < |q|
    ensures Times(Without(q, k), m) + Times([q[k]], m) == Times(q, m)
  {
    var n := |q| - 1;
    if k < n {
      TimesWithout(q[..n], k, m);
      assert Without(q, k)[..n - 1] == Without(q[..n], k);
    } else {
      assert Without(q, k) == q[..n];
    }
  }

  /** A task that has not finished holds its message unacked, at a work queue or at a dead-letter queue, unless it
      has lost it. */
  function InHand(t: Task, orphan: bool, rollback: bool): seq<Msg> {
    if !orphan && !IsDone(t.prog) && (if rollback then t.Rollbacker? else t.Consumer?) then [t.msg] else []
  }

  function Unacked(ts: seq<Task>, orphans: set<nat>, rollback: bool, m: Msg): nat {
    if ts == [] then 0
    else
      var n := |ts| - 1;
      Unacked(ts[..n], orphans, rollback, m) + Times(InHand(ts[n], n in orphans, rollback), m)
  }

  lemma {:induction false} UnackedElsewhere(
      ts: seq<Task>, orphans: set<nat>, orphans': set<nat>, rollback: bool, m: Msg)
    requires forall j :: 0 <= j < |ts| ==> (j in orphans <==> j in orphans')
    ensures Unacked(ts, orphans, rollback, m) == Unacked(ts, orphans', rollback, m)
  {
    if ts != [] { UnackedElsewhere(ts[..|ts| - 1], orphans, orphans', rollback, m); }
  }

  /** Task i changes, or is orphaned, and no other. */
  lemma {:induction false} UnackedUpdate(
      ts: seq<Task>, i: nat, t: Task, orphans: set<nat>, orphans': set<nat>, rollback: bool, m: Msg)
    requires i < |ts| && forall j :: 0 <= j < |ts| && j != i ==> (j in orphans <==> j in orphans')
    ensures Unacked(ts[i := t], orphans', rollback, m) + Times(InHand(ts[i], i in orphans, rollback), m)
         == Unacked(ts, orphans, rollback, m) + Times(InHand(t, i in orphans', rollback), m)
  {
    var n := |ts| - 1;
    if i < n {
      UnackedUpdate(ts[..n], i, t, orphans, orphans', rollback, m);
      assert ts[i := t][..n] == ts[..n][i := t];
    } else {
      assert ts[i := t][..n] == ts[..n];
      UnackedElsewhere(ts[..n], orphans, orphans', rollback, m);
    }
  }

  lemma UnackedAppend(ts: seq<Task>, t: Task, orphans: set<nat>, rollback: bool, m: Msg)
    requires |ts| !in orphans
    ensures Unacked(ts + [t], orphans, rollback, m) ==
            Unacked(ts, orphans, rollback, m) + Times(InHand(t, false, rollback), m)
  {
    assert (ts + [t])[..|ts|] == ts;
  }

  // ---- conservation ----

  ghost predicate Settling(w: World) {
    && (forall i :: 0 <= i < |w.tasks| ==> WillSettle(w.tasks[i]))
    && (forall i :: i in w.orphans ==> i < |w.tasks|)
  }

  /** The two balances, for one message. */
  ghost predicate Balanced(w: World, m: Msg) {
    && Times(w.published, m) ==
         Times(w.ready, m) + Unacked(w.tasks, w.orphans, false, m) + Times(w.acked, m) + Times(w.dead, m)
    && Times(w.dead, m) == Times(w.failed, m) + Unacked(w.tasks, w.orphans, true, m) + Times(w.retired, m)
  }

  /** What a task that moves on to program p no longer holds, it has settled; an orphan holds and settles nothing. */
  lemma HandOver(w: World, i: nat, p: Prog, m: Msg)
    requires i < |w.tasks|
    requires !w.tasks[i].Api? && !IsDone(w.tasks[i].prog) ==>
               if w.tasks[i].prog.Settle? then p == Finished else !IsDone(p)
    requires IsDone(w.tasks[i].prog) ==> IsDone(p)
    ensures var t, o := w.tasks[i], i in w.orphans;
            && Times(InHand(t, o, false), m) ==
                 Times(InHand(WithProg(t, p), o, false), m)
                 + Times(IfHeld(w, i, Acked(t)), m) + Times(IfHeld(w, i, Nacked(t)), m)
            && Times(InHand(t, o, true), m) ==
                 Times(InHand(WithProg(t, p), o, true), m) + Times(IfHeld(w, i, Retired(t)), m)
  {
    var t := w.tasks[i];
    if t.Consumer? && t.prog.Settle? { assert t.prog == ACK || t.prog == NACK; }
  }

  lemma StepMoves(c: Config, db: Db, t: Task, turn: Turn)
    requires WillSettle(t)
    ensures var p := Effect(c, db, t, turn).prog;
            && WillSettle(WithProg(t, p))
            && (!t.Api? && !IsDone(t.prog) ==> if t.prog.Settle? then p == Finished else !IsDone(p))
            && (IsDone(t.prog) ==> IsDone(p))
  {
    if !t.Api? && !IsDone(t.prog) { StepSettles(c, db, t, turn); }
  }

  lemma RunBalances(c: Config, w: World, i: nat, turn: Turn, m: Msg)
    requires Settling(w) && Balanced(w, m) && i < |w.tasks|
    ensures Balanced(RunTask(c, w, i, turn), m)
  {
    hide Effect, Acked, Nacked, Retired, IfHeld, InHand;
    var t := w.tasks[i];
    var d := Effect(c, w.db, t, turn);
    var t' := WithProg(t, d.prog);
    StepMoves(c, w.db, t, turn);
    HandOver(w, i, d.prog, m);
    UnackedUpdate(w.tasks, i, t', w.orphans, w.orphans, false, m);
    UnackedUpdate(w.tasks, i, t', w.orphans, w.orphans, true, m);
    TimesConcat(w.published, d.out, m);
    TimesConcat(w.ready, d.out, m);
    TimesConcat(w.acked, IfHeld(w, i, Acked(t)), m);
    TimesConcat(w.dead, IfHeld(w, i, Nacked(t)), m);
    TimesConcat(w.failed, IfHeld(w, i, Nacked(t)), m);
    TimesConcat(w.retired, IfHeld(w, i, Retired(t)), m);
  }

  /** A redelivery of either kind takes one copy of the message of task i, if the task still holds one, from
      unacked back to its queue. */
  lemma RedeliveryMoves(w: World, i: nat, w': World, m: Msg)
    requires i < |w.tasks| && !IsDone(w.tasks[i].prog) && (w' == CrashTask(w, i) || w' == SeverTask(w, i))
    ensures Times(w'.ready, m) == Times(w.ready, m) + Times(InHand(w.tasks[i], i in w.orphans, false), m)
    ensures Unacked(w.tasks, w.orphans, false, m) ==
            Unacked(w'.tasks, w'.orphans, false, m) + Times(InHand(w.tasks[i], i in w.orphans, false), m)
    ensures Times(w'.failed, m) == Times(w.failed, m) + Times(InHand(w.tasks[i], i in w.orphans, true), m)
    ensures Unacked(w.tasks, w.orphans, true, m) ==
            Unacked(w'.tasks, w'.orphans, true, m) + Times(InHand(w.tasks[i], i in w.orphans, true), m)
    ensures w' == w.(ready := w'.ready, failed := w'.failed, tasks := w'.tasks, orphans := w'.orphans)
  {
    var t := w.tasks[i];
    assert w.tasks[i := t] == w.tasks;
    UnackedUpdate(w.tasks, i, w'.tasks[i], w.orphans, w'.orphans, false, m);
    UnackedUpdate(w.tasks, i, w'.tasks[i], w.orphans, w'.orphans, true, m);
    if !t.Api? {
      TimesConcat(w.ready, [t.msg], m);
      TimesConcat(w.failed, [t.msg], m);
    }
  }

  lemma RedeliveryBalances(w: World, i: nat, w': World, m: Msg)
    requires Balanced(w, m) && i < |w.tasks| && (w' == CrashTask(w, i) || w' == SeverTask(w, i))
    ensures Balanced(w', m)
  {
    if !IsDone(w.tasks[i].prog) { RedeliveryMoves(w, i, w', m); }
  }

  lemma SubmitBalances(w: World, t: Task, m: Msg)
    requires Settling(w) && Balanced(w, m) && t.Api?
    ensures Balanced(w.(tasks := w.tasks + [t]), m)
  {
    UnackedAppend(w.tasks, t, w.orphans, false, m);
    UnackedAppend(w.tasks, t, w.orphans, true, m);
  }

  lemma DeliverBalances(w: World, k: nat, m: Msg)
    requires Settling(w) && Balanced(w, m) && k < |w.ready|
    ensures Balanced(w.(ready := Without(w.ready, k), tasks := w.tasks + [Consumer(w.ready[k], Start)]), m)
  {
    TimesWithout(w.ready, k, m);
    UnackedAppend(w.tasks, Consumer(w.ready[k], Start), w.orphans, false, m);
    UnackedAppend(w.tasks, Consumer(w.ready[k], Start), w.orphans, true, m);
  }

  lemma CollectBalances(w: World, k: nat, m: Msg)
    requires Settling(w) && Balanced(w, m) && k < |w.failed|
    ensures Balanced(w.(failed := Without(w.failed, k), tasks := w.tasks + [Rollbacker(w.failed[k], Start)]), m)
  {
    TimesWithout(w.failed, k, m);
    UnackedAppend(w.tasks, Rollbacker(w.failed[k], Start), w.orphans, false, m);
    UnackedAppend(w.tasks, Rollbacker(w.failed[k], Start), w.orphans, true, m);
  }

  lemma AdminBalances(c: Config, w: World, e: Event, m: Msg)
    requires Balanced(w, m) && IsAdmin(e)
    ensures Balanced(Apply(c, w, e), m)
  {
    hide Apply;
    AdminKeepsStory(c, w, e);
  }

  lemma QueuesBalance(c: Config, w: World, e: Event, m: Msg)
    requires Settling(w) && Balanced(w, m) && (e.Submit? || e.Deliver? || e.Collect?)
    ensures Balanced(Apply(c, w, e), m)
  {
    match e
    case Submit(s, r) => SubmitBalances(w, Api(s, r, Start), m);
    case Deliver(k) => if k < |w.ready| { DeliverBalances(w, k, m); }
    case Collect(k) => if k < |w.failed| { CollectBalances(w, k, m); }
  }

  lemma ApplyBalances(c: Config, w: World, e: Event, m: Msg)
    requires Settling(w) && Balanced(w, m)
    ensures Balanced(Apply(c, w, e), m)
  {
    if IsAdmin(e) { AdminBalances(c, w, e, m); }
    else if e.Submit? || e.Deliver? || e.Collect? { QueuesBalance(c, w, e, m); }
    else if e.Run? { if e.task < |w.tasks| { RunBalances(c, w, e.task, e.turn, m); } }
    else if e.Crash? { if e.victim < |w.tasks| { RedeliveryBalances(w, e.victim, CrashTask(w, e.victim), m); } }
    else if e.cut < |w.tasks| { RedeliveryBalances(w, e.cut, SeverTask(w, e.cut), m); }
  }

  lemma ApplySettles(c: Config, w: World, e: Event)
    requires Settling(w)
    ensures Settling(Apply(c, w, e))
  {
    if e.Run? && e.task < |w.tasks| { StepMoves(c, w.db, w.tasks[e.task], e.turn); }
  }

  /** After any run, the messages ever published are exactly those ready, unacked, acknowledged or
      dead-lettered, counted with multiplicity; and the dead-lettered ones are exactly those waiting for,
      held by, or consumed by the rollback worker. */
  lemma {:induction false} MessagesConserved(c: Config, events: seq<Event>, m: Msg)
    ensures Settling(Exec(c, INITIAL, events)) && Balanced(Exec(c, INITIAL, events), m)
  {
    if events != [] {
      MessagesConserved(c, events[..|events| - 1], m);
      var w := Exec(c, INITIAL, events[..|events| - 1]);
      ApplySettles(c, w, events[|events| - 1]);
      ApplyBalances(c, w, events[|events| - 1], m);
    }
  }

  /** Whether the worker has died or only lost its connection, redelivery moves one copy of the message in hand from
      unacked back to its queue and changes nothing else; a handler that has lost its message has none to give. */
  lemma RedeliveryMovesOneMessage(w: World, i: nat, w': World, m: Msg)
    requires i < |w.tasks| && w.tasks[i].Consumer? && !IsDone(w.tasks[i].prog)
    requires w' == CrashTask(w, i) || w' == SeverTask(w, i)
    ensures var copy := if i in w.orphans then 0 else Times([w.tasks[i].msg], m);
            && Times(w'.ready, m) - Times(w.ready, m) == copy
            && Unacked(w.tasks, w.orphans, false, m) - Unacked(w'.tasks, w'.orphans, false, m) == copy
            && w' == w.(ready := w'.ready, tasks := w'.tasks, orphans := w'.orphans)
  {
    RedeliveryMoves(w, i, w', m);
  }
}
