/** The coarse-grained runs: each handler run and each API call happens in one go, from its first read to
    its settling step, though AWS, the broker and (unless stated otherwise) the database may still fail
    anywhere inside it, and its message may still be redelivered afterwards. */
module Coarse {
  import opened Pipeline
  import opened Store
  import opened Handlers
  import opened Machine
  import opened Steps

  // ---- running one task to its settling step ----

  /** What the outside world does to the successive steps of a handler run. */
  type Tape = nat -> Turn

  /** A bound on the number of steps a program still takes. */
  function Span(p: Prog): nat {
    match p
    case Start => 20
    case Ask => 9
    case Act(_) => 8
    case Undo(plan, _, _) => 4 + |plan|
    case SaveAws(next) => 2 + Span(next)
    case Move(_, _, next) => 2 + Span(next)
    case Publish(_, next) => 2 + Span(next)
    case Settle(_) => 1
    case Finished => 0
    case Crashed => 0
  }

  predicate Resting(p: Prog) { p.Settle? || IsDone(p) }

  lemma ReachabilitySpan(m: Msg, statuses: seq<InstanceStatus>, gate: State)
    ensures Span(Reachability(m, statuses, gate)) <= 3
  {
    assert Span(ACK) == 1;
  }

  lemma PollSpan(m: Msg, a: Answer)
    ensures Span(AfterAsk(m, a)) <= 8
  {
    assert Span(ACK) == 1;
    if a.Statuses? {
      ReachabilitySpan(m, a.statuses, AwaitingTestValidation);
      ReachabilitySpan(m, a.statuses, AwaitingCutoverValidation);
    }
    assert Span(InProgress(m)) <= 3;
  }

  lemma ActSpan(m: Msg, a: Answer)
    ensures Span(AfterAct(m, a)) <= 5
  {
    assert Span(ACK) == 1;
  }

  lemma RequestSpan(s: string, r: Request, row: Row)
    ensures Span(AfterRequire(s, r, row)) <= 4
  {
    assert Span(Finished) == 0;
  }

  lemma StartShortens(c: Config, db: Db, t: Task, l: Luck)
    ensures Span(StartEffect(c, db, t, l).prog) < Span(Start)
  {
    if ServerOf(t) in db.rows {
      var row := db.rows[ServerOf(t)];
      if t.Api? { RequestSpan(t.server, t.request, row); }
      else if t.Rollbacker? && !IsTerminal(row.current) { RollbackGroups(row.current, row.aws); }
    }
  }

  lemma UndoShortens(c: Config, db: Db, t: Task, turn: Turn)
    requires t.prog.Undo?
    ensures Span(Effect(c, db, t, turn).prog) < Span(t.prog)
  {
    assert Span(ACK) == 1;
  }

  lemma StepShortens(c: Config, db: Db, t: Task, turn: Turn)
    requires !Resting(t.prog)
    ensures Span(Effect(c, db, t, turn).prog) < Span(t.prog)
  {
    hide StartEffect, AfterAsk, AfterAct, RunPlan;
    match t.prog
    case Start => StartShortens(c, db, t, DbLuck(c, turn.luck));
    case Ask => if t.Consumer? { PollSpan(t.msg, turn.answer); }
    case Act(_) => if t.Consumer? { ActSpan(t.msg, turn.answer); }
    case Undo(_, _, _) => UndoShortens(c, db, t, turn);
    case _ =>
  }

  function Drive(c: Config, w: World, i: nat, tape: Tape, n: nat): (w': World)
    requires i < |w.tasks|
    ensures |w'.tasks| == |w.tasks| && Resting(w'.tasks[i].prog)
    decreases Span(w.tasks[i].prog)
  {
    if Resting(w.tasks[i].prog) then w
    else
      StepShortens(c, w.db, w.tasks[i], tape(n));
      Drive(c, RunTask(c, w, i, tape(n)), i, tape, n + 1)
  }

  datatype Burst =
    | Admin(event: Machine.Event)                         // batches, registrations, assignments to batches
    | Serve(server: string, request: Request, tape: Tape)
    | Handle(ready: nat, tape: Tape, lost: bool)          // lost: the settlement never reaches the broker
    | Recover(failed: nat, tape: Tape, lost: bool)

  const SETTLE_TURN := Turn(Fine, Raised)

  function Conclude(c: Config, w: World, i: nat, lost: bool): World
    requires i < |w.tasks|
  {
    if lost then CrashTask(w, i) else RunTask(c, w, i, SETTLE_TURN)
  }

  function Opening(b: Burst): Machine.Event {
    match b
    case Admin(e) => e
    case Serve(s, r, _) => Submit(s, r)
    case Handle(k, _, _) => Deliver(k)
    case Recover(k, _, _) => Collect(k)
  }

  function ApplyBurst(c: Config, w: World, b: Burst): World {
    var w1 := Apply(c, w, Opening(b));
    if b.Admin? then (if IsAdmin(b.event) then w1 else w)
    else if |w1.tasks| == |w.tasks| then w
    else
      var w2 := Drive(c, w1, |w.tasks|, b.tape, 0);
      Conclude(c, w2, |w.tasks|, !b.Serve? && b.lost)
  }

  function ExecBursts(c: Config, w: World, bs: seq<Burst>): World {
    if bs == [] then w else ApplyBurst(c, ExecBursts(c, w, bs[..|bs| - 1]), bs[|bs| - 1])
  }

  // ---- every coarse run is a fine-grained run ----

  lemma DriveIsFine(c: Config, w: World, i: nat, tape: Tape, n: nat) returns (events: seq<Machine.Event>)
    requires i < |w.tasks|
    ensures Exec(c, w, events) == Drive(c, w, i, tape, n)
    decreases Span(w.tasks[i].prog)
  {
    hide Effect;
    if Resting(w.tasks[i].prog) {
      events := [];
    } else {
      StepShortens(c, w.db, w.tasks[i], tape(n));
      var first := Run(i, tape(n));
      var rest := DriveIsFine(c, RunTask(c, w, i, tape(n)), i, tape, n + 1);
      events := [first] + rest;
      ExecConcat(c, w, [first], rest);
      assert Exec(c, w, [first]) == Apply(c, w, first) by { assert [first][..0] == []; }
    }
  }

  lemma ExecOne(c: Config, w: World, e: Machine.Event)
    ensures Exec(c, w, [e]) == Apply(c, w, e)
  {
    assert [e][..0] == [];
  }

  lemma ExecThrice(c: Config, w: World, first: Machine.Event, middle: seq<Machine.Event>, last: Machine.Event)
    ensures Exec(c, w, [first] + (middle + [last])) == Apply(c, Exec(c, Apply(c, w, first), middle), last)
  {
    var w1 := Apply(c, w, first);
    ExecOne(c, w, first);
    ExecConcat(c, w, [first], middle + [last]);
    ExecConcat(c, w1, middle, [last]);
    ExecOne(c, Exec(c, w1, middle), last);
  }

  lemma BurstUnfolds(c: Config, w: World, b: Burst)
    requires !b.Admin? && |Apply(c, w, Opening(b)).tasks| != |w.tasks|
    ensures var last := if !b.Serve? && b.lost then Crash(|w.tasks|) else Run(|w.tasks|, SETTLE_TURN);
            |Apply(c, w, Opening(b)).tasks| == |w.tasks| + 1
            && ApplyBurst(c, w, b) == Apply(c, Drive(c, Apply(c, w, Opening(b)), |w.tasks|, b.tape, 0), last)
  {
  }

  lemma BurstIsFine(c: Config, w: World, b: Burst) returns (events: seq<Machine.Event>)
    ensures Exec(c, w, events) == ApplyBurst(c, w, b)
  {
    var i := |w.tasks|;
    var w1 := Apply(c, w, Opening(b));
    if b.Admin? {
      ExecOne(c, w, b.event);
      events := if IsAdmin(b.event) then [b.event] else [];
    } else if |w1.tasks| == i {
      events := [];
    } else {
      assert |w1.tasks| == i + 1;
      var middle := DriveIsFine(c, w1, i, b.tape, 0);
      var last := if !b.Serve? && b.lost then Crash(i) else Run(i, SETTLE_TURN);
      events := [Opening(b)] + (middle + [last]);
      BurstUnfolds(c, w, b);
      ExecThrice(c, w, Opening(b), middle, last);
    }
  }

  /** Whatever holds after every fine-grained run holds after every coarse one. */
  lemma {:induction false} CoarseRunsAreFine(c: Config, bs: seq<Burst>) returns (events: seq<Machine.Event>)
    ensures Exec(c, INITIAL, events) == ExecBursts(c, INITIAL, bs)
  {
    if bs == [] {
      events := [];
    } else {
      var init := bs[..|bs| - 1];
      var first := CoarseRunsAreFine(c, init);
      var second := BurstIsFine(c, ExecBursts(c, INITIAL, init), bs[|bs| - 1]);
      ExecConcat(c, INITIAL, first, second);
      events := first + second;
    }
  }
}
