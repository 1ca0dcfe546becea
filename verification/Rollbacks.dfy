/** One rollback, followed from its read of the servers row to its write, with everything else going on in between. */
module Rollbacks {
  import opened Pipeline
  import opened Store
  import opened AuditTrail
  import opened Handlers
  import opened Machine
  import opened Safety
  import opened Steps
  import opened Guarantees

  // ---- every rollback lands ----

  /** A rollback on its way to an error state, or done with a server that has landed since the history had n rows. */
  ghost predicate Rolling(db: Db, t: Task, n: nat) {
    && t.Rollbacker? && t.msg.server in db.rows
    && match t.prog
       case Start => true
       case Undo(plan, final, _) => plan != [] && IsError(final)
       case Move(to, _, next) => IsError(to) && next == ACK
       case Settle(_) => Landed(db, t.msg.server, n)
       case Finished => Landed(db, t.msg.server, n)
       case Crashed => true
       case _ => false
  }

  lemma PlanRolls(db: Db, m: Msg, plan: seq<AwsCall>, final: State, seen: State, n: nat)
    requires m.server in db.rows && IsError(final)
    ensures Rolling(db, Rollbacker(m, RunPlan(plan, final, seen, m)), n)
  {
  }

  lemma ReadRolls(c: Config, db: Db, t: Task, turn: Turn, n: nat)
    requires c.dbUp && Rolling(db, t, n) && t.prog.Start? && t.msg.server != ""
    ensures var d := Effect(c, db, t, turn); d.db == db && Rolling(db, WithProg(t, d.prog), n)
  {
    var row := db.rows[t.msg.server];
    if !IsTerminal(row.current) {
      var (plan, final) := RollbackPlan(row.current, row.aws);
      RollbackGroups(row.current, row.aws);
      PlanRolls(db, t.msg, plan, final, row.current, n);
    }
  }

  /** The write: it either takes the server to an error state or is refused because the server is in a terminal one. */
  lemma WriteLands(c: Config, db: Db, t: Task, turn: Turn, n: nat)
    requires c.dbUp && Rolling(db, t, n) && t.prog.Move?
    ensures var d := Effect(c, db, t, turn); Rolling(d.db, WithProg(t, d.prog), n)
  {
    TableIsPipeline(db.rows[t.msg.server].current, t.prog.to);
    RankBounds(db.rows[t.msg.server].current);
  }

  lemma StepRolls(c: Config, db: Db, t: Task, turn: Turn, n: nat)
    requires c.dbUp && Rolling(db, t, n) && t.msg.server != ""
    ensures var d := Effect(c, db, t, turn); Rolling(d.db, WithProg(t, d.prog), n)
  {
    match t.prog
    case Start => ReadRolls(c, db, t, turn, n);
    case Undo(plan, final, seen) =>
      PlanRolls(db, t.msg, plan[1..], final, seen, n);
      PlanRolls(db, t.msg, [], Frozen, seen, n);
    case Move(_, _, _) => WriteLands(c, db, t, turn, n);
    case _ =>
  }

  lemma ApplyRolls(c: Config, w: World, e: Event, i: nat, n: nat)
    requires Inv(c, w) && c.dbUp && i < |w.tasks| && n <= |w.db.history|
    requires Rolling(w.db, w.tasks[i], n) && w.tasks[i].msg.server != ""
    ensures var w' := Apply(c, w, e);
            && i < |w'.tasks| && n <= |w'.db.history|
            && Rolling(w'.db, w'.tasks[i], n) && w'.tasks[i].msg == w.tasks[i].msg
  {
    hide Inv, Effect, Landed;
    var w' := Apply(c, w, e);
    ApplyGrows(c, w, e);
    if e.Run? && e.task == i {
      StepRolls(c, w.db, w.tasks[i], e.turn, n);
    } else {
      OthersStay(c, w, e, i);
    }
  }

  /** A step of another task leaves task i alone; a crash only ends it. */
  lemma OthersStay(c: Config, w: World, e: Event, i: nat)
    requires i < |w.tasks| && !(e.Run? && e.task == i)
    ensures var w' := Apply(c, w, e);
            i < |w'.tasks| && (w'.tasks[i] == w.tasks[i] || w'.tasks[i] == WithProg(w.tasks[i], Crashed))
  {
  }

  lemma {:induction false} RunRolls(c: Config, past: seq<Event>, more: seq<Event>, i: nat)
    requires c.dbUp && i < |WorldAfter(c, past).tasks|
    requires var t := WorldAfter(c, past).tasks[i]; t.Rollbacker? && t.prog.Start? && t.msg.server != ""
    ensures var n, w := |WorldAfter(c, past).db.history|, WorldAfter(c, past + more);
            && i < |w.tasks| && n <= |w.db.history| && Rolling(w.db, w.tasks[i], n)
            && w.tasks[i].msg == WorldAfter(c, past).tasks[i].msg
  {
    hide Inv, Apply;
    if more == [] {
      assert past + more == past;
      RunsKeep(c, past);
      FreshRolls(c, WorldAfter(c, past), i);
    } else {
      var init := more[..|more| - 1];
      RunRolls(c, past, init, i);
      RunsKeep(c, past + init);
      assert (past + more)[..|past + more| - 1] == past + init;
      ApplyRolls(c, WorldAfter(c, past + init), more[|more| - 1], i, |WorldAfter(c, past).db.history|);
    }
  }

  lemma FreshRolls(c: Config, w: World, i: nat)
    requires Inv(c, w) && i < |w.tasks| && w.tasks[i].Rollbacker? && w.tasks[i].prog.Start?
    ensures Rolling(w.db, w.tasks[i], |w.db.history|)
  {
    assert TaskOk(c, w.db, w.tasks[i]);
  }

  /** With the database up, a rollback that has run from its read to its end leaves its server in a terminal state,
      whatever went on meanwhile, unless an engineer reset the server after the rollback had begun. The one exception
      is a server whose id is the empty string: see RollbackDiscards. */
  lemma {:induction false} RollbackLands(c: Config, past: seq<Event>, more: seq<Event>, i: nat)
    requires c.dbUp && i < |WorldAfter(c, past).tasks|
    requires var t := WorldAfter(c, past).tasks[i]; t.Rollbacker? && t.prog.Start? && t.msg.server != ""
    requires i < |WorldAfter(c, past + more).tasks| && WorldAfter(c, past + more).tasks[i].prog.Finished?
    ensures var n, db := |WorldAfter(c, past).db.history|, WorldAfter(c, past + more).db;
            var s := WorldAfter(c, past).tasks[i].msg.server;
            && s in db.rows
            && (db.rows[s].current in {Failed, Frozen, CleanupComplete}
                || exists k :: n <= k < |db.history| && db.history[k].server == s && db.history[k].why.WasReset?)
  {
    RunRolls(c, past, more, i);
  }

  // ---- when a failure crosses the commit point ----

  lemma {:induction false} InCurrentEpoch(h: seq<Entry>, s: string, k: nat)
    requires k < |h| && h[k].server == s
    requires forall j :: k <= j < |h| && h[j].server == s ==> !h[j].why.WasReset?
    ensures h[k] in Epoch(LogOf(h, s))
  {
    var n := |h| - 1;
    LogAppend(h[..n], h[n], s);
    assert h == h[..n] + [h[n]];
    if k < n { InCurrentEpoch(h[..n], s, k); }
    if h[n].server == s {
      var log := LogOf(h[..n], s);
      assert (log + [h[n]])[..|log|] == log;
    } else {
      assert LogOf(h[..n], s) + [] == LogOf(h[..n], s);
    }
  }

  lemma {:induction false} EpochRowAt(h: seq<Entry>, s: string, x: Entry) returns (k: nat)
    requires x in Epoch(LogOf(h, s))
    ensures k < |h| && h[k] == x && x.server == s
    ensures forall j :: k <= j < |h| && h[j].server == s ==> !h[j].why.WasReset?
  {
    var n := |h| - 1;
    var log := LogOf(h[..n], s);
    if h[n].server != s {
      k := EpochRowAt(h[..n], s, x);
    } else {
      assert (log + [h[n]])[..|log|] == log;
      if h[n] == x { k := n; } else { k := EpochRowAt(h[..n], s, x); }
    }
  }

  /** Among the rows after the first |h| of h', one approves the gate for the server, and no reset comes after it. */
  ghost predicate ApprovedBetween(h: seq<Entry>, h': seq<Entry>, s: string, g: Gate) {
    exists k :: |h| <= k < |h'| && IsStandingApproval(h', s, g, k)
  }

  ghost predicate IsStandingApproval(h: seq<Entry>, s: string, g: Gate, k: nat)
    requires k < |h|
  {
    && h[k].server == s && h[k].why == Approved(g)
    && forall j :: k <= j < |h| && h[j].server == s ==> !h[j].why.WasReset?
  }

  lemma ApprovedFar(db: Db, s: string, k: nat)
    requires DbOk(db) && s in db.rows && k < |db.history| && IsStandingApproval(db.history, s, CutoverLaunchGate, k)
    ensures 14 <= |Epoch(LogOf(db.history, s))|
  {
    hide LogOf, DbOk;
    var e := CurrentEpoch(db, s);
    InCurrentEpoch(db.history, s, k);
    var i :| 0 <= i < |e| && e[i] == db.history[k];
    assert e[i] in e;
    ApprovalPosition(e, i, CutoverLaunchGate);
  }

  /** Before the commit point, the approval has not been given in this epoch. */
  lemma StandingIsLate(db: Db, db': Db, s: string, k: nat)
    requires DbOk(db) && s in db.rows && Rank(db.rows[s].current) < Rank(CutoverStarted)
    requires db.history <= db'.history && k < |db'.history| && IsStandingApproval(db'.history, s, CutoverLaunchGate, k)
    ensures |db.history| <= k
  {
    hide DbOk;
    if k < |db.history| {
      assert forall j :: 0 <= j < |db.history| ==> db.history[j] == db'.history[j];
      ApprovedFar(db, s, k);
      var e := CurrentEpoch(db, s);
      RankBounds(db.rows[s].current);
    }
  }

  lemma CrossedMeansApproved(db: Db, db': Db, s: string)
    requires DbOk(db) && DbOk(db') && db.history <= db'.history && s in db.rows && s in db'.rows
    requires Rank(db.rows[s].current) < Rank(CutoverStarted) <= Rank(db'.rows[s].current)
    requires !IsError(db'.rows[s].current)
    ensures ApprovedBetween(db.history, db'.history, s, CutoverLaunchGate)
  {
    hide DbOk, Epoch, LogOf;
    var e := CurrentEpoch(db', s);
    ApprovalPresent(e, CutoverLaunchGate);
    var k := EpochRowAt(db'.history, s, e[13]);
    assert IsStandingApproval(db'.history, s, CutoverLaunchGate, k);
    StandingIsLate(db, db', s, k);
  }

  /** A server seen before the commit point is later past it exactly when the cutover launch has been approved in the
      meantime and the server not been reset since. */
  lemma CommitPointCrossed(db: Db, db': Db, s: string)
    requires DbOk(db) && DbOk(db') && db.history <= db'.history && s in db.rows && s in db'.rows
    requires Rank(db.rows[s].current) < Rank(CutoverStarted) && !IsError(db'.rows[s].current)
    ensures Rank(CutoverStarted) <= Rank(db'.rows[s].current) <==>
              ApprovedBetween(db.history, db'.history, s, CutoverLaunchGate)
  {
    hide DbOk;
    if Rank(CutoverStarted) <= Rank(db'.rows[s].current) {
      CrossedMeansApproved(db, db', s);
    } else if ApprovedBetween(db.history, db'.history, s, CutoverLaunchGate) {
      var k :| |db.history| <= k < |db'.history| && IsStandingApproval(db'.history, s, CutoverLaunchGate, k);
      ApprovedFar(db', s, k);
      var e := CurrentEpoch(db', s);
    }
  }

  /** The same of any two moments of a fine-grained run. */
  lemma {:induction false} CommitPointCrossedInRun(c: Config, past: seq<Event>, more: seq<Event>, s: string)
    requires s in WorldAfter(c, past).db.rows
    requires Rank(WorldAfter(c, past).db.rows[s].current) < Rank(CutoverStarted)
    requires s in WorldAfter(c, past + more).db.rows && !IsError(WorldAfter(c, past + more).db.rows[s].current)
    ensures var db, db' := WorldAfter(c, past).db, WorldAfter(c, past + more).db;
            Rank(CutoverStarted) <= Rank(db'.rows[s].current) <==>
              ApprovedBetween(db.history, db'.history, s, CutoverLaunchGate)
  {
    hide WorldAfter, DbOk, ApprovedBetween;
    RunsAreOk(c, past);
    RunsAreOk(c, past + more);
    TablesOnlyGrow(c, past, more);
    CommitPointCrossed(WorldAfter(c, past).db, WorldAfter(c, past + more).db, s);
  }

  lemma RunsAreOk(c: Config, events: seq<Event>)
    ensures DbOk(WorldAfter(c, events).db)
  {
    RunsKeep(c, events);
  }

  // ---- a decision, from the read it rests on to its write ----

  /** A task that may take a server to FAILED: a rollback, or the serving of a rejection. */
  predicate MayFail(t: Task) { t.Rollbacker? || (t.Api? && t.request.Reject?) }

  /** What the task has still to do rests on having read that the server is in state st. */
  predicate Saw(t: Task, st: State) {
    && MayFail(t)
    && match t.prog
       case Undo(_, _, seen) => seen == st
       case Move(_, why, next) =>
         && (next == ACK || next == Finished)
         && ((why.RolledBack? && why.seen == st) || (why.Rejected? && GateState(why.gate) == st))
       case Settle(_) => true
       case Finished => true
       case Crashed => true
       case _ => false
  }

  lemma ReadSees(c: Config, db: Db, t: Task, turn: Turn)
    requires MayFail(t) && t.prog.Start? && ServerOf(t) in db.rows
    ensures var d := Effect(c, db, t, turn); d.db == db && Saw(WithProg(t, d.prog), db.rows[ServerOf(t)].current)
  {
    var row := db.rows[ServerOf(t)];
    if t.Rollbacker? && !IsTerminal(row.current) { RollbackGroups(row.current, row.aws); }
  }

  lemma StepSaw(c: Config, db: Db, t: Task, turn: Turn, st: State)
    requires Saw(t, st)
    ensures Saw(WithProg(t, Effect(c, db, t, turn).prog), st)
  {
  }

  lemma {:induction false} StillSaw(c: Config, w: World, more: seq<Event>, i: nat, st: State)
    requires i < |w.tasks| && Saw(w.tasks[i], st)
    ensures var w' := Exec(c, w, more);
            i < |w'.tasks| && Saw(w'.tasks[i], st) && ServerOf(w'.tasks[i]) == ServerOf(w.tasks[i])
  {
    hide Apply, Effect;
    if more != [] {
      var e := more[|more| - 1];
      var mid := Exec(c, w, more[..|more| - 1]);
      StillSaw(c, w, more[..|more| - 1], i, st);
      if e.Run? && e.task == i { OwnStep(c, mid, i, e.turn); StepSaw(c, mid.db, mid.tasks[i], e.turn, st); }
      else { OthersStay(c, mid, e, i); }
    }
  }

  lemma OwnStep(c: Config, w: World, i: nat, turn: Turn)
    requires i < |w.tasks|
    ensures var w' := Apply(c, w, Run(i, turn));
            && |w'.tasks| == |w.tasks|
            && w'.tasks[i] == WithProg(w.tasks[i], Effect(c, w.db, w.tasks[i], turn).prog)
            && w'.db == Effect(c, w.db, w.tasks[i], turn).db
  {
  }

  /** The row with which task i carries out its decision. */
  function FailureRow(w: World, i: nat): Entry
    requires i < |w.tasks| && w.tasks[i].prog.Move? && ServerOf(w.tasks[i]) in w.db.rows
  {
    var t := w.tasks[i];
    Entry(ServerOf(t), w.db.rows[ServerOf(t)].current, t.prog.to, ActorOf(t), t.prog.why)
  }

  lemma {:induction false} SameKind(c: Config, w: World, more: seq<Event>, i: nat)
    requires i < |w.tasks|
    ensures var w' := Exec(c, w, more); i < |w'.tasks| && (w.tasks[i].Rollbacker? <==> w'.tasks[i].Rollbacker?)
  {
    hide Apply, Effect;
    if more != [] {
      var e := more[|more| - 1];
      var mid := Exec(c, w, more[..|more| - 1]);
      SameKind(c, w, more[..|more| - 1], i);
      if e.Run? && e.task == i { OwnStep(c, mid, i, e.turn); } else { OthersStay(c, mid, e, i); }
    }
  }

  /** What is known at the write, whatever has happened since the read. */
  lemma {:induction false} ReadToWrite(c: Config, past: seq<Event>, read: Turn, more: seq<Event>, i: nat)
    requires i < |WorldAfter(c, past).tasks|
    requires var w1 := WorldAfter(c, past);
             MayFail(w1.tasks[i]) && w1.tasks[i].prog.Start? && ServerOf(w1.tasks[i]) in w1.db.rows
    ensures var w1, w2 := WorldAfter(c, past), WorldAfter(c, past + [Run(i, read)] + more);
            && DbOk(w1.db) && DbOk(w2.db) && w1.db.history <= w2.db.history
            && i < |w2.tasks| && TaskOk(c, w2.db, w2.tasks[i])
            && ServerOf(w2.tasks[i]) == ServerOf(w1.tasks[i])
            && (w1.tasks[i].Rollbacker? <==> w2.tasks[i].Rollbacker?)
            && Saw(w2.tasks[i], w1.db.rows[ServerOf(w1.tasks[i])].current)
  {
    hide Effect, Apply, DbOk, Saw;
    var w1, mid := WorldAfter(c, past), past + [Run(i, read)];
    RunsKeep(c, past);
    RunsKeep(c, mid + more);
    assert mid[..|past|] == past;
    OwnStep(c, w1, i, read);
    ReadSees(c, w1.db, w1.tasks[i], read);
    ExecConcat(c, INITIAL, mid, more);
    StillSaw(c, WorldAfter(c, mid), more, i, w1.db.rows[ServerOf(w1.tasks[i])].current);
    SameKind(c, WorldAfter(c, mid), more, i);
    assert past + ([Run(i, read)] + more) == mid + more;
    TablesOnlyGrow(c, past, [Run(i, read)] + more);
  }

  lemma FailureWritten(c: Config, w: World, i: nat, write: Turn)
    requires i < |w.tasks| && w.tasks[i].prog.Move? && w.tasks[i].prog.to.Failed?
    requires !DbLuck(c, write.luck).Before? && ServerOf(w.tasks[i]) in w.db.rows
    requires !IsTerminal(w.db.rows[ServerOf(w.tasks[i])].current)
    ensures Effect(c, w.db, w.tasks[i], write).db.history == w.db.history + [FailureRow(w, i)]
  {
    var st := w.db.rows[ServerOf(w.tasks[i])].current;
    TableIsPipeline(st, Failed);
    RankBounds(st);
  }

  /** The exact condition under which commit-zone safety fails. Task i, a rollback or a rejection, reads its server
      before the commit point, anything at all happens, and it writes FAILED. The row it writes leaves a state past
      the commit point if and only if the cutover launch was approved between the read and the write, and the server
      was not reset after that. */
  lemma {:induction false} FailureCrossesCommitPoint(
      c: Config, past: seq<Event>, read: Turn, more: seq<Event>, i: nat, write: Turn)
    requires i < |WorldAfter(c, past).tasks|
    requires var w1 := WorldAfter(c, past);
             var t := w1.tasks[i];
             && MayFail(t) && t.prog.Start? && ServerOf(t) in w1.db.rows
             && Rank(w1.db.rows[ServerOf(t)].current) < Rank(CutoverStarted)
    requires i < |WorldAfter(c, past + [Run(i, read)] + more).tasks|
    requires var w2 := WorldAfter(c, past + [Run(i, read)] + more);
             var t := w2.tasks[i];
             && t.prog.Move? && t.prog.to.Failed? && !DbLuck(c, write.luck).Before?
             && ServerOf(t) in w2.db.rows && !IsTerminal(w2.db.rows[ServerOf(t)].current)
    ensures var w1, w2 := WorldAfter(c, past), WorldAfter(c, past + [Run(i, read)] + more);
            var x := FailureRow(w2, i);
            && x.server == ServerOf(w1.tasks[i])
            && Apply(c, w2, Run(i, write)).db.history == w2.db.history + [x]
            && (Rank(CutoverStarted) <= Rank(x.from) <==>
                  ApprovedBetween(w1.db.history, w2.db.history, x.server, CutoverLaunchGate))
  {
    hide Effect, Apply, Exec, WorldAfter, DbOk, ApprovedBetween;
    var w1, w2 := WorldAfter(c, past), WorldAfter(c, past + [Run(i, read)] + more);
    ReadToWrite(c, past, read, more, i);
    CommitPointCrossed(w1.db, w2.db, ServerOf(w1.tasks[i]));
    OwnStep(c, w2, i, write);
    FailureWritten(c, w2, i, write);
  }

  lemma SawEarly(c: Config, db: Db, t: Task, st: State)
    requires TaskOk(c, db, t) && Saw(t, st) && t.Rollbacker? && t.prog.Move? && t.prog.to.Failed?
    ensures Rank(st) < Rank(CutoverStarted)
  {
  }

  /** A rollback that is about to write FAILED did read its server before the commit point. */
  lemma {:induction false} RollbackReadEarly(c: Config, past: seq<Event>, read: Turn, more: seq<Event>, i: nat)
    requires i < |WorldAfter(c, past).tasks|
    requires var w1 := WorldAfter(c, past);
             var t := w1.tasks[i];
             t.Rollbacker? && t.prog.Start? && t.msg.server in w1.db.rows
    requires i < |WorldAfter(c, past + [Run(i, read)] + more).tasks|
    requires var t := WorldAfter(c, past + [Run(i, read)] + more).tasks[i]; t.prog.Move? && t.prog.to.Failed?
    ensures var w1 := WorldAfter(c, past);
            Rank(w1.db.rows[ServerOf(w1.tasks[i])].current) < Rank(CutoverStarted)
  {
    hide Exec, WorldAfter, TaskOk, Saw, DbOk;
    var w1, w2 := WorldAfter(c, past), WorldAfter(c, past + [Run(i, read)] + more);
    ReadToWrite(c, past, read, more, i);
    SawEarly(c, w2.db, w2.tasks[i], w1.db.rows[ServerOf(w1.tasks[i])].current);
  }
}
