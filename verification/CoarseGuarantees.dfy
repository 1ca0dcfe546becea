/** What holds after every coarse run: handlers and API calls one at a time, failures and redeliveries included. */
module CoarseGuarantees {
  import opened Pipeline
  import opened Store
  import opened AuditTrail
  import opened Handlers
  import opened Machine
  import opened Safety
  import opened Steps
  import opened Guarantees
  import opened Coarse
  import opened Undivided
  import opened EpochApprovals
  import opened OneTimeCalls
  import opened TestInstances

  ghost predicate AllUndisturbed(h: seq<Entry>) { forall e :: e in h ==> Undisturbed(e) }

  ghost predicate NoneValidated(h: seq<Entry>) { forall e :: e in h ==> !IsValidationGate(e.to) }

  /** Holds at every step of a coarse run; t is the one task that is running. */
  ghost predicate Running(c: Config, w: World, t: Task) {
    && Inv(c, w)
    && At(c, w.db, t)
    && AllUndisturbed(w.db.history)
    && (!c.phaseAware ==> NoneValidated(w.db.history))
    && SeenOk(w.db.history, w.calls)
    && CallsApproved(w.db.history, w.calls)
    && (c.dbUp ==> Spent(w.db, w.calls, t) && OncePerEpoch(w.db.history, w.calls))
    && LiveOk(w.db, w.calls, t)
  }

  const NOBODY := Api("", Retry(""), Finished)

  /** Between handler runs no task is under way. */
  ghost predicate Between(c: Config, w: World) { Running(c, w, NOBODY) }

  lemma RunStays(c: Config, w: World, i: nat, turn: Turn)
    requires i < |w.tasks| && Running(c, w, w.tasks[i])
    ensures Running(c, RunTask(c, w, i, turn), RunTask(c, w, i, turn).tasks[i])
  {
    var t := w.tasks[i];
    assert TaskOk(c, w.db, t);
    RunKeeps(c, w, i, turn);
    StaysAt(c, w.db, t, turn);
    StepUndisturbed(c, w.db, t, turn);
    if !c.phaseAware { StepStopsShort(c, w.db, t, turn); }
    if c.dbUp { StepSpends(c, w.db, w.calls, t, turn); }
    StepTests(c, w.db, w.calls, t, turn);
    StepApproved(c, w.db, t, turn, w.calls);
    SeenStays(c, w.db, t, turn, w.calls);
  }

  lemma SeenStays(c: Config, db: Db, t: Task, turn: Turn, calls: seq<CallRecord>)
    requires SeenOk(db.history, calls)
    ensures SeenOk(Effect(c, db, t, turn).db.history, calls + Effect(c, db, t, turn).calls)
  {
  }

  lemma DriveStays(c: Config, w: World, i: nat, tape: Tape, n: nat)
    requires i < |w.tasks| && Running(c, w, w.tasks[i])
    ensures var w' := Drive(c, w, i, tape, n); Running(c, w', w'.tasks[i])
    decreases Span(w.tasks[i].prog)
  {
    if !Resting(w.tasks[i].prog) {
      RunStays(c, w, i, tape(n));
      StepShortens(c, w.db, w.tasks[i], tape(n));
      DriveStays(c, RunTask(c, w, i, tape(n)), i, tape, n + 1);
    }
  }

  lemma RestIsBetween(c: Config, w: World, t: Task, t': Task)
    requires Running(c, w, t) && (Resting(t.prog) || t.prog.Start?) && (Resting(t'.prog) || t'.prog.Start?)
    ensures Running(c, w, t')
  {
    forall r | c.dbUp && r in w.calls && Landmark(r) && Current(w.db.history, r) ensures Beyond(w.db, r) {
      assert !Owes(w.db, t, r);
    }
  }

  /** Adding a task, or moving messages about, changes nothing the running task depends on. */
  lemma SameTables(c: Config, w: World, w': World, t: Task)
    requires Running(c, w, t) && Inv(c, w') && w'.db == w.db && w'.calls == w.calls
    ensures Running(c, w', t)
  {
  }

  lemma LossStays(c: Config, w: World, i: nat)
    requires i < |w.tasks| && Resting(w.tasks[i].prog) && Running(c, w, w.tasks[i])
    ensures Between(c, CrashTask(w, i))
  {
    CrashKeeps(c, w, i);
    RestIsBetween(c, w, w.tasks[i], NOBODY);
    SameTables(c, w, CrashTask(w, i), NOBODY);
  }

  lemma SettlementRests(c: Config, w: World, i: nat)
    requires i < |w.tasks| && Resting(w.tasks[i].prog)
    ensures IsDone(RunTask(c, w, i, SETTLE_TURN).tasks[i].prog)
  {
  }

  lemma SettlementStays(c: Config, w: World, i: nat)
    requires i < |w.tasks| && Resting(w.tasks[i].prog) && Running(c, w, w.tasks[i])
    ensures Between(c, RunTask(c, w, i, SETTLE_TURN))
  {
    var w' := RunTask(c, w, i, SETTLE_TURN);
    RunStays(c, w, i, SETTLE_TURN);
    SettlementRests(c, w, i);
    RestIsBetween(c, w', w'.tasks[i], NOBODY);
  }

  lemma ConcludeStays(c: Config, w: World, i: nat, lost: bool)
    requires i < |w.tasks| && Resting(w.tasks[i].prog) && Running(c, w, w.tasks[i])
    ensures Between(c, Conclude(c, w, i, lost))
  {
    if lost { LossStays(c, w, i); } else { SettlementStays(c, w, i); }
  }

  lemma AdminStays(c: Config, w: World, e: Machine.Event)
    requires Between(c, w) && IsAdmin(e)
    ensures Between(c, Apply(c, w, e))
  {
    hide Apply;
    var w' := Apply(c, w, e);
    AdminKeepsStory(c, w, e);
    ApplyKeeps(c, w, e);
    forall s | TestLive(w'.calls, s) ensures Accounted(w'.db, s) { SameRowsAccount(w.db, w'.db, s); }
    forall r | c.dbUp && r in w.calls && Landmark(r) && Current(w'.db.history, r) ensures Beyond(w'.db, r) {
      assert Beyond(w.db, r);
    }
  }

  lemma BurstStays(c: Config, w: World, b: Burst)
    requires Between(c, w)
    ensures Between(c, ApplyBurst(c, w, b))
  {
    var i := |w.tasks|;
    var w1 := Apply(c, w, Opening(b));
    if b.Admin? {
      if IsAdmin(b.event) { AdminStays(c, w, b.event); }
    } else if |w1.tasks| != i {
      ApplyKeeps(c, w, Opening(b));
      RestIsBetween(c, w, NOBODY, w1.tasks[i]);
      SameTables(c, w, w1, w1.tasks[i]);
      DriveStays(c, w1, i, b.tape, 0);
      ConcludeStays(c, Drive(c, w1, i, b.tape, 0), i, !b.Serve? && b.lost);
    }
  }

  lemma {:induction false} CoarseRunsStay(c: Config, bs: seq<Burst>)
    ensures Between(c, ExecBursts(c, INITIAL, bs))
  {
    if bs != [] {
      CoarseRunsStay(c, bs[..|bs| - 1]);
      BurstStays(c, ExecBursts(c, INITIAL, bs[..|bs| - 1]), bs[|bs| - 1]);
    }
  }

  // ---- the guarantees ----

  lemma RollbackRow(x: Entry)
    requires Undisturbed(x) && LabelFits(x.to, x.why) && x.why.RolledBack? && x.to.Failed?
    ensures Rank(x.from) < Rank(CutoverStarted)
  {
  }

  lemma UnvalidatedIsEarly(c: Config, w: World, s: string)
    requires Between(c, w) && !c.phaseAware && s in w.db.rows
    ensures NoneValidated(w.db.history)
    ensures IsError(w.db.rows[s].current) || Rank(w.db.rows[s].current) <= Rank(TestInstanceRunning)
  {
    hide Spent, LiveOk, CallsApproved, SeenOk, At, AllUndisturbed, OncePerEpoch;
    if !IsError(w.db.rows[s].current) && Rank(w.db.rows[s].current) > Rank(TestInstanceRunning) {
      ReachedSoFar(w.db, s, AwaitingTestValidation);
    }
  }

  /** With the shipped poll table no server ever gets past TEST_INSTANCE_RUNNING, however often it is reset and however
      late a poll of an earlier epoch arrives. */
  lemma {:induction false} ShippedTableNeverValidates(c: Config, bs: seq<Burst>, s: string)
    requires !c.phaseAware && s in ExecBursts(c, INITIAL, bs).db.rows
    ensures var db := ExecBursts(c, INITIAL, bs).db;
            && (forall e :: e in db.history ==> !IsValidationGate(e.to))
            && (IsError(db.rows[s].current) || Rank(db.rows[s].current) <= Rank(TestInstanceRunning))
  {
    hide ExecBursts, Running;
    CoarseRunsStay(c, bs);
    UnvalidatedIsEarly(c, ExecBursts(c, INITIAL, bs), s);
  }

  /** Commit-zone safety: a rollback never marks FAILED a server whose cutover had started. */
  lemma {:induction false} CommitZoneSafe(c: Config, bs: seq<Burst>, e: Entry)
    requires e in ExecBursts(c, INITIAL, bs).db.history && e.why.RolledBack? && e.to.Failed?
    ensures Rank(e.from) < Rank(CutoverStarted)
  {
    CoarseRunsStay(c, bs);
    RollbackRow(e);
  }

  lemma LastRowUndisturbed(c: Config, w: World, s: string)
    requires Between(c, w) && s in w.db.rows && w.db.rows[s].current.Failed?
    ensures var e := EpochOf(w, s); e != [] && Undisturbed(e[|e| - 1])
  {
    var e := CurrentEpoch(w.db, s);
    assert e[|e| - 1] in e;
  }

  /** A server that failed after its cutover had started, and so can be reset, was rejected by an engineer at a
      gate past the commit point. */
  lemma {:induction false} LateFailureIsRejection(c: Config, bs: seq<Burst>, s: string, i: nat)
    requires s in ExecBursts(c, INITIAL, bs).db.rows && ExecBursts(c, INITIAL, bs).db.rows[s].current.Failed?
    requires i < |EpochOf(ExecBursts(c, INITIAL, bs), s)|
    requires EpochOf(ExecBursts(c, INITIAL, bs), s)[i].to.CutoverStarted?
    ensures var e := EpochOf(ExecBursts(c, INITIAL, bs), s);
            var x := e[|e| - 1];
            x.to.Failed? && x.why.Rejected? && x.why.gate in {CutoverValidationGate, ArchiveGate, CleanupGate}
  {
    var w := ExecBursts(c, INITIAL, bs);
    CoarseRunsStay(c, bs);
    var events := CoarseRunsAreFine(c, bs);
    FailedPastCommitPoint(c, events, s);
    AuditTrailAgrees(c, events, s);
    LastRowUndisturbed(c, w, s);
  }

  /** Every AWS call, of a handler or a rollback, is made in an epoch in which its gate has been approved: an
      approval from before a reset is not enough. */
  lemma {:induction false} CallsApprovedInEpoch(c: Config, bs: seq<Burst>, k: nat)
    requires k < |ExecBursts(c, INITIAL, bs).calls|
    ensures var w := ExecBursts(c, INITIAL, bs);
            var r := w.calls[k];
            && r.seen <= |w.db.history|
            && (CallGate(r.call, r.rollback).Some? ==>
                  ApprovedInEpoch(w.db.history[..r.seen], r.server, CallGate(r.call, r.rollback).value))
  {
    CoarseRunsStay(c, bs);
    assert ExecBursts(c, INITIAL, bs).calls[k] in ExecBursts(c, INITIAL, bs).calls;
  }

  /** With the database up, start_cutover, finalize_cutover, mark_as_archived and the termination that ends a
      test each return successfully at most once per server and epoch, however many copies of their messages are
      delivered. Neither condition can be dropped: see OutageRepeatsCall and RaisingCallRepeats. */
  lemma {:induction false} OneTimeCallsHappenOnce(c: Config, bs: seq<Burst>, k: nat, l: nat)
    requires c.dbUp && k < l < |ExecBursts(c, INITIAL, bs).calls|
    requires var w := ExecBursts(c, INITIAL, bs);
             && Landmark(w.calls[k]) && Landmark(w.calls[l])
             && w.calls[k].server == w.calls[l].server && w.calls[k].call == w.calls[l].call
    ensures var w := ExecBursts(c, INITIAL, bs);
            && w.calls[k].seen <= |w.db.history| && w.calls[l].seen <= |w.db.history|
            && EpochOfCall(w.db.history, w.calls[k]) != EpochOfCall(w.db.history, w.calls[l])
  {
    CoarseRunsStay(c, bs);
    var w := ExecBursts(c, INITIAL, bs);
    assert w.calls[k] in w.calls && w.calls[l] in w.calls;
  }

  /** A running test instance of a server that was never reset means the server is in the test stage, or FAILED by a
      rejection at the test validation gate or by a rollback from TEST_FINALIZED, or FROZEN by a rollback that tried to
      terminate it; every other failure has ended it. */
  lemma {:induction false} TestInstancesAccounted(c: Config, bs: seq<Burst>, s: string)
    requires TestLive(ExecBursts(c, INITIAL, bs).calls, s) && !HasReset(ExecBursts(c, INITIAL, bs).db, s)
    ensures var db := ExecBursts(c, INITIAL, bs).db;
            && s in db.rows
            && var st := db.rows[s].current;
               (|| st in {TestInstanceLaunching, TestInstanceRunning, AwaitingTestValidation, TestFinalized}
                || (IsError(st) &&
                    exists e :: e in db.history && e.server == s && e.to == st && LeavesInstance(e)))
  {
    CoarseRunsStay(c, bs);
    var db := ExecBursts(c, INITIAL, bs).db;
    assert Accounted(db, s);
    TestStage(db.rows[s].current);
  }

  lemma TestStage(st: State)
    ensures 8 <= Rank(st) <= 11 <==>
              st in {TestInstanceLaunching, TestInstanceRunning, AwaitingTestValidation, TestFinalized}
  {
  }
}
