/** Where a running test instance can be: the step lemma here follows it through coarse runs. */
module TestInstances {
  import opened Pipeline
  import opened Store
  import opened AuditTrail
  import opened Handlers
  import opened Machine
  import opened Safety
  import opened Steps
  import opened Coarse
  import opened Undivided

  /** Whether AWS runs a test instance for the server: the last launch or termination that took effect, even
      unheard of by its caller, was a launch. */
  predicate TestLive(calls: seq<CallRecord>, s: string) {
    if calls == [] then false
    else
      var r := calls[|calls| - 1];
      if r.server == s && !r.luck.Before? && (r.call.StartTestCall? || r.call.TerminateTargetInstances?)
      then r.call.StartTestCall?
      else TestLive(calls[..|calls| - 1], s)
  }

  lemma LiveAppend(calls: seq<CallRecord>, r: CallRecord, s: string)
    ensures TestLive(calls + [r], s) ==
            if r.server == s && !r.luck.Before? && (r.call.StartTestCall? || r.call.TerminateTargetInstances?)
            then r.call.StartTestCall? else TestLive(calls, s)
  {
    assert (calls + [r])[..|calls|] == calls;
  }

  /** The failure that leaves a test instance behind: a rejection at the test validation gate; a rollback from
      TEST_FINALIZED, whose plan is empty although the instance is terminated only by the job that runs in that state;
      and a rollback from an earlier state of the test stage whose termination call failed, which freezes the server. */
  predicate LeavesInstance(e: Entry) {
    || (e.to.Failed? && (e.why == Rejected(TestValidationGate) || e.from.TestFinalized?))
    || (e.to.Frozen? && e.why.RolledBack?
        && e.from in {TestInstanceLaunching, TestInstanceRunning, AwaitingTestValidation})
  }

  ghost predicate Accounted(db: Db, s: string) {
    s in db.rows &&
    (|| HasReset(db, s)
     || 8 <= Rank(db.rows[s].current) <= 11
     || (IsError(db.rows[s].current) &&
         exists e :: e in db.history && e.server == s && e.to == db.rows[s].current && LeavesInstance(e)))
  }

  /** A program about to take the server where no test instance may be. */
  predicate Leaving(p: Prog) {
    p.Move? && (p.to.CutoverTemplateConfigured? || (p.to.Failed? && p.why.RolledBack? && 8 <= Rank(p.why.seen) <= 10))
  }

  ghost predicate LiveOk(db: Db, calls: seq<CallRecord>, t: Task) {
    && (forall s :: TestLive(calls, s) ==> Accounted(db, s))
    && (Leaving(t.prog) ==> !TestLive(calls, ServerOf(t)))
  }

  // ---- changes of the tables ----

  lemma WriteAccounts(db: Db, e: Entry, s: string)
    requires Accounted(db, s) && e.server in db.rows && e.from == db.rows[e.server].current
    requires e.why.WasReset? || Allowed(e.from, e.to)
    requires e.server == s && !e.why.WasReset? && !HasReset(db, s) ==>
               !e.to.CutoverTemplateConfigured? && (IsError(e.to) ==> LeavesInstance(e))
    ensures Accounted(Write(db, e), s)
  {
    var db' := Write(db, e);
    assert e in db'.history;
    if HasReset(db, s) { ResetGrows(db, db', s); }
    else if e.server == s {
      if !e.why.WasReset? {
        TableIsPipeline(e.from, e.to);
        RankBounds(e.from);
        if Rank(e.from) == 11 && !IsError(e.to) { RankInjective(e.to, CutoverTemplateConfigured); }
      }
    } else if IsError(db.rows[s].current) {
      var x :| x in db.history && x.server == s && x.to == db.rows[s].current && LeavesInstance(x);
      assert x in db'.history;
    }
  }

  lemma SameRowsAccount(db: Db, db': Db, s: string)
    requires Accounted(db, s) && db'.history == db.history
    requires s in db'.rows && db'.rows[s].current == db.rows[s].current
    ensures Accounted(db', s)
  {
    if HasReset(db, s) { ResetGrows(db, db', s); }
  }

  // ---- the steps ----

  lemma AfterActTests(m: Msg, a: Answer)
    ensures Leaving(AfterAct(m, a)) ==> m.job.FinalizeTest?
    ensures !Leaving(AfterAsk(m, a))
    ensures !Leaving(AfterGuard(m))
  {
  }

  lemma ActTests(c: Config, db: Db, calls: seq<CallRecord>, t: Task, turn: Turn)
    requires t.prog.Act? && TaskOk(c, db, t) && At(c, db, t) && LiveOk(db, calls, t)
    ensures var d := Effect(c, db, t, turn); LiveOk(d.db, calls + d.calls, WithProg(t, d.prog))
  {
    hide AfterAct, AfterAsk;
    var d := Effect(c, db, t, turn);
    var r := d.calls[0];
    AfterActTests(t.msg, turn.answer);
    forall s ensures TestLive(calls + d.calls, s) ==> Accounted(d.db, s) { LiveAppend(calls, r, s); }
    LiveAppend(calls, r, t.msg.server);
  }

  lemma UndoTests(c: Config, db: Db, calls: seq<CallRecord>, t: Task, turn: Turn)
    requires t.prog.Undo? && TaskOk(c, db, t) && At(c, db, t) && LiveOk(db, calls, t)
    ensures var d := Effect(c, db, t, turn); LiveOk(d.db, calls + d.calls, WithProg(t, d.prog))
  {
    var d := Effect(c, db, t, turn);
    var r := d.calls[0];
    assert t.prog.plan[1..] == [];
    forall s ensures TestLive(calls + d.calls, s) ==> Accounted(d.db, s) { LiveAppend(calls, r, s); }
    LiveAppend(calls, r, t.msg.server);
  }

  /** After a state change, what is left of any program does not take the server out of the test stage. */
  lemma NextNeverLeaves(c: Config, db: Db, t: Task)
    requires t.prog.Move? && TaskOk(c, db, t) && At(c, db, t)
    ensures !Leaving(t.prog.next)
  {
    assert ProgOk(c, db, t, t.prog.next, {} + {Got(t.prog.to)});
    if t.Consumer? && t.prog.next.Move? { assert Straight(db.rows[t.msg.server].current, t.prog); }
  }

  lemma MoveTests(c: Config, db: Db, calls: seq<CallRecord>, t: Task, turn: Turn)
    requires t.prog.Move? && TaskOk(c, db, t) && At(c, db, t) && LiveOk(db, calls, t)
    ensures var d := Effect(c, db, t, turn); LiveOk(d.db, calls, WithProg(t, d.prog))
  {
    var s, to, why := ServerOf(t), t.prog.to, t.prog.why;
    NextNeverLeaves(c, db, t);
    if s in db.rows && Allowed(db.rows[s].current, to) {
      var e := Entry(s, db.rows[s].current, to, ActorOf(t), why);
      forall x | TestLive(calls, x) ensures Accounted(Write(db, e), x) {
        if x == s && IsError(to) { FailureAccounted(c, db, t, e); }
        WriteAccounts(db, e, x);
      }
    }
  }

  /** A failure the machine writes while a test instance runs is one that leaves it behind knowingly. */
  lemma FailureAccounted(c: Config, db: Db, t: Task, e: Entry)
    requires t.prog.Move? && IsError(t.prog.to) && TaskOk(c, db, t) && At(c, db, t) && ServerOf(t) in db.rows
    requires e.from == db.rows[ServerOf(t)].current && e.to == t.prog.to && e.why == t.prog.why
    requires Accounted(db, ServerOf(t)) && Rank(e.from) < 26 && !Leaving(t.prog)
    ensures HasReset(db, ServerOf(t)) || LeavesInstance(e)
  {
    if !HasReset(db, ServerOf(t)) {
      RankBounds(e.from);
      if Rank(e.from) == 11 { RankInjective(e.from, TestFinalized); }
    }
  }

  lemma RollbackStartTests(c: Config, db: Db, calls: seq<CallRecord>, t: Task, turn: Turn)
    requires t.prog.Start? && t.Rollbacker? && TablesOk(c, db) && TaskOk(c, db, t)
    ensures !Leaving(Effect(c, db, t, turn).prog) && Effect(c, db, t, turn).db == db
  {
    hide RollbackPlan, TablesOk, RunPlan, NextStates, Leaving;
    if !IsTerminal(db.rows[t.msg.server].current) { PlanTests(c, db, t.msg); }
    assert !Leaving(ACK) by { RestNeverLeaves(ACK); }
  }

  lemma RestNeverLeaves(p: Prog)
    requires Resting(p)
    ensures !Leaving(p)
  {
  }

  /** In the test stage the AWS id is known, so that a rollback first terminates the instance. */
  lemma PlanTests(c: Config, db: Db, m: Msg)
    requires TablesOk(c, db) && m.server in db.rows && !IsTerminal(db.rows[m.server].current)
    ensures var row := db.rows[m.server];
            var (plan, final) := RollbackPlan(row.current, row.aws);
            !Leaving(RunPlan(plan, final, row.current, m))
  {
    hide RollbackPlan, TablesOk;
    var row := db.rows[m.server];
    RankBounds(row.current);
    RollbackGroups(row.current, row.aws);
    RowKnown(c, db, m.server);
  }

  lemma RequestTests(c: Config, db: Db, t: Task, turn: Turn)
    requires t.prog.Start? && t.Api? && !t.request.Retry?
    ensures !Leaving(Effect(c, db, t, turn).prog) && Effect(c, db, t, turn).db == db
  {
  }

  lemma ResetTests(c: Config, db: Db, calls: seq<CallRecord>, t: Task, turn: Turn)
    requires t.prog.Start? && t.Api? && t.request.Retry? && LiveOk(db, calls, t)
    ensures var d := Effect(c, db, t, turn); LiveOk(d.db, calls, WithProg(t, d.prog))
  {
    if Reset(db, t.server, t.request.engineer).Ok? {
      var e := Entry(t.server, Failed, Pending, t.request.engineer, WasReset);
      forall x | TestLive(calls, x) ensures Accounted(Write(db, e), x) { WriteAccounts(db, e, x); }
    }
  }

  lemma StartTests(c: Config, db: Db, calls: seq<CallRecord>, t: Task, turn: Turn)
    requires t.prog.Start? && TablesOk(c, db) && TaskOk(c, db, t) && LiveOk(db, calls, t)
    ensures var d := Effect(c, db, t, turn); LiveOk(d.db, calls, WithProg(t, d.prog))
  {
    if t.Api? && t.request.Retry? { ResetTests(c, db, calls, t, turn); }
    else if t.Consumer? { AfterActTests(t.msg, Raised); }
    else if t.Rollbacker? { RollbackStartTests(c, db, calls, t, turn); }
    else { RequestTests(c, db, t, turn); }
  }

  lemma SaveTests(c: Config, db: Db, calls: seq<CallRecord>, t: Task, turn: Turn)
    requires t.prog.SaveAws? && TaskOk(c, db, t) && At(c, db, t) && LiveOk(db, calls, t)
    ensures var d := Effect(c, db, t, turn); LiveOk(d.db, calls, WithProg(t, d.prog))
  {
    hide StartEffect, AfterAsk, AfterAct, RunPlan, NextStates, GuardState, Accounted;
    var d := Effect(c, db, t, turn);
    assert Straight(db.rows[t.msg.server].current, t.prog.next);
    forall x | TestLive(calls, x) ensures Accounted(d.db, x) {
      assert x in db.rows by { KnownServer(db, x); }
      SameRowsAccount(db, d.db, x);
    }
  }

  lemma KnownServer(db: Db, s: string)
    requires Accounted(db, s)
    ensures s in db.rows
  {
  }

  /** Steps that do not touch the tables at all. */
  lemma OtherStepTests(c: Config, db: Db, calls: seq<CallRecord>, t: Task, turn: Turn)
    requires t.prog.Ask? || t.prog.Publish? || Resting(t.prog)
    requires TaskOk(c, db, t) && At(c, db, t) && LiveOk(db, calls, t)
    ensures var d := Effect(c, db, t, turn); LiveOk(d.db, calls, WithProg(t, d.prog))
  {
    hide StartEffect, AfterAct, RunPlan, NextStates, GuardState, Accounted;
    if t.prog.Ask? { AfterActTests(t.msg, turn.answer); }
  }

  lemma StepTests(c: Config, db: Db, calls: seq<CallRecord>, t: Task, turn: Turn)
    requires TablesOk(c, db) && TaskOk(c, db, t) && At(c, db, t) && LiveOk(db, calls, t)
    ensures var d := Effect(c, db, t, turn); LiveOk(d.db, calls + d.calls, WithProg(t, d.prog))
  {
    if t.prog.Act? { ActTests(c, db, calls, t, turn); return; }
    if t.prog.Undo? { UndoTests(c, db, calls, t, turn); return; }
    assert calls + Effect(c, db, t, turn).calls == calls;
    if t.prog.Move? { MoveTests(c, db, calls, t, turn); }
    else if t.prog.Start? { StartTests(c, db, calls, t, turn); }
    else if t.prog.SaveAws? { SaveTests(c, db, calls, t, turn); }
    else { OtherStepTests(c, db, calls, t, turn); }
  }
}
