/** In a coarse run an AWS call needs an approval of the epoch it is made in; the step lemma is here. */
module EpochApprovals {
  import opened Wrappers
  import opened Pipeline
  import opened Store
  import opened AuditTrail
  import opened Handlers
  import opened Machine
  import opened Safety
  import opened Undivided

  /** Since the server's last reset, the gate has been approved. */
  ghost predicate ApprovedInEpoch(h: seq<Entry>, s: string, g: Gate) {
    exists x :: x in Epoch(LogOf(h, s)) && x.why == Approved(g)
  }

  /** The call was made in an epoch in which its gate, if it has one, had been approved. */
  ghost predicate CallApproved(h: seq<Entry>, r: CallRecord) {
    && r.seen <= |h|
    && (CallGate(r.call, r.rollback).Some? ==>
          ApprovedInEpoch(h[..r.seen], r.server, CallGate(r.call, r.rollback).value))
  }

  ghost predicate CallsApproved(h: seq<Entry>, calls: seq<CallRecord>) {
    forall r :: r in calls ==> CallApproved(h, r)
  }

  lemma StaysApproved(h: seq<Entry>, h': seq<Entry>, calls: seq<CallRecord>)
    requires h <= h' && CallsApproved(h, calls)
    ensures CallsApproved(h', calls)
  {
    forall r | r in calls ensures CallApproved(h', r) {
      assert h'[..r.seen] == h[..r.seen];
    }
  }

  lemma ApprovedByNow(db: Db, s: string, g: Gate)
    requires DbOk(db) && s in db.rows && !IsError(db.rows[s].current)
    requires Rank(ApprovedState(g)) <= Rank(db.rows[s].current)
    ensures ApprovedInEpoch(db.history, s, g)
  {
    var e := CurrentEpoch(db, s);
    ApprovalPresent(e, g);
    assert e[Rank(GateState(g))] in e;
  }

  /** A handler's call comes at or past the state that its gate's approval writes. */
  lemma CallComesLater(c: Config, m: Msg, call: AwsCall)
    requires CallOf(m.job) == Some(call) && CallGate(call, false).Some?
    ensures !IsError(GuardState(c, m)) && Rank(ApprovedState(CallGate(call, false).value)) <= Rank(GuardState(c, m))
  {
  }

  lemma HandlerCallApproved(c: Config, db: Db, t: Task)
    requires TablesOk(c, db) && TaskOk(c, db, t) && At(c, db, t) && t.prog.Act?
    ensures CallGate(t.prog.call, false).Some? ==>
              ApprovedInEpoch(db.history, ServerOf(t), CallGate(t.prog.call, false).value)
  {
    hide ApprovedInEpoch, DbOk, RollbackPlan, NextStates;
    if CallGate(t.prog.call, false).Some? {
      CallComesLater(c, t.msg, t.prog.call);
      ApprovedByNow(db, t.msg.server, CallGate(t.prog.call, false).value);
    }
  }

  lemma UndoCallApproved(c: Config, db: Db, t: Task)
    requires TablesOk(c, db) && TaskOk(c, db, t) && At(c, db, t) && t.prog.Undo?
    ensures t.prog.plan != [] && CallGate(t.prog.plan[0], true).Some?
    ensures ApprovedInEpoch(db.history, ServerOf(t), CallGate(t.prog.plan[0], true).value)
  {
    hide ApprovedInEpoch, DbOk, RollbackPlan, NextStates;
    RankBounds(db.rows[t.msg.server].current);
    ApprovedByNow(db, t.msg.server, CallGate(t.prog.plan[0], true).value);
  }

  lemma NewCallApproved(c: Config, db: Db, t: Task, r: CallRecord)
    requires TablesOk(c, db) && TaskOk(c, db, t) && At(c, db, t) && (t.prog.Act? || t.prog.Undo?)
    requires r.server == ServerOf(t) && r.seen == |db.history|
    requires t.prog.Act? ==> r.call == t.prog.call && !r.rollback
    requires t.prog.Undo? ==> t.prog.plan != [] && r.call == t.prog.plan[0] && r.rollback
    ensures CallApproved(db.history, r)
  {
    hide TablesOk, TaskOk, At, ApprovedInEpoch;
    assert db.history[..|db.history|] == db.history;
    if t.prog.Act? { HandlerCallApproved(c, db, t); } else { UndoCallApproved(c, db, t); }
  }

  lemma StepApproved(c: Config, db: Db, t: Task, turn: Turn, calls: seq<CallRecord>)
    requires TablesOk(c, db) && TaskOk(c, db, t) && At(c, db, t) && CallsApproved(db.history, calls)
    ensures CallsApproved(Effect(c, db, t, turn).db.history, calls + Effect(c, db, t, turn).calls)
  {
    hide At, TablesOk, CallApproved;
    var d := Effect(c, db, t, turn);
    HistoryExtends(c, db, t, turn);
    if t.prog.Act? || (t.prog.Undo? && t.Rollbacker?) { NewCallApproved(c, db, t, d.calls[0]); }
    StaysApproved(db.history, d.db.history, calls);
    assert t.prog.Act? || t.prog.Undo? ==> d.db == db;
  }

  lemma HistoryExtends(c: Config, db: Db, t: Task, turn: Turn)
    ensures db.history <= Effect(c, db, t, turn).db.history
  {
  }
}
