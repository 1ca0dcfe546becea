/** Calls that must not be repeated: starting and finalising a cutover, archiving, and ending a test.
    The step lemma here says that in a coarse run with the database up each succeeds at most once an epoch. */
module OneTimeCalls {
  import opened Wrappers
  import opened Pipeline
  import opened Store
  import opened Handlers
  import opened Machine
  import opened Safety
  import opened Undivided

  predicate IsOneTime(call: AwsCall) {
    call.StartCutoverCall? || call.FinalizeCutoverCall? || call.MarkAsArchived? || call.TerminateTargetInstances?
  }

  /** A one-time call that a job handler made and that succeeded. */
  predicate Landmark(r: CallRecord) { !r.rollback && r.luck.Fine? && IsOneTime(r.call) }

  /** The state in which a job handler makes a one-time call. */
  function CalledIn(call: AwsCall): State {
    match call
    case StartCutoverCall => CutoverStarted
    case FinalizeCutoverCall => CutoverFinalized
    case MarkAsArchived => Archived
    case _ => TestFinalized
  }

  /** How often a server had been reset. */
  function EpochNo(h: seq<Entry>, s: string): nat {
    if h == [] then 0
    else EpochNo(h[..|h| - 1], s) + if h[|h| - 1].server == s && h[|h| - 1].why.WasReset? then 1 else 0
  }

  function EpochOfCall(h: seq<Entry>, r: CallRecord): nat
    requires r.seen <= |h|
  {
    EpochNo(h[..r.seen], r.server)
  }

  lemma EpochNoAppend(h: seq<Entry>, e: Entry, s: string)
    ensures EpochNo(h + [e], s) == EpochNo(h, s) + if e.server == s && e.why.WasReset? then 1 else 0
  {
    assert (h + [e])[..|h|] == h;
  }

  lemma {:induction false} EpochNoMonotone(h: seq<Entry>, n: nat, s: string)
    requires n <= |h|
    ensures EpochNo(h[..n], s) <= EpochNo(h, s)
  {
    if n < |h| {
      EpochNoMonotone(h[..|h| - 1], n, s);
      assert h[..|h| - 1][..n] == h[..n];
    } else {
      assert h[..n] == h;
    }
  }

  /** The server has moved on since the call. */
  predicate Beyond(db: Db, r: CallRecord) {
    r.server in db.rows
    && (IsError(db.rows[r.server].current) || Rank(db.rows[r.server].current) > Rank(CalledIn(r.call)))
  }

  /** The task that made the call is about to move the server on. */
  predicate Owes(db: Db, t: Task, r: CallRecord) {
    && t.Consumer? && t.msg.server == r.server && r.server in db.rows
    && db.rows[r.server].current == CalledIn(r.call)
    && t.prog.Move? && !IsError(t.prog.to) && Rank(t.prog.to) == Rank(CalledIn(r.call)) + 1
  }

  predicate Current(h: seq<Entry>, r: CallRecord) {
    r.seen <= |h| && EpochOfCall(h, r) == EpochNo(h, r.server)
  }

  ghost predicate Spent(db: Db, calls: seq<CallRecord>, t: Task) {
    forall r :: r in calls && Landmark(r) && Current(db.history, r) ==> Beyond(db, r) || Owes(db, t, r)
  }

  /** No two successes of the same one-time call on the same server in the same epoch. */
  ghost predicate OncePerEpoch(h: seq<Entry>, calls: seq<CallRecord>) {
    forall k, l :: 0 <= k < l < |calls| && Landmark(calls[k]) && Landmark(calls[l])
                   && calls[k].server == calls[l].server && calls[k].call == calls[l].call
                   && calls[k].seen <= |h| && calls[l].seen <= |h| ==>
                     EpochOfCall(h, calls[k]) != EpochOfCall(h, calls[l])
  }

  ghost predicate SeenOk(h: seq<Entry>, calls: seq<CallRecord>) {
    forall r :: r in calls ==> r.seen <= |h|
  }

  // ---- changes of the tables ----

  lemma AppendKeepsEpochs(h: seq<Entry>, e: Entry, calls: seq<CallRecord>)
    requires SeenOk(h, calls) && OncePerEpoch(h, calls)
    ensures SeenOk(h + [e], calls) && OncePerEpoch(h + [e], calls)
  {
    forall k, l | 0 <= k < l < |calls| && Landmark(calls[k]) && Landmark(calls[l])
                  && calls[k].server == calls[l].server && calls[k].call == calls[l].call
      ensures EpochOfCall(h + [e], calls[k]) != EpochOfCall(h + [e], calls[l])
    {
      assert calls[k] in calls && calls[l] in calls;
      assert (h + [e])[..calls[k].seen] == h[..calls[k].seen];
      assert (h + [e])[..calls[l].seen] == h[..calls[l].seen];
    }
  }

  lemma CurrentAfterAppend(h: seq<Entry>, e: Entry, r: CallRecord)
    requires r.seen <= |h| && Current(h + [e], r)
    ensures Current(h, r) && !(e.server == r.server && e.why.WasReset?)
  {
    assert (h + [e])[..r.seen] == h[..r.seen];
    EpochNoAppend(h, e, r.server);
    EpochNoMonotone(h, r.seen, r.server);
  }

  lemma WriteSpends(db: Db, e: Entry, calls: seq<CallRecord>, t: Task, t': Task)
    requires SeenOk(db.history, calls) && Spent(db, calls, t)
    requires e.server in db.rows && e.from == db.rows[e.server].current
    requires e.why.WasReset? || Allowed(e.from, e.to)
    requires t.prog.Move? ==> e.server == ServerOf(t) && e.to == t.prog.to
    ensures Spent(Write(db, e), calls, t')
  {
    var db' := Write(db, e);
    forall r | r in calls && Landmark(r) && Current(db'.history, r) ensures Beyond(db', r) {
      CurrentAfterAppend(db.history, e, r);
      if e.server == r.server { TableIsPipeline(e.from, e.to); RankBounds(e.from); RankBounds(e.to); }
    }
  }

  // ---- the steps ----

  lemma CallInPlace(c: Config, m: Msg, call: AwsCall, a: Answer)
    requires CallOf(m.job) == Some(call) && IsOneTime(call)
    ensures GuardState(c, m) == CalledIn(call)
    ensures AfterAct(m, a).Move? && !IsError(AfterAct(m, a).to) && Rank(AfterAct(m, a).to) == Rank(CalledIn(call)) + 1
  {
  }

  lemma ActSpends(c: Config, db: Db, calls: seq<CallRecord>, t: Task, turn: Turn)
    requires t.prog.Act? && t.Consumer? && t.msg.server in db.rows && At(c, db, t)
    requires SeenOk(db.history, calls) && Spent(db, calls, t) && OncePerEpoch(db.history, calls)
    ensures var d := Effect(c, db, t, turn);
            && SeenOk(d.db.history, calls + d.calls)
            && Spent(d.db, calls + d.calls, WithProg(t, d.prog))
            && OncePerEpoch(d.db.history, calls + d.calls)
  {
    var call := t.prog.call;
    var d := Effect(c, db, t, turn);
    var r := d.calls[0];
    var all := calls + d.calls;
    assert db.history[..|db.history|] == db.history;
    if Landmark(r) {
      CallInPlace(c, t.msg, call, turn.answer);
      forall k | 0 <= k < |calls| && Landmark(calls[k]) && calls[k].server == r.server && calls[k].call == call
        ensures EpochOfCall(db.history, calls[k]) != EpochOfCall(db.history, r)
      {
        assert calls[k] in calls;
      }
    }
    forall k, l | 0 <= k < l < |all| && Landmark(all[k]) && Landmark(all[l])
                  && all[k].server == all[l].server && all[k].call == all[l].call
      ensures EpochOfCall(db.history, all[k]) != EpochOfCall(db.history, all[l])
    {
      if l < |calls| { assert all[k] == calls[k] && all[l] == calls[l]; assert calls[k] in calls && calls[l] in calls; }
      else { assert all[l] == r && all[k] == calls[k]; }
    }
  }

  /** A task whose state change is refused did not owe it. */
  lemma RefusalSpends(db: Db, calls: seq<CallRecord>, t: Task, t': Task)
    requires t.prog.Move? && Spent(db, calls, t)
    requires ServerOf(t) in db.rows && !Allowed(db.rows[ServerOf(t)].current, t.prog.to)
    ensures Spent(db, calls, t')
  {
    TableIsPipeline(db.rows[ServerOf(t)].current, t.prog.to);
    forall r | r in calls && Landmark(r) && Current(db.history, r) ensures Beyond(db, r) {
      if Owes(db, t, r) { RankBounds(CalledIn(r.call)); }
    }
  }

  lemma MoveSpends(c: Config, db: Db, calls: seq<CallRecord>, t: Task, turn: Turn)
    requires c.dbUp && t.prog.Move? && TaskOk(c, db, t)
    requires SeenOk(db.history, calls) && Spent(db, calls, t) && OncePerEpoch(db.history, calls)
    ensures var d := Effect(c, db, t, turn);
            && SeenOk(d.db.history, calls) && Spent(d.db, calls, WithProg(t, d.prog))
                && OncePerEpoch(d.db.history, calls)
  {
    hide StartEffect, AfterAsk, AfterAct, RunPlan, NextStates, OncePerEpoch, Spent;
    var s, to, why := ServerOf(t), t.prog.to, t.prog.why;
    var d := Effect(c, db, t, turn);
    if s in db.rows && Allowed(db.rows[s].current, to) {
      var e := Entry(s, db.rows[s].current, to, ActorOf(t), why);
      AppendKeepsEpochs(db.history, e, calls);
      WriteSpends(db, e, calls, t, WithProg(t, d.prog));
    } else if s in db.rows {
      RefusalSpends(db, calls, t, WithProg(t, d.prog));
    } else {
      StrangerSpends(db, calls, t, WithProg(t, d.prog));
    }
  }

  lemma StrangerSpends(db: Db, calls: seq<CallRecord>, t: Task, t': Task)
    requires Spent(db, calls, t) && ServerOf(t) !in db.rows
    ensures Spent(db, calls, t')
  {
  }

  lemma StartSpends(c: Config, db: Db, calls: seq<CallRecord>, t: Task, turn: Turn)
    requires c.dbUp && t.prog.Start?
    requires SeenOk(db.history, calls) && Spent(db, calls, t) && OncePerEpoch(db.history, calls)
    ensures var d := Effect(c, db, t, turn);
            && d.calls == [] && SeenOk(d.db.history, calls) && Spent(d.db, calls, WithProg(t, d.prog))
                && OncePerEpoch(d.db.history, calls)
  {
    var d := Effect(c, db, t, turn);
    if t.Api? && t.request.Retry? && Reset(db, t.server, t.request.engineer).Ok? {
      var e := Entry(t.server, Failed, Pending, t.request.engineer, WasReset);
      AppendKeepsEpochs(db.history, e, calls);
      WriteSpends(db, e, calls, t, WithProg(t, d.prog));
    }
  }

  lemma StepSpends(c: Config, db: Db, calls: seq<CallRecord>, t: Task, turn: Turn)
    requires c.dbUp && TaskOk(c, db, t) && At(c, db, t)
    requires SeenOk(db.history, calls) && Spent(db, calls, t) && OncePerEpoch(db.history, calls)
    ensures var d := Effect(c, db, t, turn);
            && SeenOk(d.db.history, calls + d.calls)
            && Spent(d.db, calls + d.calls, WithProg(t, d.prog))
            && OncePerEpoch(d.db.history, calls + d.calls)
  {
    hide StartEffect, AfterAsk, AfterAct, RunPlan, NextStates, OncePerEpoch, ProgOk;
    var d := Effect(c, db, t, turn);
    match t.prog
    case Act(_) => ActSpends(c, db, calls, t, turn);
    case Move(_, _, _) => MoveSpends(c, db, calls, t, turn); assert calls + d.calls == calls;
    case Start => StartSpends(c, db, calls, t, turn); assert calls + d.calls == calls;
    case Undo(plan, _, _) => UndoSpends(c, db, calls, t, turn);
    case _ => assert calls + d.calls == calls;
  }

  lemma UndoSpends(c: Config, db: Db, calls: seq<CallRecord>, t: Task, turn: Turn)
    requires t.prog.Undo? && t.Rollbacker?
    requires SeenOk(db.history, calls) && Spent(db, calls, t) && OncePerEpoch(db.history, calls)
    ensures var d := Effect(c, db, t, turn);
            && SeenOk(d.db.history, calls + d.calls)
            && Spent(d.db, calls + d.calls, WithProg(t, d.prog))
            && OncePerEpoch(d.db.history, calls + d.calls)
  {
    var d := Effect(c, db, t, turn);
    var all := calls + d.calls;
    forall k, l | 0 <= k < l < |all| && Landmark(all[k]) && Landmark(all[l])
                  && all[k].server == all[l].server && all[k].call == all[l].call
                  && all[k].seen <= |db.history| && all[l].seen <= |db.history|
      ensures EpochOfCall(db.history, all[k]) != EpochOfCall(db.history, all[l])
    {
      assert all[k] == calls[k] && all[l] == calls[l];
    }
  }
}
