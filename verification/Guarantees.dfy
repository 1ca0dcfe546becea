/** What holds after any sequence of events: any interleaving of any number of handlers and API calls,
    any order and number of deliveries, crashes and failures. */
module Guarantees {
  import opened Wrappers
  import opened Pipeline
  import opened Store
  import opened AuditTrail
  import opened Handlers
  import opened Machine
  import opened Safety
  import opened Steps

  ghost function WorldAfter(c: Config, events: seq<Event>): World { Exec(c, INITIAL, events) }

  ghost function EpochOf(w: World, s: string): seq<Entry> { Epoch(LogOf(w.db.history, s)) }

  // ---- the audit trail ----

  /** The history of a server replays, transition by legal transition, to what its row says; and since
      the last reset it is a prefix of the pipeline, optionally ended by one error row. */
  lemma {:induction false} AuditTrailAgrees(c: Config, events: seq<Event>, s: string)
    requires s in WorldAfter(c, events).db.rows
    ensures var db := WorldAfter(c, events).db;
            Replay(LogOf(db.history, s)) == Some((db.rows[s].current, db.rows[s].previous))
    ensures IsEpoch(EpochOf(WorldAfter(c, events), s))
    ensures EndOf(EpochOf(WorldAfter(c, events), s)) == WorldAfter(c, events).db.rows[s].current
  {
    RunsKeep(c, events);
    var e := CurrentEpoch(WorldAfter(c, events).db, s);
  }

  /** No two rows of an epoch leave the same state or enter the same state: each pipeline edge fires at
      most once, and at most one row is an error row. */
  lemma {:induction false} EdgesFireOnce(c: Config, events: seq<Event>, s: string, i: nat, j: nat)
    requires s in WorldAfter(c, events).db.rows && i < j < |EpochOf(WorldAfter(c, events), s)|
    ensures var e := EpochOf(WorldAfter(c, events), s);
            e[i].from != e[j].from && e[i].to != e[j].to && !IsError(e[i].to)
  {
    AuditTrailAgrees(c, events, s);
    EdgeOnce(EpochOf(WorldAfter(c, events), s), i, j);
  }

  // ---- human gates ----

  /** Once an epoch has a row at or past the state that gate g protects, it has exactly one approval of
      g, and it is the row that leaves the gate: approvals appear once each and in pipeline order. */
  lemma {:induction false} GatesApprovedOnce(c: Config, events: seq<Event>, s: string, g: Gate, k: nat)
    requires s in WorldAfter(c, events).db.rows && k < |EpochOf(WorldAfter(c, events), s)|
    requires var x := EpochOf(WorldAfter(c, events), s)[k];
             !IsError(x.to) && Rank(ApprovedState(g)) <= Rank(x.to)
    ensures var e := EpochOf(WorldAfter(c, events), s);
            && Rank(GateState(g)) <= k
            && forall i :: 0 <= i < |e| ==> (e[i].why == Approved(g) <==> i == Rank(GateState(g)))
  {
    RunsKeep(c, events);
    var w := WorldAfter(c, events);
    var e := CurrentEpoch(w.db, s);
    ApprovedOnce(e, g, k);
  }

  /** The task that an event runs is an engineer's approval of g at server s, under the given name. */
  ghost predicate IsApprovalStep(w: World, e: Event, s: string, g: Gate, actor: string) {
    && e.Run? && e.task < |w.tasks|
    && w.tasks[e.task].Api? && w.tasks[e.task].server == s && w.tasks[e.task].request == Approve(g, actor)
  }

  /** A step appends at most one row, and an approval row only if the task is an approval request for that gate. */
  lemma StepAppends(c: Config, db: Db, t: Task, turn: Turn)
    requires TaskOk(c, db, t)
    ensures var h := Effect(c, db, t, turn).db.history;
            || h == db.history
            || (|h| == |db.history| + 1 && h[..|db.history|] == db.history
                && var x := h[|db.history|];
                   x.why.Approved? ==> t.Api? && t.server == x.server && t.request == Approve(x.why.gate, x.actor))
  {
  }

  /** A step that adds an approval row is a step of an approval request for that gate. */
  lemma {:induction false} OnlyApprovalsApprove(c: Config, w: World, e: Event)
    requires Inv(c, w)
    ensures w.db.history <= Apply(c, w, e).db.history
    ensures |Apply(c, w, e).db.history| <= |w.db.history| + 1
    ensures |Apply(c, w, e).db.history| == |w.db.history| + 1 ==>
              var x := Apply(c, w, e).db.history[|w.db.history|];
              x.why.Approved? ==> IsApprovalStep(w, e, x.server, x.why.gate, x.actor)
  {
    if e.Run? && e.task < |w.tasks| {
      assert TaskOk(c, w.db, w.tasks[e.task]);
      StepAppends(c, w.db, w.tasks[e.task], e.turn);
    }
  }

  /** Event n of the run is a step of the approval request that row x records. */
  ghost predicate ApprovedAt(c: Config, events: seq<Event>, n: nat, x: Entry)
    requires n < |events| && x.why.Approved?
  {
    IsApprovalStep(WorldAfter(c, events[..n]), events[n], x.server, x.why.gate, x.actor)
  }

  /** Every approval row in the history was written while an engineer's approval request for that gate
      and server was being served, and carries that engineer's name. */
  lemma {:induction false} ApprovalProvenance(c: Config, events: seq<Event>, k: nat) returns (n: nat)
    requires k < |WorldAfter(c, events).db.history| && WorldAfter(c, events).db.history[k].why.Approved?
    ensures n < |events| && ApprovedAt(c, events, n, WorldAfter(c, events).db.history[k])
  {
    hide Apply, DbOk, Inv;
    var init := events[..|events| - 1];
    LastEvent(c, events);
    if k < |WorldAfter(c, init).db.history| {
      n := ApprovalProvenance(c, init, k);
      assert init[..n] == events[..n] && init[n] == events[n];
    } else {
      n := |events| - 1;
    }
  }

  lemma LastEvent(c: Config, events: seq<Event>)
    requires WorldAfter(c, events).db.history != []
    ensures events != []
    ensures var before := WorldAfter(c, events[..|events| - 1]);
            var h := WorldAfter(c, events).db.history;
            && before.db.history <= h && |h| <= |before.db.history| + 1
            && (|h| == |before.db.history| + 1 && h[|h| - 1].why.Approved? ==>
                  ApprovedAt(c, events, |events| - 1, h[|h| - 1]))
  {
    var n := |events| - 1;
    RunsKeep(c, events[..n]);
    OnlyApprovalsApprove(c, WorldAfter(c, events[..n]), events[n]);
  }

  // ---- AWS calls ----

  /** Every AWS call ever attempted was preceded by the approval of the gate that protects it, on the same server. */
  lemma {:induction false} NoCallWithoutApproval(c: Config, events: seq<Event>, k: nat)
    requires k < |WorldAfter(c, events).calls|
    ensures var w := WorldAfter(c, events);
            var r := w.calls[k];
            r.seen <= |w.db.history|
            && (CallGate(r.call, r.rollback).Some? ==>
                  GateOpened(w.db.history[..r.seen], r.server, CallGate(r.call, r.rollback).value))
  {
    RunsKeep(c, events);
    assert WorldAfter(c, events).calls[k] in WorldAfter(c, events).calls;
  }

  // ---- staleness ----

  /** A message that its publisher still has in hand, is queued, being handled, or dead-lettered. */
  ghost predicate InSystem(w: World, m: Msg) {
    m in w.ready || m in w.failed || exists i :: 0 <= i < |w.tasks| && !w.tasks[i].Api? && w.tasks[i].msg == m
  }

  /** What a message was published for really happened, and is never undone short of a reset. */
  lemma {:induction false} MessagesAreTrue(c: Config, events: seq<Event>, m: Msg)
    requires InSystem(WorldAfter(c, events), m)
    ensures var db := WorldAfter(c, events).db;
            && Reached(db, m.server, Posted(m))
            && (!HasReset(db, m.server) ==>
                  IsError(db.rows[m.server].current) || Rank(Posted(m)) <= Rank(db.rows[m.server].current))
  {
    RunsKeep(c, events);
    var w := WorldAfter(c, events);
    assert MsgOk(w.db, m, {}) by {
      if m !in w.ready && m !in w.failed {
        var i :| 0 <= i < |w.tasks| && !w.tasks[i].Api? && w.tasks[i].msg == m;
        assert TaskOk(c, w.db, w.tasks[i]);
      }
    }
    if !HasReset(w.db, m.server) { NeverBack(w.db, m.server, Posted(m)); }
  }

  lemma NotYetHandled(m: Msg)
    ensures AfterGuard(m) != ACK
  {
  }

  /** Reset-free, the stale check drops a message exactly when the server is in an error state or
      strictly past the state the check asks for; it never drops a message that came early. */
  lemma {:induction false} NoFalseStaleness(c: Config, events: seq<Event>, i: nat, turn: Turn)
    requires i < |WorldAfter(c, events).tasks| && DbLuck(c, turn.luck).Fine?
    requires var t := WorldAfter(c, events).tasks[i];
             t.Consumer? && t.prog.Start? && !HasReset(WorldAfter(c, events).db, t.msg.server)
    ensures var w := WorldAfter(c, events);
            var m := w.tasks[i].msg;
            && m.server in w.db.rows
            && (Effect(c, w.db, w.tasks[i], turn).prog == ACK <==>
                  IsError(w.db.rows[m.server].current) || Rank(GuardState(c, m)) < Rank(w.db.rows[m.server].current))
  {
    RunsKeep(c, events);
    var w := WorldAfter(c, events);
    var m := w.tasks[i].msg;
    assert TaskOk(c, w.db, w.tasks[i]);
    NeverBack(w.db, m.server, Posted(m));
    NotYetHandled(m);
    GuardBeforePosted(c, m);
    GuardRank(c, m);
    if Rank(GuardState(c, m)) == Rank(w.db.rows[m.server].current) {
      RankInjective(GuardState(c, m), w.db.rows[m.server].current);
    }
  }

  lemma GuardBeforePosted(c: Config, m: Msg)
    ensures Rank(GuardState(c, m)) <= Rank(Posted(m))
  {
  }

  // ---- the commit point ----

  /** No other writer got between the read a decision rests on and the write that carries it out. */
  predicate Undisturbed(x: Entry) {
    match x.why
    case RolledBack(_, seen) => x.from == seen
    case Rejected(g) => x.from == GateState(g)
    case _ => true
  }

  lemma FailedRow(x: Entry)
    requires LabelFits(x.to, x.why) && x.to.Failed?
    ensures x.why.RolledBack? ==> Rank(x.why.seen) < Rank(CutoverStarted)
    ensures Undisturbed(x) && Rank(CutoverStarted) <= Rank(x.from) ==>
              x.why.Rejected? && x.why.gate in {CutoverValidationGate, ArchiveGate, CleanupGate}
  {
    if Undisturbed(x) && x.why.Rejected? && Rank(CutoverStarted) <= Rank(x.from) { LateGate(x.why.gate); }
  }

  lemma CutoverIsRow13(e: seq<Entry>)
    requires IsEpoch(e) && e != [] && e[|e| - 1].to.Failed?
    ensures (exists i :: 0 <= i < |e| && e[i].to.CutoverStarted?) <==> Rank(CutoverStarted) <= Rank(e[|e| - 1].from)
  {
    if 14 <= |e| - 1 { RankInjective(e[13].to, CutoverStarted); }
  }

  /** A server that failed after cutover had started was failed by an engineer's rejection at a gate past
      the commit point, unless the row shows the race: a decision taken before the commit point and
      written after it. */
  lemma {:induction false} FailedPastCommitPoint(c: Config, events: seq<Event>, s: string)
    requires s in WorldAfter(c, events).db.rows && WorldAfter(c, events).db.rows[s].current.Failed?
    ensures var e := EpochOf(WorldAfter(c, events), s);
            && e != []
            && var x := e[|e| - 1];
            && ((exists i :: 0 <= i < |e| && e[i].to.CutoverStarted?) <==> Rank(CutoverStarted) <= Rank(x.from))
            && (Rank(CutoverStarted) <= Rank(x.from) && Undisturbed(x) ==>
                  x.why.Rejected? && x.why.gate in {CutoverValidationGate, ArchiveGate, CleanupGate})
            && (x.why.RolledBack? ==> Rank(x.why.seen) < Rank(CutoverStarted))
  {
    RunsKeep(c, events);
    var e := CurrentEpoch(WorldAfter(c, events).db, s);
    assert e[|e| - 1] in e;
    CutoverIsRow13(e);
    FailedRow(e[|e| - 1]);
  }

  lemma LateGate(g: Gate)
    requires Rank(CutoverStarted) <= Rank(GateState(g))
    ensures g in {CutoverValidationGate, ArchiveGate, CleanupGate}
  {
  }

  // ---- rollback ----

  /** A failed message is acknowledged with nothing done exactly when the read of the row fails or finds no row,
      the server is in a terminal state, or its id is empty, which the API lets one register. So an outage of the
      database, or an empty id, is all that can strand a server: these are the conditions of RollbackLands. */
  lemma RollbackDiscards(c: Config, db: Db, m: Msg, turn: Turn)
    ensures Effect(c, db, Rollbacker(m, Start), turn).db == db
    ensures Effect(c, db, Rollbacker(m, Start), turn).prog == ACK <==>
              || !DbLuck(c, turn.luck).Fine? || m.server !in db.rows
              || m.server == "" || IsTerminal(db.rows[m.server].current)
  {
    if m.server in db.rows && !IsTerminal(db.rows[m.server].current) {
      RollbackGroups(db.rows[m.server].current, db.rows[m.server].aws);
    }
  }

  // ---- the AWS id ----

  /** From AGENT_INSTALLED on the AWS id is known, so that a rollback plan is never empty for want of it. */
  lemma {:induction false} AwsIdKnown(c: Config, events: seq<Event>, s: string)
    requires Reached(WorldAfter(c, events).db, s, AgentInstalled)
    ensures var row := WorldAfter(c, events).db.rows[s];
            && row.aws.Some?
            && (4 <= Rank(row.current) <= 10 || 14 <= Rank(row.current) <= 17 ==>
                  |RollbackPlan(row.current, row.aws).0| == 1)
  {
    RunsKeep(c, events);
    var w := WorldAfter(c, events);
    assert HasAws(w.db, s);
    if Rank(w.db.rows[s].current) < 26 {
      RankBounds(w.db.rows[s].current);
      RollbackGroups(w.db.rows[s].current, w.db.rows[s].aws);
    }
  }

  /** A registration in the machine: a new server starts out PENDING with the details it was given, unless its id is
      taken, its batch does not exist or the connection is lost; nobody else's row and no history change. */
  lemma EnrolmentRegisters(c: Config, w: World, s: string, hostname: string, engineer: Option<string>,
                           batch: Option<string>, luck: Luck)
    ensures var w' := Apply(c, w, Enroll(s, hostname, engineer, batch, luck));
            if luck.Before? || s in w.db.rows || (batch != None && batch.value !in w.db.batches) then w' == w
            else w' == w.(db := w.db.(rows := w.db.rows[s := Row(hostname, engineer, Pending, None, None, batch)]))
  {
  }

  lemma NewBatchIsAdded(c: Config, w: World, batch: string)
    ensures Apply(c, w, NewBatch(batch)) == w.(db := w.db.(batches := w.db.batches + {batch}))
  {
  }

  lemma RunGrows(c: Config, w: World, i: nat, turn: Turn)
    requires Inv(c, w) && i < |w.tasks|
    ensures Growth(w.db, RunTask(c, w, i, turn).db)
  {
    assert TaskOk(c, w.db, w.tasks[i]);
    EffectOk(c, w.db, w.tasks[i], turn);
  }

  lemma {:induction false} ApplyGrows(c: Config, w: World, e: Event)
    requires Inv(c, w)
    ensures Growth(w.db, Apply(c, w, e).db)
  {
    hide Growth, TablesOk, SameStory, Effect;
    NoGrowth(w.db);
    if IsAdmin(e) {
      AdminKeepsStory(c, w, e);
      SameStoryGrows(c, w.db, Apply(c, w, e).db);
    } else if e.Run? && e.task < |w.tasks| {
      RunGrows(c, w, e.task, e.turn);
    }
  }

  /** The history is append-only, servers and AWS ids are never lost, and a terminal state is final up to a
      later reset. */
  lemma {:induction false} TablesOnlyGrow(c: Config, events: seq<Event>, more: seq<Event>)
    ensures Growth(WorldAfter(c, events).db, WorldAfter(c, events + more).db)
  {
    if more == [] {
      assert events + more == events;
    } else {
      var init := more[..|more| - 1];
      TablesOnlyGrow(c, events, init);
      RunsKeep(c, events + init);
      assert (events + more)[..|events + more| - 1] == events + init;
      ApplyGrows(c, WorldAfter(c, events + init), more[|more| - 1]);
    }
  }

  // ---- the two-phase polls ----

  /** In the state the first phase leaves, the second-phase poll goes through exactly when the poll table
      knows about phases; otherwise it is acknowledged unread. */
  lemma SecondPhaseAdmitted(c: Config, db: Db, m: Msg, turn: Turn)
    requires SecondPhase(m) && m.server in db.rows && db.rows[m.server].current == RunningState(m.job)
    requires DbLuck(c, turn.luck).Fine?
    ensures Effect(c, db, Consumer(m, Start), turn).prog == if c.phaseAware then Ask else ACK
  {
  }

  lemma NotPastRunning(c: Config, db: Db, s: string)
    requires TablesOk(c, db) && !c.phaseAware && s in db.rows && !HasReset(db, s)
    ensures IsError(db.rows[s].current) || Rank(db.rows[s].current) <= Rank(TestInstanceRunning)
  {
    var st := db.rows[s].current;
    if !IsError(st) && Rank(st) > Rank(TestInstanceRunning) {
      ReachedSoFar(db, s, AwaitingTestValidation);
    }
  }

  /** With the shipped poll table, a server that was never reset never gets past TEST_INSTANCE_RUNNING:
      no row of its history enters a validation gate. */
  lemma {:induction false} ShippedTableStopsAtRunning(c: Config, events: seq<Event>, s: string)
    requires !c.phaseAware && s in WorldAfter(c, events).db.rows && !HasReset(WorldAfter(c, events).db, s)
    ensures var db := WorldAfter(c, events).db;
            && (forall e :: e in db.history && e.server == s ==> !IsValidationGate(e.to))
            && (IsError(db.rows[s].current) || Rank(db.rows[s].current) <= Rank(TestInstanceRunning))
  {
    RunsKeep(c, events);
    NotPastRunning(c, WorldAfter(c, events).db, s);
  }
}
