/** Why a handler's AWS call is ever repeated. Whatever AWS, the broker and the database do, and however handlers
    interleave, a job that only an approval dispatches makes its call at most once for every approval, plus once for
    every redelivery of its messages. */
module Attempts {
  import opened Wrappers
  import opened Pipeline
  import opened Store
  import opened AuditTrail
  import opened Handlers
  import opened Machine
  import opened Steps
  import opened Undivided
  import opened EpochApprovals
  import opened Guarantees
  import opened Rollbacks
  import opened Shapes

  // ---- sums over a sequence ----

  ghost function Sum<T>(q: seq<T>, f: T -> nat): nat {
    if q == [] then 0 else Sum(q[..|q| - 1], f) + f(q[|q| - 1])
  }

  lemma SumOne<T>(q: seq<T>, x: T, f: T -> nat)
    ensures Sum(q + [x], f) == Sum(q, f) + f(x)
  {
    assert (q + [x])[..|q|] == q;
  }

  lemma {:induction false} SumWithout<T>(q: seq<T>, k: nat, f: T -> nat)
    requires k < |q|
    ensures Sum(Without(q, k), f) + f(q[k]) == Sum(q, f)
  {
    var n := |q| - 1;
    if k < n {
      SumWithout(q[..n], k, f);
      assert Without(q, k)[..n - 1] == Without(q[..n], k);
    } else {
      assert Without(q, k) == q[..n];
    }
  }

  lemma {:induction false} SumUpdate<T>(q: seq<T>, k: nat, x: T, f: T -> nat)
    requires k < |q|
    ensures Sum(q[k := x], f) + f(q[k]) == Sum(q, f) + f(x)
  {
    var n := |q| - 1;
    if k < n {
      SumUpdate(q[..n], k, x, f);
      assert q[k := x][..n] == q[..n][k := x];
    } else {
      assert q[k := x][..n] == q[..n];
    }
  }

  lemma {:induction false} SumPair<T>(q: seq<T>, k: nat, l: nat, f: T -> nat)
    requires k < l < |q|
    ensures f(q[k]) + f(q[l]) <= Sum(q, f)
  {
    var n := |q| - 1;
    if l < n { SumPair(q[..n], k, l, f); } else { SumMember(q[..n], k, f); }
  }

  lemma {:induction false} SumMember<T>(q: seq<T>, k: nat, f: T -> nat)
    requires k < |q|
    ensures f(q[k]) <= Sum(q, f)
  {
    var n := |q| - 1;
    if k < n { SumMember(q[..n], k, f); }
  }

  // ---- what a gate's approvals have set in motion for a server ----

  predicate ForJob(m: Msg, s: string, g: Gate) { m.server == s && m.job == GateJob(g) }

  function QueuedFor(s: string, g: Gate): Msg -> nat {
    (m: Msg) => if ForJob(m, s, g) then 1 else 0
  }

  /** A dispatch still to be published, or a handler run that may still make its call. */
  predicate MayCall(t: Task, s: string, g: Gate) {
    match t
    case Consumer(m, p) => ForJob(m, s, g) && (p.Start? || p.Ask? || p.Act?)
    case Rollbacker(_, _) => false
    case Api(_, _, p) => p.Publish? && ForJob(p.msg, s, g)
  }

  function UnderWay(s: string, g: Gate): Task -> nat {
    (t: Task) => if MayCall(t, s, g) then 1 else 0
  }

  /** A call of a handler, whatever became of it. */
  predicate Attempted(r: CallRecord, s: string, g: Gate) {
    r.server == s && Some(r.call) == CallOf(GateJob(g)) && !r.rollback
  }

  function CallsFor(s: string, g: Gate): CallRecord -> nat {
    (r: CallRecord) => if Attempted(r, s, g) then 1 else 0
  }

  function ApprovalsOf(s: string, g: Gate): Entry -> nat {
    (e: Entry) => if e.server == s && e.why == Approved(g) then 1 else 0
  }

  ghost function Tokens(w: World, s: string, g: Gate): nat {
    Sum(w.ready, QueuedFor(s, g)) + Sum(w.tasks, UnderWay(s, g)) + Sum(w.calls, CallsFor(s, g))
  }

  ghost function Approvals(w: World, s: string, g: Gate): nat { Sum(w.db.history, ApprovalsOf(s, g)) }

  /** The worker that holds such a message dies or loses its connection, so that the message is delivered again. */
  predicate Redelivers(w: World, e: Event, s: string, g: Gate) {
    (e.Crash? || e.Sever?) &&
    var i := if e.Crash? then e.victim else e.cut;
    i < |w.tasks| && i !in w.orphans && !IsDone(w.tasks[i].prog) && w.tasks[i].Consumer? && ForJob(w.tasks[i].msg, s, g)
  }

  ghost function Redelivered(c: Config, events: seq<Event>, s: string, g: Gate): nat {
    if events == [] then 0
    else
      var init := events[..|events| - 1];
      Redelivered(c, init, s, g) + if Redelivers(WorldAfter(c, init), events[|events| - 1], s, g) then 1 else 0
  }

  // ---- one step ----

  lemma GateJobsDistinct(g: Gate, h: Gate, j: Job)
    ensures GateJob(g) == GateJob(h) ==> g == h
    ensures CallOf(j) == CallOf(GateJob(g)) ==> j == GateJob(g)
    ensures IsGateJob(GateJob(g))
  {
  }

  /** What a step adds to the approvals covers what it adds to the tokens. */
  ghost predicate Covered(db: Db, t: Task, d: Delta, s: string, g: Gate) {
    var t' := WithProg(t, d.prog);
    UnderWay(s, g)(t') + Sum(d.out, QueuedFor(s, g)) + Sum(d.calls, CallsFor(s, g)) + Sum(db.history, ApprovalsOf(s, g))
    <= UnderWay(s, g)(t) + Sum(d.db.history, ApprovalsOf(s, g))
  }

  lemma {:induction false} SumPrefix<T>(q: seq<T>, q': seq<T>, f: T -> nat)
    requires q <= q'
    ensures Sum(q, f) <= Sum(q', f)
  {
    if q == q' {
    } else {
      SumPrefix(q, q'[..|q'| - 1], f);
    }
  }

  lemma SumNone<T>(x: T, f: T -> nat)
    ensures Sum([], f) == 0 && Sum([x], f) == f(x)
  {
    assert [x][..0] == [];
  }

  lemma ChainInert(c: Config, m: Msg, p: Prog, s: string, g: Gate)
    requires Chain(c, m, p)
    ensures !MayCall(Consumer(m, p), s, g)
    ensures !p.Settle? && !IsDone(p) ==> (p.SaveAws? || p.Move? || p.Publish?) && Chain(c, m, p.next)
    ensures p.Publish? ==> !ForJob(p.msg, s, g)
  {
    GateJobsDistinct(g, g, GateJob(g));
  }

  lemma ActCovered(c: Config, db: Db, t: Task, turn: Turn, s: string, g: Gate)
    requires t.prog.Act? && Shaped(c, t)
    ensures Covered(db, t, Effect(c, db, t, turn), s, g)
  {
    hide AfterAct;
    var m, d := t.msg, Effect(c, db, t, turn);
    SumNone(d.calls[0], CallsFor(s, g));
    SumNone(m, QueuedFor(s, g));
    GateJobsDistinct(g, g, m.job);
    ActChained(c, m, turn.answer);
    EndsChained(c, m);
    ChainInert(c, m, d.prog, s, g);
  }

  lemma ReadCovered(c: Config, db: Db, t: Task, turn: Turn, s: string, g: Gate)
    requires t.Consumer? && (t.prog.Start? || t.prog.Ask?)
    ensures Covered(db, t, Effect(c, db, t, turn), s, g)
  {
    hide AfterAsk, AfterGuard, GuardState, MayCall, Sum, ApprovalsOf;
    SumNone(t.msg, QueuedFor(s, g));
    SumNone(CallRecord(s, StopReplication, true, Fine, 0), CallsFor(s, g));
    StillMayCall(t, Effect(c, db, t, turn).prog, s, g);
  }

  lemma ChainCovered(c: Config, db: Db, t: Task, turn: Turn, s: string, g: Gate)
    requires t.Consumer? && Chain(c, t.msg, t.prog)
    ensures Covered(db, t, Effect(c, db, t, turn), s, g)
  {
    hide AfterAsk, AfterAct, AfterGuard, NextStates, Chain, MayCall, Sum, ApprovalsOf;
    var m, d := t.msg, Effect(c, db, t, turn);
    HistoryExtends(c, db, t, turn);
    SumPrefix(db.history, d.db.history, ApprovalsOf(s, g));
    SumNone(if t.prog.Publish? then t.prog.msg else m, QueuedFor(s, g));
    SumNone(CallRecord(s, StopReplication, true, Fine, 0), CallsFor(s, g));
    EndsChained(c, m);
    ChainInert(c, m, t.prog, s, g);
    ChainInert(c, m, NACK, s, g);
    if t.prog.SaveAws? || t.prog.Move? || t.prog.Publish? { ChainInert(c, m, t.prog.next, s, g); }
    ChainInert(c, m, Finished, s, g);
  }

  lemma StillMayCall(t: Task, p: Prog, s: string, g: Gate)
    requires t.Consumer? && (t.prog.Start? || t.prog.Ask?)
    ensures MayCall(WithProg(t, p), s, g) ==> MayCall(t, s, g)
  {
  }

  lemma RollbackerCovered(c: Config, db: Db, t: Task, turn: Turn, s: string, g: Gate)
    requires t.Rollbacker? && Shaped(c, t)
    ensures Covered(db, t, Effect(c, db, t, turn), s, g)
  {
    hide NextStates, RollbackPlan, Sum, ApprovalsOf;
    var d := Effect(c, db, t, turn);
    HistoryExtends(c, db, t, turn);
    SumPrefix(db.history, d.db.history, ApprovalsOf(s, g));
    SumNone(t.msg, QueuedFor(s, g));
    SumNone(if t.prog.Undo? && t.prog.plan != [] then d.calls[0] else CallRecord(s, StopReplication, true, Fine, 0),
            CallsFor(s, g));
  }

  lemma DecisionGains(c: Config, db: Db, t: Task, turn: Turn, s: string, g: Gate)
    requires t.Api? && t.prog.Move?
    ensures var d := Effect(c, db, t, turn);
            && d.out == [] && d.calls == [] && (d.prog == t.prog.next || d.prog == Finished)
            && Sum(db.history, ApprovalsOf(s, g)) <= Sum(d.db.history, ApprovalsOf(s, g))
            && (d.prog == t.prog.next != Finished && t.server == s && t.prog.why == Approved(g) ==>
                  Sum(db.history, ApprovalsOf(s, g)) + 1 == Sum(d.db.history, ApprovalsOf(s, g)))
  {
    hide NextStates, Allowed, Sum;
    var d := Effect(c, db, t, turn);
    HistoryExtends(c, db, t, turn);
    SumPrefix(db.history, d.db.history, ApprovalsOf(s, g));
    if d.db.history != db.history {
      SumOne(db.history, d.db.history[|db.history|], ApprovalsOf(s, g));
    }
  }

  /** An approval that is committed adds the row that its dispatch needs. */
  lemma ApproveCovered(c: Config, db: Db, t: Task, turn: Turn, s: string, g: Gate)
    requires t.Api? && t.prog.Move? && Shaped(c, t)
    ensures Covered(db, t, Effect(c, db, t, turn), s, g)
  {
    hide NextStates, Effect, Sum, ApprovalsOf, MayCall;
    var d := Effect(c, db, t, turn);
    SumNone(Fresh(AddServer, s, None), QueuedFor(s, g));
    SumNone(CallRecord(s, StopReplication, true, Fine, 0), CallsFor(s, g));
    DecisionGains(c, db, t, turn, s, g);
    DispatchIsForGate(c, t, s, g);
  }

  lemma DispatchIsForGate(c: Config, t: Task, s: string, g: Gate)
    requires t.Api? && t.prog.Move? && Shaped(c, t)
    ensures !MayCall(t, s, g) && !MayCall(WithProg(t, Finished), s, g)
    ensures MayCall(WithProg(t, t.prog.next), s, g) ==> t.prog.why == Approved(g) && t.server == s
  {
    if t.prog.why.Approved? { GateJobsDistinct(g, t.prog.why.gate, GateJob(g)); }
  }

  /** No request but an approval dispatches a gate's job. */
  lemma RequestDispatches(c: Config, db: Db, t: Task, turn: Turn, s: string, g: Gate)
    requires t.Api? && t.prog.Start?
    ensures var d := Effect(c, db, t, turn);
            d.out == [] && d.calls == [] && !MayCall(WithProg(t, d.prog), s, g)
  {
    hide NextStates, Reset;
    GateJobsDistinct(g, g, GateJob(g));
  }

  lemma ApiCovered(c: Config, db: Db, t: Task, turn: Turn, s: string, g: Gate)
    requires t.Api? && !t.prog.Move? && Shaped(c, t)
    ensures Covered(db, t, Effect(c, db, t, turn), s, g)
  {
    hide NextStates, StartEffect, Sum, ApprovalsOf, ForJob;
    var d := Effect(c, db, t, turn);
    HistoryExtends(c, db, t, turn);
    SumPrefix(db.history, d.db.history, ApprovalsOf(s, g));
    SumNone(if t.prog.Publish? then t.prog.msg else Fresh(AddServer, s, None), QueuedFor(s, g));
    SumNone(CallRecord(s, StopReplication, true, Fine, 0), CallsFor(s, g));
    if t.prog.Start? { RequestDispatches(c, db, t, turn, s, g); }
  }

  lemma ChainOf(c: Config, t: Task)
    requires t.Consumer? && Shaped(c, t) && !t.prog.Start? && !t.prog.Ask? && !t.prog.Act?
    ensures Chain(c, t.msg, t.prog)
  {
  }

  lemma StepCovered(c: Config, db: Db, t: Task, turn: Turn, s: string, g: Gate)
    requires Shaped(c, t)
    ensures Covered(db, t, Effect(c, db, t, turn), s, g)
  {
    hide Covered, Effect;
    if t.prog.Act? { ActCovered(c, db, t, turn, s, g); }
    else if t.Consumer? && (t.prog.Start? || t.prog.Ask?) { ReadCovered(c, db, t, turn, s, g); }
    else if t.Consumer? { ChainOf(c, t); ChainCovered(c, db, t, turn, s, g); }
    else if t.Rollbacker? { RollbackerCovered(c, db, t, turn, s, g); }
    else if t.prog.Move? { ApproveCovered(c, db, t, turn, s, g); }
    else { ApiCovered(c, db, t, turn, s, g); }
  }

  // ---- any event, any run ----

  lemma {:induction false} SumConcat<T>(q: seq<T>, q': seq<T>, f: T -> nat)
    ensures Sum(q + q', f) == Sum(q, f) + Sum(q', f)
  {
    if q' == [] {
      assert q + q' == q;
    } else {
      SumConcat(q, q'[..|q'| - 1], f);
      assert (q + q')[..|q + q'| - 1] == q + q'[..|q'| - 1];
    }
  }

  lemma RunCovered(c: Config, w: World, i: nat, turn: Turn, s: string, g: Gate)
    requires i < |w.tasks| && Shaped(c, w.tasks[i])
    ensures var w' := RunTask(c, w, i, turn);
            Tokens(w', s, g) + Approvals(w, s, g) <= Tokens(w, s, g) + Approvals(w', s, g)
  {
    hide Effect, Shaped, QueuedFor, UnderWay, CallsFor, ApprovalsOf;
    var t := w.tasks[i];
    var d := Effect(c, w.db, t, turn);
    StepCovered(c, w.db, t, turn, s, g);
    SumConcat(w.ready, d.out, QueuedFor(s, g));
    SumUpdate(w.tasks, i, WithProg(t, d.prog), UnderWay(s, g));
    SumConcat(w.calls, d.calls, CallsFor(s, g));
  }

  lemma TaskReplaced(w: World, i: nat, t': Task, back: seq<Msg>, w': World, s: string, g: Gate)
    requires i < |w.tasks| && w'.tasks == w.tasks[i := t'] && w'.ready == w.ready + back && w'.calls == w.calls
    requires MayCall(t', s, g) ==> MayCall(w.tasks[i], s, g)
    ensures Tokens(w', s, g) <= Tokens(w, s, g) + Sum(back, QueuedFor(s, g))
  {
    hide Sum, MayCall, QueuedFor;
    SumUpdate(w.tasks, i, t', UnderWay(s, g));
    SumConcat(w.ready, back, QueuedFor(s, g));
  }

  lemma RedeliveryCovered(w: World, e: Event, i: nat, w': World, s: string, g: Gate)
    requires i < |w.tasks| && ((e == Crash(i) && w' == CrashTask(w, i)) || (e == Sever(i) && w' == SeverTask(w, i)))
    ensures Approvals(w', s, g) == Approvals(w, s, g)
    ensures Tokens(w', s, g) <= Tokens(w, s, g) + if Redelivers(w, e, s, g) then 1 else 0
  {
    hide Sum, Tokens, ForJob;
    var t := w.tasks[i];
    if !IsDone(t.prog) {
      assert w.tasks[i := t] == w.tasks && w.ready + [] == w.ready;
      var back := if t.Consumer? && i !in w.orphans then [t.msg] else [];
      TaskReplaced(w, i, if e.Crash? then WithProg(t, Crashed) else t, back, w', s, g);
      SumNone(if t.Api? then Fresh(AddServer, s, None) else t.msg, QueuedFor(s, g));
    }
  }

  lemma SubmitCovered(c: Config, w: World, e: Event, s: string, g: Gate)
    requires e.Submit?
    ensures Tokens(Apply(c, w, e), s, g) == Tokens(w, s, g)
  {
    hide Sum, ForJob;
    SumOne(w.tasks, Api(e.to, e.request, Start), UnderWay(s, g));
  }

  lemma DeliverCovered(c: Config, w: World, k: nat, s: string, g: Gate)
    requires k < |w.ready|
    ensures Tokens(Apply(c, w, Deliver(k)), s, g) == Tokens(w, s, g)
  {
    hide Sum, ForJob;
    SumWithout(w.ready, k, QueuedFor(s, g));
    SumOne(w.tasks, Consumer(w.ready[k], Start), UnderWay(s, g));
  }

  lemma CollectCovered(c: Config, w: World, k: nat, s: string, g: Gate)
    requires k < |w.failed|
    ensures Tokens(Apply(c, w, Collect(k)), s, g) == Tokens(w, s, g)
  {
    hide Sum, ForJob;
    SumOne(w.tasks, Rollbacker(w.failed[k], Start), UnderWay(s, g));
  }

  lemma QueuesCovered(c: Config, w: World, e: Event, s: string, g: Gate)
    requires e.Submit? || e.Deliver? || e.Collect?
    ensures Tokens(Apply(c, w, e), s, g) == Tokens(w, s, g) && Approvals(Apply(c, w, e), s, g) == Approvals(w, s, g)
  {
    hide Tokens;
    match e
    case Submit(_, _) => SubmitCovered(c, w, e, s, g);
    case Deliver(k) => if k < |w.ready| { DeliverCovered(c, w, k, s, g); }
    case Collect(k) => if k < |w.failed| { CollectCovered(c, w, k, s, g); }
  }

  lemma ApplyCovered(c: Config, w: World, e: Event, s: string, g: Gate)
    requires AllShaped(c, w)
    ensures var w' := Apply(c, w, e);
            Tokens(w', s, g) + Approvals(w, s, g)
            <= Tokens(w, s, g) + Approvals(w', s, g) + if Redelivers(w, e, s, g) then 1 else 0
  {
    hide Shaped, Tokens, Approvals, RunTask, CrashTask, SeverTask, Redelivers;
    if IsAdmin(e) { AdminCovered(c, w, e, s, g); }
    else if e.Run? { if e.task < |w.tasks| { RunCovered(c, w, e.task, e.turn, s, g); } }
    else if e.Crash? { if e.victim < |w.tasks| { RedeliveryCovered(w, e, e.victim, CrashTask(w, e.victim), s, g); } }
    else if e.Sever? { if e.cut < |w.tasks| { RedeliveryCovered(w, e, e.cut, SeverTask(w, e.cut), s, g); } }
    else { QueuesCovered(c, w, e, s, g); }
  }

  lemma AdminCovered(c: Config, w: World, e: Event, s: string, g: Gate)
    requires IsAdmin(e)
    ensures var w' := Apply(c, w, e); Tokens(w', s, g) == Tokens(w, s, g) && Approvals(w', s, g) == Approvals(w, s, g)
  {
    hide Apply;
    AdminKeepsStory(c, w, e);
  }

  /** After any run: the calls a gate's job has attempted for a server, the handler runs that may still make one, the
      messages queued for them and the dispatches on their way there are together at most the approvals of the gate in
      the server's history and the redeliveries of those messages. */
  lemma {:induction false} AttemptsCovered(c: Config, events: seq<Event>, s: string, g: Gate)
    ensures Tokens(WorldAfter(c, events), s, g)
            <= Approvals(WorldAfter(c, events), s, g) + Redelivered(c, events, s, g)
  {
    hide Apply, Redelivers, AllShaped;
    if events != [] {
      var init := events[..|events| - 1];
      AttemptsCovered(c, init, s, g);
      RunsShaped(c, init);
      ApplyCovered(c, WorldAfter(c, init), events[|events| - 1], s, g);
    }
  }

  lemma {:induction false} LogSum(h: seq<Entry>, s: string, g: Gate)
    ensures Sum(h, ApprovalsOf(s, g)) == Sum(LogOf(h, s), ApprovalsOf(s, g))
  {
    if h != [] {
      LogSum(h[..|h| - 1], s, g);
      SumOne(LogOf(h[..|h| - 1], s), h[|h| - 1], ApprovalsOf(s, g));
    }
  }

  /** An epoch has at most one approval of a gate. */
  lemma {:induction false} EpochSum(e: seq<Entry>, n: nat, s: string, g: Gate)
    requires IsEpoch(e) && (forall x :: x in e ==> LabelFits(x.to, x.why)) && n <= |e|
    ensures Sum(e[..n], ApprovalsOf(s, g)) <= if n <= Rank(GateState(g)) then 0 else 1
  {
    if n > 0 {
      EpochSum(e, n - 1, s, g);
      assert e[..n][..n - 1] == e[..n - 1] && e[n - 1] in e;
      ApprovalPosition(e, n - 1, g);
    }
  }

  lemma ApprovedOnceEver(db: Db, s: string, g: Gate)
    requires DbOk(db) && s in db.rows && !HasReset(db, s)
    ensures Sum(db.history, ApprovalsOf(s, g)) <= 1
  {
    hide DbOk;
    var log := LogOf(db.history, s);
    LogSum(db.history, s, g);
    forall x | x in log ensures !x.why.WasReset? { LogMembers(db.history, s, x); }
    EpochWithoutReset(log);
    var e := CurrentEpoch(db, s);
    EpochSum(e, |e|, s, g);
    assert e[..|e|] == e;
  }

  lemma NeverApproved(db: Db, s: string, g: Gate)
    requires DbOk(db) && s !in db.rows
    ensures Sum(db.history, ApprovalsOf(s, g)) == 0
  {
    LogSum(db.history, s, g);
    LogOfStranger(db.history, s);
  }

  /** Without a reset of the server and without a redelivery of the messages of the gate's job, the call of that job is
      attempted at most once, whatever AWS, the broker and the database do. */
  lemma {:induction false} AttemptedOnce(c: Config, events: seq<Event>, s: string, g: Gate, k: nat, l: nat)
    requires !HasReset(WorldAfter(c, events).db, s) && Redelivered(c, events, s, g) == 0
    requires k < |WorldAfter(c, events).calls| && Attempted(WorldAfter(c, events).calls[k], s, g)
    requires l < |WorldAfter(c, events).calls| && Attempted(WorldAfter(c, events).calls[l], s, g)
    ensures k == l
  {
    hide Exec, DbOk, Redelivered;
    var w := WorldAfter(c, events);
    AttemptsCovered(c, events, s, g);
    RunsAreOk(c, events);
    if s in w.db.rows { ApprovedOnceEver(w.db, s, g); } else { NeverApproved(w.db, s, g); }
    if k < l { SumPair(w.calls, k, l, CallsFor(s, g)); }
    if l < k { SumPair(w.calls, l, k, CallsFor(s, g)); }
  }
}
