/** What the append-only history says about the servers table. A server's log is its slice of the
    history; its epoch is the part of the log since the last reset. */
module AuditTrail {
  import opened Wrappers
  import opened Pipeline
  import opened Store

  function LogOf(h: seq<Entry>, s: string): seq<Entry> {
    if h == [] then []
    else
      var rest := LogOf(h[..|h| - 1], s);
      if h[|h| - 1].server == s then rest + [h[|h| - 1]] else rest
  }

  function Epoch(log: seq<Entry>): seq<Entry> {
    if log == [] || log[|log| - 1].why.WasReset? then []
    else Epoch(log[..|log| - 1]) + [log[|log| - 1]]
  }

  /** Re-executes a log from registration: every row must start where the previous one ended and be a
      legal transition, or the reset of a failed server. The result is the current and previous state. */
  function Replay(log: seq<Entry>): Option<(State, Option<State>)> {
    if log == [] then Some((Pending, None))
    else
      var e := log[|log| - 1];
      var r := Replay(log[..|log| - 1]);
      if r.Some? && r.value.0 == e.from
         && (if e.why.WasReset? then e.from.Failed? && e.to.Pending? else Allowed(e.from, e.to))
      then Some((e.to, Some(e.from)))
      else None
  }

  /** Rows 0, 1, 2, ... of an epoch are the pipeline's edges in order; only the last row may leave
      the pipeline, into an error state. */
  predicate IsEpoch(e: seq<Entry>) {
    forall i :: 0 <= i < |e| ==>
      && Rank(e[i].from) == i < 26
      && (Rank(e[i].to) == i + 1 || (IsError(e[i].to) && i == |e| - 1))
  }

  function EndOf(e: seq<Entry>): State {
    if e == [] then Pending else e[|e| - 1].to
  }

  /** The label a writer attaches to a transition into `to`. Workers never write an approved state;
      a rollback ends in Failed only if it saw the server before cutover had started. */
  predicate LabelFits(to: State, why: Label) {
    match why
    case Approved(g) => to == ApprovedState(g)
    case Rejected(g) => to.Failed?
    case ByJob(j) => !IsError(to) && !IsApproved(to)
    case RolledBack(j, seen) => IsError(to) && Rank(seen) < 26 && (to.Failed? ==> Rank(seen) <= 13)
    case WasReset => false
  }

  ghost predicate DbOk(db: Db) {
    && (forall e :: e in db.history ==> e.server in db.rows && (e.why.WasReset? || LabelFits(e.to, e.why)))
    && (forall s :: s in db.rows ==>
          Replay(LogOf(db.history, s)) == Some((db.rows[s].current, db.rows[s].previous)))
  }

  ghost predicate HasReset(db: Db, s: string) {
    exists e :: e in db.history && e.server == s && e.why.WasReset?
  }

  ghost predicate Reached(db: Db, s: string, st: State) {
    s in db.rows && (st.Pending? || exists e :: e in db.history && e.server == s && e.to == st)
  }

  ghost predicate GateOpened(h: seq<Entry>, s: string, g: Gate) {
    exists e :: e in h && e.server == s && e.why == Approved(g)
  }

  // ---- logs ----

  lemma LogAppend(h: seq<Entry>, e: Entry, s: string)
    ensures LogOf(h + [e], s) == LogOf(h, s) + if e.server == s then [e] else []
  {
    assert (h + [e])[..|h|] == h;
  }

  lemma {:induction false} LogMembers(h: seq<Entry>, s: string, e: Entry)
    ensures e in LogOf(h, s) <==> e in h && e.server == s
  {
    if h != [] {
      LogMembers(h[..|h| - 1], s, e);
      assert h == h[..|h| - 1] + [h[|h| - 1]];
    }
  }

  lemma LogOfStranger(h: seq<Entry>, s: string)
    requires forall e :: e in h ==> e.server != s
    ensures LogOf(h, s) == []
  {
    if LogOf(h, s) != [] { LogMembers(h, s, LogOf(h, s)[0]); }
  }

  /** The epoch of a log that replays is a prefix of the 27-state pipeline, optionally ended by one
      error row, and it ends in the current state. */
  lemma {:induction false} ReplayedEpoch(log: seq<Entry>)
    requires Replay(log).Some?
    ensures IsEpoch(Epoch(log))
    ensures EndOf(Epoch(log)) == Replay(log).value.0
    ensures forall e :: e in Epoch(log) ==> e in log && !e.why.WasReset?
  {
    if log != [] && !log[|log| - 1].why.WasReset? {
      var init, e := log[..|log| - 1], log[|log| - 1];
      ReplayedEpoch(init);
      TableIsPipeline(e.from, e.to);
      var ep := Epoch(init);
      assert Epoch(log) == ep + [e];
      EpochLength(ep);
      assert Rank(e.from) == |ep|;
      forall i | 0 <= i < |ep|
        ensures Rank(ep[i].from) == i < 26 && Rank(ep[i].to) == i + 1
      {
        if IsError(ep[i].to) { RankBounds(ep[i].to); RankBounds(e.from); }
      }
    }
  }

  /** Away from the error states, the length of an epoch is the position in the pipeline. */
  lemma EpochLength(e: seq<Entry>)
    requires IsEpoch(e)
    ensures !IsError(EndOf(e)) ==> Rank(EndOf(e)) == |e|
    ensures IsError(EndOf(e)) ==> 0 < |e| && Rank(e[|e| - 1].from) == |e| - 1
  {
    if e != [] { RankBounds(EndOf(e)); }
  }

  lemma {:induction false} EpochWithoutReset(log: seq<Entry>)
    requires forall e :: e in log ==> !e.why.WasReset?
    ensures Epoch(log) == log
  {
    if log != [] {
      EpochWithoutReset(log[..|log| - 1]);
    }
  }

  // ---- what one transaction keeps ----

  lemma WriteKeepsDbOk(db: Db, e: Entry)
    requires DbOk(db) && e.server in db.rows && e.from == db.rows[e.server].current
    requires if e.why.WasReset? then e.from.Failed? && e.to.Pending?
             else Allowed(e.from, e.to) && LabelFits(e.to, e.why)
    ensures DbOk(Write(db, e))
  {
    var db' := Write(db, e);
    forall s | s in db'.rows
      ensures Replay(LogOf(db'.history, s)) == Some((db'.rows[s].current, db'.rows[s].previous))
    {
      LogAppend(db.history, e, s);
      var log := LogOf(db.history, s);
      if s == e.server {
        assert (log + [e])[..|log|] == log;
      }
    }
  }

  // ---- what the history tells about a server ----

  /** A server's current epoch, with everything known about its rows. */
  lemma CurrentEpoch(db: Db, s: string) returns (e: seq<Entry>)
    requires DbOk(db) && s in db.rows
    ensures e == Epoch(LogOf(db.history, s))
    ensures IsEpoch(e) && EndOf(e) == db.rows[s].current
    ensures !IsError(db.rows[s].current) ==> |e| == Rank(db.rows[s].current)
    ensures forall x :: x in e ==> x in db.history && x.server == s && !x.why.WasReset? && LabelFits(x.to, x.why)
  {
    var log := LogOf(db.history, s);
    e := Epoch(log);
    ReplayedEpoch(log);
    EpochLength(e);
    forall x | x in e ensures x in db.history && x.server == s { LogMembers(db.history, s, x); }
  }

  /** A server in the pipeline has reached every state up to its own. */
  lemma ReachedSoFar(db: Db, s: string, st: State)
    requires DbOk(db) && s in db.rows && !IsError(db.rows[s].current)
    requires Rank(st) <= Rank(db.rows[s].current)
    ensures Reached(db, s, st)
  {
    if !st.Pending? {
      var e := CurrentEpoch(db, s);
      RankBounds(db.rows[s].current);
      RankBounds(st);
      assert 0 < Rank(st);
      var i := Rank(st) - 1;
      if IsError(e[i].to) { RankBounds(EndOf(e)); }
      RankInjective(e[i].to, st);
      assert e[i] in db.history;
    }
  }

  /** Without resets a server never returns to a state it has left. */
  lemma NeverBack(db: Db, s: string, st: State)
    requires DbOk(db) && Reached(db, s, st) && !HasReset(db, s)
    ensures IsError(db.rows[s].current) || Rank(st) <= Rank(db.rows[s].current)
  {
    if !st.Pending? {
      var x :| x in db.history && x.server == s && x.to == st;
      LogMembers(db.history, s, x);
      var log := LogOf(db.history, s);
      forall y | y in log ensures !y.why.WasReset? { LogMembers(db.history, s, y); }
      EpochWithoutReset(log);
      var e := CurrentEpoch(db, s);
      var i :| 0 <= i < |e| && e[i] == x;
      RankBounds(st);
    }
  }

  /** The rows of an epoch that cross a gate are that gate's approvals, and no other row is one. */
  lemma GateRow(x: Entry, g: Gate)
    requires LabelFits(x.to, x.why) && (IsError(x.to) || Rank(x.to) == Rank(x.from) + 1)
    ensures x.why == Approved(g) <==> x.from == GateState(g) && !IsError(x.to)
  {
    GateEdges(g);
    RankBounds(x.to);
    if x.why == Approved(g) {
      RankInjective(x.from, GateState(g));
    }
    if x.from == GateState(g) && !IsError(x.to) {
      RankInjective(x.to, ApprovedState(g));
      if x.why.Approved? { GatesDistinct(g, x.why.gate); }
    }
  }

  /** Approvals sit at fixed positions: row i approves g exactly when i is g's place in the pipeline
      and the row does not leave it. */
  lemma ApprovalPosition(e: seq<Entry>, i: nat, g: Gate)
    requires IsEpoch(e) && i < |e| && LabelFits(e[i].to, e[i].why)
    ensures e[i].why == Approved(g) <==> i == Rank(GateState(g)) && !IsError(e[i].to)
  {
    GateRow(e[i], g);
    if i == Rank(GateState(g)) { RankInjective(e[i].from, GateState(g)); }
  }

  /** In an epoch that has not left the pipeline, every gate already passed has its approval row. */
  lemma ApprovalPresent(e: seq<Entry>, g: Gate)
    requires IsEpoch(e) && !IsError(EndOf(e)) && Rank(ApprovedState(g)) <= |e|
    requires forall x :: x in e ==> LabelFits(x.to, x.why)
    ensures Rank(GateState(g)) < |e| && e[Rank(GateState(g))].why == Approved(g)
  {
    GateEdges(g);
    var i := Rank(GateState(g));
    assert e[i] in e;
    ApprovalPosition(e, i, g);
  }

  lemma GatesPassed(db: Db, s: string, g: Gate)
    requires DbOk(db) && s in db.rows && !IsError(db.rows[s].current)
    requires Rank(ApprovedState(g)) <= Rank(db.rows[s].current)
    ensures GateOpened(db.history, s, g)
  {
    var e := CurrentEpoch(db, s);
    ApprovalPresent(e, g);
    var x := e[Rank(GateState(g))];
    assert x in db.history;
  }

  lemma EdgeOnce(e: seq<Entry>, i: nat, j: nat)
    requires IsEpoch(e) && i < j < |e|
    ensures e[i].from != e[j].from && e[i].to != e[j].to && !IsError(e[i].to)
  {
    RankBounds(e[i].to);
    RankBounds(e[j].to);
    assert Rank(e[i].from) == i && Rank(e[j].from) == j;
    assert Rank(e[i].to) == i + 1;
  }

  /** An epoch with a row at or past the state gate g protects approves g exactly once, in the row that leaves
      the gate. */
  lemma ApprovedOnce(e: seq<Entry>, g: Gate, k: nat)
    requires IsEpoch(e) && (forall x :: x in e ==> LabelFits(x.to, x.why))
    requires k < |e| && !IsError(e[k].to) && Rank(ApprovedState(g)) <= Rank(e[k].to)
    ensures Rank(GateState(g)) <= k
    ensures forall i :: 0 <= i < |e| ==> (e[i].why == Approved(g) <==> i == Rank(GateState(g)))
  {
    var p := ApprovedIndex(g);
    assert Rank(e[k].to) == k + 1 by { RankBounds(e[k].to); }
    assert !IsError(e[p].to) by { if p < k { EdgeOnce(e, p, k); } }
    forall i | 0 <= i < |e| ensures e[i].why == Approved(g) <==> i == p {
      assert e[i] in e;
      ApprovalPosition(e, i, g);
    }
  }

  lemma ApprovedIndex(g: Gate) returns (p: nat)
    ensures p == Rank(GateState(g)) && p + 1 == Rank(ApprovedState(g))
  {
    GateEdges(g);
    p := Rank(GateState(g));
  }
}
