/** Transactions come to an end: left to itself each one commits what its atomic form does or aborts with the error that
    its atomic form has, whoever holds a row lock lets go of it, and there is no deadlock. */
module Commits {
  import opened Wrappers
  import opened Pipeline
  import opened Store
  import opened Transactions

  /** The next n statements of transaction t, with nothing in between. */
  function Nexts(d: Site, t: nat, n: nat): Site {
    if n == 0 then d else Apply(Nexts(d, t, n - 1), Next(t))
  }

  // ---- advances and resets ----

  predicate IsLocking(op: Op) { op.AdvanceOp? || op.ResetOp? }

  /** The operation on the tables as they are, in the words of the transition table. */
  lemma AtomicMeans(db: Db, op: Op)
    requires IsLocking(op)
    ensures op.server !in db.rows ==> Atomic(db, op) == Err(NotFound)
    ensures op.server in db.rows && !Legal(op, db.rows[op.server].current) ==>
              Atomic(db, op) == Err(if op.AdvanceOp? then InvalidTransition else NotFailed)
    ensures op.server in db.rows && Legal(op, db.rows[op.server].current) ==>
              Atomic(db, op) == Ok(Write(db, EntryOf(op, db.rows[op.server].current)))
  {
  }

  lemma Unfold(d: Site, t: nat, n: nat)
    requires n > 0
    ensures Nexts(d, t, n) == Nexts(Apply(d, Next(t)), t, n - 1)
  {
    if n > 1 { Unfold(d, t, n - 1); }
  }

  /** A transaction that has ended takes no further step. */
  lemma {:induction false} EndedStays(d: Site, t: nat, n: nat)
    requires t < |d.txns| && (d.txns[t].phase.Committed? || d.txns[t].phase.Aborted?)
    ensures Nexts(d, t, n) == d
  {
    if n > 0 { EndedStays(d, t, n - 1); }
  }

  /** The site as it was but for transaction t, which has ended and holds no lock: either it has committed, and the
      tables are those of its atomic form, or it has aborted, and they are as before. */
  ghost predicate Ended(d: Site, d': Site, t: nat)
    requires t < |d.txns|
  {
    var op := d.txns[t].op;
    && (forall s :: s in d'.locks ==> s in d.locks && d'.locks[s] == d.locks[s] != t)
    && (forall s :: s in d.locks && d.locks[s] != t ==> s in d'.locks)
    && match Atomic(d.db, op)
       case Ok(db') =>
         d'.db == db' && d'.order == d.order + [(t, op)] && d'.txns == d.txns[t := Txn(op, Committed)]
       case Err(e) =>
         d'.db == d.db && d'.order == d.order && d'.txns == d.txns[t := Txn(op, Aborted(e))]
  }

  /** The number of statements a transaction still has before it, once it holds its lock. */
  function Remaining(p: Phase): nat {
    match p
    case Locked => 5
    case Read(_) => 4
    case Validated(_) => 3
    case Updated(_, _) => 2
    case Appended(_, _, _) => 1
    case _ => 0
  }

  /** One statement of a lock holder ends the transaction, or brings it nearer to its end and changes nothing else. */
  lemma HolderSteps(d: Site, t: nat)
    requires LocksOk(d) && t < |d.txns| && HoldsLock(d.txns[t].phase)
    ensures var d' := Apply(d, Next(t));
            || Ended(d, d', t)
            || (&& t < |d'.txns| && HoldsLock(d'.txns[t].phase)
                && Remaining(d'.txns[t].phase) == Remaining(d.txns[t].phase) - 1
                && d' == d.(txns := d.txns[t := Txn(d.txns[t].op, d'.txns[t].phase)]))
  {
    assert TxnOk(d, t);
    AtomicMeans(d.db, d.txns[t].op);
  }

  /** What comes after a statement that changed nothing but the phase of t. */
  lemma EndsAfterStep(d: Site, d1: Site, d2: Site, t: nat, p: Phase)
    requires t < |d.txns| && d1 == d.(txns := d.txns[t := Txn(d.txns[t].op, p)]) && Ended(d1, d2, t)
    ensures Ended(d, d2, t)
  {
    hide Atomic;
  }

  lemma {:induction false} HolderEnds(d: Site, t: nat, n: nat)
    requires LocksOk(d) && t < |d.txns| && HoldsLock(d.txns[t].phase) && Remaining(d.txns[t].phase) <= n
    ensures Ended(d, Nexts(d, t, n), t)
    decreases n
  {
    hide LocksOk, Ended, Apply, Nexts;
    var d1 := Apply(d, Next(t));
    HolderSteps(d, t);
    Unfold(d, t, n);
    if Ended(d, d1, t) {
      EndedIsOver(d, d1, t);
      EndedStays(d1, t, n - 1);
    } else {
      ApplyKeepsLocks(d, Next(t));
      HolderEnds(d1, t, n - 1);
      EndsAfterStep(d, d1, Nexts(d1, t, n - 1), t, d1.txns[t].phase);
    }
  }

  lemma EndedIsOver(d: Site, d': Site, t: nat)
    requires t < |d.txns| && Ended(d, d', t)
    ensures t < |d'.txns| && (d'.txns[t].phase.Committed? || d'.txns[t].phase.Aborted?)
  {
  }

  /** The first statement of an advance or reset takes the lock, when there is a row and nobody holds it. */
  lemma FirstStatement(d: Site, t: nat)
    requires LocksOk(d) && t < |d.txns| && IsLocking(d.txns[t].op) && d.txns[t].phase.Begun?
    requires d.txns[t].op.server !in d.locks
    ensures var op, d1 := d.txns[t].op, Apply(d, Next(t));
            if op.server !in d.db.rows then d1 == d.(txns := d.txns[t := Txn(op, Aborted(NotFound))])
            else d1 == d.(txns := d.txns[t := Txn(op, Locked)], locks := d.locks[op.server := t])
  {
  }

  lemma UnlockedAgain(d: Site, d1: Site, d2: Site, t: nat)
    requires LocksOk(d) && t < |d.txns| && IsLocking(d.txns[t].op) && d.txns[t].phase.Begun?
    requires d.txns[t].op.server !in d.locks
    requires d1 == d.(txns := d.txns[t := Txn(d.txns[t].op, Locked)], locks := d.locks[d.txns[t].op.server := t])
    requires Ended(d1, d2, t)
    ensures d2.locks == d.locks && Ended(d, d2, t)
  {
    hide Atomic;
    forall s ensures s in d2.locks <==> s in d.locks {
      if s in d.locks { assert d.locks[s] != t; assert s in d1.locks; }
    }
  }

  lemma SixStatements(d: Site, t: nat)
    requires LocksOk(d) && t < |d.txns| && IsLocking(d.txns[t].op) && d.txns[t].phase.Begun?
    requires d.txns[t].op.server !in d.locks
    ensures Nexts(d, t, 6).locks == d.locks && Ended(d, Nexts(d, t, 6), t)
  {
    hide LocksOk, Apply, Nexts, Ended, Atomic;
    var d1 := Apply(d, Next(t));
    FirstStatement(d, t);
    Unfold(d, t, 6);
    if d.txns[t].op.server !in d.db.rows {
      EndedStays(d1, t, 5);
      AbsentRow(d, d1, t);
    } else {
      ApplyKeepsLocks(d, Next(t));
      HolderEnds(d1, t, 5);
      UnlockedAgain(d, d1, Nexts(d1, t, 5), t);
    }
  }

  lemma AbsentRow(d: Site, d1: Site, t: nat)
    requires LocksOk(d) && t < |d.txns| && IsLocking(d.txns[t].op) && d.txns[t].phase.Begun?
    requires d.txns[t].op.server !in d.db.rows && d1 == d.(txns := d.txns[t := Txn(d.txns[t].op, Aborted(NotFound))])
    ensures Ended(d, d1, t)
  {
    AtomicMeans(d.db, d.txns[t].op);
    forall s | s in d.locks ensures d.locks[s] != t { assert HoldsLock(d.txns[d.locks[s]].phase); }
  }

  /** Six statements take an advance whose row nobody has locked to its end, and leave no lock behind: with a legal
      transition the row and one history row are committed, and else the tables are as before and the error says why. */
  lemma {:induction false} AdvanceEnds(d: Site, t: nat)
    requires LocksOk(d) && t < |d.txns| && d.txns[t].op.AdvanceOp? && d.txns[t].phase.Begun?
    requires d.txns[t].op.server !in d.locks
    ensures var d', op := Nexts(d, t, 6), d.txns[t].op;
            var s, to := op.server, op.to;
            && d'.locks == d.locks
            && if s in d.db.rows && Allowed(d.db.rows[s].current, to) then
                 var row := d.db.rows[s];
                 && d'.db.rows == d.db.rows[s := row.(current := to, previous := Some(row.current))]
                 && d'.db.history == d.db.history + [Entry(s, row.current, to, op.actor, op.why)]
                 && d'.db.batches == d.db.batches
                 && d'.order == d.order + [(t, op)] && d'.txns == d.txns[t := Txn(op, Committed)]
               else
                 && d'.db == d.db && d'.order == d.order
                 && d'.txns == d.txns[t := Txn(op, Aborted(if s in d.db.rows then InvalidTransition else NotFound))]
  {
    hide LocksOk, Nexts, Allowed;
    SixStatements(d, t);
    AtomicMeans(d.db, d.txns[t].op);
  }

  /** The same of a reset, which goes through exactly from FAILED. */
  lemma {:induction false} ResetEnds(d: Site, t: nat)
    requires LocksOk(d) && t < |d.txns| && d.txns[t].op.ResetOp? && d.txns[t].phase.Begun?
    requires d.txns[t].op.server !in d.locks
    ensures var d', op := Nexts(d, t, 6), d.txns[t].op;
            var s := op.server;
            && d'.locks == d.locks
            && if s in d.db.rows && d.db.rows[s].current == Failed then
                 && d'.db.rows == d.db.rows[s := d.db.rows[s].(current := Pending, previous := Some(Failed))]
                 && d'.db.history == d.db.history + [Entry(s, Failed, Pending, op.engineer, WasReset)]
                 && d'.db.batches == d.db.batches
                 && d'.order == d.order + [(t, op)] && d'.txns == d.txns[t := Txn(op, Committed)]
               else
                 && d'.db == d.db && d'.order == d.order
                 && d'.txns == d.txns[t := Txn(op, Aborted(if s in d.db.rows then NotFailed else NotFound))]
  {
    hide LocksOk, Nexts;
    SixStatements(d, t);
    AtomicMeans(d.db, d.txns[t].op);
  }

  /** A transaction once begun is there to be taken to its end. */
  lemma OpenBegins(d: Site, op: Op)
    requires LocksOk(d)
    ensures var d' := Apply(d, Open(op));
            && LocksOk(d') && d'.txns == d.txns + [Txn(op, Begun)]
            && d'.db == d.db && d'.locks == d.locks && d'.order == d.order
  {
    ApplyKeepsLocks(d, Open(op));
  }

  // ---- single statements ----

  /** The update of an AWS id ends with its one statement, unless the row is locked. */
  lemma SaveEnds(d: Site, t: nat)
    requires t < |d.txns| && d.txns[t].op.SaveOp? && d.txns[t].phase.Begun? && d.txns[t].op.server !in d.locks
    ensures var d', op := Apply(d, Next(t)), d.txns[t].op;
            var s := op.server;
            if s in d.db.rows then
              && d'.db == d.db.(rows := d.db.rows[s := d.db.rows[s].(aws := op.aws)]) && d'.locks == d.locks
              && d'.order == d.order + [(t, op)] && d'.txns == d.txns[t := Txn(op, Committed)]
            else d' == d.(txns := d.txns[t := Txn(op, Aborted(NotFound))])
  {
  }

  /** So does a registration, which waits for nobody. */
  lemma RegistrationEnds(d: Site, t: nat)
    requires t < |d.txns| && d.txns[t].op.RegisterOp? && d.txns[t].phase.Begun?
    ensures var d', op := Apply(d, Next(t)), d.txns[t].op;
            var s := op.server;
            if s in d.db.rows then d' == d.(txns := d.txns[t := Txn(op, Aborted(Duplicate))])
            else if op.batch.Some? && op.batch.value !in d.db.batches then
              d' == d.(txns := d.txns[t := Txn(op, Aborted(UnknownBatch))])
            else
              && d'.db == d.db.(rows := d.db.rows[s := Row(op.hostname, op.owner, Pending, None, None, op.batch)])
              && d'.locks == d.locks
              && d'.order == d.order + [(t, op)] && d'.txns == d.txns[t := Txn(op, Committed)]
  {
  }

  /** And so does the update of a batch, unless one of its rows is locked. */
  lemma MoveEnds(d: Site, t: nat)
    requires t < |d.txns| && d.txns[t].op.MoveOp? && d.txns[t].phase.Begun?
    requires forall s :: s in d.txns[t].op.ids ==> s !in d.locks
    ensures var d', op := Apply(d, Next(t)), d.txns[t].op;
            if op.ids != [] && op.target !in d.db.batches then
              d' == d.(txns := d.txns[t := Txn(op, Aborted(UnknownBatch))])
            else
              && d'.db == d.db.(rows := d'.db.rows) && d'.db.rows.Keys == d.db.rows.Keys && d'.locks == d.locks
              && (forall s :: s in d.db.rows ==>
                    d'.db.rows[s] == if s in op.ids then d.db.rows[s].(batch := Some(op.target)) else d.db.rows[s])
              && d'.order == d.order + [(t, op)] && d'.txns == d.txns[t := Txn(op, Committed)]
  {
  }

  // ---- whatever the others do ----

  function NextsOf(events: seq<Event>, t: nat): nat {
    if events == [] then 0 else NextsOf(events[..|events| - 1], t) + if events[|events| - 1] == Next(t) then 1 else 0
  }

  predicate IsOver(p: Phase) { p.Committed? || p.Aborted? }

  lemma OthersKeepPhase(d: Site, e: Event, t: nat)
    requires t < |d.txns| && e != Next(t)
    ensures t < |Apply(d, e).txns| && Apply(d, e).txns[t].op == d.txns[t].op
    ensures Apply(d, e).txns[t].phase == d.txns[t].phase || (e == Drop(t) && IsOver(Apply(d, e).txns[t].phase))
  {
    hide Atomic, Allowed, Waits;
  }

  lemma {:induction false} HolderProgresses(d: Site, events: seq<Event>, t: nat)
    requires LocksOk(d) && t < |d.txns| && HoldsLock(d.txns[t].phase)
    ensures var d' := Exec(d, events);
            && LocksOk(d') && t < |d'.txns|
            && (IsOver(d'.txns[t].phase)
                || (HoldsLock(d'.txns[t].phase) && Remaining(d'.txns[t].phase) + NextsOf(events, t) <= 5))
  {
    hide Apply, LocksOk, Ended;
    if events != [] {
      var init, e := events[..|events| - 1], events[|events| - 1];
      HolderProgresses(d, init, t);
      var mid := Exec(d, init);
      ApplyKeepsLocks(mid, e);
      if e != Next(t) {
        OthersKeepPhase(mid, e, t);
      } else if IsOver(mid.txns[t].phase) {
        EndedStays(mid, t, 1);
        assert Nexts(mid, t, 1) == Apply(mid, Next(t)) by { assert Nexts(mid, t, 0) == mid; }
      } else {
        HolderSteps(mid, t);
        if Ended(mid, Apply(mid, e), t) { EndedIsOver(mid, Apply(mid, e), t); }
      }
    }
  }

  /** Whoever holds a row lock has let go of it after at most five of its own statements, whatever the others do in
      between, and whether or not its connection is lost. */
  lemma {:induction false} HolderLetsGo(d: Site, events: seq<Event>, t: nat)
    requires LocksOk(d) && t < |d.txns| && HoldsLock(d.txns[t].phase) && 5 <= NextsOf(events, t)
    ensures var d' := Exec(d, events);
            && t < |d'.txns| && (d'.txns[t].phase.Committed? || d'.txns[t].phase.Aborted?)
            && forall s :: s in d'.locks ==> d'.locks[s] != t
  {
    HolderProgresses(d, events, t);
    assert LocksOk(Exec(d, events));
  }

  /** A lost connection takes a transaction to its end at once, with nothing of it left: tables, order and the other
      transactions are as they were, and so are all locks but its own. */
  lemma {:induction false} DropEnds(d: Site, t: nat)
    requires LocksOk(d) && t < |d.txns| && !d.txns[t].phase.Committed? && !d.txns[t].phase.Aborted?
    ensures var d' := Apply(d, Drop(t));
            && d'.db == d.db && d'.order == d.order
            && d'.txns == d.txns[t := Txn(d.txns[t].op, Aborted(Unavailable))]
            && forall s :: s in d'.locks <==> s in d.locks && d.locks[s] != t
  {
  }

  // ---- no deadlock ----

  /** The rows an operation must find unlocked; an INSERT waits for none. */
  function Needs(op: Op): seq<string> {
    match op
    case RegisterOp(_, _, _, _) => []
    case MoveOp(_, ids) => ids
    case _ => [op.server]
  }

  /** A transaction that is not over and cannot take its next statement waits for a lock that another one holds. */
  lemma MovesOrWaits(d: Site, t: nat)
    requires LocksOk(d) && t < |d.txns| && !IsOver(d.txns[t].phase)
    ensures Apply(d, Next(t)) == d <==>
              d.txns[t].phase.Begun? && exists s :: s in Needs(d.txns[t].op) && s in d.locks
  {
    hide Atomic;
    var op := d.txns[t].op;
    if HoldsLock(d.txns[t].phase) {
      HolderSteps(d, t);
      if Ended(d, Apply(d, Next(t)), t) { EndedIsOver(d, Apply(d, Next(t)), t); }
    } else if IsLocking(op) && op.server in d.locks {
      assert TxnOk(d, d.locks[op.server]);
      assert op.server in Needs(op);
    } else if op.SaveOp? && op.server in d.locks {
      assert op.server in Needs(op);
    }
  }

  /** There is no deadlock: as long as some transaction is not over, one that is not can take its next statement. */
  lemma NoDeadlock(d: Site, t: nat) returns (u: nat)
    requires LocksOk(d) && t < |d.txns| && !IsOver(d.txns[t].phase)
    ensures u < |d.txns| && !IsOver(d.txns[u].phase) && Apply(d, Next(u)) != d
  {
    hide Apply, TxnOk;
    MovesOrWaits(d, t);
    u := t;
    if Apply(d, Next(t)) == d {
      var s :| s in Needs(d.txns[t].op) && s in d.locks;
      u := d.locks[s];
      MovesOrWaits(d, u);
    }
  }

  // ---- everybody finishes ----

  function Left(txns: seq<Txn>): nat {
    if txns == [] then 0
    else
      var p := txns[|txns| - 1].phase;
      Left(txns[..|txns| - 1]) + if p.Begun? then 6 else Remaining(p)
  }

  lemma {:induction false} LeftUpdate(txns: seq<Txn>, t: nat, p: Phase)
    requires t < |txns|
    ensures var q := txns[t].phase;
            Left(txns[t := Txn(txns[t].op, p)]) + (if q.Begun? then 6 else Remaining(q)) ==
            Left(txns) + if p.Begun? then 6 else Remaining(p)
  {
    var n := |txns| - 1;
    if t < n {
      LeftUpdate(txns[..n], t, p);
      assert txns[t := Txn(txns[t].op, p)][..n] == txns[..n][t := Txn(txns[t].op, p)];
    } else {
      assert txns[t := Txn(txns[t].op, p)][..n] == txns[..n];
    }
  }

  lemma OneTxnMoves(d: Site, t: nat)
    requires LocksOk(d) && t < |d.txns| && !IsOver(d.txns[t].phase) && Apply(d, Next(t)) != d
    ensures var d' := Apply(d, Next(t));
            && |d'.txns| == |d.txns| && d'.txns == d.txns[t := Txn(d.txns[t].op, d'.txns[t].phase)]
            && !d'.txns[t].phase.Begun?
            && Remaining(d'.txns[t].phase) < if d.txns[t].phase.Begun? then 6 else Remaining(d.txns[t].phase)
  {
    hide Atomic, Allowed;
    assert TxnOk(d, t);
  }

  /** However many transactions are under way, some order of their statements takes all of them to their end, after
      which no row is locked. */
  lemma {:induction false} AllEnd(d: Site) returns (events: seq<Event>)
    requires LocksOk(d)
    ensures var d' := Exec(d, events);
            && |d'.txns| == |d.txns| && d'.locks == map[]
            && forall t :: 0 <= t < |d'.txns| ==>
                 d'.txns[t].op == d.txns[t].op && (d'.txns[t].phase.Committed? || d'.txns[t].phase.Aborted?)
    ensures |events| <= 6 * |d.txns| && forall n :: 0 <= n < |events| ==> events[n].Next?
  {
    events := SomeEnd(d);
    LeftBounded(d.txns);
  }

  lemma {:induction false} LeftBounded(txns: seq<Txn>)
    ensures Left(txns) <= 6 * |txns|
  {
    if txns != [] { LeftBounded(txns[..|txns| - 1]); }
  }

  lemma HolderIsNotOver(d: Site, s: string)
    requires LocksOk(d) && s in d.locks
    ensures d.locks[s] < |d.txns| && !IsOver(d.txns[d.locks[s]].phase)
  {
  }

  lemma NoLocksLeft(d: Site)
    requires LocksOk(d) && forall t :: 0 <= t < |d.txns| ==> IsOver(d.txns[t].phase)
    ensures d.locks == map[]
  {
    hide LocksOk;
    forall s ensures s !in d.locks {
      if s in d.locks { HolderIsNotOver(d, s); assert false; }
    }
  }

  lemma {:induction false} SomeEnd(d: Site) returns (events: seq<Event>)
    requires LocksOk(d)
    ensures var d' := Exec(d, events);
            && |d'.txns| == |d.txns| && d'.locks == map[]
            && forall t :: 0 <= t < |d'.txns| ==>
                 d'.txns[t].op == d.txns[t].op && (d'.txns[t].phase.Committed? || d'.txns[t].phase.Aborted?)
    ensures |events| <= Left(d.txns) && forall n :: 0 <= n < |events| ==> events[n].Next?
    decreases Left(d.txns)
  {
    hide Apply, TxnOk;
    if t: nat :| t < |d.txns| && !IsOver(d.txns[t].phase) {
      var u := NoDeadlock(d, t);
      var d1 := Apply(d, Next(u));
      OneTxnMoves(d, u);
      LeftUpdate(d.txns, u, d1.txns[u].phase);
      ApplyKeepsLocks(d, Next(u));
      var rest := SomeEnd(d1);
      events := [Next(u)] + rest;
      ExecFirst(d, Next(u), rest);
    } else {
      events := [];
      NoLocksLeft(d);
    }
  }

  lemma {:induction false} ExecFirst(d: Site, e: Event, rest: seq<Event>)
    ensures Exec(d, [e] + rest) == Exec(Apply(d, e), rest)
  {
    var events := [e] + rest;
    if rest == [] {
      assert events[..0] == [];
    } else {
      ExecFirst(d, e, rest[..|rest| - 1]);
      assert events[..|events| - 1] == [e] + rest[..|rest| - 1];
    }
  }
}
