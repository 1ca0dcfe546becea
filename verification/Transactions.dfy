/** The state manager's transactions statement by statement, under row locks. Any interleaving of any
    number of them leaves the tables that some serial order of the atomic transactions of module Store
    leaves: the order in which they committed. */
module Transactions {
  import opened Wrappers
  import opened Pipeline
  import opened Store

  datatype Op =
    | AdvanceOp(server: string, to: State, actor: string, why: Label)
    | ResetOp(server: string, engineer: string)
    | SaveOp(server: string, aws: Option<string>)
    | RegisterOp(server: string, hostname: string, owner: Option<string>, batch: Option<string>)
    | MoveOp(target: string, ids: seq<string>)              // the UPDATE of add_servers_to_batch

  /** The operation as one atomic transaction. */
  function Atomic(db: Db, op: Op): Result<Db, DbError> {
    match op
    case AdvanceOp(s, to, actor, why) => Advance(db, s, to, actor, why)
    case ResetOp(s, engineer) => Reset(db, s, engineer)
    case SaveOp(s, aws) => StoreAws(db, s, aws)
    case RegisterOp(s, hostname, engineer, batch) => Register(db, s, hostname, engineer, batch)
    case MoveOp(batch, ids) => Reassign(db, batch, ids)
  }

  /** How far a transaction has got. Its writes are kept aside, invisible to everyone else, until it commits. */
  datatype Phase =
    | Begun
    | Locked                                              // SELECT ... FOR UPDATE holds the row lock
    | Read(from: State)
    | Validated(from: State)
    | Updated(current: State, previous: State)            // UPDATE servers
    | Appended(current: State, previous: State, row: Entry)   // INSERT INTO state_transition_history
    | Committed
    | Aborted(error: DbError)

  datatype Txn = Txn(op: Op, phase: Phase)

  /** db is what is committed; order logs the transactions in the order they committed. */
  datatype Site = Site(db: Db, locks: map<string, nat>, txns: seq<Txn>, order: seq<(nat, Op)>)

  predicate HoldsLock(p: Phase) { p.Locked? || p.Read? || p.Validated? || p.Updated? || p.Appended? }

  function Put(d: Site, t: nat, p: Phase): Site
    requires t < |d.txns|
  {
    d.(txns := d.txns[t := d.txns[t].(phase := p)])
  }

  function Release(d: Site, t: nat, p: Phase): Site
    requires t < |d.txns|
  {
    Put(d, t, p).(locks := map s | s in d.locks && d.locks[s] != t :: d.locks[s])
  }

  function TargetOf(op: Op): State {
    if op.AdvanceOp? then op.to else Pending
  }

  function EntryOf(op: Op, from: State): Entry
    requires op.AdvanceOp? || op.ResetOp?
  {
    match op
    case AdvanceOp(s, to, actor, why) => Entry(s, from, to, actor, why)
    case ResetOp(s, engineer) => Entry(s, from, Pending, engineer, WasReset)
  }

  /** The next statement of an advance or a reset. */
  function Statement(d: Site, t: nat): Site
    requires t < |d.txns| && (d.txns[t].op.AdvanceOp? || d.txns[t].op.ResetOp?)
  {
    var op := d.txns[t].op;
    match d.txns[t].phase
    case Begun =>
      if op.server !in d.db.rows then Put(d, t, Aborted(NotFound))
      else if op.server in d.locks then d                       // waits
      else Put(d, t, Locked).(locks := d.locks[op.server := t])
    case Locked =>
      if op.server !in d.db.rows then d
      else Put(d, t, Read(d.db.rows[op.server].current))
    case Read(from) =>
      if op.AdvanceOp? then
        if Allowed(from, op.to) then Put(d, t, Validated(from)) else Release(d, t, Aborted(InvalidTransition))
      else
        if from == Failed then Put(d, t, Validated(from)) else Release(d, t, Aborted(NotFailed))
    case Validated(from) => Put(d, t, Updated(TargetOf(op), from))
    case Updated(current, previous) => Put(d, t, Appended(current, previous, EntryOf(op, previous)))
    case Appended(current, previous, row) =>
      if op.server !in d.db.rows then d
      else
        var r := d.db.rows[op.server].(current := current, previous := Some(previous));
        Release(d, t, Committed).(
          db := d.db.(rows := d.db.rows[op.server := r], history := d.db.history + [row]),
          order := d.order + [(t, op)])
    case Committed => d
    case Aborted(_) => d
  }

  /** An UPDATE waits while any of its rows is locked; an INSERT does not. */
  predicate Waits(d: Site, op: Op) {
    || (op.SaveOp? && op.server in d.locks)
    || (op.MoveOp? && exists s :: s in op.ids && s in d.locks)
  }

  /** A single-statement transaction. */
  function AutoCommit(d: Site, t: nat): Site
    requires t < |d.txns|
  {
    var op := d.txns[t].op;
    if !d.txns[t].phase.Begun? || Waits(d, op) then d
    else
      match Atomic(d.db, op)
      case Ok(db') => Put(d, t, Committed).(db := db', order := d.order + [(t, op)])
      case Err(e) => Put(d, t, Aborted(e))
  }

  datatype Event =
    | Open(op: Op)
    | Next(txn: nat)
    | Drop(lost: nat)     // connection lost or server restarted: the transaction rolls back

  function Apply(d: Site, e: Event): Site {
    match e
    case Open(op) => d.(txns := d.txns + [Txn(op, Begun)])
    case Next(t) =>
      if t >= |d.txns| then d
      else if d.txns[t].op.AdvanceOp? || d.txns[t].op.ResetOp? then Statement(d, t)
      else AutoCommit(d, t)
    case Drop(t) =>
      if t >= |d.txns| || d.txns[t].phase.Committed? || d.txns[t].phase.Aborted? then d
      else Release(d, t, Aborted(Unavailable))
  }

  function Exec(d: Site, events: seq<Event>): Site {
    if events == [] then d else Apply(Exec(d, events[..|events| - 1]), events[|events| - 1])
  }

  function NewSite(db: Db): Site { Site(db, map[], [], []) }

  /** The atomic transactions one after another, provided each succeeds. */
  function Serial(db: Db, order: seq<(nat, Op)>): Option<Db> {
    if order == [] then Some(db)
    else
      match Serial(db, order[..|order| - 1])
      case None => None
      case Some(mid) =>
        match Atomic(mid, order[|order| - 1].1)
        case Ok(db') => Some(db')
        case Err(_) => None
  }

  // ---- what the row locks guarantee ----

  /** What a transaction has read under its lock is still what is committed. */
  ghost predicate TxnOk(d: Site, t: nat)
    requires t < |d.txns|
  {
    var op, p := d.txns[t].op, d.txns[t].phase;
    && (HoldsLock(p) ==>
          && (op.AdvanceOp? || op.ResetOp?)
          && op.server in d.db.rows && op.server in d.locks && d.locks[op.server] == t)
    && match p
       case Read(from) => d.db.rows[op.server].current == from
       case Validated(from) => d.db.rows[op.server].current == from && Legal(op, from)
       case Updated(current, previous) =>
         d.db.rows[op.server].current == previous && Legal(op, previous) && current == TargetOf(op)
       case Appended(current, previous, row) =>
         d.db.rows[op.server].current == previous && Legal(op, previous) && current == TargetOf(op)
         && row == EntryOf(op, previous)
       case _ => true
  }

  predicate Legal(op: Op, from: State) {
    if op.AdvanceOp? then Allowed(from, op.to) else from.Failed?
  }

  ghost predicate LocksOk(d: Site) {
    && (forall t :: 0 <= t < |d.txns| ==> TxnOk(d, t))
    && (forall s :: s in d.locks ==>
          && d.locks[s] < |d.txns| && HoldsLock(d.txns[d.locks[s]].phase)
          && !d.txns[d.locks[s]].op.MoveOp? && d.txns[d.locks[s]].op.server == s)
  }

  /** A transaction that moves on without committing or letting go of its lock disturbs no other. */
  lemma PutKeepsLocks(d: Site, t: nat, p: Phase)
    requires LocksOk(d) && t < |d.txns| && TxnOk(Put(d, t, p), t)
    requires HoldsLock(d.txns[t].phase) ==> HoldsLock(p)
    ensures LocksOk(Put(d, t, p))
  {
    var d' := Put(d, t, p);
    forall u | 0 <= u < |d'.txns| ensures TxnOk(d', u) {
      assert TxnOk(d, u);
    }
  }

  lemma ReleaseKeepsLocks(d: Site, t: nat, p: Phase)
    requires LocksOk(d) && t < |d.txns| && !HoldsLock(p)
    ensures LocksOk(Release(d, t, p))
  {
    var d' := Release(d, t, p);
    forall u | 0 <= u < |d'.txns| ensures TxnOk(d', u) {
      assert TxnOk(d, u);
    }
  }

  lemma LockKeepsLocks(d: Site, t: nat)
    requires LocksOk(d) && t < |d.txns| && (d.txns[t].op.AdvanceOp? || d.txns[t].op.ResetOp?)
    requires d.txns[t].phase.Begun? && d.txns[t].op.server in d.db.rows && d.txns[t].op.server !in d.locks
    ensures LocksOk(Put(d, t, Locked).(locks := d.locks[d.txns[t].op.server := t]))
  {
    var d' := Put(d, t, Locked).(locks := d.locks[d.txns[t].op.server := t]);
    forall u | 0 <= u < |d'.txns| ensures TxnOk(d', u) {
      assert TxnOk(d, u);
    }
  }

  lemma CommitKeepsLocks(d: Site, t: nat)
    requires LocksOk(d) && t < |d.txns| && d.txns[t].phase.Appended?
    requires d.txns[t].op.AdvanceOp? || d.txns[t].op.ResetOp?
    ensures LocksOk(Statement(d, t))
  {
    var d' := Statement(d, t);
    assert TxnOk(d, t);
    forall u | 0 <= u < |d'.txns| ensures TxnOk(d', u) {
      assert TxnOk(d, u);
      if u != t && HoldsLock(d.txns[u].phase) { assert d.txns[u].op.server != d.txns[t].op.server; }
    }
  }

  lemma StatementKeepsLocks(d: Site, t: nat)
    requires LocksOk(d) && t < |d.txns| && (d.txns[t].op.AdvanceOp? || d.txns[t].op.ResetOp?)
    ensures LocksOk(Statement(d, t))
  {
    var op := d.txns[t].op;
    assert TxnOk(d, t);
    match d.txns[t].phase
    case Begun =>
      if op.server !in d.db.rows { PutKeepsLocks(d, t, Aborted(NotFound)); }
      else if op.server !in d.locks { LockKeepsLocks(d, t); }
    case Locked => PutKeepsLocks(d, t, Read(d.db.rows[op.server].current));
    case Read(from) =>
      if Legal(op, from) { PutKeepsLocks(d, t, Validated(from)); }
      else { ReleaseKeepsLocks(d, t, Aborted(if op.AdvanceOp? then InvalidTransition else NotFailed)); }
    case Validated(from) => PutKeepsLocks(d, t, Updated(TargetOf(op), from));
    case Updated(current, previous) => PutKeepsLocks(d, t, Appended(current, previous, EntryOf(op, previous)));
    case Appended(_, _, _) => CommitKeepsLocks(d, t);
    case _ =>
  }

  lemma AutoCommitKeepsLocks(d: Site, t: nat)
    requires LocksOk(d) && t < |d.txns| && !d.txns[t].op.AdvanceOp? && !d.txns[t].op.ResetOp?
    ensures LocksOk(AutoCommit(d, t))
  {
    var d' := AutoCommit(d, t);
    forall u | 0 <= u < |d'.txns| ensures TxnOk(d', u) {
      assert TxnOk(d, u);
    }
  }

  lemma ApplyKeepsLocks(d: Site, e: Event)
    requires LocksOk(d)
    ensures LocksOk(Apply(d, e))
  {
    var d' := Apply(d, e);
    match e
    case Open(op) =>
      forall u | 0 <= u < |d'.txns| ensures TxnOk(d', u) {
        if u < |d.txns| { assert TxnOk(d, u); }
      }
    case Next(t) =>
      if t < |d.txns| {
        if d.txns[t].op.AdvanceOp? || d.txns[t].op.ResetOp? { StatementKeepsLocks(d, t); }
        else { AutoCommitKeepsLocks(d, t); }
      }
    case Drop(t) =>
      if t < |d.txns| { ReleaseKeepsLocks(d, t, Aborted(Unavailable)); }
  }

  /** Every event either commits one transaction, with exactly the effect its atomic form has on the
      committed tables, or leaves both tables as they were. */
  lemma EventIsAtomicOrSilent(d: Site, e: Event)
    requires LocksOk(d)
    ensures var d' := Apply(d, e);
            || (d'.db == d.db && d'.order == d.order)
            || (exists t :: 0 <= t < |d.txns| && !d.txns[t].phase.Committed?
                  && d'.order == d.order + [(t, d.txns[t].op)] && d'.txns == d.txns[t := Txn(d.txns[t].op, Committed)]
                  && Atomic(d.db, d.txns[t].op) == Ok(d'.db))
  {
    if e.Next? && e.txn < |d.txns| {
      var t := e.txn;
      assert TxnOk(d, t);
    }
  }

  /** A transaction that fails for a reason of its own reports what its atomic form reports at that moment. */
  lemma AbortsAreHonest(d: Site, e: Event, t: nat)
    requires LocksOk(d) && t < |d.txns| && !d.txns[t].phase.Aborted?
    requires t < |Apply(d, e).txns| && Apply(d, e).txns[t].phase.Aborted?
    ensures var error := Apply(d, e).txns[t].phase.error;
            error == Unavailable || Atomic(d.db, d.txns[t].op) == Err(error)
  {
    assert TxnOk(d, t);
  }

  lemma {:induction false} RunKeepsLocks(db: Db, events: seq<Event>)
    ensures LocksOk(Exec(NewSite(db), events))
  {
    if events != [] {
      RunKeepsLocks(db, events[..|events| - 1]);
      ApplyKeepsLocks(Exec(NewSite(db), events[..|events| - 1]), events[|events| - 1]);
    }
  }

  lemma SerialAppend(db: Db, order: seq<(nat, Op)>, x: (nat, Op), mid: Db, last: Db)
    requires Serial(db, order) == Some(mid) && Atomic(mid, x.1) == Ok(last)
    ensures Serial(db, order + [x]) == Some(last)
  {
    assert (order + [x])[..|order|] == order;
  }

  ghost predicate OrderOk(d: Site) {
    && (forall i :: 0 <= i < |d.order| ==>
          d.order[i].0 < |d.txns| && d.txns[d.order[i].0] == Txn(d.order[i].1, Committed))
    && (forall i, j :: 0 <= i < j < |d.order| ==> d.order[i].0 != d.order[j].0)
    && (forall t :: 0 <= t < |d.txns| && d.txns[t].phase.Committed? ==> (t, d.txns[t].op) in d.order)
  }

  /** A step that commits nothing moves no transaction into or out of Committed. */
  lemma SilentKeepsCommitted(d: Site, e: Event)
    requires Apply(d, e).order == d.order
    ensures |d.txns| <= |Apply(d, e).txns|
    ensures forall t :: 0 <= t < |Apply(d, e).txns| ==>
              if t >= |d.txns| then Apply(d, e).txns[t].phase.Begun?
              else (Apply(d, e).txns[t].op == d.txns[t].op
                    && (Apply(d, e).txns[t].phase.Committed? <==> d.txns[t].phase.Committed?))
  {
    hide Atomic, EntryOf, TargetOf, Waits, Allowed;
  }

  lemma SilentKeepsOrder(d: Site, e: Event)
    requires OrderOk(d) && Apply(d, e).order == d.order
    ensures OrderOk(Apply(d, e))
  {
    hide Apply;
    SilentKeepsCommitted(d, e);
  }

  lemma CommitKeepsOrder(d: Site, d': Site, t: nat)
    requires OrderOk(d) && t < |d.txns| && !d.txns[t].phase.Committed?
    requires d'.order == d.order + [(t, d.txns[t].op)] && d'.txns == d.txns[t := Txn(d.txns[t].op, Committed)]
    ensures OrderOk(d')
  {
    forall u | 0 <= u < |d'.txns| && d'.txns[u].phase.Committed? ensures (u, d'.txns[u].op) in d'.order {
      if u == t { assert d'.order[|d.order|] == (t, d.txns[t].op); }
      else { assert (u, d.txns[u].op) in d.order; }
    }
  }

  /** Serialisability: after any interleaving, the committed tables are those of the committed transactions
      run atomically, one after another, in commit order; each of them succeeds there; and every committed
      transaction, and no other, takes part exactly once. */
  lemma {:induction false} Serialisable(db: Db, events: seq<Event>)
    ensures var d := Exec(NewSite(db), events);
            Serial(db, d.order) == Some(d.db) && OrderOk(d)
  {
    if events != [] {
      var init, e := events[..|events| - 1], events[|events| - 1];
      Serialisable(db, init);
      RunKeepsLocks(db, init);
      var d := Exec(NewSite(db), init);
      var d' := Apply(d, e);
      EventIsAtomicOrSilent(d, e);
      if d'.db == d.db && d'.order == d.order {
        SilentKeepsOrder(d, e);
      } else {
        var t :| 0 <= t < |d.txns| && !d.txns[t].phase.Committed?
                 && d'.order == d.order + [(t, d.txns[t].op)] && d'.txns == d.txns[t := Txn(d.txns[t].op, Committed)]
                 && Atomic(d.db, d.txns[t].op) == Ok(d'.db);
        SerialAppend(db, d.order, (t, d.txns[t].op), d.db, d'.db);
        CommitKeepsOrder(d, d', t);
      }
    }
  }
}
