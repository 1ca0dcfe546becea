/** The whole orchestrator as a transition system. Every step of every handler is one event, so events of
    any number of workers and API calls interleave freely, and messages may be delivered in any order. Between
    any two steps a worker may die, or lose its connection to the broker; either way its message goes back to
    its queue, but in the second case the handler runs on. */
module Machine {
  import opened Wrappers
  import opened Pipeline
  import opened Store
  import opened Handlers

  /** One AWS call that was attempted; `seen` is the length of the history at that moment. */
  datatype CallRecord = CallRecord(server: string, call: AwsCall, rollback: bool, luck: Luck, seen: nat)

  /** An assignment of servers to a batch, between the read that found them and the update that moves them. */
  datatype Assigning = Assigning(batch: string, added: seq<string>)

  /** ready and failed are the work queues and their dead-letter queues. Tasks are never removed, so that
      an index names a task for good; orphans are those that no longer hold their message, so that their
      settlement reaches no queue. The four fields from published on log every message that was ever
      published, acknowledged, dead-lettered, or consumed by the rollback worker. */
  datatype World = World(
    db: Db,
    ready: seq<Msg>,
    failed: seq<Msg>,
    tasks: seq<Task>,
    calls: seq<CallRecord>,
    published: seq<Msg>,
    acked: seq<Msg>,
    dead: seq<Msg>,
    retired: seq<Msg>,
    orphans: set<nat>,
    assigning: seq<Assigning>)

  const INITIAL := World(EMPTY_DB, [], [], [], [], [], [], [], [], {}, [])

  datatype Event =
    | NewBatch(batch: string)
    | Enroll(server: string, hostname: string, engineer: Option<string>, inBatch: Option<string>, luck: Luck)
    | Submit(to: string, request: Request)
    | Deliver(ready: nat)
    | Collect(failed: nat)
    | Run(task: nat, turn: Turn)
    | Crash(victim: nat)                              // the worker dies
    | Sever(cut: nat)                                 // the worker's connection drops; the handler runs on
    | ReadIds(batch: string, ids: seq<string>)        // add_servers_to_batch: the SELECT and the sorting of the ids
    | MoveIds(assignment: nat, luck: Luck)            // and its UPDATE

  predicate IsDone(p: Prog) { p.Finished? || p.Crashed? }

  function DbLuck(c: Config, l: Luck): Luck { if c.dbUp then Fine else l }

  // ---- one step of one task ----

  datatype Delta = Delta(db: Db, prog: Prog, out: seq<Msg>, calls: seq<CallRecord>)

  function Commit(db: Db, r: Result<Db, DbError>, l: Luck, next: Prog, abort: Prog): Delta {
    var (db', ok) := Settled(db, r, l);
    Delta(db', if ok then next else abort, [], [])
  }

  /** The read of the servers row that every handler and endpoint begins with; it takes no lock. */
  function StartEffect(c: Config, db: Db, t: Task, l: Luck): Delta {
    if t.Api? && t.request.Retry? then
      Commit(db, Reset(db, t.server, t.request.engineer), l, Finished, Finished)
    else if !l.Fine? || ServerOf(t) !in db.rows then Delta(db, Abort(t), [], [])
    else
      var row := db.rows[ServerOf(t)];
      match t
      case Consumer(m, _) => Delta(db, if row.current == GuardState(c, m) then AfterGuard(m) else ACK, [], [])
      case Rollbacker(m, _) =>
        if m.server == "" || IsTerminal(row.current) then Delta(db, ACK, [], [])
        else
          var (plan, final) := RollbackPlan(row.current, row.aws);
          Delta(db, RunPlan(plan, final, row.current, m), [], [])
      case Api(s, r, _) => Delta(db, AfterRequire(s, r, row), [], [])
  }

  function Effect(c: Config, db: Db, t: Task, turn: Turn): Delta {
    var s := ServerOf(t);
    match t.prog
    case Start => StartEffect(c, db, t, DbLuck(c, turn.luck))
    case Ask =>
      Delta(db, if t.Consumer? && !turn.answer.Raised? then AfterAsk(t.msg, turn.answer) else Abort(t), [], [])
    case Act(call) =>
      Delta(db, if t.Consumer? && turn.luck.Fine? then AfterAct(t.msg, turn.answer) else Abort(t), [],
            [CallRecord(s, call, false, turn.luck, |db.history|)])
    case Undo(plan, final, seen) =>
      if plan == [] || !t.Rollbacker? then Delta(db, Abort(t), [], [])
      else
        Delta(db,
              if turn.luck.Fine? then RunPlan(plan[1..], final, seen, t.msg) else RunPlan([], Frozen, seen, t.msg),
              [], [CallRecord(s, plan[0], true, turn.luck, |db.history|)])
    case SaveAws(next) =>
      if !t.Consumer? then Delta(db, Abort(t), [], [])
      else Commit(db, StoreAws(db, s, t.msg.aws), DbLuck(c, turn.luck), next, Abort(t))
    case Move(to, why, next) =>
      Commit(db, Advance(db, s, to, ActorOf(t), why), DbLuck(c, turn.luck), next, Abort(t))
    case Publish(m, next) =>
      Delta(db, if turn.luck.Fine? then next else Abort(t), if turn.luck.Before? then [] else [m], [])
    case Settle(ack) => Delta(db, Finished, [], [])
    case Finished => Delta(db, Finished, [], [])
    case Crashed => Delta(db, Crashed, [], [])
  }

  // ---- one event ----

  function Without<T>(q: seq<T>, k: nat): seq<T>
    requires k < |q|
  {
    q[..k] + q[k + 1..]
  }

  /** The message a step settles, if it is the settling step of a task of the right kind. */
  function Acked(t: Task): seq<Msg> { if t.Consumer? && t.prog == ACK then [t.msg] else [] }

  function Nacked(t: Task): seq<Msg> { if t.Consumer? && t.prog == NACK then [t.msg] else [] }

  function Retired(t: Task): seq<Msg> { if t.Rollbacker? && t.prog.Settle? then [t.msg] else [] }

  /** What reaches the broker of a settlement of task i. */
  function IfHeld(w: World, i: nat, settled: seq<Msg>): seq<Msg> { if i in w.orphans then [] else settled }

  function RunTask(c: Config, w: World, i: nat, turn: Turn): World
    requires i < |w.tasks|
  {
    var t := w.tasks[i];
    var d := Effect(c, w.db, t, turn);
    w.(db := d.db,
       ready := w.ready + d.out,
       failed := w.failed + IfHeld(w, i, Nacked(t)),
       tasks := w.tasks[i := WithProg(t, d.prog)],
       calls := w.calls + d.calls,
       published := w.published + d.out,
       acked := w.acked + IfHeld(w, i, Acked(t)),
       dead := w.dead + IfHeld(w, i, Nacked(t)),
       retired := w.retired + IfHeld(w, i, Retired(t)))
  }

  /** The queues after the broker takes back the message of task i, if the task still holds one. */
  function TakeBack(w: World, i: nat): World
    requires i < |w.tasks|
  {
    var t := w.tasks[i];
    if i in w.orphans then w
    else
      match t
      case Consumer(m, _) => w.(ready := w.ready + [m])
      case Rollbacker(m, _) => w.(failed := w.failed + [m])
      case Api(_, _, _) => w
  }

  function CrashTask(w: World, i: nat): World
    requires i < |w.tasks|
  {
    if IsDone(w.tasks[i].prog) then w else TakeBack(w, i).(tasks := w.tasks[i := WithProg(w.tasks[i], Crashed)])
  }

  function SeverTask(w: World, i: nat): World
    requires i < |w.tasks|
  {
    if IsDone(w.tasks[i].prog) then w else TakeBack(w, i).(orphans := w.orphans + {i})
  }

  function Apply(c: Config, w: World, e: Event): World {
    match e
    case NewBatch(b) => w.(db := w.db.(batches := w.db.batches + {b}))
    case Enroll(s, hostname, engineer, batch, luck) =>
      w.(db := Settled(w.db, Register(w.db, s, hostname, engineer, batch), luck).0)
    case Submit(s, r) =>
      if r.Configure? && r.setup.CutoverInstanceSetup? && !c.operator then w
      else w.(tasks := w.tasks + [Api(s, r, Start)])
    case Deliver(k) =>
      if k >= |w.ready| then w
      else w.(ready := Without(w.ready, k), tasks := w.tasks + [Consumer(w.ready[k], Start)])
    case Collect(k) =>
      if k >= |w.failed| then w
      else w.(failed := Without(w.failed, k), tasks := w.tasks + [Rollbacker(w.failed[k], Start)])
    case Run(i, turn) => if i >= |w.tasks| then w else RunTask(c, w, i, turn)
    case Crash(i) => if i >= |w.tasks| then w else CrashTask(w, i)
    case Sever(i) => if i >= |w.tasks| then w else SeverTask(w, i)
    case ReadIds(b, ids) => w.(assigning := w.assigning + [Assigning(b, Assign(w.db, b, ids).added)])
    case MoveIds(k, luck) =>
      if k >= |w.assigning| then w
      else
        w.(db := Settled(w.db, Reassign(w.db, w.assigning[k].batch, w.assigning[k].added), luck).0,
           assigning := Without(w.assigning, k))
  }

  function Exec(c: Config, w: World, events: seq<Event>): World {
    if events == [] then w else Apply(c, Exec(c, w, events[..|events| - 1]), events[|events| - 1])
  }

  lemma {:induction false} ExecConcat(c: Config, w: World, a: seq<Event>, b: seq<Event>)
    ensures Exec(c, w, a + b) == Exec(c, Exec(c, w, a), b)
  {
    if b == [] {
      assert a + b == a;
    } else {
      var b' := b[..|b| - 1];
      assert (a + b)[..|a + b| - 1] == a + b';
      ExecConcat(c, w, a, b');
    }
  }
}
