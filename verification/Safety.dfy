/** One inductive invariant of the fine-grained machine. It says of the tables that they agree with the
    history, of every message and task that what it was published for has really happened, and of every
    AWS call that its gate had been approved. */
module Safety {
  import opened Wrappers
  import opened Pipeline
  import opened Store
  import opened AuditTrail
  import opened Handlers
  import opened Machine

  // ---- facts that never become false ----

  /** The state whose arrival caused a message to be published. */
  function Posted(m: Msg): State {
    if SecondPhase(m) then RunningState(m.job) else ExpectedState(m.job)
  }

  ghost predicate HasAws(db: Db, s: string) { s in db.rows && db.rows[s].aws.Some? }

  /** Row n of the history or a later one is a reset of the server. */
  ghost predicate ResetSince(db: Db, s: string, n: nat) {
    exists k :: n <= k < |db.history| && db.history[k].server == s && db.history[k].why.WasReset?
  }

  /** Nothing is left for a rollback to do, unless an engineer has intervened since the history had n rows. */
  ghost predicate Landed(db: Db, s: string, n: nat) {
    s in db.rows && (IsTerminal(db.rows[s].current) || ResetSince(db, s, n))
  }

  predicate IsValidationGate(st: State) { st.AwaitingTestValidation? || st.AwaitingCutoverValidation? }

  ghost predicate Growth(db: Db, db': Db) {
    && (forall s :: s in db.rows ==> s in db'.rows)
    && db.history <= db'.history
    && (forall s :: HasAws(db, s) ==> HasAws(db', s))
    && (forall s, n: nat :: n <= |db.history| && Landed(db, s, n) ==> Landed(db', s, n))
  }

  /** What a task may count on once the steps before have gone through. */
  datatype Fact = Got(state: State) | KnowsAws

  ghost predicate Holds(db: Db, s: string, f: Fact) {
    match f
    case Got(st) => Reached(db, s, st)
    case KnowsAws => HasAws(db, s)
  }

  // ---- messages, programs, calls ----

  ghost predicate MsgOk(db: Db, m: Msg, hope: set<Fact>) {
    && m.server in db.rows
    && m.aws.Some?
    && (Reached(db, m.server, Posted(m)) || Got(Posted(m)) in hope)
    && (IsPoll(m.job) ==> 1 <= m.attempt <= MAX_POLL_ATTEMPTS)
  }

  /** The last human gate before the state a job runs in. */
  function JobGate(j: Job): Option<Gate> {
    match j
    case StartReplication => Some(ReplicationGate)
    case LaunchTest => Some(TestLaunchGate)
    case FinalizeTest => Some(TestValidationGate)
    case StartCutover => Some(CutoverLaunchGate)
    case FinalizeCutover => Some(CutoverValidationGate)
    case DisconnectSource => Some(CutoverValidationGate)
    case ArchiveSource => Some(ArchiveGate)
    case DeleteReplication => Some(CleanupGate)
    case _ => None
  }

  /** The gate whose approval an AWS call needs; a rollback terminates whatever a launch approval started. */
  function CallGate(call: AwsCall, rollback: bool): Option<Gate> {
    match call
    case StartReplicationCall => Some(ReplicationGate)
    case StopReplication => Some(ReplicationGate)
    case StartTestCall => Some(TestLaunchGate)
    case TerminateTargetInstances => Some(if rollback then TestLaunchGate else TestValidationGate)
    case StartCutoverCall => Some(CutoverLaunchGate)
    case FinalizeCutoverCall => Some(CutoverValidationGate)
    case DisconnectFromService => Some(CutoverValidationGate)
    case MarkAsArchived => Some(ArchiveGate)
    case DeleteSourceServer => Some(CleanupGate)
    case _ => None
  }

  ghost predicate Opened(h: seq<Entry>, s: string, g: Option<Gate>) {
    g.Some? ==> GateOpened(h, s, g.value)
  }

  /** What is known for good once the stale check has let a message through. */
  ghost predicate Passed(c: Config, db: Db, m: Msg) {
    && MsgOk(db, m, {})
    && Reached(db, m.server, GuardState(c, m))
    && Opened(db.history, m.server, JobGate(m.job))
    && (SecondPhase(m) && !c.phaseAware ==> HasReset(db, m.server))
  }

  predicate OwnsLabel(t: Task, why: Label) {
    match t
    case Consumer(m, _) => why == ByJob(m.job)
    case Rollbacker(m, _) => why.RolledBack? && why.job == m.job
    case Api(_, r, _) => (r.Approve? && why == Approved(r.gate)) || (r.Reject? && why == Rejected(r.gate))
  }

  ghost predicate MoveOk(c: Config, db: Db, s: string, to: State, hope: set<Fact>) {
    && (to.AgentInstalled? ==> HasAws(db, s) || KnowsAws in hope)
    && (IsValidationGate(to) && !c.phaseAware ==> HasReset(db, s))
  }

  ghost predicate ProgOk(c: Config, db: Db, t: Task, p: Prog, hope: set<Fact>)
    decreases p
  {
    match p
    case Start => true
    case Ask => t.Consumer? && Passed(c, db, t.msg)
    case Act(call) => t.Consumer? && Passed(c, db, t.msg) && Opened(db.history, t.msg.server, CallGate(call, false))
    case Undo(plan, final, seen) =>
      && t.Rollbacker?
      && plan != []
      && IsError(final) && Rank(seen) < 26 && (final.Failed? ==> Rank(seen) <= 13)
      && (forall call :: call in plan ==> Opened(db.history, t.msg.server, CallGate(call, true)))
    case SaveAws(next) => t.Consumer? && t.msg.aws.Some? && ProgOk(c, db, t, next, hope + {KnowsAws})
    case Move(to, why, next) =>
      && LabelFits(to, why) && OwnsLabel(t, why)
      && MoveOk(c, db, ServerOf(t), to, hope) && (IsValidationGate(to) ==> t.Consumer? && SecondPhase(t.msg))
      && ProgOk(c, db, t, next, hope + {Got(to)})
    case Publish(m, next) =>
      && !t.Rollbacker? && m.server == ServerOf(t)
      && MsgOk(db, m, hope) && ProgOk(c, db, t, next, hope)
    case _ => true
  }

  ghost predicate TaskOk(c: Config, db: Db, t: Task) {
    (t.Api? || MsgOk(db, t.msg, {})) && ProgOk(c, db, t, t.prog, {})
  }

  ghost predicate CallOk(h: seq<Entry>, r: CallRecord) {
    r.seen <= |h| && Opened(h[..r.seen], r.server, CallGate(r.call, r.rollback))
  }

  ghost predicate TablesOk(c: Config, db: Db) {
    && DbOk(db)
    && (forall s :: Reached(db, s, AgentInstalled) ==> HasAws(db, s))
    && (forall e :: e in db.history && IsValidationGate(e.to) && !c.phaseAware ==> HasReset(db, e.server))
  }

  ghost predicate Inv(c: Config, w: World) {
    && TablesOk(c, w.db)
    && (forall m :: m in w.ready ==> MsgOk(w.db, m, {}))
    && (forall m :: m in w.failed ==> MsgOk(w.db, m, {}))
    && (forall i :: 0 <= i < |w.tasks| ==> TaskOk(c, w.db, w.tasks[i]))
    && (forall r :: r in w.calls ==> CallOk(w.db.history, r))
  }

  lemma NoGrowth(db: Db)
    ensures Growth(db, db)
  {
  }

  // ---- the facts survive any growth of the tables ----

  lemma ReachedGrows(db: Db, db': Db, s: string, st: State)
    requires Growth(db, db') && Reached(db, s, st)
    ensures Reached(db', s, st)
  {
    if !st.Pending? {
      var e :| e in db.history && e.server == s && e.to == st;
      assert e in db'.history;
    }
  }

  lemma OpenedGrows(h: seq<Entry>, h': seq<Entry>, s: string, g: Option<Gate>)
    requires h <= h' && Opened(h, s, g)
    ensures Opened(h', s, g)
  {
    if g.Some? {
      var e :| e in h && e.server == s && e.why == Approved(g.value);
      assert e in h';
    }
  }

  lemma ResetGrows(db: Db, db': Db, s: string)
    requires db.history <= db'.history && HasReset(db, s)
    ensures HasReset(db', s)
  {
    var e :| e in db.history && e.server == s && e.why.WasReset?;
    assert e in db'.history;
  }

  lemma MsgGrows(db: Db, db': Db, m: Msg, hope: set<Fact>)
    requires Growth(db, db') && MsgOk(db, m, hope)
    ensures MsgOk(db', m, hope)
  {
    if Reached(db, m.server, Posted(m)) { ReachedGrows(db, db', m.server, Posted(m)); }
  }

  lemma PassedGrows(c: Config, db: Db, db': Db, m: Msg)
    requires Growth(db, db') && Passed(c, db, m)
    ensures Passed(c, db', m)
  {
    MsgGrows(db, db', m, {});
    ReachedGrows(db, db', m.server, GuardState(c, m));
    OpenedGrows(db.history, db'.history, m.server, JobGate(m.job));
    if HasReset(db, m.server) { ResetGrows(db, db', m.server); }
  }

  lemma {:induction false} ProgGrows(c: Config, db: Db, db': Db, t: Task, p: Prog, hope: set<Fact>)
    requires Growth(db, db') && ProgOk(c, db, t, p, hope)
    ensures ProgOk(c, db', t, p, hope)
    decreases p
  {
    match p
    case Start =>
    case Ask => PassedGrows(c, db, db', t.msg);
    case Act(call) =>
      PassedGrows(c, db, db', t.msg);
      OpenedGrows(db.history, db'.history, t.msg.server, CallGate(call, false));
    case Undo(plan, final, seen) =>
      forall call | call in plan ensures Opened(db'.history, t.msg.server, CallGate(call, true)) {
        OpenedGrows(db.history, db'.history, t.msg.server, CallGate(call, true));
      }
    case SaveAws(next) => ProgGrows(c, db, db', t, next, hope + {KnowsAws});
    case Move(to, why, next) =>
      if HasReset(db, ServerOf(t)) { ResetGrows(db, db', ServerOf(t)); }
      ProgGrows(c, db, db', t, next, hope + {Got(to)});
    case Publish(m, next) =>
      MsgGrows(db, db', m, hope);
      ProgGrows(c, db, db', t, next, hope);
    case Settle(ack) =>
    case Finished =>
    case Crashed =>
  }

  lemma TaskGrows(c: Config, db: Db, db': Db, t: Task)
    requires Growth(db, db') && TaskOk(c, db, t)
    ensures TaskOk(c, db', t)
  {
    if !t.Api? { MsgGrows(db, db', t.msg, {}); }
    ProgGrows(c, db, db', t, t.prog, {});
  }

  lemma CallGrows(h: seq<Entry>, h': seq<Entry>, r: CallRecord)
    requires h <= h' && CallOk(h, r)
    ensures CallOk(h', r)
  {
    assert h'[..r.seen] == h[..r.seen];
  }

  /** Once a hoped-for fact holds, a program no longer needs the hope. */
  lemma {:induction false} Discharge(c: Config, db: Db, t: Task, p: Prog, hope: set<Fact>, more: set<Fact>, f: Fact)
    requires ProgOk(c, db, t, p, more) && more <= hope + {f} && Holds(db, ServerOf(t), f)
    ensures ProgOk(c, db, t, p, hope)
    decreases p
  {
    match p
    case SaveAws(next) => Discharge(c, db, t, next, hope + {KnowsAws}, more + {KnowsAws}, f);
    case Move(to, why, next) => Discharge(c, db, t, next, hope + {Got(to)}, more + {Got(to)}, f);
    case Publish(m, next) => Discharge(c, db, t, next, hope, more, f);
    case _ =>
  }

  // ---- the tables grow ----

  lemma ResetSinceGrows(db: Db, db': Db, s: string, n: nat)
    requires db.history <= db'.history && ResetSince(db, s, n)
    ensures ResetSince(db', s, n)
  {
    var k :| n <= k < |db.history| && db.history[k].server == s && db.history[k].why.WasReset?;
    assert db'.history[k] == db.history[k];
  }

  lemma WriteKeepsLanded(db: Db, e: Entry, s: string, n: nat)
    requires e.server in db.rows && e.from == db.rows[e.server].current && n <= |db.history| && Landed(db, s, n)
    requires e.why.WasReset? || Allowed(e.from, e.to)
    ensures Landed(Write(db, e), s, n)
  {
    var db' := Write(db, e);
    if ResetSince(db, s, n) {
      ResetSinceGrows(db, db', s, n);
    } else if s == e.server {
      assert db'.history[|db.history|] == e;
    }
  }

  lemma WriteOnlyGrows(db: Db, e: Entry)
    requires e.server in db.rows && e.from == db.rows[e.server].current
    requires e.why.WasReset? || Allowed(e.from, e.to)
    ensures Growth(db, Write(db, e))
  {
    hide Landed;
    forall s, n: nat | n <= |db.history| && Landed(db, s, n) ensures Landed(Write(db, e), s, n) {
      WriteKeepsLanded(db, e, s, n);
    }
  }

  lemma WriteKeepsTables(c: Config, db: Db, e: Entry)
    requires TablesOk(c, db) && e.server in db.rows && e.from == db.rows[e.server].current
    requires if e.why.WasReset? then e.from.Failed? && e.to.Pending?
             else Allowed(e.from, e.to) && LabelFits(e.to, e.why)
    requires MoveOk(c, db, e.server, e.to, {})
    ensures TablesOk(c, Write(db, e))
  {
    var db' := Write(db, e);
    WriteKeepsDbOk(db, e);
    forall s | Reached(db', s, AgentInstalled) ensures HasAws(db', s) {
      var x :| x in db'.history && x.server == s && x.to == AgentInstalled;
      if x != e { assert x in db.history; assert Reached(db, s, AgentInstalled); }
    }
    forall x | x in db'.history && IsValidationGate(x.to) && !c.phaseAware ensures HasReset(db', x.server) {
      ResetGrows(db, db', x.server);
    }
  }

  lemma WriteGrows(c: Config, db: Db, e: Entry)
    requires TablesOk(c, db) && e.server in db.rows && e.from == db.rows[e.server].current
    requires if e.why.WasReset? then e.from.Failed? && e.to.Pending?
             else Allowed(e.from, e.to) && LabelFits(e.to, e.why)
    requires MoveOk(c, db, e.server, e.to, {})
    ensures TablesOk(c, Write(db, e)) && Growth(db, Write(db, e)) && Reached(Write(db, e), e.server, e.to)
  {
    hide Growth, TablesOk;
    WriteOnlyGrows(db, e);
    WriteKeepsTables(c, db, e);
    assert e in Write(db, e).history;
  }

  /** The history is the same, and so is what it speaks of; new rows are of servers just registered. */
  ghost predicate SameStory(db: Db, db': Db) {
    && db'.history == db.history
    && (forall s :: s in db.rows ==>
          && s in db'.rows
          && db'.rows[s].current == db.rows[s].current && db'.rows[s].previous == db.rows[s].previous
          && (db.rows[s].aws.Some? ==> db'.rows[s].aws.Some?))
    && (forall s :: s in db'.rows && s !in db.rows ==> db'.rows[s].current.Pending? && db'.rows[s].previous == None)
  }

  lemma SameStoryKeepsDbOk(db: Db, db': Db)
    requires DbOk(db) && SameStory(db, db')
    ensures DbOk(db')
  {
    forall s | s in db'.rows
      ensures Replay(LogOf(db'.history, s)) == Some((db'.rows[s].current, db'.rows[s].previous))
    {
      if s !in db.rows { LogOfStranger(db.history, s); }
    }
  }

  lemma SameStoryGrows(c: Config, db: Db, db': Db)
    requires TablesOk(c, db) && SameStory(db, db')
    ensures TablesOk(c, db') && Growth(db, db')
  {
    SameStoryKeepsDbOk(db, db');
    forall s | Reached(db', s, AgentInstalled) ensures HasAws(db', s) { assert Reached(db, s, AgentInstalled); }
    forall x | x in db'.history && IsValidationGate(x.to) && !c.phaseAware ensures HasReset(db', x.server) {
      ResetGrows(db, db', x.server);
    }
    forall s, n: nat | n <= |db.history| && Landed(db, s, n) ensures Landed(db', s, n) {
      if ResetSince(db, s, n) { ResetSinceGrows(db, db', s, n); }
    }
  }
}
