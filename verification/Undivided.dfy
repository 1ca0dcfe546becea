/** What distinguishes a task that runs alone: between its steps its server still stands where the task read it
    to be, so that every decision is carried out in the state it was taken in. */
module Undivided {
  import opened Wrappers
  import opened Pipeline
  import opened Store
  import opened Handlers
  import opened Machine
  import opened Safety
  import opened Steps
  import opened Guarantees
  import opened Coarse

  // ---- between its steps, a task that runs alone still stands where its read put it ----

  /** The mutating AWS call of each job's handler. */
  function CallOf(j: Job): Option<AwsCall> {
    match j
    case ConfigureReplication => Some(UpdateReplicationConfiguration)
    case StartReplication => Some(StartReplicationCall)
    case ConfigureTestLaunch => Some(UpdateTestLaunchConfiguration)
    case LaunchTest => Some(StartTestCall)
    case FinalizeTest => Some(TerminateTargetInstances)
    case ConfigureCutoverLaunch => Some(UpdateCutoverLaunchConfiguration)
    case StartCutover => Some(StartCutoverCall)
    case FinalizeCutover => Some(FinalizeCutoverCall)
    case DisconnectSource => Some(DisconnectFromService)
    case ArchiveSource => Some(MarkAsArchived)
    case DeleteReplication => Some(DeleteSourceServer)
    case _ => None
  }

  /** From state st, every state change of the program is the next edge of the pipeline. */
  predicate Straight(st: State, p: Prog)
    decreases p
  {
    match p
    case SaveAws(next) => st.Pending? && Straight(st, next)
    case Move(to, _, next) => Rank(st) < 26 && Rank(to) == Rank(st) + 1 && Straight(to, next)
    case Publish(_, next) => next.Settle?
    case Settle(_) => true
    case _ => false
  }

  /** What a second-phase poll does after its AWS query. */
  predicate LatePoll(p: Prog) {
    || Resting(p)
    || (p.Move? && IsValidationGate(p.to) && Resting(p.next))
    || (p.Publish? && Resting(p.next))
  }

  /** st is the current state of the server of task t. */
  predicate InPlace(c: Config, st: State, t: Task) {
    match t
    case Consumer(m, p) =>
      || p.Start? || Resting(p)
      || (p.Ask? && st == GuardState(c, m))
      || (p.Act? && st == GuardState(c, m) && CallOf(m.job) == Some(p.call))
      || (if SecondPhase(m) && !c.phaseAware then IsPoll(m.job) && LatePoll(p) && st == GuardState(c, m)
          else Straight(st, p))
    case Rollbacker(m, p) =>
      || p.Start? || Resting(p)
      || (p.Undo? && p.seen == st
          && (|| (p.plan == [StopReplication] && 4 <= Rank(st) < 8)
              || (p.plan == [TerminateTargetInstances] && (8 <= Rank(st) <= 10 || 14 <= Rank(st) <= 17))))
      || (p.Move? && p.why == RolledBack(m.job, st) && Resting(p.next)
          && (p.to.Frozen? ==> 4 <= Rank(st) <= 10 || 14 <= Rank(st)))
    case Api(_, r, p) =>
      || p.Start? || Resting(p)
      || (p.Publish? && Resting(p.next))
      || (p.Move? && (p.why.Approved? || p.why.Rejected?) && st == GateState(p.why.gate)
          && (Resting(p.next) || (p.next.Publish? && Resting(p.next.next))))
  }

  lemma GuardInPlace(c: Config, m: Msg)
    ensures InPlace(c, GuardState(c, m), Consumer(m, AfterGuard(m)))
  {
  }

  lemma PublishStraight(st: State, m: Msg)
    ensures Straight(st, ACK) && Straight(st, NACK) && Straight(st, Publish(m, ACK))
  {
  }

  lemma StepStraight(st: State, m: Msg, to: State, next: Prog)
    requires Rank(st) < 26 && Rank(to) == Rank(st) + 1 && Straight(to, next)
    ensures Straight(st, Handlers.Step(m, to, next))
  {
  }

  lemma AskInPlace(c: Config, m: Msg, a: Answer)
    requires !(SecondPhase(m) && !c.phaseAware)
    ensures AfterAsk(m, a).Act? || Straight(GuardState(c, m), AfterAsk(m, a))
    ensures AfterAsk(m, a).Act? ==> CallOf(m.job) == Some(AfterAsk(m, a).call)
  {
    var p := AfterAsk(m, a);
    var st := GuardState(c, m);
    if p.Publish? { PublishStraight(st, p.msg); }
    if p.SaveAws? {
      StepStraight(st, m, AgentInstalled, ACK);
    }
    if p.Move? {
      AskMoves(c, m, a);
      if p.next.Publish? { PublishStraight(p.to, p.next.msg); }
      if p.next.Move? { StepStraight(p.to, m, p.next.to, ACK); }
      StepStraight(st, m, p.to, p.next);
    }
  }

  lemma AskMoves(c: Config, m: Msg, a: Answer)
    requires !(SecondPhase(m) && !c.phaseAware) && AfterAsk(m, a).Move?
    ensures var p := AfterAsk(m, a);
            && p == Handlers.Step(m, p.to, p.next)
            && Rank(GuardState(c, m)) < 26 && Rank(p.to) == Rank(GuardState(c, m)) + 1
            && (p.next == ACK || (p.next.Publish? && p.next.next == ACK)
                || (Rank(p.to) < 26 && p.next.Move? && p.next == Handlers.Step(m, p.next.to, ACK)
                    && Rank(p.next.to) == Rank(p.to) + 1))
  {
    match m.job
    case LaunchCutover =>
    case PollReplication =>
    case PollTestInstance =>
    case PollCutoverSync =>
    case PollCutoverInstance =>
    case PollDisconnect =>
    case _ =>
  }

  lemma ActInPlace(c: Config, m: Msg, a: Answer)
    requires CallOf(m.job).Some?
    ensures Straight(GuardState(c, m), AfterAct(m, a))
  {
    var p := AfterAct(m, a);
    var st := GuardState(c, m);
    if p.Publish? { PublishStraight(st, p.msg); }
    if p.Move? {
      if p.next.Publish? { PublishStraight(p.to, p.next.msg); }
      if p.next.Move? { StepStraight(p.to, m, p.next.to, ACK); }
      StepStraight(st, m, p.to, p.next);
    }
  }

  predicate At(c: Config, db: Db, t: Task) {
    t.prog.Start? || Resting(t.prog) || (ServerOf(t) in db.rows && InPlace(c, db.rows[ServerOf(t)].current, t))
  }

  lemma StraightAt(c: Config, db: Db, m: Msg, p: Prog)
    requires m.server in db.rows
    requires if SecondPhase(m) && !c.phaseAware
             then IsPoll(m.job) && LatePoll(p) && db.rows[m.server].current == GuardState(c, m)
             else Straight(db.rows[m.server].current, p)
    ensures At(c, db, Consumer(m, p))
  {
  }

  lemma ConsumerStaysAt(c: Config, db: Db, t: Task, turn: Turn)
    requires t.Consumer? && t.msg.server in db.rows && At(c, db, t)
    ensures var d := Effect(c, db, t, turn); At(c, d.db, WithProg(t, d.prog))
  {
    var m, d := t.msg, Effect(c, db, t, turn);
    var st := db.rows[m.server].current;
    if Resting(d.prog) { return; }
    match t.prog
    case Start => GuardInPlace(c, m);
    case Ask =>
      if SecondPhase(m) && !c.phaseAware { SecondPhaseActs(m, turn.answer); StraightAt(c, db, m, d.prog); }
      else { AskInPlace(c, m, turn.answer); }
    case Act(_) => ActInPlace(c, m, turn.answer); SecondPhaseIsPoll(m);
    case SaveAws(next) => StraightAt(c, d.db, m, next);
    case Move(to, _, next) => TableIsPipeline(st, to); StraightAt(c, d.db, m, next);
    case Publish(_, next) => StraightAt(c, db, m, next);
    case _ =>
  }

  lemma SecondPhaseActs(m: Msg, a: Answer)
    requires SecondPhase(m)
    ensures IsPoll(m.job) && LatePoll(AfterAsk(m, a))
  {
  }

  lemma SecondPhaseIsPoll(m: Msg)
    ensures CallOf(m.job).Some? ==> !SecondPhase(m)
  {
  }

  lemma PlanInPlace(c: Config, db: Db, m: Msg)
    requires TablesOk(c, db) && m.server in db.rows && !IsTerminal(db.rows[m.server].current)
    ensures var row := db.rows[m.server];
            var (plan, final) := RollbackPlan(row.current, row.aws);
            InPlace(c, row.current, Rollbacker(m, RunPlan(plan, final, row.current, m)))
  {
    hide RollbackPlan, TablesOk;
    var row := db.rows[m.server];
    RankBounds(row.current);
    RollbackGroups(row.current, row.aws);
    RowKnown(c, db, m.server);
  }

  lemma RollbackerStaysAt(c: Config, db: Db, t: Task, turn: Turn)
    requires TablesOk(c, db) && t.Rollbacker? && t.msg.server in db.rows && At(c, db, t)
    ensures var d := Effect(c, db, t, turn); At(c, d.db, WithProg(t, d.prog))
  {
    hide RollbackPlan, TablesOk, NextStates, AfterAsk, AfterAct;
    match t.prog
    case Start => if !IsTerminal(db.rows[t.msg.server].current) { PlanInPlace(c, db, t.msg); }
    case Undo(plan, _, _) => if plan != [] && |plan| == 1 { assert plan[1..] == []; }
    case _ =>
  }

  lemma ApiStaysAt(c: Config, db: Db, t: Task, turn: Turn)
    requires t.Api? && At(c, db, t)
    ensures var d := Effect(c, db, t, turn); At(c, d.db, WithProg(t, d.prog))
  {
  }

  lemma StaysAt(c: Config, db: Db, t: Task, turn: Turn)
    requires TablesOk(c, db) && TaskOk(c, db, t) && At(c, db, t)
    ensures var d := Effect(c, db, t, turn); At(c, d.db, WithProg(t, d.prog))
  {
    match t
    case Consumer(_, _) => ConsumerStaysAt(c, db, t, turn);
    case Rollbacker(_, _) => RollbackerStaysAt(c, db, t, turn);
    case Api(_, _, _) => ApiStaysAt(c, db, t, turn);
  }

  /** The row a step appends, if any, records a decision carried out in the state it was taken in. */
  lemma StepUndisturbed(c: Config, db: Db, t: Task, turn: Turn)
    requires TaskOk(c, db, t) && At(c, db, t)
    ensures var d := Effect(c, db, t, turn);
            forall e :: e in d.db.history ==> e in db.history || Undisturbed(e)
  {
  }

  lemma GateOutOfReach(c: Config, m: Msg, to: State)
    requires !c.phaseAware && SecondPhase(m) && IsValidationGate(to)
    ensures !Allowed(GuardState(c, m), to)
  {
    TableIsPipeline(GuardState(c, m), to);
  }

  /** With the shipped poll table a second-phase poll gets through only in the state the first phase starts from, one
      short of where its state change to the validation gate would be legal. */
  lemma StepStopsShort(c: Config, db: Db, t: Task, turn: Turn)
    requires !c.phaseAware && TaskOk(c, db, t) && At(c, db, t)
    ensures var d := Effect(c, db, t, turn);
            forall e :: e in d.db.history ==> e in db.history || !IsValidationGate(e.to)
  {
    hide AfterAsk, AfterAct, RunPlan, NextStates, AfterRequire, MsgOk, GuardState, Allowed;
    if t.prog.Move? && IsValidationGate(t.prog.to) { GateOutOfReach(c, t.msg, t.prog.to); }
  }
}
