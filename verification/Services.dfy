/** What one worker or API process talks to: the state manager, a broker channel, and AWS. Each call asks the
    outside world for its turn: whether the effect goes through, and what AWS answers. */
module Services {
  import opened Wrappers
  import opened Pipeline
  import opened Store
  import opened Handlers
  import opened Machine
  import opened Coarse

  datatype Failure = Exception

  // ---- what a process is meant to do ----

  /** The part of the world that a process can change, and the number of turns it has used. */
  datatype Snap = Snap(db: Db, published: seq<Msg>, calls: seq<CallRecord>, clock: nat)

  function Once(c: Config, s: Snap, t: Task, tape: Tape): Snap {
    var d := Effect(c, s.db, t, tape(s.clock));
    Snap(d.db, s.published + d.out, s.calls + d.calls, s.clock + 1)
  }

  /** The steps of the machine's task t, one after another, up to its settling step. */
  function Fly(c: Config, s: Snap, t: Task, tape: Tape): (Snap, Prog)
    decreases Span(t.prog)
  {
    if Resting(t.prog) then (s, t.prog)
    else
      StepShortens(c, s.db, t, tape(s.clock));
      Fly(c, Once(c, s, t, tape), WithProg(t, Effect(c, s.db, t, tape(s.clock)).prog), tape)
  }

  // ---- what one step of a worker's task leaves to do ----

  lemma Unroll(c: Config, s: Snap, t: Task, tape: Tape)
    requires !Resting(t.prog)
    ensures var d := Effect(c, s.db, t, tape(s.clock));
            && Fly(c, s, t, tape) == Fly(c, Once(c, s, t, tape), WithProg(t, d.prog), tape)
            && (d.out == [] ==> Once(c, s, t, tape).published == s.published)
            && (d.calls == [] ==> Once(c, s, t, tape).calls == s.calls)
  {
  }

  lemma AtRest(c: Config, s: Snap, t: Task, tape: Tape)
    requires Resting(t.prog)
    ensures Fly(c, s, t, tape) == (s, t.prog)
  {
  }

  lemma ReadStep(c: Config, s: Snap, m: Msg, tape: Tape)
    ensures Fly(c, s, Consumer(m, Start), tape) ==
            Fly(c, s.(clock := s.clock + 1),
                Consumer(m, if !DbLuck(c, tape(s.clock).luck).Fine? || m.server !in s.db.rows then NACK
                            else if s.db.rows[m.server].current == GuardState(c, m) then AfterGuard(m) else ACK), tape)
  {
    Unroll(c, s, Consumer(m, Start), tape);
  }

  lemma AskStep(c: Config, s: Snap, m: Msg, tape: Tape)
    ensures Fly(c, s, Consumer(m, Ask), tape) ==
            Fly(c, s.(clock := s.clock + 1),
                Consumer(m, if tape(s.clock).answer.Raised? then NACK else AfterAsk(m, tape(s.clock).answer)), tape)
  {
    Unroll(c, s, Consumer(m, Ask), tape);
  }

  lemma ActStep(c: Config, s: Snap, m: Msg, call: AwsCall, tape: Tape)
    ensures var turn := tape(s.clock);
            Fly(c, s, Consumer(m, Act(call)), tape) ==
            Fly(c, s.(calls := s.calls + [CallRecord(m.server, call, false, turn.luck, |s.db.history|)],
                      clock := s.clock + 1),
                Consumer(m, if turn.luck.Fine? then AfterAct(m, turn.answer) else NACK), tape)
  {
    Unroll(c, s, Consumer(m, Act(call)), tape);
  }

  lemma SaveStep(c: Config, s: Snap, m: Msg, next: Prog, tape: Tape)
    ensures var r := StoreAws(s.db, m.server, m.aws);
            var l := DbLuck(c, tape(s.clock).luck);
            Fly(c, s, Consumer(m, SaveAws(next)), tape) ==
            Fly(c, s.(db := Settled(s.db, r, l).0, clock := s.clock + 1),
                Consumer(m, if Outcome(r, l).Ok? then next else NACK), tape)
  {
    Unroll(c, s, Consumer(m, SaveAws(next)), tape);
  }

  lemma MoveStep(c: Config, s: Snap, m: Msg, to: State, next: Prog, tape: Tape)
    ensures var r := Advance(s.db, m.server, to, "system", ByJob(m.job));
            var l := DbLuck(c, tape(s.clock).luck);
            Fly(c, s, Consumer(m, Handlers.Step(m, to, next)), tape) ==
            Fly(c, s.(db := Settled(s.db, r, l).0, clock := s.clock + 1),
                Consumer(m, if Outcome(r, l).Ok? then next else NACK), tape)
  {
    Unroll(c, s, Consumer(m, Handlers.Step(m, to, next)), tape);
  }

  lemma PublishStep(c: Config, s: Snap, m: Msg, out: Msg, tape: Tape)
    ensures var l := tape(s.clock).luck;
            Fly(c, s, Consumer(m, Publish(out, ACK)), tape) ==
            Fly(c, s.(published := s.published + (if l.Before? then [] else [out]), clock := s.clock + 1),
                Consumer(m, if l.Fine? then ACK else NACK), tape)
  {
    Unroll(c, s, Consumer(m, Publish(out, ACK)), tape);
  }

  // ---- and of a rollback task ----

  lemma RollbackReadStep(c: Config, s: Snap, m: Msg, tape: Tape)
    ensures Fly(c, s, Rollbacker(m, Start), tape) ==
            Fly(c, s.(clock := s.clock + 1),
                Rollbacker(m, if !DbLuck(c, tape(s.clock).luck).Fine? || m.server !in s.db.rows || m.server == ""
                                 || IsTerminal(s.db.rows[m.server].current) then ACK
                              else
                                var row := s.db.rows[m.server];
                                var (plan, final) := RollbackPlan(row.current, row.aws);
                                RunPlan(plan, final, row.current, m)), tape)
  {
    hide RunPlan, RollbackPlan;
    Unroll(c, s, Rollbacker(m, Start), tape);
  }

  lemma UndoStep(c: Config, s: Snap, m: Msg, plan: seq<AwsCall>, final: State, seen: State, tape: Tape)
    requires plan != []
    ensures var l := tape(s.clock).luck;
            Fly(c, s, Rollbacker(m, RunPlan(plan, final, seen, m)), tape) ==
            Fly(c, s.(calls := s.calls + [CallRecord(m.server, plan[0], true, l, |s.db.history|)],
                      clock := s.clock + 1),
                Rollbacker(m, if l.Fine? then RunPlan(plan[1..], final, seen, m) else RunPlan([], Frozen, seen, m)),
                    tape)
  {
    Unroll(c, s, Rollbacker(m, Undo(plan, final, seen)), tape);
  }

  lemma FinalStep(c: Config, s: Snap, m: Msg, final: State, seen: State, tape: Tape)
    ensures var r := Advance(s.db, m.server, final, "system", RolledBack(m.job, seen));
            Fly(c, s, Rollbacker(m, RunPlan([], final, seen, m)), tape) ==
            (s.(db := Settled(s.db, r, DbLuck(c, tape(s.clock).luck)).0, clock := s.clock + 1), ACK)
  {
    Unroll(c, s, Rollbacker(m, RunPlan([], final, seen, m)), tape);
  }

  /** In the machine, driving task i to its settling step changes the world exactly as Fly says. */
  lemma {:induction false} FlyIsDrive(c: Config, w: World, i: nat, tape: Tape, n: nat)
    requires i < |w.tasks|
    ensures var (s, p) := Fly(c, Snap(w.db, w.published, w.calls, n), w.tasks[i], tape);
            && w.published <= s.published
            && Drive(c, w, i, tape, n) == w.(db := s.db, ready := w.ready + s.published[|w.published|..],
                 tasks := w.tasks[i := WithProg(w.tasks[i], p)], calls := s.calls, published := s.published)
    decreases Span(w.tasks[i].prog)
  {
    hide Effect;
    var t := w.tasks[i];
    if Resting(t.prog) {
      assert w.tasks[i := WithProg(t, t.prog)] == w.tasks;
    } else {
      StepShortens(c, w.db, t, tape(n));
      var w' := RunTask(c, w, i, tape(n));
      FlyIsDrive(c, w', i, tape, n + 1);
      var (s, p) := Fly(c, Snap(w.db, w.published, w.calls, n), t, tape);
      var d := Effect(c, w.db, t, tape(n));
      assert w'.ready + s.published[|w'.published|..] == w.ready + s.published[|w.published|..] by {
        assert s.published[|w.published|..] == d.out + s.published[|w'.published|..];
      }
      assert w'.tasks[i := WithProg(w'.tasks[i], p)] == w.tasks[i := WithProg(t, p)];
    }
  }

  // ---- the services ----

  /** The outside world, turn by turn. */
  class Outside {
    const tape: Tape
    var clock: nat

    constructor (tape: Tape)
      ensures this.tape == tape && clock == 0
    {
      this.tape, clock := tape, 0;
    }

    method Next() returns (turn: Turn)
      modifies this
      ensures turn == tape(old(clock)) && clock == old(clock) + 1
    {
      turn, clock := tape(clock), clock + 1;
    }
  }

  /** A broker channel, with what went through it. */
  class Channel {
    const outside: Outside
    var published: seq<Msg>
    var acked: seq<Msg>
    var dead: seq<Msg>

    constructor (outside: Outside)
      ensures this.outside == outside && published == acked == dead == []
    {
      this.outside, published, acked, dead := outside, [], [], [];
    }

    method Publish(m: Msg) returns (r: Result<(), Failure>)
      modifies this`published, outside
      ensures outside.clock == old(outside.clock) + 1
      ensures published == old(published) + if outside.tape(old(outside.clock)).luck.Before? then [] else [m]
      ensures r.Ok? <==> outside.tape(old(outside.clock)).luck.Fine?
    {
      var turn := outside.Next();
      if turn.luck.Before? { return Err(Exception); }
      published := published + [m];
      r := if turn.luck.Fine? then Ok(()) else Err(Exception);
    }

    method Ack(m: Msg)
      modifies this`acked
      ensures acked == old(acked) + [m]
    {
      acked := acked + [m];
    }

    /** Negative acknowledgement without requeueing: the queue dead-letters the message. */
    method Nack(m: Msg)
      modifies this`dead
      ensures dead == old(dead) + [m]
    {
      dead := dead + [m];
    }
  }

  /** The AWS clients, with the log of the calls that change AWS. */
  class Aws {
    const outside: Outside
    ghost var calls: seq<CallRecord>

    constructor (outside: Outside)
      ensures this.outside == outside && calls == []
    {
      this.outside, calls := outside, [];
    }

    method DescribeSourceServers() returns (r: Result<seq<SourceServer>, Failure>)
      modifies outside
      ensures outside.clock == old(outside.clock) + 1
      ensures var a := outside.tape(old(outside.clock)).answer;
              r == if a.Servers? then Ok(a.servers) else Err(Exception)
    {
      var turn := outside.Next();
      match turn.answer
      case Servers(servers) => return Ok(servers);
      case _ => return Err(Exception);
    }

    /** The second result is what a describe_source_servers straight afterwards lists. */
    method DescribeJobs() returns (r: Result<seq<MgnJob>, Failure>, afterwards: seq<SourceServer>)
      modifies outside
      ensures outside.clock == old(outside.clock) + 1
      ensures var a := outside.tape(old(outside.clock)).answer;
              && r == (if a.Jobs? then Ok(a.jobs) else Err(Exception))
              && (a.Jobs? ==> afterwards == a.fallback)
    {
      var turn := outside.Next();
      match turn.answer
      case Jobs(jobs, fallback) => return Ok(jobs), fallback;
      case _ => return Err(Exception), [];
    }

    method DescribeInstanceStatus() returns (r: Result<seq<InstanceStatus>, Failure>)
      modifies outside
      ensures outside.clock == old(outside.clock) + 1
      ensures var a := outside.tape(old(outside.clock)).answer;
              r == if a.Statuses? then Ok(a.statuses) else Err(Exception)
    {
      var turn := outside.Next();
      match turn.answer
      case Statuses(statuses) => return Ok(statuses);
      case _ => return Err(Exception);
    }

    /** A call that changes AWS; some answer with the id of an MGN job. */
    method Invoke(server: string, call: AwsCall, ghost rollback: bool, ghost seen: nat)
      returns (r: Result<Option<string>, Failure>)
      modifies this, outside
      ensures outside.clock == old(outside.clock) + 1
      ensures var turn := outside.tape(old(outside.clock));
              && calls == old(calls) + [CallRecord(server, call, rollback, turn.luck, seen)]
              && r == if !turn.luck.Fine? then Err(Exception)
                      else Ok(if turn.answer.Started? then turn.answer.mgnJob else None)
    {
      var turn := outside.Next();
      calls := calls + [CallRecord(server, call, rollback, turn.luck, seen)];
      if !turn.luck.Fine? { return Err(Exception); }
      match turn.answer
      case Started(mgnJob) => return Ok(mgnJob);
      case _ => return Ok(None);
    }
  }

  /** The state manager as the workers see it. */
  class StateManagerClient {
    const config: Config
    const sm: StateManager
    const outside: Outside

    constructor (config: Config, sm: StateManager, outside: Outside)
      ensures this.config == config && this.sm == sm && this.outside == outside
    {
      this.config, this.sm, this.outside := config, sm, outside;
    }

    ghost function Luck(): Luck
      reads outside
    {
      DbLuck(config, outside.tape(outside.clock).luck)
    }

    method GetServer(s: string) returns (r: Result<Row, DbError>)
      modifies outside
      ensures outside.clock == old(outside.clock) + 1
      ensures r == if !old(Luck()).Fine? then Err(Unavailable)
                   else if s in sm.servers then Ok(sm.servers[s]) else Err(NotFound)
    {
      var turn := outside.Next();
      r := sm.GetServer(s, DbLuck(config, turn.luck));
    }

    method GetServerState(s: string) returns (r: Result<State, DbError>)
      modifies outside
      ensures outside.clock == old(outside.clock) + 1
      ensures r == if !old(Luck()).Fine? then Err(Unavailable)
                   else if s in sm.servers then Ok(sm.servers[s].current) else Err(NotFound)
    {
      var row := GetServer(s);
      if row.Err? { return Err(row.error); }
      r := Ok(row.value.current);
    }

    /** A job type that the poll table does not list is never valid, whatever state the server is in. */
    method IsPollValid(m: Msg) returns (r: Result<bool, DbError>)
      modifies outside
      ensures !IsPoll(m.job) ==> r == Ok(false) && outside.clock == old(outside.clock)
      ensures IsPoll(m.job) ==> outside.clock == old(outside.clock) + 1
      ensures IsPoll(m.job) ==>
                r == if !old(Luck()).Fine? then Err(Unavailable)
                     else if m.server in sm.servers then Ok(sm.servers[m.server].current == GuardState(config, m))
                     else Err(NotFound)
    {
      if !IsPoll(m.job) { return Ok(false); }
      var current := GetServerState(m.server);
      if current.Err? { return Err(current.error); }
      r := Ok(current.value == GuardState(config, m));
    }

    method SetAwsSourceServerId(s: string, aws: Option<string>) returns (r: Result<(), DbError>)
      modifies sm, outside
      ensures outside.clock == old(outside.clock) + 1
      ensures r == Outcome(StoreAws(old(sm.Tables()), s, aws), old(Luck()))
      ensures sm.Tables() == Settled(old(sm.Tables()), StoreAws(old(sm.Tables()), s, aws), old(Luck())).0
    {
      var turn := outside.Next();
      r := sm.SetAwsSourceServerId(s, aws, DbLuck(config, turn.luck));
    }

    /** Workers never decide on behalf of an engineer: their transitions are triggered by "system". */
    method AdvanceState(s: string, to: State, why: Label) returns (r: Result<(), DbError>)
      modifies sm, outside
      ensures outside.clock == old(outside.clock) + 1
      ensures r == Outcome(Advance(old(sm.Tables()), s, to, "system", why), old(Luck()))
      ensures sm.Tables() == Settled(old(sm.Tables()), Advance(old(sm.Tables()), s, to, "system", why), old(Luck())).0
    {
      var turn := outside.Next();
      r := sm.AdvanceState(s, to, "system", why, DbLuck(config, turn.luck));
    }
  }

  /** What a worker holds. */
  datatype Connections = Connections(client: StateManagerClient, channel: Channel, aws: Aws) {
    predicate Wired() {
      client.outside == channel.outside == aws.outside
    }

    function Tape(): Tape { client.outside.tape }

    ghost function Footprint(): set<object> { {client.sm, channel, aws, client.outside} }

    ghost function Now(): Snap
      reads Footprint()
    {
      Snap(client.sm.Tables(), channel.published, aws.calls, client.outside.clock)
    }

    /** From snapshot s, with p left to do, everything ends as it does from here with p' left to do. */
    ghost predicate Leads(s: Snap, t: Task, p: Prog, p': Prog)
      reads Footprint()
    {
      Fly(client.config, s, WithProg(t, p), Tape()) == Fly(client.config, Now(), WithProg(t, p'), Tape())
    }

    /** Acknowledges the message, or sends it to the dead-letter exchange. */
    method Conclude(m: Msg, ack: bool)
      modifies channel
      ensures channel.published == old(channel.published)
      ensures Fly(client.config, Now(), Consumer(m, Prog.Settle(ack)), Tape()) == (Now(), Prog.Settle(ack))
      ensures channel.acked == old(channel.acked) + Acked(Consumer(m, Prog.Settle(ack)))
      ensures channel.dead == old(channel.dead) + Nacked(Consumer(m, Prog.Settle(ack)))
    {
      if ack { channel.Ack(m); } else { channel.Nack(m); }
    }
  }
}
