/** The endpoints that act on one server. */
module ServersApi {
  import opened Wrappers
  import opened Pipeline
  import opened Store
  import opened Handlers
  import opened Machine
  import opened Coarse
  import opened Services

  datatype ApiError = UnknownServer | WrongState(current: State) | Broken

  // ---- what one step of an API task leaves to do ----

  lemma RequireStep(c: Config, s: Snap, id: string, r: Request, tape: Tape)
    requires !r.Retry?
    ensures Fly(c, s, Api(id, r, Start), tape) ==
            Fly(c, s.(clock := s.clock + 1),
                Api(id, r, if !DbLuck(c, tape(s.clock).luck).Fine? || id !in s.db.rows then Finished
                           else AfterRequire(id, r, s.db.rows[id])), tape)
  {
    Unroll(c, s, Api(id, r, Start), tape);
  }

  lemma ResetStep(c: Config, s: Snap, id: string, engineer: string, tape: Tape)
    ensures Fly(c, s, Api(id, Retry(engineer), Start), tape) ==
            (s.(db := Settled(s.db, Reset(s.db, id, engineer), DbLuck(c, tape(s.clock).luck)).0,
                clock := s.clock + 1), Finished)
  {
    Unroll(c, s, Api(id, Retry(engineer), Start), tape);
  }

  lemma DecideStep(c: Config, s: Snap, id: string, r: Request, to: State, why: Label, next: Prog, tape: Tape)
    requires r.Approve? || r.Reject?
    ensures var moved := Advance(s.db, id, to, r.engineer, why);
            var l := DbLuck(c, tape(s.clock).luck);
            Fly(c, s, Api(id, r, Move(to, why, next)), tape) ==
            Fly(c, s.(db := Settled(s.db, moved, l).0, clock := s.clock + 1),
                Api(id, r, if Outcome(moved, l).Ok? then next else Finished), tape)
  {
    Unroll(c, s, Api(id, r, Move(to, why, next)), tape);
  }

  lemma DispatchStep(c: Config, s: Snap, id: string, r: Request, out: Msg, tape: Tape)
    ensures var l := tape(s.clock).luck;
            Fly(c, s, Api(id, r, Publish(out, Finished)), tape) ==
            (s.(published := s.published + (if l.Before? then [] else [out]), clock := s.clock + 1), Finished)
  {
    Unroll(c, s, Api(id, r, Publish(out, Finished)), tape);
  }

  lemma Done(c: Config, s: Snap, id: string, r: Request, tape: Tape)
    ensures Fly(c, s, Api(id, r, Finished), tape) == (s, Finished)
  {
  }

  /** The API process. Its broker channel is the dispatcher's. */
  class ServersApi {
    const conn: Connections

    constructor (conn: Connections)
      ensures this.conn == conn
    {
      this.conn := conn;
    }

    /** What the machine's API task for this request does when it runs alone, from snapshot s. */
    ghost predicate Serves(s: Snap, id: string, r: Request)
      reads conn.Footprint()
    {
      Fly(conn.client.config, s, Api(id, r, Start), conn.Tape()) == (conn.Now(), Finished)
    }

    /** The reply: only a registered server in the expected state is served, any other is refused for the right
        reason and nothing has changed, and no other error is reported unless the last call raised: one of the first
        dbCalls calls, which go to the database, or the publication after them. */
    ghost predicate Answers(r: Result<(), ApiError>, s: Snap, id: string, expected: State, dbCalls: nat)
      reads conn.Footprint()
    {
      match r
      case Ok(_) => id in s.db.rows && s.db.rows[id].current == expected
      case Err(UnknownServer) => id !in s.db.rows && conn.Now() == s.(clock := s.clock + 1)
      case Err(WrongState(st)) =>
        id in s.db.rows && s.db.rows[id].current == st != expected && conn.Now() == s.(clock := s.clock + 1)
      case Err(Broken) =>
        && s.clock < conn.Now().clock
        && var luck := conn.Tape()(conn.Now().clock - 1).luck;
           !(if conn.Now().clock - s.clock <= dbCalls then DbLuck(conn.client.config, luck) else luck).Fine?
    }

    method RequireState(id: string, expected: State) returns (r: Result<Row, ApiError>)
      requires conn.Wired()
      modifies conn.client.outside
      ensures conn.client.outside.clock == old(conn.client.outside.clock) + 1
      ensures var servers := conn.client.sm.servers;
              r == if !old(conn.client.Luck()).Fine? then Err(Broken)
                   else if id !in servers then Err(UnknownServer)
                   else if servers[id].current != expected then Err(WrongState(servers[id].current))
                   else Ok(servers[id])
    {
      var server := conn.client.GetServer(id);
      if server.Err? { return Err(if server.error.NotFound? then UnknownServer else Broken); }
      if server.value.current != expected { return Err(WrongState(server.value.current)); }
      r := Ok(server.value);
    }

    /** A transition recorded under an engineer's name. */
    method Decide(id: string, to: State, engineer: string, why: Label) returns (r: Result<(), DbError>)
      requires conn.Wired()
      modifies conn.client.sm, conn.client.outside
      ensures conn.client.outside.clock == old(conn.client.outside.clock) + 1
      ensures var moved := Advance(old(conn.client.sm.Tables()), id, to, engineer, why);
              && r == Outcome(moved, old(conn.client.Luck()))
              && conn.client.sm.Tables() == Settled(old(conn.client.sm.Tables()), moved, old(conn.client.Luck())).0
    {
      var turn := conn.client.outside.Next();
      r := conn.client.sm.AdvanceState(id, to, engineer, why, DbLuck(conn.client.config, turn.luck));
    }

    /** An approval that succeeds has advanced the server and then queued the gate's job for it; one that is
        refused has changed nothing. */
    method ApproveGate(id: string, gate: Gate, engineer: string) returns (r: Result<(), ApiError>)
      requires conn.Wired()
      modifies conn.client.sm, conn.client.outside, conn.channel`published
      ensures var was, now, tape, n := old(conn.Now()), conn.Now(), conn.Tape(), old(conn.Now()).clock;
              var l := DbLuck(conn.client.config, tape(n + 1).luck);
              var readable := DbLuck(conn.client.config, tape(n).luck).Fine? && id in was.db.rows;
              if readable && was.db.rows[id].current == GateState(gate) then
                var row := was.db.rows[id];
                && now.db == (if l.Before? then was.db
                              else Db(was.db.rows[id := row.(current := ApprovedState(gate),
                                                             previous := Some(row.current))],
                                      was.db.history + [Entry(id, row.current, ApprovedState(gate), engineer,
                                                              Approved(gate))],
                                      was.db.batches))
                && now.published == was.published + (if l.Fine? && !tape(n + 2).luck.Before?
                                                     then [Msg(GateJob(gate), id, row.aws, None, None, 1)] else [])
                && (r.Ok? <==> l.Fine? && tape(n + 2).luck.Fine?)
              else now == was.(clock := n + 1) && r.Err?
      ensures Serves(old(conn.Now()), id, Approve(gate, engineer))
      ensures r.Ok? ==>
                var was := old(conn.Now());
                && id in was.db.rows && was.db.rows[id].current == GateState(gate)
                && conn.Now().db ==
                     Write(was.db, Entry(id, GateState(gate), ApprovedState(gate), engineer, Approved(gate)))
                && conn.Now().published == was.published + [Fresh(GateJob(gate), id, was.db.rows[id].aws)]
      ensures Answers(r, old(conn.Now()), id, GateState(gate), 2)
    {
      hide Fly;
      ghost var c, tape, request := conn.client.config, conn.Tape(), Approve(gate, engineer);
      RequireStep(c, conn.Now(), id, request, tape);
      var server := RequireState(id, GateState(gate));
      if server.Err? { Done(c, conn.Now(), id, request, tape); return Err(server.error); }
      var job := Fresh(GateJob(gate), id, server.value.aws);
      GateEdges(gate);
      DecideStep(c, conn.Now(), id, request, ApprovedState(gate), Approved(gate), Publish(job, Finished), tape);
      var advanced := Decide(id, ApprovedState(gate), engineer, Approved(gate));
      if advanced.Err? { Done(c, conn.Now(), id, request, tape); return Err(Broken); }
      DispatchStep(c, conn.Now(), id, request, job, tape);
      var sent := conn.channel.Publish(job);
      r := if sent.Ok? then Ok(()) else Err(Broken);
    }

    /** A rejection goes straight to FAILED, at every gate, and queues nothing: no rollback follows it. */
    method RejectGate(id: string, gate: Gate, engineer: string) returns (r: Result<(), ApiError>)
      requires conn.Wired()
      modifies conn.client.sm, conn.client.outside
      ensures var was, now, tape, n := old(conn.Now()), conn.Now(), conn.Tape(), old(conn.Now()).clock;
              var l := DbLuck(conn.client.config, tape(n + 1).luck);
              var readable := DbLuck(conn.client.config, tape(n).luck).Fine? && id in was.db.rows;
              if readable && was.db.rows[id].current == GateState(gate) then
                var row := was.db.rows[id];
                && now.db == (if l.Before? then was.db
                              else Db(was.db.rows[id := row.(current := Failed, previous := Some(row.current))],
                                      was.db.history + [Entry(id, row.current, Failed, engineer, Rejected(gate))],
                                      was.db.batches))
                && now.published == was.published && (r.Ok? <==> l.Fine?)
              else now == was.(clock := n + 1) && r.Err?
      ensures Serves(old(conn.Now()), id, Reject(gate, engineer))
      ensures r.Ok? ==>
                var was := old(conn.Now());
                && id in was.db.rows && was.db.rows[id].current == GateState(gate)
                && conn.Now().db == Write(was.db, Entry(id, GateState(gate), Failed, engineer, Rejected(gate)))
      ensures Answers(r, old(conn.Now()), id, GateState(gate), 2)
    {
      hide Fly;
      ghost var c, tape, request := conn.client.config, conn.Tape(), Reject(gate, engineer);
      RequireStep(c, conn.Now(), id, request, tape);
      var server := RequireState(id, GateState(gate));
      if server.Err? { Done(c, conn.Now(), id, request, tape); return Err(server.error); }
      TableIsPipeline(GateState(gate), Failed);
      DecideStep(c, conn.Now(), id, request, Failed, Rejected(gate), Finished, tape);
      var advanced := Decide(id, Failed, engineer, Rejected(gate));
      Done(c, conn.Now(), id, request, tape);
      r := if advanced.Ok? then Ok(()) else Err(Broken);
    }

    method StartServer(id: string, aws: string) returns (r: Result<(), ApiError>)
      requires conn.Wired()
      modifies conn.client.outside, conn.channel`published
      ensures var was, now, tape, n := old(conn.Now()), conn.Now(), conn.Tape(), old(conn.Now()).clock;
              var readable := DbLuck(conn.client.config, tape(n).luck).Fine? && id in was.db.rows;
              if readable && was.db.rows[id].current == Pending then
                && now.db == was.db && (r.Ok? <==> tape(n + 1).luck.Fine?)
                && now.published == was.published + (if tape(n + 1).luck.Before? then []
                                                     else [Msg(AddServer, id, Some(aws), None, None, 1)])
              else now == was.(clock := n + 1) && r.Err?
      ensures Serves(old(conn.Now()), id, Begin(aws))
      ensures r.Ok? ==> conn.Now().published == old(conn.Now()).published + [Fresh(AddServer, id, Some(aws))]
      ensures Answers(r, old(conn.Now()), id, Pending, 1)
    {
      hide Fly;
      ghost var c, tape, request := conn.client.config, conn.Tape(), Begin(aws);
      RequireStep(c, conn.Now(), id, request, tape);
      var server := RequireState(id, Pending);
      if server.Err? { Done(c, conn.Now(), id, request, tape); return Err(server.error); }
      var job := Fresh(AddServer, id, Some(aws));
      DispatchStep(c, conn.Now(), id, request, job, tape);
      var sent := conn.channel.Publish(job);
      r := if sent.Ok? then Ok(()) else Err(Broken);
    }

    /** The three configure endpoints; no endpoint dispatches LAUNCH_CUTOVER_INSTANCE. */
    method Configure(id: string, setup: Setup) returns (r: Result<(), ApiError>)
      requires conn.Wired() && !setup.CutoverInstanceSetup?
      modifies conn.client.outside, conn.channel`published
      ensures var was, now, tape, n := old(conn.Now()), conn.Now(), conn.Tape(), old(conn.Now()).clock;
              var readable := DbLuck(conn.client.config, tape(n).luck).Fine? && id in was.db.rows;
              var (expected, job) := match setup
                                     case ReplicationSetup => (AgentInstalled, ConfigureReplication)
                                     case TestLaunchSetup => (ReadyForTesting, ConfigureTestLaunch)
                                     case _ => (CutoverTemplateConfigured, ConfigureCutoverLaunch);
              if readable && was.db.rows[id].current == expected then
                && now.db == was.db && (r.Ok? <==> tape(n + 1).luck.Fine?)
                && now.published == was.published + (if tape(n + 1).luck.Before? then []
                                                     else [Msg(job, id, was.db.rows[id].aws, None, None, 1)])
              else now == was.(clock := n + 1) && r.Err?
      ensures Serves(old(conn.Now()), id, Request.Configure(setup))
      ensures r.Ok? ==>
                var was := old(conn.Now());
                && id in was.db.rows
                && conn.Now().published == was.published + [Fresh(SetupJob(setup), id, was.db.rows[id].aws)]
      ensures Answers(r, old(conn.Now()), id, ExpectedState(SetupJob(setup)), 1)
    {
      hide Fly;
      ghost var c, tape, request := conn.client.config, conn.Tape(), Request.Configure(setup);
      RequireStep(c, conn.Now(), id, request, tape);
      var server := RequireState(id, ExpectedState(SetupJob(setup)));
      if server.Err? { Done(c, conn.Now(), id, request, tape); return Err(server.error); }
      var job := Fresh(SetupJob(setup), id, server.value.aws);
      DispatchStep(c, conn.Now(), id, request, job, tape);
      var sent := conn.channel.Publish(job);
      r := if sent.Ok? then Ok(()) else Err(Broken);
    }

    method ResetServer(id: string, engineer: string) returns (r: Result<(), DbError>)
      requires conn.Wired()
      modifies conn.client.sm, conn.client.outside
      ensures var was, l := old(conn.Now()), DbLuck(conn.client.config, conn.Tape()(old(conn.Now()).clock).luck);
              if id in was.db.rows && was.db.rows[id].current == Failed then
                && (r.Ok? <==> l.Fine?)
                && conn.Now().db ==
                   if l.Before? then was.db
                   else Db(was.db.rows[id := was.db.rows[id].(current := Pending, previous := Some(Failed))],
                           was.db.history + [Entry(id, Failed, Pending, engineer, WasReset)], was.db.batches)
              else r.Err? && conn.Now().db == was.db
      ensures Serves(old(conn.Now()), id, Retry(engineer))
      ensures r == Outcome(Reset(old(conn.Now()).db, id, engineer), old(conn.client.Luck()))
    {
      hide Fly;
      ResetStep(conn.client.config, conn.Now(), id, engineer, conn.Tape());
      var turn := conn.client.outside.Next();
      r := conn.client.sm.ResetServer(id, engineer, DbLuck(conn.client.config, turn.luck));
    }
  }
}
