/** The MGN worker: its message loop and the handlers of its thirteen job types. */
module MgnWorker {
  import opened Wrappers
  import opened Pipeline
  import opened Store
  import opened Handlers
  import opened Machine
  import opened Coarse
  import opened Services

  datatype MgnResult = Success(nextState: Option<State>) | Failure

  /** What the message loop still does with a handler's result. */
  function Conclusion(m: Msg, result: MgnResult): Prog {
    match result
    case Success(Some(next)) => Handlers.Step(m, next, ACK)
    case Success(None) => ACK
    case Failure => NACK
  }

  class MgnWorker {
    const conn: Connections

    constructor (conn: Connections)
      ensures this.conn == conn
    {
      this.conn := conn;
    }

    /** Handling a message does what the machine's consumer task does when it runs alone: the same state
        changes, AWS calls and publications in the same order, and the same settlement. A poll job that
        strays into this queue is dead-lettered unread. */
    method OnMessage(m: Msg)
      requires conn.Wired()
      modifies conn.Footprint()
      ensures IsPoll(m.job) ==>
                conn.Now() == old(conn.Now()) && conn.channel.acked == old(conn.channel.acked)
                && conn.channel.dead == old(conn.channel.dead) + [m]
      ensures !IsPoll(m.job) ==>
                var was, l := old(conn.Now()), DbLuck(conn.client.config, conn.Tape()(old(conn.Now()).clock).luck);
                var readable := l.Fine? && m.server in was.db.rows;
                !readable || was.db.rows[m.server].current != ExpectedState(m.job) ==>
                  && conn.Now() == was.(clock := was.clock + 1)
                  && conn.channel.acked == old(conn.channel.acked) + (if readable then [m] else [])
                  && conn.channel.dead == old(conn.channel.dead) + (if readable then [] else [m])
      ensures !IsPoll(m.job) ==>
                var (s, p) := Fly(conn.client.config, old(conn.Now()), Consumer(m, Start), conn.Tape());
                && conn.Now() == s && Resting(p)
                && conn.channel.acked == old(conn.channel.acked) + Acked(Consumer(m, p))
                && conn.channel.dead == old(conn.channel.dead) + Nacked(Consumer(m, p))
    {
      hide Fly, AfterGuard, Conclusion;
      if IsPoll(m.job) { conn.channel.Nack(m); return; }
      ghost var c, tape := conn.client.config, conn.Tape();
      ReadStep(c, conn.Now(), m, tape);
      var current := conn.client.GetServerState(m.server);
      if current.Err? { conn.Conclude(m, false); return; }
      if current.value != ExpectedState(m.job) { conn.Conclude(m, true); return; }
      var result := Handle(m);
      ActOnResult(m, result);
    }

    /** What the loop makes of a handler's result: success is acknowledged once the state it names, if any, has been
        written; failure, and a state change that raises, dead-letter the message. */
    method ActOnResult(m: Msg, result: MgnResult)
      requires conn.Wired()
      modifies conn.Footprint()
      ensures conn.Now().calls == old(conn.Now()).calls && conn.Now().published == old(conn.Now()).published
      ensures result == Success(None) || result == Failure ==>
                && conn.Now() == old(conn.Now())
                && conn.channel.acked == old(conn.channel.acked) + (if result == Failure then [] else [m])
                && conn.channel.dead == old(conn.channel.dead) + (if result == Failure then [m] else [])
      ensures result.Success? && result.nextState.Some? ==>
                var was := old(conn.Now());
                var moved := Advance(was.db, m.server, result.nextState.value, "system", ByJob(m.job));
                var (db, ok) := Settled(was.db, moved, DbLuck(conn.client.config, conn.Tape()(was.clock).luck));
                && conn.Now().db == db
                && conn.channel.acked == old(conn.channel.acked) + (if ok then [m] else [])
                && conn.channel.dead == old(conn.channel.dead) + (if ok then [] else [m])
      ensures var (s, p) := Fly(conn.client.config, old(conn.Now()), Consumer(m, Conclusion(m, result)), conn.Tape());
              && conn.Now() == s && Resting(p)
              && conn.channel.acked == old(conn.channel.acked) + Acked(Consumer(m, p))
              && conn.channel.dead == old(conn.channel.dead) + Nacked(Consumer(m, p))
    {
      hide Fly, Advance, Settled, Outcome, Span;
      ghost var c, tape := conn.client.config, conn.Tape();
      match result
      case Success(Some(next)) =>
        MoveStep(c, conn.Now(), m, next, ACK, tape);
        SettledOk(conn.Now().db, Advance(conn.Now().db, m.server, next, "system", ByJob(m.job)),
                  DbLuck(c, tape(conn.Now().clock).luck));
        var advanced := conn.client.AdvanceState(m.server, next, ByJob(m.job));
        conn.Conclude(m, advanced.Ok?);
      case Success(None) => conn.Conclude(m, true);
      case Failure => conn.Conclude(m, false);
    }

    method Handle(m: Msg) returns (result: MgnResult)
      requires conn.Wired() && !IsPoll(m.job)
      modifies conn.client.sm, conn.client.outside, conn.channel`published, conn.aws
      ensures conn.Leads(old(conn.Now()), Consumer(m, Start), AfterGuard(m), Conclusion(m, result))
    {
      match m.job
      case AddServer => result := HandleAddServer(m);
      case ConfigureReplication => result := HandleConfigureReplication(m);
      case StartReplication => result := HandleStartReplication(m);
      case ConfigureTestLaunch => result := HandleConfigureTestLaunch(m);
      case LaunchTest => result := HandleLaunchTest(m);
      case FinalizeTest => result := HandleFinalizeTest(m);
      case ConfigureCutoverLaunch => result := HandleConfigureCutoverLaunch(m);
      case StartCutover => result := HandleStartCutover(m);
      case LaunchCutover => result := HandleLaunchCutover(m);
      case FinalizeCutover => result := HandleFinalizeCutover(m);
      case DisconnectSource => result := HandleDisconnectSource(m);
      case ArchiveSource => result := HandleArchiveSource(m);
      case DeleteReplication => result := HandleDeleteReplication(m);
    }

    /** The lifecycle state AWS reports; an error when it does not know the server. */
    method LifecycleState() returns (r: Result<string, Services.Failure>)
      requires conn.Wired()
      modifies conn.client.outside
      ensures conn.client.outside.clock == old(conn.client.outside.clock) + 1
      ensures var a := conn.Tape()(old(conn.client.outside.clock)).answer;
              r == if a.Servers? && a.servers != [] then Ok(a.servers[0].lifecycle) else Err(Exception)
    {
      var servers := conn.aws.DescribeSourceServers();
      if servers.Err? { return Err(servers.error); }
      if servers.value == [] { return Err(Exception); }
      r := Ok(servers.value[0].lifecycle);
    }

    method HandleAddServer(m: Msg) returns (result: MgnResult)
      requires conn.Wired() && m.job.AddServer?
      modifies conn.client.sm, conn.client.outside, conn.channel`published, conn.aws
      ensures var was, now, tape, n := old(conn.Now()), conn.Now(), conn.Tape(), old(conn.Now()).clock;
              var a, l := tape(n).answer, DbLuck(conn.client.config, tape(n + 1).luck);
              if a.Servers? && a.servers != [] && a.servers[0].lifecycle != "DISCONNECTED" then
                var known := m.server in was.db.rows;
                && now.calls == was.calls && now.published == was.published
                && now.db == (if l.Before? || !known then was.db
                              else was.db.(rows := was.db.rows[m.server := was.db.rows[m.server].(aws := m.aws)]))
                && result == if l.Fine? && known then Success(Some(AgentInstalled)) else Failure
              else now == was.(clock := n + 1) && result == Failure
      ensures conn.Leads(old(conn.Now()), Consumer(m, Start), AfterGuard(m), Conclusion(m, result))
    {
      hide Fly;
      ghost var c, tape := conn.client.config, conn.Tape();
      AskStep(c, conn.Now(), m, tape);
      var servers := conn.aws.DescribeSourceServers();
      if servers.Err? || servers.value == [] { return Failure; }
      if servers.value[0].lifecycle == "DISCONNECTED" { return Failure; }
      SaveStep(c, conn.Now(), m, Handlers.Step(m, AgentInstalled, ACK), tape);
      var saved := conn.client.SetAwsSourceServerId(m.server, m.aws);
      if saved.Err? { return Failure; }
      result := Success(Some(AgentInstalled));
    }

    method HandleConfigureReplication(m: Msg) returns (result: MgnResult)
      requires conn.Wired() && m.job.ConfigureReplication?
      modifies conn.client.sm, conn.client.outside, conn.channel`published, conn.aws
      ensures var was, now, tape, n := old(conn.Now()), conn.Now(), conn.Tape(), old(conn.Now()).clock;
              var called := tape(n);
              var record := CallRecord(m.server, UpdateReplicationConfiguration, false, called.luck, |was.db.history|);
              var moved := Advance(was.db, m.server, ReplicationConfigured, "system", ByJob(ConfigureReplication));
              var (db, ok) := Settled(was.db, moved, DbLuck(conn.client.config, tape(n + 1).luck));
              && now.calls == was.calls + [record]
              && now.published == was.published
              && now.db == (if called.luck.Fine? then db else was.db)
              && result == if called.luck.Fine? && ok then Success(Some(AwaitingReplicationApproval)) else Failure
      ensures conn.Leads(old(conn.Now()), Consumer(m, Start), AfterGuard(m), Conclusion(m, result))
    {
      hide Fly;
      ghost var c, tape := conn.client.config, conn.Tape();
      ActStep(c, conn.Now(), m, UpdateReplicationConfiguration, tape);
      var called := conn.aws.Invoke(m.server, UpdateReplicationConfiguration, false, |conn.client.sm.history|);
      if called.Err? { return Failure; }
      MoveStep(c, conn.Now(), m, ReplicationConfigured, Handlers.Step(m, AwaitingReplicationApproval, ACK), tape);
      var advanced := conn.client.AdvanceState(m.server, ReplicationConfigured, ByJob(m.job));
      if advanced.Err? { return Failure; }
      result := Success(Some(AwaitingReplicationApproval));
    }

    method HandleStartReplication(m: Msg) returns (result: MgnResult)
      requires conn.Wired() && m.job.StartReplication?
      modifies conn.client.sm, conn.client.outside, conn.channel`published, conn.aws
      ensures var was, now, tape, n := old(conn.Now()), conn.Now(), conn.Tape(), old(conn.Now()).clock;
              var called, sent := tape(n), tape(n + 1).luck;
              var record := CallRecord(m.server, StartReplicationCall, false, called.luck, |was.db.history|);
              var next := Msg(PollReplication, m.server, m.aws, None, None, 1);
              && now.calls == was.calls + [record]
              && now.db == was.db
              && now.published == was.published + (if called.luck.Fine? && !sent.Before? then [next] else [])
              && result == if called.luck.Fine? && sent.Fine? then Success(None) else Failure
      ensures conn.Leads(old(conn.Now()), Consumer(m, Start), AfterGuard(m), Conclusion(m, result))
    {
      hide Fly;
      ghost var c, tape := conn.client.config, conn.Tape();
      ActStep(c, conn.Now(), m, StartReplicationCall, tape);
      var called := conn.aws.Invoke(m.server, StartReplicationCall, false, |conn.client.sm.history|);
      if called.Err? { return Failure; }
      var next := Fresh(PollReplication, m.server, m.aws);
      PublishStep(c, conn.Now(), m, next, tape);
      var sent := conn.channel.Publish(next);
      if sent.Err? { return Failure; }
      result := Success(None);
    }

    method HandleConfigureTestLaunch(m: Msg) returns (result: MgnResult)
      requires conn.Wired() && m.job.ConfigureTestLaunch?
      modifies conn.client.sm, conn.client.outside, conn.channel`published, conn.aws
      ensures var was, now, tape, n := old(conn.Now()), conn.Now(), conn.Tape(), old(conn.Now()).clock;
              var called := tape(n);
              var record := CallRecord(m.server, UpdateTestLaunchConfiguration, false, called.luck, |was.db.history|);
              var moved := Advance(was.db, m.server, TestTemplateConfigured, "system", ByJob(ConfigureTestLaunch));
              var (db, ok) := Settled(was.db, moved, DbLuck(conn.client.config, tape(n + 1).luck));
              && now.calls == was.calls + [record]
              && now.published == was.published
              && now.db == (if called.luck.Fine? then db else was.db)
              && result == if called.luck.Fine? && ok then Success(Some(AwaitingTestLaunchApproval)) else Failure
      ensures conn.Leads(old(conn.Now()), Consumer(m, Start), AfterGuard(m), Conclusion(m, result))
    {
      hide Fly;
      ghost var c, tape := conn.client.config, conn.Tape();
      ActStep(c, conn.Now(), m, UpdateTestLaunchConfiguration, tape);
      var called := conn.aws.Invoke(m.server, UpdateTestLaunchConfiguration, false, |conn.client.sm.history|);
      if called.Err? { return Failure; }
      MoveStep(c, conn.Now(), m, TestTemplateConfigured, Handlers.Step(m, AwaitingTestLaunchApproval, ACK), tape);
      var advanced := conn.client.AdvanceState(m.server, TestTemplateConfigured, ByJob(m.job));
      if advanced.Err? { return Failure; }
      result := Success(Some(AwaitingTestLaunchApproval));
    }

    method HandleLaunchTest(m: Msg) returns (result: MgnResult)
      requires conn.Wired() && m.job.LaunchTest?
      modifies conn.client.sm, conn.client.outside, conn.channel`published, conn.aws
      ensures var was, now, tape, n := old(conn.Now()), conn.Now(), conn.Tape(), old(conn.Now()).clock;
              var a, called, sent := tape(n).answer, tape(n + 1), tape(n + 2).luck;
              if a.Servers? && a.servers != [] && a.servers[0].lifecycle == "READY_FOR_TEST" then
                var mgnJob := if called.answer.Started? then called.answer.mgnJob else None;
                var record := CallRecord(m.server, StartTestCall, false, called.luck, |was.db.history|);
                var next := Msg(PollTestInstance, m.server, m.aws, mgnJob, None, 1);
                && now.calls == was.calls + [record]
                && now.db == was.db
                && now.published == was.published + (if called.luck.Fine? && !sent.Before? then [next] else [])
                && result == if called.luck.Fine? && sent.Fine? then Success(None) else Failure
              else now == was.(clock := n + 1) && result == Failure
      ensures conn.Leads(old(conn.Now()), Consumer(m, Start), AfterGuard(m), Conclusion(m, result))
    {
      hide Fly;
      ghost var c, tape := conn.client.config, conn.Tape();
      AskStep(c, conn.Now(), m, tape);
      var lifecycle := LifecycleState();
      if lifecycle.Err? || lifecycle.value != "READY_FOR_TEST" { return Failure; }
      ActStep(c, conn.Now(), m, StartTestCall, tape);
      var called := conn.aws.Invoke(m.server, StartTestCall, false, |conn.client.sm.history|);
      if called.Err? { return Failure; }
      var next := Fresh(PollTestInstance, m.server, m.aws).(mgnJob := called.value);
      PublishStep(c, conn.Now(), m, next, tape);
      var sent := conn.channel.Publish(next);
      if sent.Err? { return Failure; }
      result := Success(None);
    }

    method HandleFinalizeTest(m: Msg) returns (result: MgnResult)
      requires conn.Wired() && m.job.FinalizeTest?
      modifies conn.client.sm, conn.client.outside, conn.channel`published, conn.aws
      ensures var was, now, tape, n := old(conn.Now()), conn.Now(), conn.Tape(), old(conn.Now()).clock;
              var called := tape(n);
              var record := CallRecord(m.server, TerminateTargetInstances, false, called.luck, |was.db.history|);
              && now == was.(clock := n + 1, calls := was.calls + [record])
              && result == if called.luck.Fine? then Success(Some(CutoverTemplateConfigured)) else Failure
      ensures conn.Leads(old(conn.Now()), Consumer(m, Start), AfterGuard(m), Conclusion(m, result))
    {
      hide Fly;
      ghost var c, tape := conn.client.config, conn.Tape();
      ActStep(c, conn.Now(), m, TerminateTargetInstances, tape);
      var called := conn.aws.Invoke(m.server, TerminateTargetInstances, false, |conn.client.sm.history|);
      if called.Err? { return Failure; }
      result := Success(Some(CutoverTemplateConfigured));
    }

    method HandleConfigureCutoverLaunch(m: Msg) returns (result: MgnResult)
      requires conn.Wired() && m.job.ConfigureCutoverLaunch?
      modifies conn.client.sm, conn.client.outside, conn.channel`published, conn.aws
      ensures var was, now, tape, n := old(conn.Now()), conn.Now(), conn.Tape(), old(conn.Now()).clock;
              var called := tape(n);
              var record := CallRecord(m.server, UpdateCutoverLaunchConfiguration, false, called.luck,
                                       |was.db.history|);
              && now == was.(clock := n + 1, calls := was.calls + [record])
              && result == if called.luck.Fine? then Success(Some(AwaitingCutoverLaunchApproval)) else Failure
      ensures conn.Leads(old(conn.Now()), Consumer(m, Start), AfterGuard(m), Conclusion(m, result))
    {
      hide Fly;
      ghost var c, tape := conn.client.config, conn.Tape();
      ActStep(c, conn.Now(), m, UpdateCutoverLaunchConfiguration, tape);
      var called := conn.aws.Invoke(m.server, UpdateCutoverLaunchConfiguration, false, |conn.client.sm.history|);
      if called.Err? { return Failure; }
      result := Success(Some(AwaitingCutoverLaunchApproval));
    }

    method HandleStartCutover(m: Msg) returns (result: MgnResult)
      requires conn.Wired() && m.job.StartCutover?
      modifies conn.client.sm, conn.client.outside, conn.channel`published, conn.aws
      ensures var was, now, tape, n := old(conn.Now()), conn.Now(), conn.Tape(), old(conn.Now()).clock;
              var a, called, sent := tape(n).answer, tape(n + 1), tape(n + 3).luck;
              if a.Servers? && a.servers != [] && a.servers[0].lifecycle == "READY_FOR_CUTOVER" then
                var mgnJob := if called.answer.Started? then called.answer.mgnJob else None;
                var record := CallRecord(m.server, StartCutoverCall, false, called.luck, |was.db.history|);
                var next := Msg(PollCutoverSync, m.server, m.aws, mgnJob, None, 1);
                var moved := Advance(was.db, m.server, CutoverSyncInProgress, "system", ByJob(StartCutover));
                var (db, ok) := Settled(was.db, moved, DbLuck(conn.client.config, tape(n + 2).luck));
                && now.calls == was.calls + [record]
                && now.db == (if called.luck.Fine? then db else was.db)
                && now.published == was.published + (if called.luck.Fine? && ok && !sent.Before? then [next] else [])
                && result == if called.luck.Fine? && ok && sent.Fine? then Success(None) else Failure
              else now == was.(clock := n + 1) && result == Failure
      ensures conn.Leads(old(conn.Now()), Consumer(m, Start), AfterGuard(m), Conclusion(m, result))
    {
      hide Fly, Settled, Outcome, Advance;
      ghost var c, tape := conn.client.config, conn.Tape();
      AskStep(c, conn.Now(), m, tape);
      var lifecycle := LifecycleState();
      if lifecycle.Err? || lifecycle.value != "READY_FOR_CUTOVER" { return Failure; }
      ActStep(c, conn.Now(), m, StartCutoverCall, tape);
      var called := conn.aws.Invoke(m.server, StartCutoverCall, false, |conn.client.sm.history|);
      if called.Err? { return Failure; }
      var next := Fresh(PollCutoverSync, m.server, m.aws).(mgnJob := called.value);
      MoveStep(c, conn.Now(), m, CutoverSyncInProgress, Publish(next, ACK), tape);
      SettledOk(conn.Now().db, Advance(conn.Now().db, m.server, CutoverSyncInProgress, "system", ByJob(StartCutover)),
                DbLuck(c, tape(conn.Now().clock).luck));
      var advanced := conn.client.AdvanceState(m.server, CutoverSyncInProgress, ByJob(m.job));
      if advanced.Err? { return Failure; }
      PublishStep(c, conn.Now(), m, next, tape);
      var sent := conn.channel.Publish(next);
      if sent.Err? { return Failure; }
      result := Success(None);
    }

    method HandleLaunchCutover(m: Msg) returns (result: MgnResult)
      requires conn.Wired() && m.job.LaunchCutover?
      modifies conn.client.sm, conn.client.outside, conn.channel`published, conn.aws
      ensures var was, now, tape, n := old(conn.Now()), conn.Now(), conn.Tape(), old(conn.Now()).clock;
              var a, sent := tape(n).answer, tape(n + 2).luck;
              if a.Servers? && a.servers != [] then
                var next := Msg(PollCutoverInstance, m.server, m.aws, None, None, 1);
                var moved := Advance(was.db, m.server, CutoverInstanceLaunching, "system", ByJob(LaunchCutover));
                var (db, ok) := Settled(was.db, moved, DbLuck(conn.client.config, tape(n + 1).luck));
                && now.calls == was.calls && now.db == db
                && now.published == was.published + (if ok && !sent.Before? then [next] else [])
                && result == if ok && sent.Fine? then Success(None) else Failure
              else now == was.(clock := n + 1) && result == Failure
      ensures conn.Leads(old(conn.Now()), Consumer(m, Start), AfterGuard(m), Conclusion(m, result))
    {
      hide Fly;
      ghost var c, tape := conn.client.config, conn.Tape();
      AskStep(c, conn.Now(), m, tape);
      var servers := conn.aws.DescribeSourceServers();
      if servers.Err? || servers.value == [] { return Failure; }
      var next := Fresh(PollCutoverInstance, m.server, m.aws);
      MoveStep(c, conn.Now(), m, CutoverInstanceLaunching, Publish(next, ACK), tape);
      var advanced := conn.client.AdvanceState(m.server, CutoverInstanceLaunching, ByJob(m.job));
      if advanced.Err? { return Failure; }
      PublishStep(c, conn.Now(), m, next, tape);
      var sent := conn.channel.Publish(next);
      if sent.Err? { return Failure; }
      result := Success(None);
    }

    method HandleFinalizeCutover(m: Msg) returns (result: MgnResult)
      requires conn.Wired() && m.job.FinalizeCutover?
      modifies conn.client.sm, conn.client.outside, conn.channel`published, conn.aws
      ensures var was, now, tape, n := old(conn.Now()), conn.Now(), conn.Tape(), old(conn.Now()).clock;
              var called, sent := tape(n), tape(n + 2).luck;
              var record := CallRecord(m.server, FinalizeCutoverCall, false, called.luck, |was.db.history|);
              var next := Msg(DisconnectSource, m.server, m.aws, None, None, 1);
              var moved := Advance(was.db, m.server, Disconnecting, "system", ByJob(FinalizeCutover));
              var (db, ok) := Settled(was.db, moved, DbLuck(conn.client.config, tape(n + 1).luck));
              && now.calls == was.calls + [record]
              && now.db == (if called.luck.Fine? then db else was.db)
              && now.published == was.published + (if called.luck.Fine? && ok && !sent.Before? then [next] else [])
              && result == if called.luck.Fine? && ok && sent.Fine? then Success(None) else Failure
      ensures conn.Leads(old(conn.Now()), Consumer(m, Start), AfterGuard(m), Conclusion(m, result))
    {
      hide Fly;
      ghost var c, tape := conn.client.config, conn.Tape();
      ActStep(c, conn.Now(), m, FinalizeCutoverCall, tape);
      var called := conn.aws.Invoke(m.server, FinalizeCutoverCall, false, |conn.client.sm.history|);
      if called.Err? { return Failure; }
      var next := Fresh(DisconnectSource, m.server, m.aws);
      MoveStep(c, conn.Now(), m, Disconnecting, Publish(next, ACK), tape);
      var advanced := conn.client.AdvanceState(m.server, Disconnecting, ByJob(m.job));
      if advanced.Err? { return Failure; }
      PublishStep(c, conn.Now(), m, next, tape);
      var sent := conn.channel.Publish(next);
      if sent.Err? { return Failure; }
      result := Success(None);
    }

    method HandleDisconnectSource(m: Msg) returns (result: MgnResult)
      requires conn.Wired() && m.job.DisconnectSource?
      modifies conn.client.sm, conn.client.outside, conn.channel`published, conn.aws
      ensures var was, now, tape, n := old(conn.Now()), conn.Now(), conn.Tape(), old(conn.Now()).clock;
              var called, sent := tape(n), tape(n + 1).luck;
              var record := CallRecord(m.server, DisconnectFromService, false, called.luck, |was.db.history|);
              var next := Msg(PollDisconnect, m.server, m.aws, None, None, 1);
              && now.calls == was.calls + [record]
              && now.db == was.db
              && now.published == was.published + (if called.luck.Fine? && !sent.Before? then [next] else [])
              && result == if called.luck.Fine? && sent.Fine? then Success(None) else Failure
      ensures conn.Leads(old(conn.Now()), Consumer(m, Start), AfterGuard(m), Conclusion(m, result))
    {
      hide Fly;
      ghost var c, tape := conn.client.config, conn.Tape();
      ActStep(c, conn.Now(), m, DisconnectFromService, tape);
      var called := conn.aws.Invoke(m.server, DisconnectFromService, false, |conn.client.sm.history|);
      if called.Err? { return Failure; }
      var next := Fresh(PollDisconnect, m.server, m.aws);
      PublishStep(c, conn.Now(), m, next, tape);
      var sent := conn.channel.Publish(next);
      if sent.Err? { return Failure; }
      result := Success(None);
    }

    method HandleArchiveSource(m: Msg) returns (result: MgnResult)
      requires conn.Wired() && m.job.ArchiveSource?
      modifies conn.client.sm, conn.client.outside, conn.channel`published, conn.aws
      ensures var was, now, tape, n := old(conn.Now()), conn.Now(), conn.Tape(), old(conn.Now()).clock;
              var called := tape(n);
              var record := CallRecord(m.server, MarkAsArchived, false, called.luck, |was.db.history|);
              && now == was.(clock := n + 1, calls := was.calls + [record])
              && result == if called.luck.Fine? then Success(Some(AwaitingCleanupApproval)) else Failure
      ensures conn.Leads(old(conn.Now()), Consumer(m, Start), AfterGuard(m), Conclusion(m, result))
    {
      hide Fly;
      ghost var c, tape := conn.client.config, conn.Tape();
      ActStep(c, conn.Now(), m, MarkAsArchived, tape);
      var called := conn.aws.Invoke(m.server, MarkAsArchived, false, |conn.client.sm.history|);
      if called.Err? { return Failure; }
      result := Success(Some(AwaitingCleanupApproval));
    }

    method HandleDeleteReplication(m: Msg) returns (result: MgnResult)
      requires conn.Wired() && m.job.DeleteReplication?
      modifies conn.client.sm, conn.client.outside, conn.channel`published, conn.aws
      ensures var was, now, tape, n := old(conn.Now()), conn.Now(), conn.Tape(), old(conn.Now()).clock;
              var called := tape(n);
              var record := CallRecord(m.server, DeleteSourceServer, false, called.luck, |was.db.history|);
              && now == was.(clock := n + 1, calls := was.calls + [record])
              && result == if called.luck.Fine? then Success(None) else Failure
      ensures conn.Leads(old(conn.Now()), Consumer(m, Start), AfterGuard(m), Conclusion(m, result))
    {
      hide Fly;
      ghost var c, tape := conn.client.config, conn.Tape();
      ActStep(c, conn.Now(), m, DeleteSourceServer, tape);
      var called := conn.aws.Invoke(m.server, DeleteSourceServer, false, |conn.client.sm.history|);
      if called.Err? { return Failure; }
      result := Success(None);
    }
  }
}
