/** The poller worker: its message loop and the handlers of its five poll types. */
module PollerWorker {
  import opened Wrappers
  import opened Pipeline
  import opened Store
  import opened Handlers
  import opened Machine
  import opened Coarse
  import opened Services

  datatype PollResult = Complete(newState: State) | Ongoing | Dispatched | Failure

  /** What the message loop still does with a handler's result. */
  function Conclusion(m: Msg, result: PollResult): Prog {
    match result
    case Complete(next) => Handlers.Step(m, next, ACK)
    case Ongoing => InProgress(m)
    case Dispatched => ACK
    case Failure => NACK
  }

  class PollerWorker {
    const conn: Connections

    constructor (conn: Connections)
      ensures this.conn == conn
    {
      this.conn := conn;
    }

    /** Handling a poll message does what the machine's consumer task does when it runs alone. A job of
        another type that strays into this queue is acknowledged unread. */
    method OnMessage(m: Msg)
      requires conn.Wired()
      modifies conn.Footprint()
      ensures !IsPoll(m.job) ==>
                conn.Now() == old(conn.Now()) && conn.channel.dead == old(conn.channel.dead)
                && conn.channel.acked == old(conn.channel.acked) + [m]
      ensures IsPoll(m.job) ==>
                var was, l := old(conn.Now()), DbLuck(conn.client.config, conn.Tape()(old(conn.Now()).clock).luck);
                var readable := l.Fine? && m.server in was.db.rows;
                !readable || was.db.rows[m.server].current != GuardState(conn.client.config, m) ==>
                  && conn.Now() == was.(clock := was.clock + 1)
                  && conn.channel.acked == old(conn.channel.acked) + (if readable then [m] else [])
                  && conn.channel.dead == old(conn.channel.dead) + (if readable then [] else [m])
      ensures IsPoll(m.job) ==>
                var (s, p) := Fly(conn.client.config, old(conn.Now()), Consumer(m, Start), conn.Tape());
                && conn.Now() == s && Resting(p)
                && conn.channel.acked == old(conn.channel.acked) + Acked(Consumer(m, p))
                && conn.channel.dead == old(conn.channel.dead) + Nacked(Consumer(m, p))
    {
      hide Fly, AfterGuard, Conclusion;
      ghost var c, tape := conn.client.config, conn.Tape();
      ReadStep(c, conn.Now(), m, tape);
      var valid := conn.client.IsPollValid(m);
      if valid.Err? { conn.Conclude(m, false); return; }
      if !valid.value { conn.Conclude(m, true); return; }
      var result := Handle(m);
      ActOnResult(m, result);
    }

    /** What the loop makes of a handler's result: a state change is acknowledged if it goes through; a poll in progress
        is published again up to the thirtieth attempt; everything else that is not a success is dead-lettered. */
    method ActOnResult(m: Msg, result: PollResult)
      requires conn.Wired()
      modifies conn.Footprint()
      ensures conn.Now().calls == old(conn.Now()).calls
      ensures result == Dispatched || result == Failure ==>
                && conn.Now() == old(conn.Now())
                && conn.channel.acked == old(conn.channel.acked) + (if result == Failure then [] else [m])
                && conn.channel.dead == old(conn.channel.dead) + (if result == Failure then [m] else [])
      ensures result == Ongoing ==>
                var was, sent := old(conn.Now()), conn.Tape()(old(conn.Now()).clock).luck;
                var again := Msg(m.job, m.server, m.aws, m.mgnJob, m.ec2, m.attempt + 1);
                && conn.Now().db == was.db
                && conn.Now().published == was.published + (if m.attempt < 30 && !sent.Before? then [again] else [])
                && conn.channel.acked == old(conn.channel.acked) + (if m.attempt < 30 && sent.Fine? then [m] else [])
                && conn.channel.dead == old(conn.channel.dead) + (if m.attempt < 30 && sent.Fine? then [] else [m])
      ensures result.Complete? ==>
                var was := old(conn.Now());
                var moved := Advance(was.db, m.server, result.newState, "system", ByJob(m.job));
                var (db, ok) := Settled(was.db, moved, DbLuck(conn.client.config, conn.Tape()(was.clock).luck));
                && conn.Now().db == db && conn.Now().published == was.published
                && conn.channel.acked == old(conn.channel.acked) + (if ok then [m] else [])
                && conn.channel.dead == old(conn.channel.dead) + (if ok then [] else [m])
      ensures var (s, p) := Fly(conn.client.config, old(conn.Now()), Consumer(m, Conclusion(m, result)), conn.Tape());
              && conn.Now() == s && Resting(p)
              && conn.channel.acked == old(conn.channel.acked) + Acked(Consumer(m, p))
              && conn.channel.dead == old(conn.channel.dead) + Nacked(Consumer(m, p))
    {
      hide Fly, Advance, Settled, Outcome, Span;
      ghost var c, tape := conn.client.config, conn.Tape();
      match result
      case Complete(next) =>
        MoveStep(c, conn.Now(), m, next, ACK, tape);
        SettledOk(conn.Now().db, Advance(conn.Now().db, m.server, next, "system", ByJob(m.job)),
                  DbLuck(c, tape(conn.Now().clock).luck));
        var advanced := conn.client.AdvanceState(m.server, next, ByJob(m.job));
        conn.Conclude(m, advanced.Ok?);
      case Ongoing =>
        if m.attempt >= MAX_POLL_ATTEMPTS { conn.Conclude(m, false); return; }
        var sent := Reenqueue(m);
        conn.Conclude(m, sent.Ok?);
      case Dispatched => conn.Conclude(m, true);
      case Failure => conn.Conclude(m, false);
    }

    /** Publishes the message again, at the back of the queue, with its attempt counter incremented. */
    method Reenqueue(m: Msg) returns (r: Result<(), Services.Failure>)
      requires conn.Wired() && m.attempt < MAX_POLL_ATTEMPTS
      modifies conn.client.outside, conn.channel`published
      ensures var sent := conn.Tape()(old(conn.Now()).clock).luck;
              var again := Msg(m.job, m.server, m.aws, m.mgnJob, m.ec2, m.attempt + 1);
              && conn.Now().published == old(conn.Now()).published + (if sent.Before? then [] else [again])
              && (r.Ok? <==> sent.Fine?)
      ensures conn.Leads(old(conn.Now()), Consumer(m, Start), InProgress(m), if r.Ok? then ACK else NACK)
    {
      hide Fly;
      var body := m;
      body := body.(attempt := body.attempt + 1);
      PublishStep(conn.client.config, conn.Now(), m, body, conn.Tape());
      r := conn.channel.Publish(body);
    }

    method Handle(m: Msg) returns (result: PollResult)
      requires conn.Wired() && IsPoll(m.job)
      modifies conn.client.sm, conn.client.outside, conn.channel`published, conn.aws
      ensures conn.Leads(old(conn.Now()), Consumer(m, Start), AfterGuard(m), Conclusion(m, result))
    {
      match m.job
      case PollReplication => result := PollReplicationStatus(m);
      case PollTestInstance =>
        ghost var id;
        result, id := PollTestInstanceStatus(m);
      case PollCutoverSync => result := PollCutoverSyncStatus(m);
      case PollCutoverInstance => result := PollCutoverInstanceStatus(m);
      case PollDisconnect => result := PollDisconnectStatus(m);
    }

    method PollReplicationStatus(m: Msg) returns (result: PollResult)
      requires conn.Wired() && m.job.PollReplication?
      modifies conn.client.sm, conn.client.outside, conn.channel`published, conn.aws
      ensures var was, now, n := old(conn.Now()), conn.Now(), old(conn.Now()).clock;
              var a := conn.Tape()(n).answer;
              && now == was.(clock := n + 1)
              && result == if !a.Servers? || a.servers == [] || a.servers[0].lifecycle == "DISCONNECTED" then Failure
                           else if a.servers[0].lifecycle == "READY_FOR_TEST" then Complete(ReadyForTesting)
                           else Ongoing
      ensures conn.Leads(old(conn.Now()), Consumer(m, Start), AfterGuard(m), Conclusion(m, result))
    {
      hide Fly;
      AskStep(conn.client.config, conn.Now(), m, conn.Tape());
      var servers := conn.aws.DescribeSourceServers();
      if servers.Err? || servers.value == [] { return Failure; }
      var lifecycle := servers.value[0].lifecycle;
      if lifecycle == "READY_FOR_TEST" { return Complete(ReadyForTesting); }
      if lifecycle == "DISCONNECTED" { return Failure; }
      result := Ongoing;
    }

    method PollTestInstanceStatus(m: Msg) returns (result: PollResult, ghost id: Option<string>)
      requires conn.Wired() && m.job.PollTestInstance?
      modifies conn.client.sm, conn.client.outside, conn.channel`published, conn.aws
      ensures m.ec2 != None && m.ec2 != Some("") ==>
                var was, a := old(conn.Now()), conn.Tape()(old(conn.Now()).clock).answer;
                && conn.Now() == was.(clock := was.clock + 1)
                && result == if !a.Statuses? then Failure
                             else if a.statuses == [] then Ongoing
                             else if a.statuses[0].state in {"terminated", "stopped"} then Failure
                             else if a.statuses[0].system == a.statuses[0].instance == "ok" then
                               Complete(AwaitingTestValidation)
                             else Ongoing
      ensures m.ec2 in {None, Some("")} && m.mgnJob in {None, Some("")} ==>
                conn.Now() == old(conn.Now()) && result == Failure
      ensures m.ec2 in {None, Some("")} && m.mgnJob !in {None, Some("")} ==>
                var was, now, n := old(conn.Now()), conn.Now(), old(conn.Now()).clock;
                var a := conn.Tape()(n).answer;
                if !a.Jobs? || a.jobs == [] || a.jobs[0].status in {"FAILED", "PARTIALLY_COMPLETED"} then
                  now == was.(clock := n + 1) && result == Failure
                else if a.jobs[0].status != "COMPLETED" then now == was.(clock := n + 1) && result == Ongoing
                else
                  var ps := a.jobs[0].participants;
                  && (|| (&& id !in {None, Some("")}
                          && exists i :: 0 <= i < |ps| && ps[i].source == m.aws && ps[i].instance == id
                                         && forall j :: 0 <= j < i ==> ps[j].source != m.aws)
                      || (&& (forall i :: 0 <= i < |ps| && ps[i].source == m.aws
                                          && (forall j :: 0 <= j < i ==> ps[j].source != m.aws) ==>
                                            ps[i].instance in {None, Some("")})
                          && id == if m.aws in {None, Some("")} || a.fallback == [] then None
                                   else if a.fallback[0].instance == Some("") then None
                                   else a.fallback[0].instance))
                  && if id == None then now == was.(clock := n + 1) && result == Failure
                     else
                       var moved := Advance(was.db, m.server, TestInstanceRunning, "system", ByJob(PollTestInstance));
                       var (db, ok) := Settled(was.db, moved, DbLuck(conn.client.config, conn.Tape()(n + 1).luck));
                       var sent, next := conn.Tape()(n + 2).luck, Msg(m.job, m.server, m.aws, None, id, 1);
                       && now.calls == was.calls && now.db == db
                       && now.published == was.published + (if ok && !sent.Before? then [next] else [])
                       && result == if ok && sent.Fine? then Dispatched else Failure
      ensures conn.Leads(old(conn.Now()), Consumer(m, Start), AfterGuard(m), Conclusion(m, result))
    {
      hide Fly;
      ghost var c, tape := conn.client.config, conn.Tape();
      id := None;
      TruthyMeans(m.ec2);
      TruthyMeans(m.mgnJob);
      TruthyMeans(m.aws);
      if SecondPhase(m) {
        result := CheckReachability(m, AwaitingTestValidation);
        return;
      }
      if !Truthy(m.mgnJob) { return Failure, id; }
      AskStep(c, conn.Now(), m, tape);
      var jobs, afterwards := conn.aws.DescribeJobs();
      if jobs.Err? || jobs.value == [] { return Failure, id; }
      var job := jobs.value[0];
      if job.status == "COMPLETED" {
        var ec2 := FindParticipant(job.participants, m.aws);
        TruthyMeans(ec2);
        if !Truthy(ec2) && Truthy(m.aws) && afterwards != [] { ec2 := afterwards[0].instance; }
        TruthyMeans(ec2);
        if !Truthy(ec2) { return Failure, id; }
        id := ec2;
        result := HandOver(m, ec2);
        return;
      }
      if job.status == "FAILED" || job.status == "PARTIALLY_COMPLETED" { return Failure, id; }
      result := Ongoing;
    }

    /** The instance of the first participant with this source server id, if there is one. */
    method FindParticipant(participants: seq<Participant>, source: Option<string>) returns (ec2: Option<string>)
      ensures || (ec2 == None && forall i :: 0 <= i < |participants| ==> participants[i].source != source)
              || (exists i :: 0 <= i < |participants|
                    && participants[i].source == source && ec2 == participants[i].instance
                    && forall j :: 0 <= j < i ==> participants[j].source != source)
      ensures ec2 == FindInstance(participants, source)
    {
      ec2 := None;
      var i := 0;
      while i < |participants|
        invariant 0 <= i <= |participants| && ec2 == None
        invariant FindInstance(participants, source) == FindInstance(participants[i..], source)
        invariant forall j :: 0 <= j < i ==> participants[j].source != source
      {
        if participants[i].source == source {
          ec2 := participants[i].instance;
          break;
        }
        assert participants[i..][1..] == participants[i + 1..];
        i := i + 1;
      }
    }

    /** The end of a first phase: the instance exists; from here on it is polled by its own id. */
    method HandOver(m: Msg, ec2: Option<string>) returns (result: PollResult)
      requires conn.Wired() && (m.job.PollTestInstance? || m.job.PollCutoverInstance?)
      modifies conn.client.sm, conn.client.outside, conn.channel`published
      ensures var was, now, n := old(conn.Now()), conn.Now(), old(conn.Now()).clock;
              var running := if m.job.PollTestInstance? then TestInstanceRunning else CutoverInstanceRunning;
              var moved := Advance(was.db, m.server, running, "system", ByJob(m.job));
              var (db, ok) := Settled(was.db, moved, DbLuck(conn.client.config, conn.Tape()(n).luck));
              var sent, next := conn.Tape()(n + 1).luck, Msg(m.job, m.server, m.aws, None, ec2, 1);
              && now.calls == was.calls && now.db == db
              && now.published == was.published + (if ok && !sent.Before? then [next] else [])
              && result == if ok && sent.Fine? then Dispatched else Failure
      ensures conn.Leads(old(conn.Now()), Consumer(m, Start), SecondPoll(m, ec2), Conclusion(m, result))
    {
      hide Fly;
      ghost var c, tape := conn.client.config, conn.Tape();
      var next := Fresh(m.job, m.server, m.aws).(ec2 := ec2);
      MoveStep(c, conn.Now(), m, RunningState(m.job), Publish(next, ACK), tape);
      var advanced := conn.client.AdvanceState(m.server, RunningState(m.job), ByJob(m.job));
      if advanced.Err? { return Failure; }
      PublishStep(c, conn.Now(), m, next, tape);
      var sent := conn.channel.Publish(next);
      if sent.Err? { return Failure; }
      result := Dispatched;
    }

    /** EC2 status checks: both must pass before the engineer is shown the validation gate. */
    method CheckReachability(m: Msg, gate: State) returns (result: PollResult)
      requires conn.Wired() && SecondPhase(m)
      requires gate == if m.job.PollTestInstance? then AwaitingTestValidation else AwaitingCutoverValidation
      modifies conn.client.outside
      ensures var was, now, n := old(conn.Now()), conn.Now(), old(conn.Now()).clock;
              var a := conn.Tape()(n).answer;
              && now == was.(clock := n + 1)
              && result == if !a.Statuses? then Failure
                           else if a.statuses == [] then Ongoing
                           else if a.statuses[0].state in {"terminated", "stopped"} then Failure
                           else if a.statuses[0].system == a.statuses[0].instance == "ok" then Complete(gate)
                           else Ongoing
      ensures conn.Leads(old(conn.Now()), Consumer(m, Start), Ask, Conclusion(m, result))
    {
      hide Fly;
      AskStep(conn.client.config, conn.Now(), m, conn.Tape());
      var statuses := conn.aws.DescribeInstanceStatus();
      if statuses.Err? { return Failure; }
      if statuses.value == [] { return Ongoing; }
      var item := statuses.value[0];
      if item.state == "terminated" || item.state == "stopped" { return Failure; }
      if item.system == "ok" && item.instance == "ok" { return Complete(gate); }
      result := Ongoing;
    }

    method PollCutoverSyncStatus(m: Msg) returns (result: PollResult)
      requires conn.Wired() && m.job.PollCutoverSync?
      modifies conn.client.sm, conn.client.outside, conn.channel`published, conn.aws
      ensures var was, now, n := old(conn.Now()), conn.Now(), old(conn.Now()).clock;
              var a := conn.Tape()(n).answer;
              if m.mgnJob == None || m.mgnJob == Some("") then now == was && result == Failure
              else
                && now == was.(clock := n + 1)
                && result == if !a.Jobs? || a.jobs == [] || a.jobs[0].status in {"FAILED", "PARTIALLY_COMPLETED"}
                             then Failure
                             else if a.jobs[0].status == "COMPLETED" then Complete(ReadyForCutoverLaunch)
                             else Ongoing
      ensures conn.Leads(old(conn.Now()), Consumer(m, Start), AfterGuard(m), Conclusion(m, result))
    {
      hide Fly;
      TruthyMeans(m.mgnJob);
      if !Truthy(m.mgnJob) { return Failure; }
      AskStep(conn.client.config, conn.Now(), m, conn.Tape());
      var jobs, _ := conn.aws.DescribeJobs();
      if jobs.Err? || jobs.value == [] { return Failure; }
      var status := jobs.value[0].status;
      if status == "COMPLETED" { return Complete(ReadyForCutoverLaunch); }
      if status == "FAILED" || status == "PARTIALLY_COMPLETED" { return Failure; }
      result := Ongoing;
    }

    method PollCutoverInstanceStatus(m: Msg) returns (result: PollResult)
      requires conn.Wired() && m.job.PollCutoverInstance?
      modifies conn.client.sm, conn.client.outside, conn.channel`published, conn.aws
      ensures m.ec2 != None && m.ec2 != Some("") ==>
                var was, a := old(conn.Now()), conn.Tape()(old(conn.Now()).clock).answer;
                && conn.Now() == was.(clock := was.clock + 1)
                && result == if !a.Statuses? then Failure
                             else if a.statuses == [] then Ongoing
                             else if a.statuses[0].state in {"terminated", "stopped"} then Failure
                             else if a.statuses[0].system == a.statuses[0].instance == "ok" then
                               Complete(AwaitingCutoverValidation)
                             else Ongoing
      ensures m.ec2 in {None, Some("")} ==>
                var was, now, n := old(conn.Now()), conn.Now(), old(conn.Now()).clock;
                var a := conn.Tape()(n).answer;
                if !a.Servers? || a.servers == [] || a.servers[0].lifecycle == "DISCONNECTED" then
                  now == was.(clock := n + 1) && result == Failure
                else if a.servers[0].lifecycle != "CUTOVER" then now == was.(clock := n + 1) && result == Ongoing
                else if a.servers[0].instance in {None, Some("")} then
                  now == was.(clock := n + 1) && result == Failure
                else
                  var moved := Advance(was.db, m.server, CutoverInstanceRunning, "system",
                                       ByJob(PollCutoverInstance));
                  var (db, ok) := Settled(was.db, moved, DbLuck(conn.client.config, conn.Tape()(n + 1).luck));
                  var sent := conn.Tape()(n + 2).luck;
                  var next := Msg(m.job, m.server, m.aws, None, a.servers[0].instance, 1);
                  && now.calls == was.calls && now.db == db
                  && now.published == was.published + (if ok && !sent.Before? then [next] else [])
                  && result == if ok && sent.Fine? then Dispatched else Failure
      ensures conn.Leads(old(conn.Now()), Consumer(m, Start), AfterGuard(m), Conclusion(m, result))
    {
      hide Fly;
      TruthyMeans(m.ec2);
      if SecondPhase(m) {
        result := CheckReachability(m, AwaitingCutoverValidation);
        return;
      }
      AskStep(conn.client.config, conn.Now(), m, conn.Tape());
      var servers := conn.aws.DescribeSourceServers();
      if servers.Err? || servers.value == [] { return Failure; }
      var server := servers.value[0];
      if server.lifecycle == "CUTOVER" {
        TruthyMeans(server.instance);
        if !Truthy(server.instance) { return Failure; }
        result := HandOver(m, server.instance);
        return;
      }
      if server.lifecycle == "DISCONNECTED" { return Failure; }
      result := Ongoing;
    }

    method PollDisconnectStatus(m: Msg) returns (result: PollResult)
      requires conn.Wired() && m.job.PollDisconnect?
      modifies conn.client.sm, conn.client.outside, conn.channel`published, conn.aws
      ensures var was, now, n := old(conn.Now()), conn.Now(), old(conn.Now()).clock;
              var a := conn.Tape()(n).answer;
              var moved := Advance(was.db, m.server, Disconnected, "system", ByJob(PollDisconnect));
              var (db, ok) := Settled(was.db, moved, DbLuck(conn.client.config, conn.Tape()(n + 1).luck));
              if !a.Servers? then now == was.(clock := n + 1) && result == Failure
              else if a.servers != [] && a.servers[0].lifecycle != "DISCONNECTED" then
                now == was.(clock := n + 1) && result == Ongoing
              else
                && now.calls == was.calls && now.published == was.published && now.db == db
                && result == if ok then Complete(AwaitingArchiveApproval) else Failure
      ensures conn.Leads(old(conn.Now()), Consumer(m, Start), AfterGuard(m), Conclusion(m, result))
    {
      hide Fly;
      ghost var c, tape := conn.client.config, conn.Tape();
      AskStep(c, conn.Now(), m, tape);
      var servers := conn.aws.DescribeSourceServers();
      if servers.Err? { return Failure; }
      if servers.value != [] && servers.value[0].lifecycle != "DISCONNECTED" { return Ongoing; }
      MoveStep(c, conn.Now(), m, Disconnected, Handlers.Step(m, AwaitingArchiveApproval, ACK), tape);
      var advanced := conn.client.AdvanceState(m.server, Disconnected, ByJob(m.job));
      if advanced.Err? { return Failure; }
      result := Complete(AwaitingArchiveApproval);
    }
  }
}
