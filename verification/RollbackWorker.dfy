/** The rollback worker: it consumes dead-lettered messages, undoes what it safely can, and marks the server
    FAILED or FROZEN. */
module RollbackWorker {
  import opened Wrappers
  import opened Pipeline
  import opened Store
  import opened Handlers
  import opened Machine
  import opened Services

  class RollbackWorker {
    const conn: Connections

    constructor (conn: Connections)
      ensures this.conn == conn
    {
      this.conn := conn;
    }

    /** Handling a failed message does what the machine's rollback task does when it runs alone, and whatever
        goes wrong the message is acknowledged. */
    method OnMessage(m: Msg)
      requires conn.Wired()
      modifies conn.Footprint()
      ensures m.server == "" ==> conn.Now() == old(conn.Now())
      ensures m.server != "" ==>
                var was, now, n := old(conn.Now()), conn.Now(), old(conn.Now()).clock;
                var readable := DbLuck(conn.client.config, conn.Tape()(n).luck).Fine? && m.server in was.db.rows;
                if !readable || was.db.rows[m.server].current in {Failed, Frozen, CleanupComplete} then
                  now == was.(clock := n + 1)
                else
                  var row := was.db.rows[m.server];
                  var undo := conn.Tape()(n + 1).luck;
                  var plan := if row.aws == None then []
                              else if 4 <= Rank(row.current) <= 7 then [StopReplication]
                              else if 8 <= Rank(row.current) <= 10 || 14 <= Rank(row.current) <= 17 then
                                [TerminateTargetInstances]
                              else [];
                  var final := if 14 <= Rank(row.current) || (plan != [] && !undo.Fine?) then Frozen else Failed;
                  var write := DbLuck(conn.client.config, conn.Tape()(n + 1 + |plan|).luck);
                  && now.published == was.published
                  && now.calls == was.calls + (if plan == [] then []
                                               else [CallRecord(m.server, plan[0], true, undo, |was.db.history|)])
                  && now.db == if write.Before? then was.db
                               else Db(was.db.rows[m.server := row.(current := final, previous := Some(row.current))],
                                       was.db.history + [Entry(m.server, row.current, final, "system",
                                                               RolledBack(m.job, row.current))],
                                       was.db.batches)
      ensures m.server != "" ==>
                Fly(conn.client.config, old(conn.Now()), Rollbacker(m, Start), conn.Tape()) == (conn.Now(), ACK)
      ensures conn.channel.acked == old(conn.channel.acked) + [m] && conn.channel.dead == old(conn.channel.dead)
    {
      hide Fly, RollbackPlan, RunPlan, Rank;
      ghost var c, tape := conn.client.config, conn.Tape();
      if m.server == "" { conn.channel.Ack(m); return; }
      RollbackReadStep(c, conn.Now(), m, tape);
      var server := conn.client.GetServer(m.server);
      if server.Err? || IsTerminal(server.value.current) {
        AtRest(c, conn.Now(), Rollbacker(m, ACK), tape);
      } else {
        RollBack(m, server.value);
      }
      conn.channel.Ack(m);
    }

    /** The rollback of a server that is not in a terminal state: undo, then the final state. */
    method RollBack(m: Msg, row: Row)
      requires conn.Wired() && m.server in conn.client.sm.servers && conn.client.sm.servers[m.server] == row
      requires !IsTerminal(row.current)
      modifies conn.client.sm, conn.client.outside, conn.aws
      ensures var was, now, n := old(conn.Now()), conn.Now(), old(conn.Now()).clock;
              var undo := conn.Tape()(n).luck;
              var plan := if row.aws == None then []
                          else if 4 <= Rank(row.current) <= 7 then [StopReplication]
                          else if 8 <= Rank(row.current) <= 10 || 14 <= Rank(row.current) <= 17 then
                            [TerminateTargetInstances]
                          else [];
              var final := if 14 <= Rank(row.current) || (plan != [] && !undo.Fine?) then Frozen else Failed;
              var write := DbLuck(conn.client.config, conn.Tape()(n + |plan|).luck);
              && now.published == was.published
              && now.calls == was.calls + (if plan == [] then []
                                           else [CallRecord(m.server, plan[0], true, undo, |was.db.history|)])
              && now.db == if write.Before? then was.db
                           else Db(was.db.rows[m.server := row.(current := final, previous := Some(row.current))],
                                   was.db.history + [Entry(m.server, row.current, final, "system",
                                                           RolledBack(m.job, row.current))],
                                   was.db.batches)
      ensures var (plan, intended) := RollbackPlan(row.current, row.aws);
              Fly(conn.client.config, old(conn.Now()), Rollbacker(m, RunPlan(plan, intended, row.current, m)),
                  conn.Tape()) == (conn.Now(), ACK)
    {
      hide Fly, RollbackPlan, RunPlan, Rank;
      var seen := row.current;
      RankBounds(seen);
      var plan, intended := GetRollbackPlan(seen, row.aws);
      ghost var was, undo := conn.Now().calls, conn.Tape()(conn.Now().clock).luck;
      ghost var record := CallRecord(m.server, StopReplication, true, undo, |conn.Now().db.history|);
      var frozen := ExecutePlan(m, plan, intended, seen);
      assert conn.Now().calls == was + (if plan == [] then [] else [record.(call := plan[0])]);
      var final := if frozen then Frozen else intended;
      Finalise(m, final, seen);
    }

    /** The undo steps for a server seen in state `seen`, and the state it is then meant to end in. */
    method GetRollbackPlan(seen: State, aws: Option<string>) returns (plan: seq<AwsCall>, intended: State)
      requires !IsTerminal(seen)
      ensures plan == if aws == None then []
                      else if 4 <= Rank(seen) <= 7 then [StopReplication]
                      else if 8 <= Rank(seen) <= 10 || 14 <= Rank(seen) <= 17 then [TerminateTargetInstances]
                      else []
      ensures intended == if 14 <= Rank(seen) then Frozen else Failed
      ensures (plan, intended) == RollbackPlan(seen, aws)
    {
      plan, intended := [], Failed;
      if seen in {ReplicationStarted, ReadyForTesting, TestTemplateConfigured, AwaitingTestLaunchApproval} {
        if aws != None { plan := [StopReplication]; }
      } else if seen in {TestInstanceLaunching, TestInstanceRunning, AwaitingTestValidation} {
        if aws != None { plan := [TerminateTargetInstances]; }
      } else if seen in {CutoverStarted, CutoverSyncInProgress, ReadyForCutoverLaunch, CutoverInstanceLaunching} {
        intended := Frozen;
        if aws != None { plan := [TerminateTargetInstances]; }
      } else if seen in {CutoverInstanceRunning, AwaitingCutoverValidation, CutoverFinalized, Disconnecting,
                         Disconnected, AwaitingArchiveApproval, Archived, AwaitingCleanupApproval} {
        intended := Frozen;
      }
    }

    /** The last write of a rollback; that it may raise changes nothing for the caller. */
    method Finalise(m: Msg, final: State, seen: State)
      requires conn.Wired() && m.server in conn.client.sm.servers
      requires conn.client.sm.servers[m.server].current == seen && Rank(seen) < 26 && IsError(final)
      modifies conn.client.sm, conn.client.outside
      ensures var was, l := old(conn.Now()), DbLuck(conn.client.config, conn.Tape()(old(conn.Now()).clock).luck);
              var row := was.db.rows[m.server];
              conn.Now().db == if l.Before? then was.db
                               else Db(was.db.rows[m.server := row.(current := final, previous := Some(row.current))],
                                       was.db.history + [Entry(m.server, row.current, final, "system",
                                                               RolledBack(m.job, seen))],
                                       was.db.batches)
      ensures Fly(conn.client.config, old(conn.Now()), Rollbacker(m, RunPlan([], final, seen, m)), conn.Tape())
              == (conn.Now(), ACK)
    {
      hide Fly;
      FinalStep(conn.client.config, conn.Now(), m, final, seen, conn.Tape());
      TableIsPipeline(seen, final);
      var finalised := conn.client.AdvanceState(m.server, final, RolledBack(m.job, seen));
    }

    /** Runs the undo steps in order and stops at the first that fails; then the server must be frozen. */
    method ExecutePlan(m: Msg, plan: seq<AwsCall>, intended: State, seen: State) returns (frozen: bool)
      requires conn.Wired()
      modifies conn.client.outside, conn.aws
      ensures conn.Now().db == old(conn.Now()).db && conn.Now().published == old(conn.Now()).published
      ensures var was, calls, made := old(conn.Now()), conn.Now().calls, conn.Now().clock - old(conn.Now()).clock;
              && 0 <= made <= |plan| && |calls| == |was.calls| + made && calls[..|was.calls|] == was.calls
              && (forall k :: |was.calls| <= k < |calls| ==>
                    calls[k] == CallRecord(m.server, plan[k - |was.calls|], true,
                                           conn.Tape()(was.clock + k - |was.calls|).luck, |was.db.history|))
              && (forall k :: |was.calls| <= k < |calls| - 1 ==> calls[k].luck.Fine?)
              && (frozen <==> made > 0 && !calls[|calls| - 1].luck.Fine?)
              && (!frozen ==> made == |plan|)
      ensures conn.Leads(old(conn.Now()), Rollbacker(m, Start), RunPlan(plan, intended, seen, m),
                         RunPlan([], if frozen then Frozen else intended, seen, m))
    {
      hide Fly;
      ghost var was, n := conn.Now().calls, conn.Now().clock;
      frozen := false;
      var i := 0;
      while i < |plan|
        invariant 0 <= i <= |plan|
        invariant conn.Now().clock == n + i && |conn.Now().calls| == |was| + i && conn.Now().calls[..|was|] == was
        invariant forall k :: |was| <= k < |conn.Now().calls| ==>
                    && conn.Now().calls[k].luck.Fine?
                    && conn.Now().calls[k] == CallRecord(m.server, plan[k - |was|], true,
                                                         conn.Tape()(n + k - |was|).luck, |conn.client.sm.history|)
        invariant conn.Leads(old(conn.Now()), Rollbacker(m, Start), RunPlan(plan, intended, seen, m),
                             RunPlan(plan[i..], intended, seen, m))
      {
        UndoStep(conn.client.config, conn.Now(), m, plan[i..], intended, seen, conn.Tape());
        assert plan[i..][1..] == plan[i + 1..];
        var done := conn.aws.Invoke(m.server, plan[i], true, |conn.client.sm.history|);
        if done.Err? { return true; }
        i := i + 1;
      }
    }
  }
}
