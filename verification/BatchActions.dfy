/** Actions on a whole batch: one loop over its servers, which skips those not ready for the action and carries
    on past those that fail. */
module BatchActions {
  import opened Wrappers
  import opened Pipeline
  import opened Store
  import opened Handlers
  import opened Machine
  import opened Coarse
  import opened Services
  import Single = ServersApi

  // ---- the single-server request, as often as there are servers ----

  /** The requests that have a batch form. */
  predicate HasBatchForm(r: Request) {
    r.Approve? || r.Reject? || (r.Configure? && !r.setup.CutoverInstanceSetup?)
  }

  /** The state a server must be in for the request. */
  function Wanted(r: Request): State
    requires HasBatchForm(r)
  {
    match r
    case Approve(g, _) => GateState(g)
    case Reject(g, _) => GateState(g)
    case Configure(setup) => ExpectedState(SetupJob(setup))
  }

  /** A turn in which the row is read without trouble, followed by the turns of the tape from n on. */
  function Shifted(tape: Tape, n: nat): Tape {
    (k: nat) => if k == 0 then Turn(Fine, Raised) else tape(n + k - 1)
  }

  /** The world after the single-server endpoint has served the request for one server, whatever came of it. */
  function One(c: Config, s: Snap, id: string, r: Request, tape: Tape): Snap {
    var end := Fly(c, s.(clock := 0), Api(id, r, Start), Shifted(tape, s.clock)).0;
    end.(clock := if end.clock == 0 then s.clock else s.clock + end.clock - 1)
  }

  function Each(c: Config, s: Snap, ids: seq<string>, r: Request, tape: Tape): Snap {
    if ids == [] then s else One(c, Each(c, s, ids[..|ids| - 1], r, tape), ids[|ids| - 1], r, tape)
  }

  datatype Verdict = Succeeded | Skipped | Unsuccessful

  predicate Ready(s: Snap, id: string, r: Request)
    requires HasBatchForm(r)
  {
    id in s.db.rows && s.db.rows[id].current == Wanted(r)
  }

  /** Whether the decision and the publication, as far as the request has them, go through. */
  predicate GoesWell(c: Config, n: nat, r: Request, tape: Tape) {
    match r
    case Approve(_, _) => DbLuck(c, tape(n).luck).Fine? && tape(n + 1).luck.Fine?
    case Reject(_, _) => DbLuck(c, tape(n).luck).Fine?
    case _ => tape(n).luck.Fine?
  }

  function Judge(c: Config, s: Snap, id: string, r: Request, tape: Tape): Verdict
    requires HasBatchForm(r)
  {
    if !Ready(s, id, r) then Skipped else if GoesWell(c, s.clock, r, tape) then Succeeded else Unsuccessful
  }

  function Verdicts(c: Config, s: Snap, ids: seq<string>, r: Request, tape: Tape): (v: seq<Verdict>)
    requires HasBatchForm(r)
    ensures |v| == |ids|
  {
    if ids == [] then []
    else
      var init := ids[..|ids| - 1];
      Verdicts(c, s, init, r, tape) + [Judge(c, Each(c, s, init, r, tape), ids[|ids| - 1], r, tape)]
  }

  /** The ids with the given verdict, in order. */
  function Pick(ids: seq<string>, verdicts: seq<Verdict>, v: Verdict): seq<string>
    requires |ids| == |verdicts|
  {
    if ids == [] then []
    else
      var n := |ids| - 1;
      Pick(ids[..n], verdicts[..n], v) + if verdicts[n] == v then [ids[n]] else []
  }

  predicate Distinct(ids: seq<string>) { forall i, j :: 0 <= i < j < |ids| ==> ids[i] != ids[j] }

  // ---- what serving one server amounts to ----

  function Unless(b: bool, m: Msg): seq<Msg> { if b then [] else [m] }

  lemma OneSkips(c: Config, s: Snap, id: string, r: Request, tape: Tape)
    requires HasBatchForm(r) && !Ready(s, id, r)
    ensures One(c, s, id, r, tape) == s
  {
    hide Fly;
    var s0, tape0 := s.(clock := 0), Shifted(tape, s.clock);
    Single.RequireStep(c, s0, id, r, tape0);
    Single.Done(c, s0.(clock := 1), id, r, tape0);
  }

  lemma OneConfigures(c: Config, s: Snap, id: string, r: Request, tape: Tape)
    requires HasBatchForm(r) && r.Configure? && Ready(s, id, r)
    ensures One(c, s, id, r, tape) ==
            var job := Fresh(SetupJob(r.setup), id, s.db.rows[id].aws);
            s.(published := s.published + Unless(tape(s.clock).luck.Before?, job), clock := s.clock + 1)
  {
    hide Fly;
    var s0, tape0 := s.(clock := 0), Shifted(tape, s.clock);
    Single.RequireStep(c, s0, id, r, tape0);
    Single.DispatchStep(c, s0.(clock := 1), id, r, Fresh(SetupJob(r.setup), id, s.db.rows[id].aws), tape0);
  }

  function DecidedRow(id: string, r: Request): Entry
    requires r.Approve? || r.Reject?
  {
    if r.Approve? then Entry(id, GateState(r.gate), ApprovedState(r.gate), r.engineer, Approved(r.gate))
    else Entry(id, GateState(r.gate), Failed, r.engineer, Rejected(r.gate))
  }

  lemma DecisionAllowed(s: Snap, id: string, r: Request)
    requires (r.Approve? || r.Reject?) && Ready(s, id, r)
    ensures Advance(s.db, id, DecidedRow(id, r).to, r.engineer, DecidedRow(id, r).why) ==
            Ok(Write(s.db, DecidedRow(id, r)))
  {
    GateEdges(r.gate);
    TableIsPipeline(GateState(r.gate), Failed);
  }

  /** A decision whose transaction is lost changes at most its own row and history, and queues nothing. */
  lemma OneUndecided(c: Config, s: Snap, id: string, r: Request, tape: Tape)
    requires (r.Approve? || r.Reject?) && Ready(s, id, r) && !DbLuck(c, tape(s.clock).luck).Fine?
    ensures One(c, s, id, r, tape) ==
            s.(db := if DbLuck(c, tape(s.clock).luck).Before? then s.db else Write(s.db, DecidedRow(id, r)),
               clock := s.clock + 1)
  {
    hide Fly;
    var s0, tape0 := s.(clock := 0), Shifted(tape, s.clock);
    var e := DecidedRow(id, r);
    Single.RequireStep(c, s0, id, r, tape0);
    DecisionAllowed(s, id, r);
    var next := if r.Approve? then Publish(Fresh(GateJob(r.gate), id, s.db.rows[id].aws), Finished) else Finished;
    Single.DecideStep(c, s0.(clock := 1), id, r, e.to, e.why, next, tape0);
    Single.Done(c, One(c, s, id, r, tape).(clock := 2), id, r, tape0);
    Single.Done(c, s0.(clock := 2), id, r, tape0);
    Single.Done(c, s0.(db := Write(s.db, e), clock := 2), id, r, tape0);
  }

  lemma OneRejects(c: Config, s: Snap, id: string, r: Request, tape: Tape)
    requires r.Reject? && Ready(s, id, r) && DbLuck(c, tape(s.clock).luck).Fine?
    ensures One(c, s, id, r, tape) == s.(db := Write(s.db, DecidedRow(id, r)), clock := s.clock + 1)
  {
    hide Fly;
    var s0, tape0 := s.(clock := 0), Shifted(tape, s.clock);
    var e := DecidedRow(id, r);
    Single.RequireStep(c, s0, id, r, tape0);
    DecisionAllowed(s, id, r);
    Single.DecideStep(c, s0.(clock := 1), id, r, e.to, e.why, Finished, tape0);
    Single.Done(c, s0.(db := Write(s.db, e), clock := 2), id, r, tape0);
  }

  lemma OneApproves(c: Config, s: Snap, id: string, r: Request, tape: Tape)
    requires r.Approve? && Ready(s, id, r) && DbLuck(c, tape(s.clock).luck).Fine?
    ensures One(c, s, id, r, tape) ==
            var job := Fresh(GateJob(r.gate), id, s.db.rows[id].aws);
            s.(db := Write(s.db, DecidedRow(id, r)),
               published := s.published + Unless(tape(s.clock + 1).luck.Before?, job),
               clock := s.clock + 2)
  {
    hide Fly;
    var s0, tape0 := s.(clock := 0), Shifted(tape, s.clock);
    var e := DecidedRow(id, r);
    var job := Fresh(GateJob(r.gate), id, s.db.rows[id].aws);
    Single.RequireStep(c, s0, id, r, tape0);
    DecisionAllowed(s, id, r);
    Single.DecideStep(c, s0.(clock := 1), id, r, e.to, e.why, Publish(job, Finished), tape0);
    Single.DispatchStep(c, s0.(db := Write(s.db, e), clock := 2), id, r, job, tape0);
  }

  /** Serving one server leaves every other row alone. */
  lemma OneKeepsOthers(c: Config, s: Snap, id: string, r: Request, tape: Tape, x: string)
    requires HasBatchForm(r) && x != id && x in s.db.rows
    ensures x in One(c, s, id, r, tape).db.rows && One(c, s, id, r, tape).db.rows[x] == s.db.rows[x]
  {
    hide Fly, One;
    if !Ready(s, id, r) { OneSkips(c, s, id, r, tape); }
    else if r.Configure? { OneConfigures(c, s, id, r, tape); }
    else if !DbLuck(c, tape(s.clock).luck).Fine? { OneUndecided(c, s, id, r, tape); }
    else if r.Reject? { OneRejects(c, s, id, r, tape); }
    else { OneApproves(c, s, id, r, tape); }
  }

  // ---- the loop ----

  datatype BatchReply = BatchReply(succeeded: seq<string>, skipped: seq<string>, failed: seq<string>)

  function ByVerdict(ids: seq<string>, verdicts: seq<Verdict>): BatchReply
    requires |ids| == |verdicts|
  {
    BatchReply(Pick(ids, verdicts, Succeeded), Pick(ids, verdicts, Skipped), Pick(ids, verdicts, Unsuccessful))
  }

  datatype BatchError = NoSuchBatch | ReadFailed

  function Ids(items: seq<(string, Row)>): seq<string> { seq(|items|, i requires 0 <= i < |items| => items[i].0) }

  /** The servers not served yet are as they were when the batch was listed. */
  ghost predicate Untouched(db: Db, items: seq<(string, Row)>, from: nat) {
    forall j :: from <= j < |items| ==> items[j].0 in db.rows && db.rows[items[j].0] == items[j].1
  }

  lemma StillUntouched(c: Config, s: Snap, items: seq<(string, Row)>, i: nat, r: Request, tape: Tape)
    requires HasBatchForm(r) && i < |items| && Untouched(s.db, items, i)
    requires forall j, k :: 0 <= j < k < |items| ==> items[j].0 != items[k].0
    ensures Untouched(One(c, s, items[i].0, r, tape).db, items, i + 1)
  {
    hide Fly, One;
    forall j | i + 1 <= j < |items|
      ensures var db := One(c, s, items[i].0, r, tape).db; items[j].0 in db.rows && db.rows[items[j].0] == items[j].1
    {
      OneKeepsOthers(c, s, items[i].0, r, tape, items[j].0);
    }
  }

  lemma OneMore(c: Config, s: Snap, ids: seq<string>, i: nat, r: Request, tape: Tape)
    requires HasBatchForm(r) && i < |ids|
    ensures ids[..i + 1][..i] == ids[..i]
    ensures Each(c, s, ids[..i + 1], r, tape) == One(c, Each(c, s, ids[..i], r, tape), ids[i], r, tape)
    ensures var v := Judge(c, Each(c, s, ids[..i], r, tape), ids[i], r, tape);
            && Verdicts(c, s, ids[..i + 1], r, tape) == Verdicts(c, s, ids[..i], r, tape) + [v]
            && forall w :: Pick(ids[..i + 1], Verdicts(c, s, ids[..i + 1], r, tape), w) ==
                           Pick(ids[..i], Verdicts(c, s, ids[..i], r, tape), w) + if v == w then [ids[i]] else []
  {
    hide Fly, One, Judge;
    assert ids[..i + 1][..i] == ids[..i];
    var before := Verdicts(c, s, ids[..i], r, tape);
    assert Verdicts(c, s, ids[..i + 1], r, tape)[..i] == before;
  }

  lemma NoneServed(c: Config, s: Snap, ids: seq<string>, r: Request, tape: Tape)
    requires HasBatchForm(r)
    ensures Each(c, s, ids[..0], r, tape) == s && Verdicts(c, s, ids[..0], r, tape) == []
    ensures forall w :: Pick(ids[..0], [], w) == []
  {
  }

  class BatchesApi {
    const conn: Connections

    constructor (conn: Connections)
      ensures this.conn == conn
    {
      this.conn := conn;
    }

    /** The action itself, on a server in the right state: it does what the single-server endpoint would do,
        and succeeds unless one of its steps raises. */
    method Perform(id: string, row: Row, r: Request) returns (ok: bool)
      requires conn.Wired() && HasBatchForm(r) && Ready(conn.Now(), id, r) && row == conn.client.sm.servers[id]
      modifies conn.client.sm, conn.client.outside, conn.channel`published
      ensures conn.Now() == One(conn.client.config, old(conn.Now()), id, r, conn.Tape())
      ensures var was, now, n := old(conn.Now()), conn.Now(), old(conn.Now()).clock;
              var first, second := conn.Tape()(n).luck, conn.Tape()(n + 1).luck;
              var decided := DbLuck(conn.client.config, first);
              match r
              case Configure(setup) =>
                && now.db == was.db && (ok <==> first.Fine?)
                && now.published == was.published + (if first.Before? then []
                                                     else [Msg(SetupJob(setup), id, row.aws, None, None, 1)])
              case Reject(gate, engineer) =>
                && now.published == was.published && (ok <==> decided.Fine?)
                && now.db == (if decided.Before? then was.db
                              else Db(was.db.rows[id := row.(current := Failed, previous := Some(GateState(gate)))],
                                      was.db.history + [Entry(id, GateState(gate), Failed, engineer, Rejected(gate))],
                                      was.db.batches))
              case Approve(gate, engineer) =>
                && (ok <==> decided.Fine? && second.Fine?)
                && now.published == was.published + (if decided.Fine? && !second.Before?
                                                     then [Msg(GateJob(gate), id, row.aws, None, None, 1)] else [])
                && now.db == (if decided.Before? then was.db
                              else Db(was.db.rows[id := row.(current := ApprovedState(gate),
                                                             previous := Some(GateState(gate)))],
                                      was.db.history + [Entry(id, GateState(gate), ApprovedState(gate), engineer,
                                                              Approved(gate))],
                                      was.db.batches))
      ensures ok <==> GoesWell(conn.client.config, old(conn.Now()).clock, r, conn.Tape())
    {
      hide Fly, One;
      ghost var c, s, tape := conn.client.config, conn.Now(), conn.Tape();
      match r
      case Configure(setup) =>
        OneConfigures(c, s, id, r, tape);
        var sent := conn.channel.Publish(Fresh(SetupJob(setup), id, row.aws));
        ok := sent.Ok?;
      case Reject(gate, engineer) =>
        DecisionAllowed(s, id, r);
        if DbLuck(c, tape(s.clock).luck).Fine? { OneRejects(c, s, id, r, tape); }
        else { OneUndecided(c, s, id, r, tape); }
        var turn := conn.client.outside.Next();
        var luck := DbLuck(conn.client.config, turn.luck);
        var moved := conn.client.sm.AdvanceState(id, Failed, engineer, Rejected(gate), luck);
        ok := moved.Ok?;
      case Approve(gate, engineer) =>
        DecisionAllowed(s, id, r);
        if DbLuck(c, tape(s.clock).luck).Fine? { OneApproves(c, s, id, r, tape); }
        else { OneUndecided(c, s, id, r, tape); }
        var turn := conn.client.outside.Next();
        var luck := DbLuck(conn.client.config, turn.luck);
        var moved := conn.client.sm.AdvanceState(id, ApprovedState(gate), engineer, Approved(gate), luck);
        if moved.Err? { return false; }
        var sent := conn.channel.Publish(Fresh(GateJob(gate), id, row.aws));
        ok := sent.Ok?;
    }

    /** With nobody interfering, the tables and queues end as if the single-server endpoint had been called for
        each server of the batch in turn and its errors ignored; and the three result lists are the servers of
        the batch, in order, by what became of each. */
    method BatchActionLoop(batch: string, r: Request)
      returns (reply: Result<BatchReply, BatchError>, ghost items: seq<(string, Row)>)
      requires conn.Wired() && HasBatchForm(r)
      modifies conn.client.sm, conn.client.outside, conn.channel`published
      ensures reply.Err? ==> conn.Now().db == old(conn.Now()).db && conn.Now().published == old(conn.Now()).published
      ensures reply.Err? && reply.error.NoSuchBatch? ==> batch !in old(conn.Now()).db.batches
      ensures reply.Err? && reply.error.ReadFailed? ==>
                var c, n := conn.client.config, old(conn.Now()).clock;
                !DbLuck(c, conn.Tape()(n).luck).Fine? || !DbLuck(c, conn.Tape()(n + 1).luck).Fine?
      ensures reply.Ok? ==>
                var c, s, tape := conn.client.config, old(conn.Now()).(clock := old(conn.Now()).clock + 2), conn.Tape();
                var verdicts := Verdicts(c, s, Ids(items), r, tape);
                && batch in s.db.batches && IsListing(s.db, batch, items)
                && (forall i :: 0 <= i < |items| ==>
                      items[i].0 in s.db.rows && items[i].1 == s.db.rows[items[i].0] && items[i].1.batch == Some(batch))
                && (forall i, j :: 0 <= i < j < |items| ==> items[i].0 != items[j].0)
                && (forall id :: id in s.db.rows && s.db.rows[id].batch == Some(batch) ==>
                      exists i :: 0 <= i < |items| && items[i].0 == id)
                && conn.Now() == Each(c, s, Ids(items), r, tape)
                && reply.value == ByVerdict(Ids(items), verdicts)
    {
      hide Fly, One, Each, Verdicts, Pick;
      items := [];
      var turn := conn.client.outside.Next();
      if !DbLuck(conn.client.config, turn.luck).Fine? { return Err(ReadFailed), items; }
      if batch !in conn.client.sm.batches { return Err(NoSuchBatch), items; }
      turn := conn.client.outside.Next();
      var servers := conn.client.sm.GetBatchServers(batch, DbLuck(conn.client.config, turn.luck));
      if servers.Err? { return Err(ReadFailed), items; }
      items := servers.value;
      var done := ServeAll(servers.value, r);
      reply := Ok(done);
    }

    method ServeAll(items: seq<(string, Row)>, r: Request) returns (reply: BatchReply)
      requires conn.Wired() && HasBatchForm(r)
      requires Untouched(conn.Now().db, items, 0) && forall j, k :: 0 <= j < k < |items| ==> items[j].0 != items[k].0
      modifies conn.client.sm, conn.client.outside, conn.channel`published
      ensures var c, s, tape := conn.client.config, old(conn.Now()), conn.Tape();
              var verdicts := Verdicts(c, s, Ids(items), r, tape);
              && conn.Now() == Each(c, s, Ids(items), r, tape)
              && reply == ByVerdict(Ids(items), verdicts)
    {
      hide Fly, One, GoesWell, Each, Verdicts, Pick;
      ghost var c, s, tape, ids := conn.client.config, conn.Now(), conn.Tape(), Ids(items);
      NoneServed(c, s, ids, r, tape);
      var succeeded, skipped, failed := [], [], [];
      var i := 0;
      while i < |items|
        invariant 0 <= i <= |items|
        invariant conn.Now() == Each(c, s, ids[..i], r, tape)
        invariant Untouched(conn.Now().db, items, i)
        invariant succeeded == Pick(ids[..i], Verdicts(c, s, ids[..i], r, tape), Succeeded)
        invariant skipped == Pick(ids[..i], Verdicts(c, s, ids[..i], r, tape), Skipped)
        invariant failed == Pick(ids[..i], Verdicts(c, s, ids[..i], r, tape), Unsuccessful)
      {
        var (id, row) := items[i];
        OneMore(c, s, ids, i, r, tape);
        StillUntouched(c, conn.Now(), items, i, r, tape);
        if row.current != Wanted(r) {
          OneSkips(c, conn.Now(), id, r, tape);
          skipped := skipped + [id];
        } else {
          var ok := Perform(id, row, r);
          if ok { succeeded := succeeded + [id]; } else { failed := failed + [id]; }
        }
        i := i + 1;
      }
      assert ids[..|items|] == ids;
      reply := BatchReply(succeeded, skipped, failed);
    }
  }
}
