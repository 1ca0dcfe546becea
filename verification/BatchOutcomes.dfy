/** What a batch approval leaves behind, server by server. */
module BatchOutcomes {
  import opened Wrappers
  import opened Pipeline
  import opened Handlers
  import opened Machine
  import opened Coarse
  import opened Services
  import opened BatchActions

  /** Each server of the batch is in exactly one of the three lists: that of its verdict. */
  lemma {:induction false} ListedByVerdict(ids: seq<string>, verdicts: seq<Verdict>, v: Verdict, i: nat)
    requires |ids| == |verdicts| && Distinct(ids) && i < |ids|
    ensures ids[i] in Pick(ids, verdicts, v) <==> verdicts[i] == v
  {
    var n := |ids| - 1;
    if i < n {
      ListedByVerdict(ids[..n], verdicts[..n], v, i);
    } else {
      PickedFrom(ids[..n], verdicts[..n], v);
    }
  }

  lemma {:induction false} PickedFrom(ids: seq<string>, verdicts: seq<Verdict>, v: Verdict)
    requires |ids| == |verdicts|
    ensures forall x :: x in Pick(ids, verdicts, v) ==> x in ids
  {
    if ids != [] {
      var n := |ids| - 1;
      PickedFrom(ids[..n], verdicts[..n], v);
      assert ids == ids[..n] + [ids[n]];
    }
  }

  // ---- approvals ----

  function ApprovalJob(s: Snap, id: string, r: Request): Msg
    requires r.Approve? && id in s.db.rows
  {
    Fresh(GateJob(r.gate), id, s.db.rows[id].aws)
  }

  predicate Advances(c: Config, n: nat, tape: Tape) { !DbLuck(c, tape(n).luck).Before? }

  predicate Queues(c: Config, n: nat, tape: Tape) { DbLuck(c, tape(n).luck).Fine? && !tape(n + 1).luck.Before? }

  /** What serving one approval does to its own server, and what it queues. */
  lemma OneApproval(c: Config, s: Snap, id: string, r: Request, tape: Tape)
    requires r.Approve? && id in s.db.rows
    ensures var f := One(c, s, id, r, tape);
            && id in f.db.rows
            && (!Ready(s, id, r) ==> f == s)
            && (Ready(s, id, r) ==>
                  f.db.rows[id].current ==
                  if Advances(c, s.clock, tape) then ApprovedState(r.gate) else GateState(r.gate))
            && f.published == s.published + Unless(!Ready(s, id, r) || !Queues(c, s.clock, tape), ApprovalJob(s, id, r))
  {
    hide Fly, One;
    if !Ready(s, id, r) { OneSkips(c, s, id, r, tape); assert s.published + [] == s.published; }
    else if DbLuck(c, tape(s.clock).luck).Fine? { OneApproves(c, s, id, r, tape); }
    else { OneUndecided(c, s, id, r, tape); assert s.published + [] == s.published; }
  }

  /** Servers outside the list keep their rows, and the queues only grow. */
  lemma {:induction false} EachKeepsOthers(c: Config, s: Snap, ids: seq<string>, r: Request, tape: Tape, x: string)
    requires HasBatchForm(r) && x !in ids && x in s.db.rows
    ensures var f := Each(c, s, ids, r, tape); x in f.db.rows && f.db.rows[x] == s.db.rows[x]
  {
    hide Fly, One;
    if ids != [] {
      var init, last := ids[..|ids| - 1], ids[|ids| - 1];
      EachKeepsOthers(c, s, init, r, tape, x);
      OneKeepsOthers(c, Each(c, s, init, r, tape), last, r, tape, x);
    }
  }

  ghost predicate HasJob(s: Snap, f: Snap, id: string) {
    exists k :: |s.published| <= k < |f.published| && f.published[k].server == id
  }

  ghost predicate ServedAs(c: Config, s: Snap, ids: seq<string>, r: Request, tape: Tape, i: nat)
    requires r.Approve? && i < |ids| && ids[i] in s.db.rows
  {
    var f, id, n := Each(c, s, ids, r, tape), ids[i], Each(c, s, ids[..i], r, tape).clock;
    var v := Verdicts(c, s, ids, r, tape)[i];
    && id in f.db.rows
    && (v.Skipped? <==> !Ready(s, id, r))
    && (v.Succeeded? <==> Ready(s, id, r) && GoesWell(c, n, r, tape))
    && (v.Skipped? ==> f.db.rows[id] == s.db.rows[id])
    && (!v.Skipped? ==>
          f.db.rows[id].current == if Advances(c, n, tape) then ApprovedState(r.gate) else GateState(r.gate))
    && (HasJob(s, f, id) <==> !v.Skipped? && Queues(c, n, tape))
  }

  /** Every job that a batch approval has queued is the approval's job, for a server of the batch that was
      waiting at the gate and has been advanced past it. */
  ghost predicate JobsJustified(s: Snap, f: Snap, ids: seq<string>, r: Request)
    requires r.Approve? && forall id :: id in ids ==> id in s.db.rows
  {
    && s.published <= f.published
    && forall k :: |s.published| <= k < |f.published| ==>
         var id := f.published[k].server;
         && id in ids && f.published[k] == ApprovalJob(s, id, r)
         && Ready(s, id, r) && id in f.db.rows && f.db.rows[id].current == ApprovedState(r.gate)
  }

  lemma {:induction false} QueuedJobsWereApproved(c: Config, s: Snap, ids: seq<string>, r: Request, tape: Tape)
    requires r.Approve? && Distinct(ids) && forall id :: id in ids ==> id in s.db.rows
    ensures JobsJustified(s, Each(c, s, ids, r, tape), ids, r)
  {
    hide Fly, One;
    if ids != [] {
      var init, last := ids[..|ids| - 1], ids[|ids| - 1];
      var mid := Each(c, s, init, r, tape);
      QueuedJobsWereApproved(c, s, init, r, tape);
      EachKeepsOthers(c, s, init, r, tape, last);
      OneApproval(c, mid, last, r, tape);
      var f := Each(c, s, ids, r, tape);
      forall k | |s.published| <= k < |f.published|
        ensures var id := f.published[k].server;
                && id in ids && f.published[k] == ApprovalJob(s, id, r)
                && Ready(s, id, r) && id in f.db.rows && f.db.rows[id].current == ApprovedState(r.gate)
      {
        if k < |mid.published| {
          assert f.published[k] == mid.published[k];
          OneKeepsOthers(c, mid, last, r, tape, mid.published[k].server);
        }
      }
    }
  }

  lemma JobSurvives(c: Config, s: Snap, mid: Snap, last: string, r: Request, tape: Tape, id: string)
    requires r.Approve? && last in mid.db.rows && id != last && |s.published| <= |mid.published|
    ensures HasJob(s, One(c, mid, last, r, tape), id) <==> HasJob(s, mid, id)
  {
    hide Fly, One;
    OneApproval(c, mid, last, r, tape);
    var f := One(c, mid, last, r, tape);
    if HasJob(s, mid, id) {
      var k :| |s.published| <= k < |mid.published| && mid.published[k].server == id;
      assert f.published[k] == mid.published[k];
    }
    if HasJob(s, f, id) {
      var k :| |s.published| <= k < |f.published| && f.published[k].server == id;
      assert k < |mid.published| && mid.published[k] == f.published[k];
    }
  }

  lemma LastOutcome(c: Config, s: Snap, ids: seq<string>, r: Request, tape: Tape)
    requires r.Approve? && Distinct(ids) && ids != [] && forall id :: id in ids ==> id in s.db.rows
    ensures ServedAs(c, s, ids, r, tape, |ids| - 1)
  {
    hide Fly, One, GoesWell;
    var init, last := ids[..|ids| - 1], ids[|ids| - 1];
    var mid, f := Each(c, s, init, r, tape), Each(c, s, ids, r, tape);
    EachKeepsOthers(c, s, init, r, tape, last);
    QueuedJobsWereApproved(c, s, init, r, tape);
    OneApproval(c, mid, last, r, tape);
    assert !HasJob(s, mid, last);
    if Ready(mid, last, r) && Queues(c, mid.clock, tape) {
      assert f.published[|mid.published|].server == last;
    } else {
      assert f.published == mid.published;
    }
  }

  /** Server by server: a skipped server was not at the gate and is untouched; any other ends past the gate
      exactly when its decision was committed, and has a job queued exactly when the publication got through as
      well; it is reported as succeeded exactly when neither step raised. So a server reported as failed may have
      been advanced, with or without its job. */
  lemma {:induction false} BatchApprovalOutcome(c: Config, s: Snap, ids: seq<string>, r: Request, tape: Tape, i: nat)
    requires r.Approve? && Distinct(ids) && i < |ids| && forall id :: id in ids ==> id in s.db.rows
    ensures ServedAs(c, s, ids, r, tape, i)
  {
    hide Fly, One, GoesWell, Judge;
    var n := |ids| - 1;
    if i == n {
      LastOutcome(c, s, ids, r, tape);
    } else {
      var init := ids[..n];
      BatchApprovalOutcome(c, s, init, r, tape, i);
      assert init[..i] == ids[..i];
      var mid := Each(c, s, init, r, tape);
      QueuedJobsWereApproved(c, s, init, r, tape);
      EachKeepsOthers(c, s, init, r, tape, ids[n]);
      OneKeepsOthers(c, mid, ids[n], r, tape, ids[i]);
      JobSurvives(c, s, mid, ids[n], r, tape, ids[i]);
    }
  }

  // ---- any request ----

  lemma OnePublishes(c: Config, s: Snap, id: string, r: Request, tape: Tape)
    requires HasBatchForm(r)
    ensures s.published <= One(c, s, id, r, tape).published
  {
    hide Fly, One;
    if !Ready(s, id, r) { OneSkips(c, s, id, r, tape); }
    else if r.Configure? { OneConfigures(c, s, id, r, tape); }
    else if !DbLuck(c, tape(s.clock).luck).Fine? { OneUndecided(c, s, id, r, tape); }
    else if r.Reject? { OneRejects(c, s, id, r, tape); }
    else { OneApproves(c, s, id, r, tape); }
  }

  /** What serving server i has done to its row and the queues is still there when the whole batch has been served. */
  lemma {:induction false} EachLater(c: Config, s: Snap, ids: seq<string>, r: Request, tape: Tape, i: nat)
    requires HasBatchForm(r) && Distinct(ids) && i < |ids| && ids[i] in Each(c, s, ids[..i + 1], r, tape).db.rows
    ensures var one, f := Each(c, s, ids[..i + 1], r, tape), Each(c, s, ids, r, tape);
            && ids[i] in f.db.rows && f.db.rows[ids[i]] == one.db.rows[ids[i]]
            && one.published <= f.published
  {
    hide Fly, One;
    var n := |ids| - 1;
    if i == n {
      assert ids[..i + 1] == ids;
    } else {
      assert ids[..n][..i + 1] == ids[..i + 1];
      EachLater(c, s, ids[..n], r, tape, i);
      var mid := Each(c, s, ids[..n], r, tape);
      OneKeepsOthers(c, mid, ids[n], r, tape, ids[i]);
      OnePublishes(c, mid, ids[n], r, tape);
    }
  }

  /** The verdict on server i is passed when the servers before it have been served. */
  lemma {:induction false} VerdictAt(c: Config, s: Snap, ids: seq<string>, r: Request, tape: Tape, i: nat)
    requires HasBatchForm(r) && Distinct(ids) && i < |ids| && forall id :: id in ids ==> id in s.db.rows
    ensures var mid := Each(c, s, ids[..i], r, tape);
            && ids[i] in mid.db.rows && mid.db.rows[ids[i]] == s.db.rows[ids[i]]
            && s.published <= mid.published
            && Verdicts(c, s, ids, r, tape)[i] == Judge(c, mid, ids[i], r, tape)
            && Each(c, s, ids[..i + 1], r, tape) == One(c, mid, ids[i], r, tape)
  {
    hide Fly, One, Judge;
    assert ids[..i + 1][..i] == ids[..i];
    EachKeepsOthers(c, s, ids[..i], r, tape, ids[i]);
    EachPublishes(c, s, ids[..i], r, tape);
    var n := |ids| - 1;
    if i < n {
      VerdictAt(c, s, ids[..n], r, tape, i);
      assert ids[..n][..i] == ids[..i];
    }
  }

  lemma {:induction false} EachPublishes(c: Config, s: Snap, ids: seq<string>, r: Request, tape: Tape)
    requires HasBatchForm(r)
    ensures s.published <= Each(c, s, ids, r, tape).published
  {
    hide Fly, One;
    if ids != [] {
      var init := ids[..|ids| - 1];
      EachPublishes(c, s, init, r, tape);
      OnePublishes(c, Each(c, s, init, r, tape), ids[|ids| - 1], r, tape);
    }
  }

  /** A report of success is true: the approved server is past its gate and has its job queued. And a server waiting at
      the gate is reported as failed exactly when its decision or its publication raised, as skipped never. */
  lemma {:induction false} ApprovalReportIsTrue(c: Config, s: Snap, ids: seq<string>, gate: Gate, engineer: string,
                                                tape: Tape, i: nat)
    requires Distinct(ids) && i < |ids| && forall id :: id in ids ==> id in s.db.rows
    ensures var r := Approve(gate, engineer);
            var f, v := Each(c, s, ids, r, tape), Verdicts(c, s, ids, r, tape)[i];
            var n := Each(c, s, ids[..i], r, tape).clock;
            var id, row := ids[i], s.db.rows[ids[i]];
            var first, second := DbLuck(c, tape(n).luck), tape(n + 1).luck;
            if row.current != GateState(gate) then v == Skipped && id in f.db.rows && f.db.rows[id] == row
            else
              && v == (if first.Fine? && second.Fine? then Succeeded else Unsuccessful)
              && id in f.db.rows
              && f.db.rows[id] == (if first.Before? then row
                                   else row.(current := ApprovedState(gate), previous := Some(GateState(gate))))
              && (first.Fine? && !second.Before? ==>
                    exists k :: |s.published| <= k < |f.published|
                                && f.published[k] == Msg(GateJob(gate), id, row.aws, None, None, 1))
  {
    hide Fly, One, Each, Verdicts;
    var r := Approve(gate, engineer);
    var mid, id := Each(c, s, ids[..i], r, tape), ids[i];
    VerdictAt(c, s, ids, r, tape, i);
    if !Ready(mid, id, r) { OneSkips(c, mid, id, r, tape); }
    else if DbLuck(c, tape(mid.clock).luck).Fine? { OneApproves(c, mid, id, r, tape); }
    else { OneUndecided(c, mid, id, r, tape); }
    EachLater(c, s, ids, r, tape, i);
    var one, f := One(c, mid, id, r, tape), Each(c, s, ids, r, tape);
    if |mid.published| < |one.published| { assert f.published[|mid.published|] == one.published[|mid.published|]; }
  }

  /** The same of rejections, which queue nothing. */
  lemma {:induction false} RejectionReportIsTrue(c: Config, s: Snap, ids: seq<string>, gate: Gate, engineer: string,
                                                 tape: Tape, i: nat)
    requires Distinct(ids) && i < |ids| && forall id :: id in ids ==> id in s.db.rows
    ensures var r := Reject(gate, engineer);
            var f, v := Each(c, s, ids, r, tape), Verdicts(c, s, ids, r, tape)[i];
            var n := Each(c, s, ids[..i], r, tape).clock;
            var id, row, first := ids[i], s.db.rows[ids[i]], DbLuck(c, tape(n).luck);
            if row.current != GateState(gate) then v == Skipped && id in f.db.rows && f.db.rows[id] == row
            else
              && v == (if first.Fine? then Succeeded else Unsuccessful)
              && id in f.db.rows
              && f.db.rows[id] == (if first.Before? then row
                                   else row.(current := Failed, previous := Some(GateState(gate))))
  {
    hide Fly, One, Each, Verdicts;
    var r := Reject(gate, engineer);
    var mid, id := Each(c, s, ids[..i], r, tape), ids[i];
    VerdictAt(c, s, ids, r, tape, i);
    if !Ready(mid, id, r) { OneSkips(c, mid, id, r, tape); }
    else if DbLuck(c, tape(mid.clock).luck).Fine? { OneRejects(c, mid, id, r, tape); }
    else { OneUndecided(c, mid, id, r, tape); }
    EachLater(c, s, ids, r, tape, i);
  }

  /** And of the configuration requests, which change no row. */
  lemma {:induction false} ConfigurationReportIsTrue(c: Config, s: Snap, ids: seq<string>, setup: Setup, tape: Tape,
                                                     i: nat)
    requires !setup.CutoverInstanceSetup?
    requires Distinct(ids) && i < |ids| && forall id :: id in ids ==> id in s.db.rows
    ensures var r := Configure(setup);
            var f, v := Each(c, s, ids, r, tape), Verdicts(c, s, ids, r, tape)[i];
            var n := Each(c, s, ids[..i], r, tape).clock;
            var id, row, sent := ids[i], s.db.rows[ids[i]], tape(n).luck;
            && id in f.db.rows && f.db.rows[id] == row
            && if row.current != ExpectedState(SetupJob(setup)) then v == Skipped
               else
                 && v == (if sent.Fine? then Succeeded else Unsuccessful)
                 && (!sent.Before? ==>
                       exists k :: |s.published| <= k < |f.published|
                                   && f.published[k] == Msg(SetupJob(setup), id, row.aws, None, None, 1))
  {
    hide Fly, One, Each, Verdicts;
    var r := Configure(setup);
    var mid, id := Each(c, s, ids[..i], r, tape), ids[i];
    VerdictAt(c, s, ids, r, tape, i);
    if !Ready(mid, id, r) { OneSkips(c, mid, id, r, tape); } else { OneConfigures(c, mid, id, r, tape); }
    EachLater(c, s, ids, r, tape, i);
    var one, f := One(c, mid, id, r, tape), Each(c, s, ids, r, tape);
    if |mid.published| < |one.published| { assert f.published[|mid.published|] == one.published[|mid.published|]; }
  }
}
