/** Which servers a batch has: assigning servers to batches, and the server counts of batches. */
module BatchMembership {
  import opened Wrappers
  import opened Store
  import opened Handlers
  import opened Machine
  import opened Guarantees

  // ---- the three result lists ----

  function Occurs(xs: seq<string>, x: string): nat {
    if xs == [] then 0 else Occurs(xs[..|xs| - 1], x) + if xs[|xs| - 1] == x then 1 else 0
  }

  lemma {:induction false} OccursPositive(xs: seq<string>, x: string)
    ensures x in xs <==> 0 < Occurs(xs, x)
  {
    if xs != [] {
      OccursPositive(xs[..|xs| - 1], x);
      assert xs == xs[..|xs| - 1] + [xs[|xs| - 1]];
    }
  }

  lemma OccursAppend(xs: seq<string>, y: string, x: string)
    ensures Occurs(xs + [y], x) == Occurs(xs, x) + if y == x then 1 else 0
    ensures xs + [] == xs
  {
    assert (xs + [y])[..|xs|] == xs;
  }

  lemma {:induction false} OccursMeeting(db: Db, batch: string, ids: seq<string>, fate: Fate, x: string)
    ensures Occurs(Meeting(db, batch, ids, fate), x) == if FateOf(db, batch, x) == fate then Occurs(ids, x) else 0
  {
    if ids != [] {
      var init, last := ids[..|ids| - 1], ids[|ids| - 1];
      OccursMeeting(db, batch, init, fate, x);
      OccursAppend(Meeting(db, batch, init, fate), last, x);
    }
  }

  /** The three lists partition the request as multisets: an id is reported as often as it was asked for, and
      always in the list that its row, or the lack of one, calls for. */
  lemma AssignmentPartitions(db: Db, batch: string, ids: seq<string>, x: string)
    ensures var a := Assign(db, batch, ids);
            && Occurs(a.added, x) + Occurs(a.present, x) + Occurs(a.missing, x) == Occurs(ids, x)
            && (x in a.missing <==> x in ids && x !in db.rows)
            && (x in a.present <==> x in ids && x in db.rows && db.rows[x].batch == Some(batch))
            && (x in a.added <==> x in ids && x in db.rows && db.rows[x].batch != Some(batch))
  {
    OccursMeeting(db, batch, ids, Assigned, x);
    OccursMeeting(db, batch, ids, AlreadyAssigned, x);
    OccursMeeting(db, batch, ids, Unknown, x);
    OccursPositive(ids, x);
    OccursPositive(Meeting(db, batch, ids, Assigned), x);
    OccursPositive(Meeting(db, batch, ids, AlreadyAssigned), x);
    OccursPositive(Meeting(db, batch, ids, Unknown), x);
  }

  /** And they keep the order of the request: one id more is one entry more, at the end of its list. */
  lemma AssignmentGrows(db: Db, batch: string, ids: seq<string>, x: string)
    ensures Assign(db, batch, []) == Assignment([], [], [])
    ensures var a, a' := Assign(db, batch, ids), Assign(db, batch, ids + [x]);
            if x !in db.rows then a' == a.(missing := a.missing + [x])
            else if db.rows[x].batch == Some(batch) then a' == a.(present := a.present + [x])
            else a' == a.(added := a.added + [x])
  {
    assert (ids + [x])[..|ids|] == ids;
  }

  // ---- what becomes of the rows ----

  /** Every row that points to a batch points to an existing one. */
  ghost predicate ForeignKey(db: Db) {
    forall s :: s in db.rows && db.rows[s].batch.Some? ==> db.rows[s].batch.value in db.batches
  }

  function Members(db: Db, batch: string): set<string> { set s | s in db.rows && db.rows[s].batch == Some(batch) }

  function Unassigned(db: Db): set<string> { set s | s in db.rows && db.rows[s].batch == None }

  /** The batch gains exactly the registered ids of the list, the other batches and the unassigned lose exactly those,
      and no row changes in anything but its batch. */
  ghost predicate Moved(db: Db, db': Db, batch: string, ids: seq<string>) {
    && Members(db', batch) == Members(db, batch) + (set s | s in ids && s in db.rows)
    && (forall b :: b != batch ==> Members(db', b) == Members(db, b) - (set s | s in ids))
    && Unassigned(db') == Unassigned(db) - (set s | s in ids)
    && db' == db.(rows := db'.rows) && db'.rows.Keys == db.rows.Keys
    && forall s :: s in db.rows ==> db'.rows[s] == db.rows[s].(batch := db'.rows[s].batch)
  }

  /** An assignment that goes through moves exactly the registered ids of its list. */
  lemma AssignmentMoves(db: Db, batch: string, ids: seq<string>)
    requires ForeignKey(db) && batch in db.batches
    ensures ForeignKey(AssignBatch(db, batch, ids)) && Moved(db, AssignBatch(db, batch, ids), batch, ids)
  {
  }

  // ---- counting ----

  /** The sum of the server counts of some batches. */
  ghost function CountedIn(db: Db, batches: set<string>): nat {
    if batches == {} then 0
    else
      var b :| b in batches;
      |Members(db, b)| + CountedIn(db, batches - {b})
  }

  function MembersOfAny(db: Db, batches: set<string>): set<string> {
    set s | s in db.rows && db.rows[s].batch.Some? && db.rows[s].batch.value in batches
  }

  lemma {:induction false} CountedOnce(db: Db, batches: set<string>)
    ensures CountedIn(db, batches) == |MembersOfAny(db, batches)|
  {
    if batches == {} {
      assert MembersOfAny(db, batches) == {};
    } else {
      var b :| b in batches && CountedIn(db, batches) == |Members(db, b)| + CountedIn(db, batches - {b});
      CountedOnce(db, batches - {b});
      assert MembersOfAny(db, batches) == Members(db, b) + MembersOfAny(db, batches - {b});
      assert Members(db, b) !! MembersOfAny(db, batches - {b});
    }
  }

  /** The server counts of all batches and the number of unassigned servers add up to the number of servers. */
  lemma CountsAddUp(db: Db)
    requires ForeignKey(db)
    ensures CountedIn(db, db.batches) + |Unassigned(db)| == |db.rows|
  {
    CountedOnce(db, db.batches);
    assert db.rows.Keys == MembersOfAny(db, db.batches) + Unassigned(db);
    assert MembersOfAny(db, db.batches) !! Unassigned(db);
    assert |db.rows.Keys| == |db.rows|;
  }

  lemma EffectKeepsForeignKey(c: Config, db: Db, t: Task, turn: Turn)
    requires ForeignKey(db)
    ensures ForeignKey(Effect(c, db, t, turn).db)
  {
  }

  lemma {:induction false} ForeignKeyHolds(c: Config, events: seq<Machine.Event>)
    ensures ForeignKey(WorldAfter(c, events).db)
  {
    if events != [] {
      var w := WorldAfter(c, events[..|events| - 1]);
      ForeignKeyHolds(c, events[..|events| - 1]);
      match events[|events| - 1]
      case Run(i, turn) => if i < |w.tasks| { EffectKeepsForeignKey(c, w.db, w.tasks[i], turn); }
      case _ =>
    }
  }

  /** After any run, any number of interleaved assignments included, the counts add up. */
  lemma {:induction false} CountsAlwaysAddUp(c: Config, events: seq<Machine.Event>)
    ensures var db := WorldAfter(c, events).db; CountedIn(db, db.batches) + |Unassigned(db)| == |db.rows|
  {
    ForeignKeyHolds(c, events);
    CountsAddUp(WorldAfter(c, events).db);
  }

  lemma ReassignMoves(db: Db, batch: string, added: seq<string>)
    requires ForeignKey(db) && Reassign(db, batch, added).Ok?
    ensures var db' := Reassign(db, batch, added).value;
            && Moved(db, db', batch, added)
            && CountedIn(db', db'.batches) + |Unassigned(db')| == |db.rows|
  {
    var db' := Reassign(db, batch, added).value;
    if added != [] { AssignmentMoves(db, batch, added); }
    CountsAddUp(db');
    assert |db'.rows| == |db'.rows.Keys| && |db.rows| == |db.rows.Keys|;
  }

  lemma MoveApplied(c: Config, w: World, k: nat, luck: Luck)
    requires k < |w.assigning|
    ensures Apply(c, w, MoveIds(k, luck)).db ==
            Settled(w.db, Reassign(w.db, w.assigning[k].batch, w.assigning[k].added), luck).0
  {
  }

  lemma MoveEvent(c: Config, w: World, k: nat, luck: Luck)
    requires k < |w.assigning| && !luck.Before? && ForeignKey(w.db)
    ensures var batch, added := w.assigning[k].batch, w.assigning[k].added;
            var db' := Apply(c, w, MoveIds(k, luck)).db;
            if added != [] && batch !in w.db.batches then db' == w.db
            else Moved(w.db, db', batch, added) && CountedIn(db', db'.batches) + |Unassigned(db')| == |w.db.rows|
  {
    hide Moved, CountedIn, AssignBatch, Apply;
    MoveApplied(c, w, k, luck);
    var batch, added := w.assigning[k].batch, w.assigning[k].added;
    if added == [] || batch in w.db.batches { ReassignMoves(w.db, batch, added); }
  }

  /** The update of an assignment whose read lies any number of events back. It is refused, and changes nothing,
      exactly when it has servers to move and the batch does not exist. Otherwise it moves exactly the servers that
      the read reported as added, and the counts still add up. */
  lemma {:induction false} CountsSurviveAssignment(c: Config, events: seq<Machine.Event>, k: nat, luck: Luck)
    requires k < |WorldAfter(c, events).assigning| && !luck.Before?
    ensures var w := WorldAfter(c, events);
            var batch, added := w.assigning[k].batch, w.assigning[k].added;
            var db' := Apply(c, w, MoveIds(k, luck)).db;
            if added != [] && batch !in w.db.batches then db' == w.db
            else Moved(w.db, db', batch, added) && CountedIn(db', db'.batches) + |Unassigned(db')| == |w.db.rows|
  {
    hide WorldAfter, Apply, Moved, CountedIn;
    ForeignKeyHolds(c, events);
    MoveEvent(c, WorldAfter(c, events), k, luck);
  }

  /** What the read promised holds when nobody else comes in between: the ids reported as added are those that
      the update moves. */
  lemma {:induction false} ReadThenMove(c: Config, w: World, batch: string, ids: seq<string>, x: string)
    requires batch in w.db.batches && x in ids && x in w.db.rows
    ensures var w' := Apply(c, Apply(c, w, ReadIds(batch, ids)), MoveIds(|w.assigning|, Fine));
            w'.db == AssignBatch(w.db, batch, ids) && x in Members(w'.db, batch)
  {
    var w1 := Apply(c, w, ReadIds(batch, ids));
    var added := Assign(w.db, batch, ids).added;
    assert w1.assigning[|w.assigning|] == Assigning(batch, added);
    MeetingMembers(w.db, batch, ids, Assigned);
    assert AssignBatch(w.db, batch, added).rows == AssignBatch(w.db, batch, ids).rows;
  }
}
