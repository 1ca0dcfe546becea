/** The PostgreSQL tables and the transactions of the state manager. */
module Store {
  import opened Wrappers
  import opened Pipeline

  /** What the job_type column of a history row says about who wrote it. */
  datatype Label =
    | Approved(gate: Gate)                // "approve:<state>", written by an approval endpoint
    | Rejected(gate: Gate)                // "reject:<state>", written by a rejection endpoint
    | ByJob(job: Job)                     // the job type itself, written by a worker
    | RolledBack(job: Job, seen: State)   // "rollback:<job>"; seen is metadata["failed_at_state"]
    | WasReset                            // "reset"

  datatype Row = Row(
    hostname: string,
    engineer: Option<string>,
    current: State,
    previous: Option<State>,
    aws: Option<string>,
    batch: Option<string>)

  datatype Entry = Entry(server: string, from: State, to: State, actor: string, why: Label)

  /** History rows are kept in commit order. */
  datatype Db = Db(rows: map<string, Row>, history: seq<Entry>, batches: set<string>)

  const EMPTY_DB := Db(map[], [], {})

  datatype DbError = NotFound | InvalidTransition | NotFailed | Duplicate | UnknownBatch | Unavailable

  /** How the outside world treats one effect: it happens; it fails before taking effect;
      or it takes effect but the caller still sees an exception. */
  datatype Luck = Fine | Before | After

  function Register(db: Db, s: string, hostname: string, engineer: Option<string>, batch: Option<string>)
    : Result<Db, DbError>
  {
    if s in db.rows then Err(Duplicate)
    else if batch.Some? && batch.value !in db.batches then Err(UnknownBatch)
    else Ok(db.(rows := db.rows[s := Row(hostname, engineer, Pending, None, None, batch)]))
  }

  /** One row update and one history append: the tables after a committed state change. */
  function Write(db: Db, e: Entry): Db
    requires e.server in db.rows
  {
    db.(rows := db.rows[e.server := db.rows[e.server].(current := e.to, previous := Some(e.from))],
        history := db.history + [e])
  }

  function Advance(db: Db, s: string, to: State, actor: string, why: Label): Result<Db, DbError> {
    if s !in db.rows then Err(NotFound)
    else if !Allowed(db.rows[s].current, to) then Err(InvalidTransition)
    else Ok(Write(db, Entry(s, db.rows[s].current, to, actor, why)))
  }

  function Reset(db: Db, s: string, engineer: string): Result<Db, DbError> {
    if s !in db.rows then Err(NotFound)
    else if db.rows[s].current != Failed then Err(NotFailed)
    else Ok(Write(db, Entry(s, Failed, Pending, engineer, WasReset)))
  }

  function StoreAws(db: Db, s: string, aws: Option<string>): Result<Db, DbError> {
    if s !in db.rows then Err(NotFound)
    else Ok(db.(rows := db.rows[s := db.rows[s].(aws := aws)]))
  }

  /** A transaction as its caller sees it: the tables afterwards, and whether it returned normally. */
  function Settled(db: Db, r: Result<Db, DbError>, luck: Luck): (Db, bool) {
    if r.Err? || luck.Before? then (db, false) else (r.value, luck.Fine?)
  }

  function Outcome(r: Result<Db, DbError>, luck: Luck): Result<(), DbError> {
    if luck.Before? then Err(Unavailable)
    else if r.Err? then Err(r.error)
    else if luck.After? then Err(Unavailable)
    else Ok(())
  }

  lemma SettledOk(db: Db, r: Result<Db, DbError>, luck: Luck)
    ensures Settled(db, r, luck).1 <==> Outcome(r, luck).Ok?
  {
  }

  // ---- batches ----

  /** Every listed server that is registered now belongs to the batch. */
  function AssignBatch(db: Db, batch: string, ids: seq<string>): Db {
    db.(rows := map s | s in db.rows :: if s in ids then db.rows[s].(batch := Some(batch)) else db.rows[s])
  }

  /** The update of add_servers_to_batch. It is not issued for no ids at all; else the foreign key refuses a batch
      that does not exist. */
  function Reassign(db: Db, batch: string, added: seq<string>): Result<Db, DbError> {
    if added == [] then Ok(db)
    else if batch !in db.batches then Err(UnknownBatch)
    else Ok(AssignBatch(db, batch, added))
  }

  datatype Fate = Assigned | AlreadyAssigned | Unknown

  function FateOf(db: Db, batch: string, id: string): Fate {
    if id !in db.rows then Unknown
    else if db.rows[id].batch == Some(batch) then AlreadyAssigned
    else Assigned
  }

  /** The ids that meet the given fate, in order and with their repeats. */
  function Meeting(db: Db, batch: string, ids: seq<string>, fate: Fate): seq<string> {
    if ids == [] then []
    else
      var last := ids[|ids| - 1];
      Meeting(db, batch, ids[..|ids| - 1], fate) + if FateOf(db, batch, last) == fate then [last] else []
  }

  lemma MeetingNone(db: Db, batch: string, ids: seq<string>)
    ensures forall fate :: Meeting(db, batch, ids[..0], fate) == []
  {
  }

  lemma MeetingOneMore(db: Db, batch: string, ids: seq<string>, i: nat)
    requires i < |ids|
    ensures forall fate ::
              Meeting(db, batch, ids[..i + 1], fate) ==
              Meeting(db, batch, ids[..i], fate) + if FateOf(db, batch, ids[i]) == fate then [ids[i]] else []
  {
    assert ids[..i + 1][..i] == ids[..i];
  }

  lemma {:induction false} MeetingMembers(db: Db, batch: string, ids: seq<string>, fate: Fate)
    ensures forall s :: s in Meeting(db, batch, ids, fate) <==> s in ids && FateOf(db, batch, s) == fate
  {
    if ids != [] {
      MeetingMembers(db, batch, ids[..|ids| - 1], fate);
      assert ids == ids[..|ids| - 1] + [ids[|ids| - 1]];
    }
  }

  datatype Assignment = Assignment(added: seq<string>, present: seq<string>, missing: seq<string>)

  function Assign(db: Db, batch: string, ids: seq<string>): Assignment {
    Assignment(
      Meeting(db, batch, ids, Assigned),
      Meeting(db, batch, ids, AlreadyAssigned),
      Meeting(db, batch, ids, Unknown))
  }

  /** The state manager: every write below is one transaction. A validation failure, a missing row
      and a lost connection all leave both tables as they were. */
  class StateManager {
    var servers: map<string, Row>
    var history: seq<Entry>
    var batches: set<string>

    constructor ()
      ensures Tables() == EMPTY_DB
    {
      servers, history, batches := map[], [], {};
    }

    function Tables(): Db
      reads this
    {
      Db(servers, history, batches)
    }

    method RegisterServer(s: string, hostname: string, engineer: Option<string>, batch: Option<string>, luck: Luck)
      returns (r: Result<(), DbError>)
      modifies this
      ensures r == if luck.Before? then Err(Unavailable)
                   else if s in old(servers) then Err(Duplicate)
                   else if batch.Some? && batch.value !in old(batches) then Err(UnknownBatch)
                   else if luck.After? then Err(Unavailable) else Ok(())
      ensures var refused := luck.Before? || s in old(servers) || (batch.Some? && batch.value !in old(batches));
              servers == if refused then old(servers)
                         else old(servers)[s := Row(hostname, engineer, Pending, None, None, batch)]
      ensures history == old(history) && batches == old(batches)
      ensures r == Outcome(Register(old(Tables()), s, hostname, engineer, batch), luck)
      ensures Tables() == Settled(old(Tables()), Register(old(Tables()), s, hostname, engineer, batch), luck).0
    {
      if luck.Before? { return Err(Unavailable); }
      if s in servers { return Err(Duplicate); }
      if batch.Some? && batch.value !in batches { return Err(UnknownBatch); }
      servers := servers[s := Row(hostname, engineer, Pending, None, None, batch)];
      r := if luck.After? then Err(Unavailable) else Ok(());
    }

    /** Reads one row outside any transaction: nothing is locked once the call returns. */
    method GetServer(s: string, luck: Luck) returns (r: Result<Row, DbError>)
      ensures r == if !luck.Fine? then Err(Unavailable)
                   else if s in servers then Ok(servers[s]) else Err(NotFound)
    {
      if !luck.Fine? { return Err(Unavailable); }
      if s !in servers { return Err(NotFound); }
      r := Ok(servers[s]);
    }

    method AdvanceState(s: string, to: State, actor: string, why: Label, luck: Luck)
      returns (r: Result<(), DbError>)
      modifies this
      ensures r == if luck.Before? then Err(Unavailable)
                   else if s !in old(servers) then Err(NotFound)
                   else if !Allowed(old(servers)[s].current, to) then Err(InvalidTransition)
                   else if luck.After? then Err(Unavailable) else Ok(())
      ensures luck.Before? || s !in old(servers) || !Allowed(old(servers)[s].current, to) ==>
                servers == old(servers) && history == old(history)
      ensures !luck.Before? && s in old(servers) && Allowed(old(servers)[s].current, to) ==>
                var row := old(servers)[s];
                && servers == old(servers)[s := row.(current := to, previous := Some(row.current))]
                && history == old(history) + [Entry(s, row.current, to, actor, why)]
      ensures batches == old(batches)
      ensures r == Outcome(Advance(old(Tables()), s, to, actor, why), luck)
      ensures Tables() == Settled(old(Tables()), Advance(old(Tables()), s, to, actor, why), luck).0
    {
      if luck.Before? { return Err(Unavailable); }
      if s !in servers { return Err(NotFound); }
      var from := servers[s].current;
      if !Allowed(from, to) { return Err(InvalidTransition); }
      servers := servers[s := servers[s].(current := to, previous := Some(from))];
      history := history + [Entry(s, from, to, actor, why)];
      r := if luck.After? then Err(Unavailable) else Ok(());
    }

    method SetAwsSourceServerId(s: string, aws: Option<string>, luck: Luck) returns (r: Result<(), DbError>)
      modifies this
      ensures r == if luck.Before? then Err(Unavailable)
                   else if s !in old(servers) then Err(NotFound)
                   else if luck.After? then Err(Unavailable) else Ok(())
      ensures servers == if luck.Before? || s !in old(servers) then old(servers)
                         else old(servers)[s := old(servers)[s].(aws := aws)]
      ensures history == old(history) && batches == old(batches)
      ensures r == Outcome(StoreAws(old(Tables()), s, aws), luck)
      ensures Tables() == Settled(old(Tables()), StoreAws(old(Tables()), s, aws), luck).0
    {
      if luck.Before? { return Err(Unavailable); }
      if s !in servers { return Err(NotFound); }
      servers := servers[s := servers[s].(aws := aws)];
      r := if luck.After? then Err(Unavailable) else Ok(());
    }

    method ResetServer(s: string, engineer: string, luck: Luck) returns (r: Result<(), DbError>)
      modifies this
      ensures r == if luck.Before? then Err(Unavailable)
                   else if s !in old(servers) then Err(NotFound)
                   else if old(servers)[s].current != Failed then Err(NotFailed)
                   else if luck.After? then Err(Unavailable) else Ok(())
      ensures luck.Before? || s !in old(servers) || old(servers)[s].current != Failed ==>
                servers == old(servers) && history == old(history)
      ensures !luck.Before? && s in old(servers) && old(servers)[s].current == Failed ==>
                && servers == old(servers)[s := old(servers)[s].(current := Pending, previous := Some(Failed))]
                && history == old(history) + [Entry(s, Failed, Pending, engineer, WasReset)]
      ensures batches == old(batches)
      ensures r == Outcome(Reset(old(Tables()), s, engineer), luck)
      ensures Tables() == Settled(old(Tables()), Reset(old(Tables()), s, engineer), luck).0
    {
      if luck.Before? { return Err(Unavailable); }
      if s !in servers { return Err(NotFound); }
      if servers[s].current != Failed { return Err(NotFailed); }
      servers := servers[s := servers[s].(current := Pending, previous := Some(Failed))];
      history := history + [Entry(s, Failed, Pending, engineer, WasReset)];
      r := if luck.After? then Err(Unavailable) else Ok(());
    }

    /** Sorts the ids by what the servers table says about them, then moves those that are to move in one
        statement. Between the two statements anyone may commit: `meanwhile` is what the tables have become by then. */
    method AddServersToBatch(batch: string, ids: seq<string>, read: Luck, meanwhile: Db, update: Luck)
      returns (r: Result<Assignment, DbError>)
      modifies this
      ensures ids == [] ==> r == Ok(Assignment([], [], [])) && Tables() == old(Tables())
      ensures ids != [] && !read.Fine? ==> r == Err(Unavailable) && Tables() == old(Tables())
      ensures ids != [] && read.Fine? ==>
                var a := Assign(old(Tables()), batch, ids);
                if a.added == [] then r == Ok(a) && Tables() == old(Tables())
                else
                  && r == (if update.Before? then Err(Unavailable)
                           else if batch !in meanwhile.batches then Err(UnknownBatch)
                           else if update.After? then Err(Unavailable) else Ok(a))
                  && history == meanwhile.history && batches == meanwhile.batches
                  && servers.Keys == meanwhile.rows.Keys
                  && forall s :: s in servers ==>
                       servers[s] == if !update.Before? && batch in meanwhile.batches && s in a.added
                                     then meanwhile.rows[s].(batch := Some(batch)) else meanwhile.rows[s]
      ensures var db := old(Tables());
              var a := Assign(db, batch, ids);
              if ids == [] then r == Ok(a) && Tables() == db
              else if !read.Fine? then r == Err(Unavailable) && Tables() == db
              else if a.added == [] then r == Ok(a) && Tables() == db
              else
                var moved := Reassign(meanwhile, batch, a.added);
                && Tables() == Settled(meanwhile, moved, update).0
                && r == if Outcome(moved, update).Ok? then Ok(a) else Err(Outcome(moved, update).error)
    {
      if ids == [] { return Ok(Assignment([], [], [])); }
      if !read.Fine? { return Err(Unavailable); }
      var a := SortIds(batch, ids);
      if a.added == [] { return Ok(a); }
      servers, history, batches := meanwhile.rows, meanwhile.history, meanwhile.batches;
      var moved := MoveToBatch(batch, a.added, update);
      r := if moved.Ok? then Ok(a) else Err(moved.error);
    }

    /** The one UPDATE; the foreign key refuses a batch that does not exist. */
    method MoveToBatch(batch: string, added: seq<string>, luck: Luck) returns (r: Result<(), DbError>)
      requires added != []
      modifies this`servers
      ensures r == if luck.Before? then Err(Unavailable)
                   else if batch !in batches then Err(UnknownBatch)
                   else if luck.After? then Err(Unavailable) else Ok(())
      ensures servers.Keys == old(servers).Keys
      ensures forall s :: s in servers ==>
                servers[s] == if !luck.Before? && batch in batches && s in added
                              then old(servers)[s].(batch := Some(batch)) else old(servers)[s]
      ensures r == Outcome(Reassign(old(Tables()), batch, added), luck)
      ensures Tables() == Settled(old(Tables()), Reassign(old(Tables()), batch, added), luck).0
    {
      if luck.Before? { return Err(Unavailable); }
      if batch !in batches { return Err(UnknownBatch); }
      ghost var db := Tables();
      servers := map s | s in servers :: if s in added then servers[s].(batch := Some(batch)) else servers[s];
      assert Tables().rows == AssignBatch(db, batch, added).rows;
      r := if luck.After? then Err(Unavailable) else Ok(());
    }

    /** One pass over the ids, against the rows as they were read. */
    method SortIds(batch: string, ids: seq<string>) returns (a: Assignment)
      ensures a == Assign(Tables(), batch, ids)
    {
      hide Meeting;
      ghost var db := Tables();
      var found := map s | s in servers && s in ids :: servers[s].batch;
      var added, present, missing := [], [], [];
      MeetingNone(db, batch, ids);
      var i := 0;
      while i < |ids|
        invariant 0 <= i <= |ids|
        invariant added == Meeting(db, batch, ids[..i], Assigned)
        invariant present == Meeting(db, batch, ids[..i], AlreadyAssigned)
        invariant missing == Meeting(db, batch, ids[..i], Unknown)
      {
        MeetingOneMore(db, batch, ids, i);
        if ids[i] !in found { missing := missing + [ids[i]]; }
        else if found[ids[i]] == Some(batch) { present := present + [ids[i]]; }
        else { added := added + [ids[i]]; }
        i := i + 1;
      }
      assert ids[..|ids|] == ids;
      a := Assignment(added, present, missing);
    }

    /** The batch and, in some order, every server in it. */
    method GetBatchServers(batch: string, luck: Luck) returns (r: Result<seq<(string, Row)>, DbError>)
      ensures r.Ok? <==> luck.Fine?
      ensures r.Ok? ==>
                && (forall i :: 0 <= i < |r.value| ==>
                      var (s, row) := r.value[i]; s in servers && row == servers[s] && row.batch == Some(batch))
                && (forall i, j :: 0 <= i < j < |r.value| ==> r.value[i].0 != r.value[j].0)
                && (forall s :: s in servers && servers[s].batch == Some(batch) ==>
                      exists i :: 0 <= i < |r.value| && r.value[i].0 == s)
      ensures r.Ok? ==> IsListing(Tables(), batch, r.value)
    {
      if !luck.Fine? { return Err(Unavailable); }
      var rest := set s | s in servers && servers[s].batch == Some(batch);
      var items: seq<(string, Row)> := [];
      while rest != {}
        invariant forall s :: s in rest ==> s in servers && servers[s].batch == Some(batch)
        invariant forall i :: 0 <= i < |items| ==>
                    items[i].0 in servers && items[i].1 == servers[items[i].0] && items[i].1.batch == Some(batch)
                        && items[i].0 !in rest
        invariant forall i, j :: 0 <= i < j < |items| ==> items[i].0 != items[j].0
        invariant forall s :: s in servers && servers[s].batch == Some(batch) ==>
                    s in rest || Listed(items, s)
        decreases |rest|
      {
        var s :| s in rest;
        ListedGrows(items, (s, servers[s]));
        items := items + [(s, servers[s])];
        rest := rest - {s};
      }
      r := Ok(items);
    }
  }

  ghost predicate Listed(items: seq<(string, Row)>, s: string) {
    exists i :: 0 <= i < |items| && items[i].0 == s
  }

  lemma ListedGrows(items: seq<(string, Row)>, item: (string, Row))
    ensures Listed(items + [item], item.0)
    ensures forall s :: Listed(items, s) ==> Listed(items + [item], s)
  {
    var all := items + [item];
    assert all[|items|] == item;
    forall s | Listed(items, s) ensures Listed(all, s) {
      var i :| 0 <= i < |items| && items[i].0 == s;
      assert all[i].0 == s;
    }
  }

  /** Each server of the batch exactly once, with its row. */
  ghost predicate IsListing(db: Db, batch: string, items: seq<(string, Row)>) {
    && (forall i :: 0 <= i < |items| ==>
          items[i].0 in db.rows && items[i].1 == db.rows[items[i].0] && items[i].1.batch == Some(batch))
    && (forall i, j :: 0 <= i < j < |items| ==> items[i].0 != items[j].0)
    && (forall s :: s in db.rows && db.rows[s].batch == Some(batch) ==> Listed(items, s))
  }
}
