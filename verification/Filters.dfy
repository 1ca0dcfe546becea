/** The two query builders with optional filters, as conditions over numbered parameters, and what the database
    makes of the queries they build. */
module Filters {
  import opened Wrappers
  import opened Handlers

  // ---- queries ----

  datatype Column =
    | CurrentState | BatchId | AssignedEngineer | Hostname               // of servers
    | ServerId | FromState | ToState | TriggeredBy | JobType | Timestamp   // of state_transition_history

  datatype Test = Equals | ILike | AtLeast | AtMost

  /** One conjunct of a WHERE clause; `param` is the number after the dollar sign. */
  datatype Condition = Compare(column: Column, test: Test, param: nat) | IsNull(column: Column)

  datatype Query = Query(join: bool, conditions: seq<Condition>, params: seq<string>)

  /** A row as a WHERE clause sees it. A missing value is NULL, and no comparison with NULL holds. */
  type View = Column -> Option<string>

  /** How the database reads a timestamp, whether stored or given as text. */
  type Clock = string -> int

  predicate Passes(test: Test, value: string, param: string, clock: Clock) {
    match test
    case Equals => value == param
    case ILike => Like(value, param)
    case AtLeast => clock(value) >= clock(param)
    case AtMost => clock(value) <= clock(param)
  }

  predicate Satisfied(cond: Condition, params: seq<string>, row: View, clock: Clock) {
    match cond
    case Compare(col, test, n) =>
      1 <= n <= |params| && row(col).Some? && Passes(test, row(col).value, params[n - 1], clock)
    case IsNull(col) => row(col).None?
  }

  ghost predicate Selects(conds: seq<Condition>, params: seq<string>, row: View, clock: Clock) {
    forall i :: 0 <= i < |conds| ==> Satisfied(conds[i], params, row, clock)
  }

  /** The placeholders of a WHERE clause, from left to right. */
  function Placeholders(conds: seq<Condition>): seq<nat> {
    if conds == [] then []
    else
      var last := conds[|conds| - 1];
      Placeholders(conds[..|conds| - 1]) + if last.Compare? then [last.param] else []
  }

  /** The placeholders are $1, $2, ... up to the number of parameters. */
  ghost predicate WellNumbered(conds: seq<Condition>, params: seq<string>) {
    && |Placeholders(conds)| == |params|
    && (forall i :: 0 <= i < |params| ==> Placeholders(conds)[i] == i + 1)
    && (forall i :: 0 <= i < |conds| && conds[i].Compare? ==> 1 <= conds[i].param <= |params|)
  }

  // ---- building ----

  /** Pushing a parameter and a condition on it adds exactly that condition to the query. */
  lemma Pushed(conds: seq<Condition>, params: seq<string>, col: Column, test: Test, value: string, clock: Clock)
    requires WellNumbered(conds, params)
    ensures var conds', params' := conds + [Compare(col, test, |params| + 1)], params + [value];
            && WellNumbered(conds', params')
            && forall row: View :: Selects(conds', params', row, clock) <==>
                 Selects(conds, params, row, clock) && row(col).Some? && Passes(test, row(col).value, value, clock)
  {
    var last := Compare(col, test, |params| + 1);
    var conds', params' := conds + [last], params + [value];
    assert conds'[..|conds|] == conds;
    forall row: View
      ensures Selects(conds', params', row, clock) <==>
              Selects(conds, params, row, clock) && row(col).Some? && Passes(test, row(col).value, value, clock)
    {
      assert forall i :: 0 <= i < |conds| ==>
               (Satisfied(conds[i], params, row, clock) <==> Satisfied(conds'[i], params', row, clock));
      assert conds'[|conds|] == last;
      if Selects(conds', params', row, clock) {
        assert Satisfied(conds'[|conds|], params', row, clock);
        assert forall i :: 0 <= i < |conds| ==> Satisfied(conds'[i], params', row, clock);
      }
    }
  }

  lemma NullAdded(conds: seq<Condition>, params: seq<string>, col: Column, clock: Clock)
    requires WellNumbered(conds, params)
    ensures var conds' := conds + [IsNull(col)];
            && WellNumbered(conds', params)
            && forall row: View ::
                 Selects(conds', params, row, clock) <==> Selects(conds, params, row, clock) && row(col).None?
  {
    var conds' := conds + [IsNull(col)];
    assert conds'[..|conds|] == conds;
    forall row: View
      ensures Selects(conds', params, row, clock) <==> Selects(conds, params, row, clock) && row(col).None?
    {
      assert conds'[|conds|] == IsNull(col);
      if Selects(conds', params, row, clock) {
        assert Satisfied(conds'[|conds|], params, row, clock);
        assert forall i :: 0 <= i < |conds| ==> Satisfied(conds'[i], params, row, clock);
      }
    }
  }

  /** The placeholders of the built queries, spelled out. */
  lemma InOrder(conds: seq<Condition>, params: seq<string>)
    requires WellNumbered(conds, params)
    ensures Placeholders(conds) == seq(|params|, i => i + 1)
  {
  }

  lemma NothingAdded(clock: Clock)
    ensures WellNumbered([], []) && forall row: View :: Selects([], [], row, clock)
  {
  }

  predicate Matches(filter: Option<string>, value: Option<string>) { !Truthy(filter) || value == filter }

  lemma MatchesMeans(filter: Option<string>, value: Option<string>)
    ensures Matches(filter, value) <==> filter in {None, Some("")} || value == filter
    ensures Truthy(filter) <==> filter !in {None, Some("")}
  {
    TruthyMeans(filter);
  }

  datatype ServerFilters = ServerFilters(
    state: Option<string>, batch: Option<string>, engineer: Option<string>, hostname: Option<string>)

  /** What list_servers promises of each row it returns. */
  predicate ServerWanted(f: ServerFilters, row: View) {
    && Matches(f.state, row(CurrentState))
    && (f.batch.Some? ==> row(BatchId) == if f.batch.value == "unassigned" then None else f.batch)
    && Matches(f.engineer, row(AssignedEngineer))
    && (Truthy(f.hostname) ==> row(Hostname).Some? && Like(row(Hostname).value, "%" + f.hostname.value + "%"))
  }

  /** What the server builder selects, spelled out: a filter that is missing or empty is inactive, except that an empty
      batch id is looked for, and "unassigned" stands for no batch. */
  lemma ServerWantedMeans(f: ServerFilters, row: View)
    ensures ServerWanted(f, row) <==>
              && (f.state in {None, Some("")} || row(CurrentState) == f.state)
              && (f.batch == None || row(BatchId) == if f.batch == Some("unassigned") then None else f.batch)
              && (f.engineer in {None, Some("")} || row(AssignedEngineer) == f.engineer)
              && (f.hostname in {None, Some("")} ||
                    (row(Hostname).Some? && Like(row(Hostname).value, "%" + f.hostname.value + "%")))
  {
    hide Like, Truthy, Matches;
    MatchesMeans(f.state, row(CurrentState));
    MatchesMeans(f.engineer, row(AssignedEngineer));
    MatchesMeans(f.hostname, None);
    if f.batch.Some? && f.batch.value == "unassigned" { assert f.batch == Some("unassigned"); }
  }

  /** For every combination of filters, the query's placeholders are exactly $1 to $n, and it selects exactly the
      rows that pass every active filter. A filter that is missing or empty is inactive, except that an empty
      batch id is looked for, and "unassigned" stands for no batch. */
  method ListServersQuery(f: ServerFilters, ghost clock: Clock) returns (q: Query)
    ensures !q.join && WellNumbered(q.conditions, q.params)
    ensures forall row: View :: Selects(q.conditions, q.params, row, clock) <==> ServerWanted(f, row)
  {
    hide Selects, WellNumbered, Like;
    var conditions: seq<Condition>, params: seq<string> := [], [];
    NothingAdded(clock);
    if Truthy(f.state) {
      Pushed(conditions, params, CurrentState, Equals, f.state.value, clock);
      params := params + [f.state.value];
      conditions := conditions + [Compare(CurrentState, Equals, |params|)];
    }
    if f.batch.Some? {
      if f.batch.value == "unassigned" {
        NullAdded(conditions, params, BatchId, clock);
        conditions := conditions + [IsNull(BatchId)];
      } else {
        Pushed(conditions, params, BatchId, Equals, f.batch.value, clock);
        params := params + [f.batch.value];
        conditions := conditions + [Compare(BatchId, Equals, |params|)];
      }
    }
    if Truthy(f.engineer) {
      Pushed(conditions, params, AssignedEngineer, Equals, f.engineer.value, clock);
      params := params + [f.engineer.value];
      conditions := conditions + [Compare(AssignedEngineer, Equals, |params|)];
    }
    if Truthy(f.hostname) {
      Pushed(conditions, params, Hostname, ILike, "%" + f.hostname.value + "%", clock);
      params := params + ["%" + f.hostname.value + "%"];
      conditions := conditions + [Compare(Hostname, ILike, |params|)];
    }
    q := Query(false, conditions, params);
  }

  datatype TransitionFilters = TransitionFilters(
    server: Option<string>, batch: Option<string>, from: Option<string>, to: Option<string>,
    actor: Option<string>, job: Option<string>, since: Option<string>, until: Option<string>)

  predicate InTime(f: TransitionFilters, at: Option<string>, clock: Clock) {
    && (Truthy(f.since) ==> at.Some? && clock(at.value) >= clock(f.since.value))
    && (Truthy(f.until) ==> at.Some? && clock(at.value) <= clock(f.until.value))
  }

  /** What list_transitions promises of each history row it returns; the batch is that of the row's server. */
  predicate TransitionWanted(f: TransitionFilters, row: View, clock: Clock) {
    && (f.batch.Some? ==> row(BatchId) == f.batch)
    && Matches(f.server, row(ServerId))
    && Matches(f.from, row(FromState))
    && Matches(f.to, row(ToState))
    && Matches(f.actor, row(TriggeredBy))
    && Matches(f.job, row(JobType))
    && InTime(f, row(Timestamp), clock)
  }

  /** What the history builder selects, spelled out: a filter that is missing or empty is inactive, except that an empty
      batch id is looked for. */
  lemma TransitionWantedMeans(f: TransitionFilters, row: View, clock: Clock)
    ensures TransitionWanted(f, row, clock) <==>
              && (f.batch == None || row(BatchId) == f.batch)
              && (f.server in {None, Some("")} || row(ServerId) == f.server)
              && (f.from in {None, Some("")} || row(FromState) == f.from)
              && (f.to in {None, Some("")} || row(ToState) == f.to)
              && (f.actor in {None, Some("")} || row(TriggeredBy) == f.actor)
              && (f.job in {None, Some("")} || row(JobType) == f.job)
              && (f.since in {None, Some("")} ||
                    (row(Timestamp).Some? && clock(row(Timestamp).value) >= clock(f.since.value)))
              && (f.until in {None, Some("")} ||
                    (row(Timestamp).Some? && clock(row(Timestamp).value) <= clock(f.until.value)))
  {
    hide Truthy, Matches;
    MatchesMeans(f.server, row(ServerId));
    MatchesMeans(f.from, row(FromState));
    MatchesMeans(f.to, row(ToState));
    MatchesMeans(f.actor, row(TriggeredBy));
    MatchesMeans(f.job, row(JobType));
    MatchesMeans(f.since, None);
    MatchesMeans(f.until, None);
  }

  /** The step that the builder repeats for each optional equality filter. */
  method AddEquality(conditions: seq<Condition>, params: seq<string>, filter: Option<string>, col: Column,
                     ghost clock: Clock)
    returns (conditions': seq<Condition>, params': seq<string>)
    requires WellNumbered(conditions, params)
    ensures WellNumbered(conditions', params')
    ensures forall row: View :: Selects(conditions', params', row, clock) <==>
              Selects(conditions, params, row, clock) && (filter in {None, Some("")} || row(col) == filter)
  {
    hide Selects, WellNumbered;
    conditions', params' := conditions, params;
    if Truthy(filter) {
      Pushed(conditions, params, col, Equals, filter.value, clock);
      params' := params' + [filter.value];
      conditions' := conditions' + [Compare(col, Equals, |params'|)];
    }
  }

  /** As above for the history; the servers table is joined exactly when its batch column is needed. */
  method ListTransitionsQuery(f: TransitionFilters, ghost clock: Clock) returns (q: Query)
    ensures (q.join <==> f.batch.Some?) && WellNumbered(q.conditions, q.params)
    ensures forall row: View :: Selects(q.conditions, q.params, row, clock) <==> TransitionWanted(f, row, clock)
  {
    hide Selects, WellNumbered, Like;
    var conditions: seq<Condition>, params: seq<string> := [], [];
    NothingAdded(clock);
    var join := false;
    if f.batch.Some? {
      join := true;
      Pushed(conditions, params, BatchId, Equals, f.batch.value, clock);
      params := params + [f.batch.value];
      conditions := conditions + [Compare(BatchId, Equals, |params|)];
    }
    conditions, params := AddEquality(conditions, params, f.server, ServerId, clock);
    conditions, params := AddEquality(conditions, params, f.from, FromState, clock);
    conditions, params := AddEquality(conditions, params, f.to, ToState, clock);
    conditions, params := AddEquality(conditions, params, f.actor, TriggeredBy, clock);
    conditions, params := AddEquality(conditions, params, f.job, JobType, clock);
    if Truthy(f.since) {
      Pushed(conditions, params, Timestamp, AtLeast, f.since.value, clock);
      params := params + [f.since.value];
      conditions := conditions + [Compare(Timestamp, AtLeast, |params|)];
    }
    if Truthy(f.until) {
      Pushed(conditions, params, Timestamp, AtMost, f.until.value, clock);
      params := params + [f.until.value];
      conditions := conditions + [Compare(Timestamp, AtMost, |params|)];
    }
    q := Query(join, conditions, params);
  }

  // ---- pattern matching ----

  function Lower(c: char): char { if 'A' <= c <= 'Z' then (c as int + 32) as char else c }

  /** Only the two cases of one letter are the same to it. */
  lemma LettersFold(a: char, b: char)
    ensures Lower(a) == Lower(b) <==>
              || a == b
              || ('A' <= a <= 'Z' && b as int == a as int + 32)
              || ('A' <= b <= 'Z' && a as int == b as int + 32)
  {
  }

  /** PostgreSQL's ILIKE: % stands for any text, _ for any character, and \ takes away the next one's meaning. */
  predicate Like(text: string, pattern: string)
    decreases |pattern|, |text|
  {
    if pattern == "" then text == ""
    else if pattern[0] == '%' then Like(text, pattern[1..]) || (text != "" && Like(text[1..], pattern))
    else if text == "" then false
    else if pattern[0] == '_' then Like(text[1..], pattern[1..])
    else if pattern[0] == '\\' then
      |pattern| > 1 && Lower(text[0]) == Lower(pattern[1]) && Like(text[1..], pattern[2..])
    else Lower(text[0]) == Lower(pattern[0]) && Like(text[1..], pattern[1..])
  }

  predicate SameText(a: string, b: string) {
    |a| == |b| && forall i :: 0 <= i < |a| ==> Lower(a[i]) == Lower(b[i])
  }

  predicate OccursAt(text: string, term: string, i: nat) {
    i + |term| <= |text| && SameText(text[i..i + |term|], term)
  }

  /** The term occurs in the text, upper and lower case being the same. */
  ghost predicate Contains(text: string, term: string) { exists i :: OccursAt(text, term, i) }

  predicate IsSpecial(c: char) { c == '%' || c == '_' || c == '\\' }

  predicate Plain(term: string) { forall i :: 0 <= i < |term| ==> !IsSpecial(term[i]) }

  lemma {:induction false} PercentMatchesAll(text: string)
    ensures Like(text, "%")
  {
    if text != "" { PercentMatchesAll(text[1..]); }
  }

  lemma {:induction false} PlainPrefix(text: string, term: string)
    requires Plain(term)
    ensures Like(text, term + "%") <==> OccursAt(text, term, 0)
    decreases |term|
  {
    if term == "" {
      assert term + "%" == "%";
      PercentMatchesAll(text);
    } else {
      assert (term + "%")[1..] == term[1..] + "%";
      if text != "" {
        PlainPrefix(text[1..], term[1..]);
        if OccursAt(text, term, 0) {
          assert text[..|term|][1..] == text[1..][..|term| - 1];
          assert forall j :: 0 <= j < |term| - 1 ==>
                   term[1..][j] == term[j + 1] && text[1..][j] == text[..|term|][j + 1];
        }
        if Lower(text[0]) == Lower(term[0]) && OccursAt(text[1..], term[1..], 0) {
          assert forall j :: 1 <= j < |term| ==>
                   text[..|term|][j] == text[1..][..|term| - 1][j - 1] && term[j] == term[1..][j - 1];
        }
      }
    }
  }

  lemma {:induction false} PercentSkips(text: string, pattern: string)
    ensures Like(text, "%" + pattern) <==> exists i :: 0 <= i <= |text| && Like(text[i..], pattern)
    decreases |text|
  {
    assert ("%" + pattern)[1..] == pattern;
    assert text[0..] == text;
    if text != "" {
      PercentSkips(text[1..], pattern);
      if i :| 0 <= i <= |text| - 1 && Like(text[1..][i..], pattern) { assert text[1..][i..] == text[i + 1..]; }
      if i :| 0 < i <= |text| && Like(text[i..], pattern) { assert text[1..][i - 1..] == text[i..]; }
    }
  }

  lemma PlainTermIsSearched(text: string, term: string)
    requires Plain(term)
    ensures Like(text, "%" + term + "%") <==> Contains(text, term)
  {
    assert "%" + term + "%" == "%" + (term + "%");
    PercentSkips(text, term + "%");
    forall i | 0 <= i <= |text| ensures Like(text[i..], term + "%") <==> OccursAt(text, term, i) {
      PlainPrefix(text[i..], term);
      if i + |term| <= |text| { assert text[i..][0..0 + |term|] == text[i..i + |term|]; }
    }
  }

  /** Without backslashes, a pattern matches any text that differs from it only where it has % or _. */
  lemma {:induction false} WildcardsYield(text: string, term: string)
    requires |text| == |term|
    requires forall j :: 0 <= j < |term| ==> term[j] != '\\' && (text[j] == term[j] || IsSpecial(term[j]))
    ensures Like(text, term + "%")
    decreases |term|
  {
    if term == "" {
      assert term + "%" == "%";
      PercentMatchesAll(text);
    } else {
      assert (term + "%")[1..] == term[1..] + "%";
      WildcardsYield(text[1..], term[1..]);
      if term[0] == '%' { assert Like(text[1..], term + "%"); }
    }
  }

  /** The text that a pattern means literally once its escapes are resolved; a backslash at the end escapes the
      percent sign that the builder appends. */
  function Unescaped(term: string): string {
    if term == "" then ""
    else if term[0] != '\\' then [term[0]] + Unescaped(term[1..])
    else if |term| == 1 then "%"
    else [term[1]] + Unescaped(term[2..])
  }

  lemma {:induction false} UnescapedMatches(term: string)
    ensures Like(Unescaped(term), term + "%")
    decreases |term|
  {
    var text := Unescaped(term);
    if term == "" {
      assert term + "%" == "%";
      PercentMatchesAll(text);
    } else if term[0] != '\\' {
      UnescapedMatches(term[1..]);
      assert (term + "%")[1..] == term[1..] + "%" && text[1..] == Unescaped(term[1..]);
      if term[0] == '%' { assert Like(text[1..], term + "%"); }
    } else if |term| == 1 {
      assert term + "%" == "\\%" && "\\%"[2..] == "" && text[1..] == "";
    } else {
      UnescapedMatches(term[2..]);
      assert (term + "%")[2..] == term[2..] + "%" && text[1..] == Unescaped(term[2..]);
    }
  }

  lemma {:induction false} UnescapedLength(term: string)
    ensures |Unescaped(term)| <= |term|
    decreases |term|
  {
    if term == "" {
    } else if term[0] != '\\' {
      UnescapedLength(term[1..]);
    } else if |term| > 1 {
      UnescapedLength(term[2..]);
    }
  }

  /** Resolving escapes shortens a term, unless its one backslash is its last character. */
  lemma {:induction false} UnescapedIsOther(term: string, i: nat)
    requires i < |term| && term[i] == '\\' && forall j :: 0 <= j < i ==> term[j] != '\\'
    ensures |Unescaped(term)| < |term| || (i == |term| - 1 && |Unescaped(term)| == |term| && Unescaped(term)[i] == '%')
    decreases |term|
  {
    if i > 0 { UnescapedIsOther(term[1..], i - 1); }
    else if |term| > 1 { UnescapedLength(term[2..]); }
  }

  lemma FirstBackslash(term: string) returns (i: nat)
    requires '\\' in term
    ensures i < |term| && term[i] == '\\' && forall j :: 0 <= j < i ==> term[j] != '\\'
  {
    if term[0] == '\\' { return 0; }
    assert term == [term[0]] + term[1..];
    i := FirstBackslash(term[1..]);
    i := i + 1;
    assert forall j :: 1 <= j <= i ==> term[j] == term[1..][j - 1];
  }

  lemma NotContained(text: string, term: string, i: nat)
    requires |text| < |term| || (|text| == |term| && i < |term| && Lower(text[i]) != Lower(term[i]))
    ensures !Contains(text, term)
  {
    if |text| == |term| { assert text[0..0 + |term|] == text; }
  }

  /** A text that the filter lets through although the search term does not occur in it. */
  lemma SpecialTermMisses(term: string) returns (text: string)
    requires !Plain(term)
    ensures Like(text, "%" + term + "%") && !Contains(text, term)
  {
    if '\\' in term {
      var i := FirstBackslash(term);
      text := Unescaped(term);
      UnescapedMatches(term);
      UnescapedIsOther(term, i);
      NotContained(text, term, i);
    } else {
      var i :| 0 <= i < |term| && IsSpecial(term[i]);
      text := term[i := 'x'];
      WildcardsYield(text, term);
      NotContained(text, term, i);
    }
    assert "%" + term + "%" == "%" + (term + "%");
    PercentSkips(text, term + "%");
    assert text[0..] == text;
  }

  /** The hostname filter is the documented case-insensitive partial match, for all hostnames, if and only if the
      search term is free of %, _ and backslash: the builder does not escape them. */
  lemma HostnameFilterIsPartialMatch(term: string)
    ensures (forall text :: Like(text, "%" + term + "%") <==> Contains(text, term)) <==> Plain(term)
  {
    if Plain(term) {
      forall text ensures Like(text, "%" + term + "%") <==> Contains(text, term) { PlainTermIsSearched(text, term); }
    } else {
      var text := SpecialTermMisses(term);
    }
  }

  // ---- the join ----

  /** A history row next to the row of a server. */
  function Joined(h: View, s: View): View { (col: Column) => if col.BatchId? then s(BatchId) else h(col) }

  ghost predicate PrimaryKey(servers: seq<View>) {
    forall i, j :: 0 <= i < j < |servers| ==> servers[i](ServerId) != servers[j](ServerId)
  }

  predicate IsOf(h: View, s: View) { s(ServerId) == h(ServerId) }

  ghost predicate References(h: View, servers: seq<View>) {
    exists i :: 0 <= i < |servers| && IsOf(h, servers[i])
  }

  /** How often a query returns a history row: once if it passes, and with a join once for every server row it
      passes with. */
  ghost function Copies(q: Query, h: View, servers: seq<View>, clock: Clock): nat {
    if !q.join then (if Selects(q.conditions, q.params, h, clock) then 1 else 0)
    else if servers == [] then 0
    else
      var s := servers[|servers| - 1];
      Copies(q, h, servers[..|servers| - 1], clock)
      + if IsOf(h, s) && Selects(q.conditions, q.params, Joined(h, s), clock) then 1 else 0
  }

  /** A history row with the batch its server is in. */
  ghost function WithBatch(h: View, servers: seq<View>): View
    requires References(h, servers)
  {
    var i :| 0 <= i < |servers| && IsOf(h, servers[i]);
    Joined(h, servers[i])
  }

  lemma {:induction false} NoStrangers(q: Query, h: View, servers: seq<View>, clock: Clock)
    requires q.join && forall i :: 0 <= i < |servers| ==> !IsOf(h, servers[i])
    ensures Copies(q, h, servers, clock) == 0
  {
    if servers != [] {
      NoStrangers(q, h, servers[..|servers| - 1], clock);
    }
  }

  lemma {:induction false} JoinsOnce(q: Query, h: View, servers: seq<View>, i: nat, clock: Clock)
    requires q.join && PrimaryKey(servers) && i < |servers| && IsOf(h, servers[i])
    ensures Copies(q, h, servers, clock) ==
            if Selects(q.conditions, q.params, Joined(h, servers[i]), clock) then 1 else 0
  {
    var n := |servers| - 1;
    var init := servers[..n];
    if i < n {
      JoinsOnce(q, h, init, i, clock);
    } else {
      forall j | 0 <= j < n ensures !IsOf(h, init[j]) { assert servers[j](ServerId) != servers[n](ServerId); }
      NoStrangers(q, h, init, clock);
    }
  }

  /** Given the primary key and the foreign key, the built query returns each history row that meets the filters
      exactly once, and no other: the join neither loses nor duplicates rows. */
  lemma TransitionsAnswered(f: TransitionFilters, q: Query, h: View, servers: seq<View>, clock: Clock)
    requires (q.join <==> f.batch.Some?)
    requires forall row: View :: Selects(q.conditions, q.params, row, clock) <==> TransitionWanted(f, row, clock)
    requires PrimaryKey(servers) && References(h, servers)
    ensures Copies(q, h, servers, clock) == if TransitionWanted(f, WithBatch(h, servers), clock) then 1 else 0
  {
    var i :| 0 <= i < |servers| && IsOf(h, servers[i]) && WithBatch(h, servers) == Joined(h, servers[i]);
    if q.join {
      JoinsOnce(q, h, servers, i, clock);
    } else {
      assert TransitionWanted(f, h, clock) <==> TransitionWanted(f, Joined(h, servers[i]), clock);
    }
  }
}
