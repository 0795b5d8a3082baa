/** The request service as one worker runs it: the statements of a create, an execute and
    a stale recovery over the shared table, and the two calls that consist of several. */
module RequestServing {
  import opened Wrappers
  import opened RequestLifecycle
  import opened RequestRuns

  datatype Table = Table(rows: Rows, sessions: map<SessionId, Session>)

  /** A create that no other call interleaves with. */
  ghost function CreateAlone(
    t: Table, user: string, key: Option<string>, wanted: Option<SessionId>, generated: SessionId, id: RequestId, now: int
  ): (Table, Answer)
  {
    var session := if wanted.Some? then wanted.value else generated;
    if IsKey(key) && Taken(t.rows, user, key) then (t, AnswerFor(t.rows, HolderOf(t.rows, user, key), wanted))
    else if session in t.sessions && t.sessions[session].user != user then (t, Forbidden)
    else if Taken(t.rows, user, key) then (t, Raised)
    else
      var count := if session in t.sessions then t.sessions[session].count else 0;
      (Table(t.rows[id := Row(session, user, key, Accepted, now)], t.sessions[session := Session(user, count + 1)]),
       AcceptedAs(id))
  }

  predicate IsStale(row: Row, cutoff: int) {
    row.status.Running? && row.updatedAt < cutoff
  }

  function StaleRows(rows: Rows, cutoff: int): set<RequestId> {
    set r | r in rows && IsStale(rows[r], cutoff)
  }

  function Refreshed(row: Row, cutoff: int, now: int): Row {
    if IsStale(row, cutoff) then row.(status := Failed, updatedAt := now) else row
  }

  /** What a whole recovery pass makes of the table. */
  function Recovered(rows: Rows, cutoff: int, now: int): Rows {
    map r | r in rows :: Refreshed(rows[r], cutoff, now)
  }

  class RequestService {
    var rows: Rows
    var sessions: map<SessionId, Session>

    constructor ()
      ensures rows == map[] && sessions == map[] && Valid()
    {
      rows, sessions := map[], map[];
    }

    ghost predicate Valid()
      reads this
    {
      UniqueKeys(rows)
    }

    ghost function View(): Table
      reads this
    {
      Table(rows, sessions)
    }

    method FindByIdempotencyKey(user: string, key: string) returns (found: Option<RequestId>)
      ensures found.Some? <==> Taken(rows, user, Some(key))
      ensures found.Some? ==> found.value in rows && rows[found.value].user == user && rows[found.value].key == Some(key)
    {
      found := None;
      var rest := rows.Keys;
      while rest != {}
        invariant rest <= rows.Keys && found.None?
        invariant forall r | r in rows && r !in rest :: !(rows[r].user == user && rows[r].key == Some(key))
        decreases |rest|
      {
        var r :| r in rest;
        if rows[r].user == user && rows[r].key == Some(key) {
          return Some(r);
        }
        rest := rest - {r};
      }
    }

    /** A create from its first statement to its commit. */
    method Create(user: string, key: Option<string>, wanted: Option<SessionId>, generated: SessionId, id: RequestId, now: int)
      returns (answer: Answer)
      requires Valid() && id !in rows
      modifies this
      ensures Valid()
      ensures (View(), answer) == CreateAlone(old(View()), user, key, wanted, generated, id, now)
    {
      var found := None;
      if key.Some? {
        found := FindByIdempotencyKey(user, key.value);
        if found.Some? && key.value != "" {
          assert HolderOf(rows, user, key) == found.value;
          return AnswerFor(rows, found.value, wanted);
        }
      }
      var session := if wanted.Some? then wanted.value else generated;
      var record := Session(user, 0);
      if session in sessions {
        record := sessions[session];
      }
      if record.user != user {
        return Forbidden;
      }
      if found.Some? {
        return Raised;
      }
      rows := rows[id := Row(session, user, key, Accepted, now)];
      sessions := sessions[session := record.(count := record.count + 1)];
      answer := AcceptedAs(id);
    }

    /** The conditional update that starts an execution. */
    method ClaimForExecution(r: RequestId, caller: Option<string>, now: int) returns (affected: nat)
      modifies this`rows
      ensures rows == ClaimRow(old(rows), r, caller, now)
      ensures affected == 1 || (affected == 0 && rows == old(rows))
      ensures affected == 1 <==>
        && r in old(rows) && !old(rows)[r].status.Running? && !old(rows)[r].status.Completed?
        && (caller.None? || caller.value == old(rows)[r].user)
      ensures affected == 1 ==> rows == old(rows)[r := old(rows)[r].(status := Running, updatedAt := now)]
    {
      affected := 0;
      if r in rows && !rows[r].status.Running? && !rows[r].status.Completed? && (caller.None? || rows[r].user == caller.value) {
        rows := rows[r := rows[r].(status := Running, updatedAt := now)];
        affected := 1;
      }
    }

    /** The commit that ends an execution. */
    method CommitOutcome(r: RequestId, loaded: Status, outcome: Status, now: int)
      modifies this`rows
      ensures rows == FinishRow(old(rows), r, loaded, outcome, now)
    {
      if r in rows {
        if outcome != loaded {
          rows := rows[r := rows[r].(status := outcome)];
        }
        rows := rows[r := rows[r].(updatedAt := now)];
      }
    }

    method MarkStaleFailed(r: RequestId, now: int) returns (affected: nat)
      modifies this`rows
      ensures rows == MarkRow(old(rows), r, now)
      ensures affected == if r in old(rows) && old(rows)[r].status.Running? then 1 else 0
    {
      affected := 0;
      if r in rows && rows[r].status.Running? {
        rows := rows[r := rows[r].(status := Failed, updatedAt := now)];
        affected := 1;
      }
    }

    /** A recovery pass: the running rows are read once, then marked one by one. */
    method RecoverStaleRunning(threshold: nat, now: int) returns (recovered: nat)
      modifies this`rows
      ensures rows == Recovered(old(rows), now - threshold, now)
      ensures recovered == |StaleRows(old(rows), now - threshold)|
    {
      hide StaleRows, Refreshed, Recovered;
      var cutoff := now - threshold;
      ghost var before := rows;
      var rest := rows.Keys;
      recovered := 0;
      AllLeft(before, cutoff);
      while rest != {}
        invariant rest <= before.Keys && rows.Keys == before.Keys
        invariant forall r | r in before :: rows[r] == if r in rest then before[r] else Refreshed(before[r], cutoff, now)
        invariant recovered == |StaleRows(before, cutoff) - rest|
        decreases |rest|
      {
        var r :| r in rest;
        CountStale(before, cutoff, now, rest, r);
        if rows[r].status.Running? && rows[r].updatedAt < cutoff {
          var affected := MarkStaleFailed(r, now);
          recovered := recovered + affected;
        }
        rest := rest - {r};
      }
      AllDone(before, rows, cutoff, now);
    }
  }

  lemma AllLeft(rows: Rows, cutoff: int)
    ensures StaleRows(rows, cutoff) - rows.Keys == {}
  {
  }

  lemma CountStale(rows: Rows, cutoff: int, now: int, rest: set<RequestId>, r: RequestId)
    requires r in rows && r in rest
    ensures |StaleRows(rows, cutoff) - (rest - {r})| ==
            |StaleRows(rows, cutoff) - rest| + (if IsStale(rows[r], cutoff) then 1 else 0)
    ensures Refreshed(rows[r], cutoff, now) ==
            if IsStale(rows[r], cutoff) then rows[r].(status := Failed, updatedAt := now) else rows[r]
  {
    if IsStale(rows[r], cutoff) {
      assert StaleRows(rows, cutoff) - (rest - {r}) == StaleRows(rows, cutoff) - rest + {r};
    } else {
      assert StaleRows(rows, cutoff) - (rest - {r}) == StaleRows(rows, cutoff) - rest;
    }
  }

  lemma AllDone(before: Rows, after: Rows, cutoff: int, now: int)
    requires after.Keys == before.Keys
    requires forall r | r in before :: after[r] == Refreshed(before[r], cutoff, now)
    ensures after == Recovered(before, cutoff, now)
    ensures StaleRows(before, cutoff) - {} == StaleRows(before, cutoff)
  {
  }

  // ------------------------------------------------------------------
  // The service and the protocol
  // ------------------------------------------------------------------

  /** Nothing has changed but that worker `w` is in the middle of call `c`. */
  predicate Pending(s: State, t: State, w: Worker, c: Creator) {
    && t.rows == s.rows && t.sessions == s.sessions && t.executors == s.executors && t.now == s.now
    && t.creators == map[w := c]
  }

  predicate Ended(s: State, t: State, w: Worker, result: (Table, Answer)) {
    && t.executors == s.executors && t.creators == map[]
    && w in t.replies && (Table(t.rows, t.sessions), t.replies[w].answer) == result
  }

  function Before(s: State): Table {
    Table(s.rows, s.sessions)
  }

  lemma AnswerEnds(s: State, t: State, w: Worker, c: Creator, answer: Answer)
    requires Pending(s, t, w, c)
    ensures Ended(s, Answered(t, w, c, answer), w, (Before(s), answer))
  {
  }

  lemma StartAlone(s: State, w: Worker, c: Creator)
    requires s.creators == map[] && c.stage.Opening?
    ensures var t := StartCreate(s, w, c);
      if IsKey(c.key) && Taken(s.rows, c.user, c.key)
      then Ended(s, t, w, (Before(s), AnswerFor(s.rows, HolderOf(s.rows, c.user, c.key), c.wanted)))
      else Pending(s, t, w, c)
  {
    hide Taken, IsKey, HolderOf, AnswerFor;
  }

  lemma FindAlone(s: State, t: State, w: Worker, c: Creator, missing: Stage)
    requires Pending(s, t, w, c)
    ensures var u := FindSession(t, w, missing);
      if c.session !in s.sessions then Pending(s, u, w, c.(stage := missing))
      else if s.sessions[c.session].user != c.user then Ended(s, u, w, (Before(s), Forbidden))
      else Pending(s, u, w, c.(stage := Ready(s.sessions[c.session].count, false)))
  {
    assert t.creators[w] == c && t.sessions == s.sessions;
    hide Answered, AtStage, Pending, Ended;
    AnswerEnds(s, t, w, c, Forbidden);
    StageStays(s, t, w, c, missing);
    if c.session in s.sessions {
      StageStays(s, t, w, c, Ready(s.sessions[c.session].count, false));
    }
  }

  lemma StageStays(s: State, t: State, w: Worker, c: Creator, stage: Stage)
    requires Pending(s, t, w, c)
    ensures Pending(s, AtStage(t, w, stage), w, c.(stage := stage))
  {
  }

  lemma CommitAlone(s: State, t: State, w: Worker, c: Creator, id: RequestId)
    requires Pending(s, t, w, c) && c.stage.Ready? && !(IsKey(c.key) && Taken(s.rows, c.user, c.key))
    ensures Ended(s, TryCommit(t, w, id), w,
      if Taken(s.rows, c.user, c.key) then (Before(s), Raised)
      else (Table(s.rows[id := Row(c.session, c.user, c.key, Accepted, s.now)],
                  s.sessions[c.session := Session(c.user, c.stage.count + 1)]), AcceptedAs(id)))
  {
    hide Taken, IsKey;
  }

  /** The create of a worker whose events nothing interleaves with is `CreateAlone`. */
  lemma CreateAloneIsARun(
    s: State, w: Worker, user: string, key: Option<string>, wanted: Option<SessionId>, generated: SessionId, id: RequestId)
    returns (trace: seq<Event>)
    requires Unused(s, w) && s.creators == map[] && id !in s.rows
    ensures Legal(s, trace)
    ensures Ended(s, After(s, trace), w, CreateAlone(Before(s), user, key, wanted, generated, id, s.now))
  {
    hide Legal, After, Taken, HolderOf, AnswerFor, IsKey, StartCreate, FindSession, TryCommit, Ended;
    NothingHappens(s);
    var c := Creator(user, key, wanted, if wanted.Some? then wanted.value else generated, Opening);
    trace := Extend(s, [], Lookup(w, user, key, wanted, generated));
    StartAlone(s, w, c);
    if !(IsKey(key) && Taken(s.rows, user, key)) {
      trace := FinishAlone(s, trace, w, c, id);
    }
  }

  /** The rest of a create alone, from the read of its session on. */
  lemma FinishAlone(s: State, trace: seq<Event>, w: Worker, c: Creator, id: RequestId) returns (longer: seq<Event>)
    requires Legal(s, trace) && Pending(s, After(s, trace), w, c) && c.stage.Opening? && id !in s.rows
    requires c.session == (if c.wanted.Some? then c.wanted.value else c.session)
    requires !(IsKey(c.key) && Taken(s.rows, c.user, c.key))
    ensures Legal(s, longer)
    ensures Ended(s, After(s, longer), w, CreateAlone(Before(s), c.user, c.key, c.wanted, c.session, id, s.now))
  {
    hide Legal, After, Taken, HolderOf, AnswerFor, IsKey, StartCreate, FindSession, TryCommit, Ended, Unused, IsRunning;
    FindAlone(s, After(s, trace), w, c, Inserting);
    longer := Extend(s, trace, OpenSession(w));
    if c.session !in s.sessions {
      longer := InsertAlone(s, longer, w, c.(stage := Inserting), id);
    } else if s.sessions[c.session].user == c.user {
      longer := EndAlone(s, longer, w, c.(stage := Ready(s.sessions[c.session].count, false)), id);
    }
  }

  /** The rest of a create alone whose session has to be inserted. */
  lemma InsertAlone(s: State, trace: seq<Event>, w: Worker, c: Creator, id: RequestId) returns (longer: seq<Event>)
    requires Legal(s, trace) && Pending(s, After(s, trace), w, c) && c.stage.Inserting? && id !in s.rows
    requires c.session !in s.sessions && !(IsKey(c.key) && Taken(s.rows, c.user, c.key))
    ensures Legal(s, longer)
    ensures Ended(s, After(s, longer), w,
      if Taken(s.rows, c.user, c.key) then (Before(s), Raised)
      else (Table(s.rows[id := Row(c.session, c.user, c.key, Accepted, s.now)],
                  s.sessions[c.session := Session(c.user, 1)]), AcceptedAs(id)))
  {
    hide Legal, After, Taken, IsKey, FindSession, Ended;
    FindAlone(s, After(s, trace), w, c, Ready(0, true));
    longer := Extend(s, trace, FlushSession(w));
    longer := EndAlone(s, longer, w, c.(stage := Ready(0, true)), id);
  }

  lemma EndAlone(s: State, trace: seq<Event>, w: Worker, c: Creator, id: RequestId) returns (longer: seq<Event>)
    requires Legal(s, trace) && Pending(s, After(s, trace), w, c) && c.stage.Ready? && id !in s.rows
    requires !(IsKey(c.key) && Taken(s.rows, c.user, c.key))
    ensures Legal(s, longer)
    ensures Ended(s, After(s, longer), w,
      if Taken(s.rows, c.user, c.key) then (Before(s), Raised)
      else (Table(s.rows[id := Row(c.session, c.user, c.key, Accepted, s.now)],
                  s.sessions[c.session := Session(c.user, c.stage.count + 1)]), AcceptedAs(id)))
  {
    hide Legal, After, Taken, IsKey, TryCommit, Ended;
    CommitAlone(s, After(s, trace), w, c, id);
    longer := Extend(s, trace, CommitRequest(w, id));
  }

  /** Retrying an accepted create with the same key, whatever id and session would be
      generated now, answers with the first request and changes nothing. */
  lemma RetryIsIdempotent(
    t: Table, user: string, key: Option<string>, wanted: Option<SessionId>,
    g1: SessionId, g2: SessionId, id1: RequestId, id2: RequestId, now1: int, now2: int)
    requires UniqueKeys(t.rows) && id1 !in t.rows && IsKey(key)
    requires CreateAlone(t, user, key, wanted, g1, id1, now1).1.AcceptedAs?
    ensures var first := CreateAlone(t, user, key, wanted, g1, id1, now1);
      CreateAlone(first.0, user, key, wanted, g2, id2, now2) == first
  {
    var first := CreateAlone(t, user, key, wanted, g1, id1, now1);
    if !Taken(t.rows, user, key) {
      assert first.0.rows[id1].user == user && first.0.rows[id1].key == key;
      assert Taken(first.0.rows, user, key);
      assert HolderOf(first.0.rows, user, key) == id1;
    }
  }

  /** Recovery is the marks of exactly the stale rows: a second pass at the same moment
      finds nothing, and rows that are not running never change. */
  lemma RecoveryIsExact(rows: Rows, threshold: nat, now: int)
    ensures var after := Recovered(rows, now - threshold, now);
      && StaleRows(after, now - threshold) == {}
      && Recovered(after, now - threshold, now) == after
      && after.Keys == rows.Keys
      && forall r | r in rows ::
           after[r] ==
           if rows[r].status.Running? && now - rows[r].updatedAt > threshold
           then rows[r].(status := Failed, updatedAt := now) else rows[r]
  {
    var after := Recovered(rows, now - threshold, now);
    forall r | r in rows ensures !IsStale(after[r], now - threshold) {
    }
    assert StaleRows(after, now - threshold) == {};
  }
}
