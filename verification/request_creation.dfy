/** What creates keep under every interleaving: one row per key, sound answers, and a
    session counter that never runs ahead. */
module RequestCreation {
  import opened Basics
  import opened Wrappers
  import opened RequestLifecycle

  // ------------------------------------------------------------------
  // Events that touch no row's owner and no create
  // ------------------------------------------------------------------

  predicate SameOwners(s: State, t: State) {
    && s.rows.Keys == t.rows.Keys
    && (forall r | r in s.rows ::
          t.rows[r].session == s.rows[r].session && t.rows[r].user == s.rows[r].user && t.rows[r].key == s.rows[r].key)
  }

  predicate SameCalls(s: State, t: State) {
    t.sessions == s.sessions && t.creators == s.creators && t.replies == s.replies && t.raced == s.raced
  }

  lemma SameRowsOf(s: State, t: State, session: SessionId)
    requires SameOwners(s, t)
    ensures RowsOf(t.rows, session) == RowsOf(s.rows, session)
  {
    assert forall r :: r in s.rows <==> r in s.rows.Keys;
    assert forall r :: r in t.rows <==> r in t.rows.Keys;
  }

  lemma OthersKeepCreation(s: State, t: State)
    requires CreationInv(s) && SameOwners(s, t) && SameCalls(s, t)
    ensures CreationInv(t)
  {
    hide CountSound, ReadSound;
    assert forall r :: r in s.rows <==> r in s.rows.Keys;
    assert forall r :: r in t.rows <==> r in t.rows.Keys;
    forall session: SessionId ensures CountSound(t, session) {
      assert CountSound(s, session);
      SameCount(s, t, session);
    }
    forall w | w in t.creators ensures ReadSound(t, t.creators[w]) {
      assert ReadSound(s, s.creators[w]);
      SameRead(s, t, s.creators[w]);
    }
  }

  lemma SameCount(s: State, t: State, session: SessionId)
    requires CountSound(s, session) && SameOwners(s, t) && t.sessions == s.sessions && t.raced == s.raced
    ensures CountSound(t, session)
  {
    SameRowsOf(s, t, session);
  }

  lemma SameRead(s: State, t: State, c: Creator)
    requires ReadSound(s, c) && SameOwners(s, t) && t.sessions == s.sessions
    ensures ReadSound(t, c)
  {
    SameRowsOf(s, t, c.session);
  }

  // ------------------------------------------------------------------
  // Answers and stages
  // ------------------------------------------------------------------

  predicate FitsKey(s: State, c: Creator, answer: Answer) {
    answer.AcceptedAs? ==>
      && answer.request in s.rows && s.rows[answer.request].user == c.user
      && (IsKey(c.key) ==> s.rows[answer.request].key == c.key)
  }

  lemma AnsweringKeepsCreation(s: State, w: Worker, c: Creator, answer: Answer)
    requires CreationInv(s) && FitsKey(s, c, answer)
    ensures CreationInv(Answered(s, w, c, answer))
  {
    hide CountSound, ReadSound;
    var t := Answered(s, w, c, answer);
    forall session: SessionId ensures CountSound(t, session) {
      assert CountSound(s, session);
      SameCount(s, t, session);
    }
    forall v | v in t.creators ensures ReadSound(t, t.creators[v]) {
      assert ReadSound(s, s.creators[v]);
      SameRead(s, t, s.creators[v]);
    }
  }

  predicate HoldsInsert(c: Creator) {
    c.stage.Ready? && c.stage.inserts
  }

  /** A worker may take up a call, or move to a stage, that the invariant allows. */
  lemma TakingUpKeepsCreation(s: State, t: State, w: Worker, c: Creator)
    requires CreationInv(s) && ReadSound(s, c)
    requires HoldsInsert(c) ==> forall v | v in s.creators :: s.creators[v].session == c.session ==> !HoldsInsert(s.creators[v])
    requires t == s.(creators := s.creators[w := c])
    ensures CreationInv(t)
  {
    hide CountSound, ReadSound;
    forall session: SessionId ensures CountSound(t, session) {
      assert CountSound(s, session);
      SameCount(s, t, session);
    }
    forall v | v in t.creators ensures ReadSound(t, t.creators[v]) {
      assert v != w ==> ReadSound(s, s.creators[v]);
      SameRead(s, t, t.creators[v]);
    }
    assert OneInserter(t) by {
      forall v, u | v in t.creators && u in t.creators && v != u && t.creators[v].session == t.creators[u].session
        ensures !(HoldsInsert(t.creators[v]) && HoldsInsert(t.creators[u]))
      {
        if v != w && u != w {
          assert s.creators[v].session == s.creators[u].session;
        }
      }
    }
  }

  lemma AnswerFits(s: State, c: Creator)
    requires Taken(s.rows, c.user, c.key)
    ensures FitsKey(s, c, AnswerFor(s.rows, HolderOf(s.rows, c.user, c.key), c.wanted))
  {
  }

  lemma StartKeepsCreation(s: State, w: Worker, c: Creator)
    requires CreationInv(s) && c.stage.Opening?
    ensures CreationInv(StartCreate(s, w, c))
  {
    hide CreationInv, AnswerFor, FitsKey, Answered;
    if IsKey(c.key) && Taken(s.rows, c.user, c.key) {
      AnswerFits(s, c);
      AnsweringKeepsCreation(s, w, c, AnswerFor(s.rows, HolderOf(s.rows, c.user, c.key), c.wanted));
    } else {
      TakingUpKeepsCreation(s, s.(creators := s.creators[w := c]), w, c);
    }
  }

  lemma LookAgainKeepsCreation(s: State, w: Worker)
    requires CreationInv(s) && w in s.creators
    ensures CreationInv(LookAgain(s, w))
  {
    hide CreationInv, AnswerFor, Answered;
    var c := s.creators[w];
    if Taken(s.rows, c.user, c.key) {
      hide FitsKey;
      AnswerFits(s, c);
      AnsweringKeepsCreation(s, w, c, AnswerFor(s.rows, HolderOf(s.rows, c.user, c.key), c.wanted));
    } else {
      AnsweringKeepsCreation(s, w, c, Raised);
    }
  }

  lemma StagingKeepsCreation(s: State, w: Worker, stage: Stage)
    requires CreationInv(s) && w in s.creators && ReadSound(s, s.creators[w].(stage := stage))
    requires stage.Ready? && stage.inserts ==>
               forall v | v in s.creators :: s.creators[v].session == s.creators[w].session ==> !HoldsInsert(s.creators[v])
    ensures CreationInv(AtStage(s, w, stage))
  {
    hide CreationInv, ReadSound;
    TakingUpKeepsCreation(s, AtStage(s, w, stage), w, s.creators[w].(stage := stage));
  }

  lemma FindingKeepsCreation(s: State, w: Worker, missing: Stage)
    requires CreationInv(s) && w in s.creators
    requires missing == Inserting ||
             (missing == Ready(0, true) &&
              forall v | v in s.creators :: s.creators[v].session == s.creators[w].session ==> !HoldsInsert(s.creators[v]))
    ensures CreationInv(FindSession(s, w, missing))
  {
    hide AtStage, Answered, UniqueKeys, RepliesSound, OneInserter;
    var c := s.creators[w];
    assert CountSound(s, c.session);
    if c.session in s.sessions {
      hide CreationInv;
      if s.sessions[c.session].user != c.user {
        AnsweringKeepsCreation(s, w, c, Forbidden);
      } else {
        StagingKeepsCreation(s, w, Ready(s.sessions[c.session].count, false));
      }
    } else {
      hide CreationInv;
      StagingKeepsCreation(s, w, missing);
    }
  }

  // ------------------------------------------------------------------
  // The commit of a new request
  // ------------------------------------------------------------------

  lemma InsertAddsRow(s: State, w: Worker, id: RequestId)
    requires w in s.creators && s.creators[w].stage.Ready?
    ensures var c := s.creators[w];
      Inserted(s, w, id).rows == s.rows[id := Row(c.session, c.user, c.key, Accepted, s.now)]
  {
  }

  lemma RowsOfAdded(rows: Rows, id: RequestId, row: Row, session: SessionId)
    requires id !in rows
    ensures RowsOf(rows[id := row], session) == RowsOf(rows, session) + (if row.session == session then {id} else {})
  {
  }

  lemma RowsOfInsert(s: State, w: Worker, id: RequestId, session: SessionId)
    requires w in s.creators && s.creators[w].stage.Ready? && id !in s.rows
    ensures var t := Inserted(s, w, id);
      && (session == s.creators[w].session ==> |RowsOf(t.rows, session)| == |RowsOf(s.rows, session)| + 1)
      && (session != s.creators[w].session ==> RowsOf(t.rows, session) == RowsOf(s.rows, session))
  {
    InsertAddsRow(s, w, id);
    hide Inserted;
    var c := s.creators[w];
    assert id !in RowsOf(s.rows, session);
    RowsOfAdded(s.rows, id, Row(c.session, c.user, c.key, Accepted, s.now), session);
    hide RowsOf;
  }

  lemma InsertKeepsCount(s: State, w: Worker, id: RequestId, session: SessionId)
    requires w in s.creators && s.creators[w].stage.Ready? && id !in s.rows
    requires CountSound(s, session) && ReadSound(s, s.creators[w])
    ensures CountSound(Inserted(s, w, id), session)
  {
    hide RowsOf;
    RowsOfInsert(s, w, id, session);
  }

  lemma InsertKeepsRead(s: State, w: Worker, id: RequestId, d: Creator)
    requires w in s.creators && s.creators[w].stage.Ready? && id !in s.rows
    requires CountSound(s, d.session) && ReadSound(s, s.creators[w]) && ReadSound(s, d)
    requires d.session == s.creators[w].session ==> !(HoldsInsert(d) && HoldsInsert(s.creators[w]))
    ensures ReadSound(Inserted(s, w, id), d)
  {
    hide RowsOf;
    RowsOfInsert(s, w, id, d.session);
  }

  lemma InsertKeepsKeys(s: State, w: Worker, id: RequestId)
    requires w in s.creators && s.creators[w].stage.Ready? && id !in s.rows
    requires UniqueKeys(s.rows) && RepliesSound(s) && !Taken(s.rows, s.creators[w].user, s.creators[w].key)
    ensures UniqueKeys(Inserted(s, w, id).rows) && RepliesSound(Inserted(s, w, id))
  {
  }

  lemma InsertKeepsCreation(s: State, w: Worker, id: RequestId)
    requires w in s.creators && s.creators[w].stage.Ready? && id !in s.rows
    requires CreationInv(s) && !Taken(s.rows, s.creators[w].user, s.creators[w].key)
    ensures CreationInv(Inserted(s, w, id))
  {
    hide Taken, UniqueKeys, RepliesSound, CountSound, RowsOf;
    var t := Inserted(s, w, id);
    InsertKeepsKeys(s, w, id);
    assert ReadSound(s, s.creators[w]);
    forall session: SessionId ensures CountSound(t, session) {
      InsertKeepsCount(s, w, id, session);
    }
    forall v | v in t.creators ensures ReadSound(t, t.creators[v]) {
      InsertKeepsRead(s, w, id, s.creators[v]);
    }
  }

  lemma CommitKeepsCreation(s: State, w: Worker, id: RequestId)
    requires w in s.creators && s.creators[w].stage.Ready? && id !in s.rows && CreationInv(s)
    ensures CreationInv(TryCommit(s, w, id))
  {
    hide CreationInv, Inserted, AtStage, Answered, Taken;
    var c := s.creators[w];
    if !Taken(s.rows, c.user, c.key) {
      InsertKeepsCreation(s, w, id);
    } else if IsKey(c.key) {
      StagingKeepsCreation(s, w, Rechecking);
    } else {
      AnsweringKeepsCreation(s, w, c, Raised);
    }
  }

  // ------------------------------------------------------------------
  // Every event
  // ------------------------------------------------------------------

  predicate IsCreateEvent(e: Event) {
    e.Lookup? || e.OpenSession? || e.FlushSession? || e.CommitRequest? || e.Recheck?
  }

  lemma ClaimKeepsOwners(s: State, w: Worker, r: RequestId, caller: Option<string>)
    ensures SameOwners(s, Claimed(s, w, r, caller)) && SameCalls(s, Claimed(s, w, r, caller))
  {
    assert CanClaim(s.rows, r, caller) ==> r in s.rows;
    hide CanClaim;
    assert Claimed(s, w, r, caller).rows == ClaimRow(s.rows, r, caller, s.now);
  }

  lemma FinishKeepsOwners(s: State, w: Worker, outcome: Status)
    requires w in s.executors && s.executors[w].loaded.Some?
    ensures SameOwners(s, Finished(s, w, outcome)) && SameCalls(s, Finished(s, w, outcome))
  {
  }

  lemma MarkKeepsOwners(s: State, w: Worker, r: RequestId)
    ensures SameOwners(s, Marked(s, w, r)) && SameCalls(s, Marked(s, w, r))
  {
    hide Live, Get;
    var t := Marked(s, w, r);
    assert IsRunning(s, r) ==> t.rows == s.rows[r := s.rows[r].(status := Failed, updatedAt := s.now)];
    assert !IsRunning(s, r) ==> t.rows == s.rows;
    assert SameCalls(s, t);
    hide Marked;
  }

  lemma ExecutionKeepsOwners(s: State, e: Event)
    requires Enabled(s, e) && !IsCreateEvent(e)
    ensures SameOwners(s, Next(s, e)) && SameCalls(s, Next(s, e))
  {
    hide Claimed, Finished, Marked;
    match e {
      case Claim(w, r, caller) => ClaimKeepsOwners(s, w, r, caller);
      case Finish(w, outcome) => FinishKeepsOwners(s, w, outcome);
      case MarkStale(w, r) => MarkKeepsOwners(s, w, r);
      case _ =>
    }
  }

  lemma StepKeepsCreation(s: State, e: Event)
    requires CreationInv(s) && Enabled(s, e)
    ensures CreationInv(Next(s, e))
  {
    hide CreationInv, StartCreate, FindSession, TryCommit, LookAgain;
    match e {
      case Lookup(w, user, key, wanted, generated) =>
        StartKeepsCreation(s, w, Creator(user, key, wanted, if wanted.Some? then wanted.value else generated, Opening));
      case OpenSession(w) => FindingKeepsCreation(s, w, Inserting);
      case FlushSession(w) => FindingKeepsCreation(s, w, Ready(0, true));
      case CommitRequest(w, id) => CommitKeepsCreation(s, w, id);
      case Recheck(w) => LookAgainKeepsCreation(s, w);
      case _ =>
        ExecutionKeepsOwners(s, e);
        OthersKeepCreation(s, Next(s, e));
    }
  }
}
