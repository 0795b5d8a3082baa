/** What the answers of creates mean, under every interleaving. */
module RequestAnswers {
  import opened Wrappers
  import opened RequestLifecycle
  import opened RequestCreation
  import opened RequestRuns

  predicate Holds(rows: Rows, r: RequestId, user: string, key: Option<string>) {
    r in rows && rows[r].user == user && rows[r].key == key
  }

  /** What an answer says of the table: the accepted request is the user's, has the key, and
      is in the session that was wanted; a mismatch means that the key's request is in another
      one; a refusal that the session is another user's; an error that the key is the empty
      one, and is taken. */
  ghost predicate AnswerTells(s: State, c: Reply) {
    match c.answer
    case AcceptedAs(r) =>
      && r in s.rows && s.rows[r].user == c.user
      && (IsKey(c.key) ==> s.rows[r].key == c.key)
      && (c.wanted.Some? ==> s.rows[r].session == c.wanted.value)
    case SessionMismatch =>
      && IsKey(c.key) && c.wanted.Some?
      && exists r :: Holds(s.rows, r, c.user, c.key) && s.rows[r].session != c.wanted.value
    case Forbidden => c.session in s.sessions && s.sessions[c.session].user != c.user
    case Raised => c.key == Some("") && exists r :: Holds(s.rows, r, c.user, c.key)
  }

  /** A call in progress goes for the session it wants, and looks again only for a key that
      is taken. */
  ghost predicate CallTells(s: State, c: Creator) {
    && (c.wanted.Some? ==> c.session == c.wanted.value)
    && (c.stage.Rechecking? ==> IsKey(c.key) && Taken(s.rows, c.user, c.key))
  }

  ghost predicate AnswersInv(s: State) {
    && (forall w | w in s.replies :: AnswerTells(s, s.replies[w]))
    && (forall w | w in s.creators :: CallTells(s, s.creators[w]))
  }

  /** Rows and sessions stay, with their owners. */
  ghost predicate Remains(s: State, t: State) {
    && (forall r | r in s.rows ::
          && r in t.rows && t.rows[r].session == s.rows[r].session
          && t.rows[r].user == s.rows[r].user && t.rows[r].key == s.rows[r].key)
    && (forall x | x in s.sessions :: x in t.sessions && t.sessions[x].user == s.sessions[x].user)
  }

  lemma AnswerRemains(s: State, t: State, c: Reply)
    requires Remains(s, t) && AnswerTells(s, c)
    ensures AnswerTells(t, c)
  {
    match c.answer {
      case SessionMismatch =>
        var r :| Holds(s.rows, r, c.user, c.key) && s.rows[r].session != c.wanted.value;
        assert Holds(t.rows, r, c.user, c.key);
      case Raised =>
        var r :| Holds(s.rows, r, c.user, c.key);
        assert Holds(t.rows, r, c.user, c.key);
      case _ =>
    }
  }

  lemma CallRemains(s: State, t: State, c: Creator)
    requires Remains(s, t) && CallTells(s, c)
    ensures CallTells(t, c)
  {
  }

  /** A step that only ends one call, or takes it to another stage. */
  lemma OneCallMoves(s: State, t: State, w: Worker)
    requires AnswersInv(s) && Remains(s, t)
    requires forall v | v in t.replies && v != w :: v in s.replies && t.replies[v] == s.replies[v]
    requires forall v | v in t.creators && v != w :: v in s.creators && t.creators[v] == s.creators[v]
    requires w in t.replies ==> AnswerTells(t, t.replies[w])
    requires w in t.creators ==> CallTells(t, t.creators[w])
    ensures AnswersInv(t)
  {
    hide AnswerTells, CallTells, Remains;
    forall v | v in t.replies ensures AnswerTells(t, t.replies[v]) {
      if v != w {
        AnswerRemains(s, t, s.replies[v]);
      }
    }
    forall v | v in t.creators ensures CallTells(t, t.creators[v]) {
      if v != w {
        CallRemains(s, t, s.creators[v]);
      }
    }
  }

  lemma AnswerForTells(s: State, c: Creator)
    requires IsKey(c.key) && Taken(s.rows, c.user, c.key)
    ensures var answer := AnswerFor(s.rows, HolderOf(s.rows, c.user, c.key), c.wanted);
      AnswerTells(s, Reply(c.user, c.key, c.wanted, c.session, answer))
  {
    assert Holds(s.rows, HolderOf(s.rows, c.user, c.key), c.user, c.key);
  }

  lemma AnsweredTells(s: State, w: Worker, c: Creator, answer: Answer)
    requires AnswersInv(s) && AnswerTells(s, Reply(c.user, c.key, c.wanted, c.session, answer))
    ensures AnswersInv(Answered(s, w, c, answer))
  {
    hide AnswerTells, CallTells;
    var t := Answered(s, w, c, answer);
    SameAnswer(s, t, t.replies[w]);
    OneCallMoves(s, t, w);
  }

  lemma SameAnswer(s: State, t: State, c: Reply)
    requires t.rows == s.rows && t.sessions == s.sessions && AnswerTells(s, c)
    ensures AnswerTells(t, c)
  {
  }

  lemma SameCall(s: State, t: State, c: Creator)
    requires t.rows == s.rows && CallTells(s, c)
    ensures CallTells(t, c)
  {
  }

  lemma TakenUpTells(s: State, t: State, w: Worker, c: Creator)
    requires AnswersInv(s) && CallTells(s, c) && t == s.(creators := s.creators[w := c])
    ensures AnswersInv(t)
  {
    hide AnswerTells, CallTells;
    SameCall(s, t, c);
    if w in t.replies {
      SameAnswer(s, t, t.replies[w]);
    }
    OneCallMoves(s, t, w);
  }

  lemma StartTells(s: State, w: Worker, c: Creator)
    requires AnswersInv(s) && c.stage.Opening? && (c.wanted.Some? ==> c.session == c.wanted.value)
    ensures AnswersInv(StartCreate(s, w, c))
  {
    assert CallTells(s, c);
    hide AnswersInv, AnswerTells, CallTells, Taken, IsKey, Answered, AnswerFor;
    if IsKey(c.key) && Taken(s.rows, c.user, c.key) {
      AnswerForTells(s, c);
      AnsweredTells(s, w, c, AnswerFor(s.rows, HolderOf(s.rows, c.user, c.key), c.wanted));
    } else {
      TakenUpTells(s, s.(creators := s.creators[w := c]), w, c);
    }
  }

  lemma FindTells(s: State, w: Worker, missing: Stage)
    requires AnswersInv(s) && w in s.creators && !missing.Rechecking?
    ensures AnswersInv(FindSession(s, w, missing))
  {
    var c := s.creators[w];
    assert CallTells(s, c);
    assert CallTells(s, c.(stage := missing));
    if c.session in s.sessions {
      if s.sessions[c.session].user != c.user {
        AnsweredTells(s, w, c, Forbidden);
      } else {
        var stage := Ready(s.sessions[c.session].count, false);
        assert CallTells(s, c.(stage := stage));
        TakenUpTells(s, AtStage(s, w, stage), w, c.(stage := stage));
      }
    } else {
      TakenUpTells(s, AtStage(s, w, missing), w, c.(stage := missing));
    }
  }

  lemma CommitTells(s: State, w: Worker, id: RequestId)
    requires AnswersInv(s) && CreationInv(s) && w in s.creators && s.creators[w].stage.Ready? && id !in s.rows
    ensures AnswersInv(TryCommit(s, w, id))
  {
    var c := s.creators[w];
    assert CallTells(s, c) && ReadSound(s, c);
    hide AnswersInv, CreationInv;
    if !Taken(s.rows, c.user, c.key) {
      InsertedTells(s, w, id);
    } else if IsKey(c.key) {
      TakenUpTells(s, AtStage(s, w, Rechecking), w, c.(stage := Rechecking));
    } else {
      var r :| r in s.rows && s.rows[r].user == c.user && s.rows[r].key == c.key;
      assert Holds(s.rows, r, c.user, c.key);
      AnsweredTells(s, w, c, Raised);
    }
  }

  lemma InsertedTells(s: State, w: Worker, id: RequestId)
    requires AnswersInv(s) && w in s.creators && s.creators[w].stage.Ready? && id !in s.rows
    requires ReadSound(s, s.creators[w])
    ensures AnswersInv(Inserted(s, w, id))
  {
    var c := s.creators[w];
    assert CallTells(s, c);
    var t := Inserted(s, w, id);
    hide AnswersInv, RowsOf;
    assert Remains(s, t);
    assert AnswerTells(t, t.replies[w]);
    hide AnswerTells, CallTells, Remains, ReadSound;
    OneCallMoves(s, t, w);
  }

  lemma LookAgainTells(s: State, w: Worker)
    requires AnswersInv(s) && w in s.creators && s.creators[w].stage.Rechecking?
    ensures AnswersInv(LookAgain(s, w))
  {
    var c := s.creators[w];
    assert CallTells(s, c);
    hide AnswersInv, AnswerTells, Answered, AnswerFor;
    AnswerForTells(s, c);
    AnsweredTells(s, w, c, AnswerFor(s.rows, HolderOf(s.rows, c.user, c.key), c.wanted));
  }

  lemma OthersTell(s: State, t: State)
    requires AnswersInv(s) && SameOwners(s, t) && SameCalls(s, t)
    ensures AnswersInv(t)
  {
    assert forall r :: r in s.rows <==> r in s.rows.Keys;
    assert forall r :: r in t.rows <==> r in t.rows.Keys;
    assert Remains(s, t);
    hide AnswerTells, CallTells, SameOwners, Remains;
    forall v | v in t.replies ensures AnswerTells(t, t.replies[v]) {
      AnswerRemains(s, t, s.replies[v]);
    }
    forall v | v in t.creators ensures CallTells(t, t.creators[v]) {
      CallRemains(s, t, s.creators[v]);
    }
  }

  lemma StepTells(s: State, e: Event)
    requires AnswersInv(s) && CreationInv(s) && Enabled(s, e)
    ensures AnswersInv(Next(s, e))
  {
    hide AnswersInv, CreationInv, StartCreate, FindSession, TryCommit, LookAgain, SameOwners, SameCalls;
    match e {
      case Lookup(w, user, key, wanted, generated) =>
        StartTells(s, w, Creator(user, key, wanted, if wanted.Some? then wanted.value else generated, Opening));
      case OpenSession(w) => FindTells(s, w, Inserting);
      case FlushSession(w) => FindTells(s, w, Ready(0, true));
      case CommitRequest(w, id) => CommitTells(s, w, id);
      case Recheck(w) => LookAgainTells(s, w);
      case _ =>
        ExecutionKeepsOwners(s, e);
        OthersTell(s, Next(s, e));
    }
  }

  lemma {:induction false} RunTells(s: State, trace: seq<Event>)
    requires AnswersInv(s) && CreationInv(s) && Legal(s, trace)
    ensures AnswersInv(After(s, trace))
    decreases |trace|
  {
    hide AnswersInv, CreationInv, Next, Enabled;
    if trace != [] {
      StepTells(s, trace[0]);
      StepKeepsCreation(s, trace[0]);
      RunTells(Next(s, trace[0]), trace[1..]);
    }
  }

  /** However creates interleave, every answer is true of the table from then on: a retry
      that wants another session is told so and never accepted, another user's session is
      refused, and only an empty key that is taken ends in an error. */
  lemma AnswersAreTrue(trace: seq<Event>, w: Worker)
    requires Legal(EMPTY, trace) && w in After(EMPTY, trace).replies
    ensures AnswerTells(After(EMPTY, trace), After(EMPTY, trace).replies[w])
  {
    assert CreationInv(EMPTY) by {
      assert Legal(EMPTY, []) && After(EMPTY, []) == EMPTY;
      Reached([]);
    }
    hide CreationInv, AnswerTells, Legal, After;
    RunTells(EMPTY, trace);
  }
}
