/** Theorems about every interleaving of creates, executes and stale recoveries. */
module RequestTheorems {
  import opened Basics
  import opened Wrappers
  import opened RequestLifecycle

  // ------------------------------------------------------------------
  // Executors of a request
  // ------------------------------------------------------------------

  lemma SameExecutors(s: State, t: State, r: RequestId)
    requires t.executors == s.executors
    ensures Holders(t, r) == Holders(s, r)
  {
  }

  /** Changing one worker's entry moves it between the holders of two requests. */
  lemma HoldersAfterPut(s: State, t: State, w: Worker, x: Executor, r: RequestId)
    requires t.executors == s.executors[w := x]
    ensures Holders(t, r) == if x.request == r then Holders(s, r) + {w} else Holders(s, r) - {w}
  {
  }

  lemma HoldersAfterRemoval(s: State, t: State, w: Worker, r: RequestId)
    requires t.executors == s.executors - {w}
    ensures Holders(t, r) == Holders(s, r) - {w}
  {
  }

  predicate OnlyExecutor(s: State, w: Worker, r: RequestId) {
    Holders(s, r) == {w}
  }

  lemma SingleHolder(s: State, w: Worker, r: RequestId)
    requires w in Holders(s, r) && Live(s, r) <= 1
    ensures OnlyExecutor(s, w, r)
  {
    var others := Holders(s, r) - {w};
    assert Holders(s, r) == others + {w};
    assert |others| == 0;
  }

  // ------------------------------------------------------------------
  // Execution events
  // ------------------------------------------------------------------

  lemma ClaimKeepsOthers(s: State, t: State, w: Worker, x: Executor, q: RequestId)
    requires Bounded(s, q) && Exclusive(s, q) && w !in s.executors && q != x.request
    requires t.executors == s.executors[w := x] && t.crashes == s.crashes
    requires t.hits == s.hits && t.staleMarks == s.staleMarks && t.orphans == s.orphans
    requires q in s.rows <==> q in t.rows
    requires q in s.rows ==> t.rows[q] == s.rows[q]
    ensures Bounded(t, q) && Exclusive(t, q)
  {
    HoldersAfterPut(s, t, w, x, q);
    assert Holders(t, q) == Holders(s, q);
  }

  lemma ClaimKeepsClaimed(s: State, t: State, w: Worker, x: Executor)
    requires Bounded(s, x.request) && Exclusive(s, x.request) && w !in s.executors
    requires !IsRunning(s, x.request) && IsRunning(t, x.request) && t.rows[x.request].updatedAt == x.claimedAt
    requires x.loaded.None? && t.executors == s.executors[w := x] && t.crashes == s.crashes
    requires t.hits == s.hits && t.staleMarks == s.staleMarks && t.orphans == s.orphans
    ensures Bounded(t, x.request) && Exclusive(t, x.request)
  {
    HoldersAfterPut(s, t, w, x, x.request);
  }

  lemma ClaimKeepsExecution(s: State, w: Worker, r: RequestId, caller: Option<string>)
    requires ExecutionInv(s) && Unused(s, w)
    ensures ExecutionInv(Claimed(s, w, r, caller))
  {
    hide Bounded, Exclusive, Holders;
    var t := Claimed(s, w, r, caller);
    if CanClaim(s.rows, r, caller) {
      forall q: RequestId ensures Bounded(t, q) && Exclusive(t, q) {
        assert Bounded(s, q) && Exclusive(s, q);
        if q == r {
          ClaimKeepsClaimed(s, t, w, Executor(r, s.now, None));
        } else {
          ClaimKeepsOthers(s, t, w, Executor(r, s.now, None), q);
        }
      }
    }
  }

  lemma LoadKeepsExecution(s: State, w: Worker)
    requires ExecutionInv(s) && w in s.executors && s.executors[w].loaded.None?
    ensures ExecutionInv(Loaded(s, w))
  {
    var t := Loaded(s, w);
    var x := s.executors[w];
    forall q: RequestId ensures Bounded(t, q) && Exclusive(t, q) {
      HoldersAfterPut(s, t, w, t.executors[w], q);
      assert Bounded(s, q) && Exclusive(s, q);
      assert Holders(t, q) == Holders(s, q);
      if q == x.request && Get(s.hits, q) == 0 {
        assert w in Holders(s, q);
        assert Live(s, q) >= 1 by {
          assert {w} <= Holders(s, q);
          CardinalityOfSubset({w}, Holders(s, q));
        }
      }
    }
  }

  lemma CardinalityOfSubset<T>(a: set<T>, b: set<T>)
    requires a <= b
    ensures |a| <= |b|
  {
    assert b == a + (b - a);
  }

  /** Losing an executor: the remaining ones are one fewer for its request. */
  lemma RemovalCounts(s: State, t: State, w: Worker)
    requires w in s.executors && t.executors == s.executors - {w}
    ensures forall q: RequestId :: Live(t, q) == Live(s, q) - (if s.executors[w].request == q then 1 else 0)
    ensures forall q: RequestId :: Holders(t, q) <= Holders(s, q)
  {
    forall q: RequestId
      ensures Live(t, q) == Live(s, q) - (if s.executors[w].request == q then 1 else 0) && Holders(t, q) <= Holders(s, q)
    {
      HoldersAfterRemoval(s, t, w, q);
      if s.executors[w].request != q {
        assert Holders(s, q) - {w} == Holders(s, q);
      }
    }
  }

  lemma FinishKeepsExecution(s: State, w: Worker, outcome: Status)
    requires ExecutionInv(s) && w in s.executors && s.executors[w].loaded.Some? && !outcome.Running?
    ensures ExecutionInv(Finished(s, w, outcome))
  {
    var t := Finished(s, w, outcome);
    var r := s.executors[w].request;
    RemovalCounts(s, t, w);
    assert w in Holders(s, r);
    forall q: RequestId ensures Bounded(t, q) && Exclusive(t, q) {
      assert Bounded(s, q) && Exclusive(s, q);
      if q == r && Get(s.hits, q) == 0 {
        SingleHolder(s, w, q);
        assert Holders(t, q) == {};
      }
    }
  }

  lemma CrashKeepsExecution(s: State, w: Worker)
    requires ExecutionInv(s) && w in s.executors
    ensures ExecutionInv(Crashed(s, w))
  {
    var t := Crashed(s, w);
    var r := s.executors[w].request;
    RemovalCounts(s, t, w);
    assert w in Holders(s, r);
    forall q: RequestId ensures Bounded(t, q) && Exclusive(t, q) {
      assert Bounded(s, q) && Exclusive(s, q);
      if q == r && Get(s.hits, q) == 0 {
        SingleHolder(s, w, q);
        assert Holders(t, q) == {};
      }
    }
  }

  lemma MarkKeepsOthers(s: State, t: State, q: RequestId)
    requires Bounded(s, q) && Exclusive(s, q)
    requires t.executors == s.executors && t.crashes == s.crashes
    requires Get(t.hits, q) == Get(s.hits, q) && Get(t.staleMarks, q) == Get(s.staleMarks, q)
    requires q in t.orphans <==> q in s.orphans
    requires q in s.rows <==> q in t.rows
    requires q in s.rows ==> t.rows[q] == s.rows[q]
    ensures Bounded(t, q) && Exclusive(t, q)
  {
    SameExecutors(s, t, q);
  }

  lemma MarkKeepsMarked(s: State, t: State, r: RequestId)
    requires Bounded(s, r) && Exclusive(s, r) && IsRunning(s, r) && !IsRunning(t, r)
    requires t.executors == s.executors && t.crashes == s.crashes
    requires Get(t.staleMarks, r) == Get(s.staleMarks, r) + 1
    requires Get(t.hits, r) == Get(s.hits, r) + (if Live(s, r) > 0 then 1 else 0)
    requires r !in t.orphans
    ensures Bounded(t, r) && Exclusive(t, r)
  {
    SameExecutors(s, t, r);
  }

  lemma MarkKeepsExecution(s: State, w: Worker, r: RequestId)
    requires ExecutionInv(s)
    ensures ExecutionInv(Marked(s, w, r))
  {
    hide Bounded, Exclusive, Holders;
    var t := Marked(s, w, r);
    if !IsRunning(s, r) {
      SameTable(s, t);
      CreationKeepsExecution(s, t);
      return;
    }
    forall q: RequestId ensures Bounded(t, q) && Exclusive(t, q) {
      assert Bounded(s, q) && Exclusive(s, q);
      if q == r {
        MarkKeepsMarked(s, t, r);
      } else {
        MarkKeepsOthers(s, t, q);
      }
    }
  }

  /** Events of creates leave all executions alone: they only add accepted rows. */
  lemma CreationKeepsExecution(s: State, t: State)
    requires ExecutionInv(s)
    requires OnlyAddsAccepted(s, t)
    ensures ExecutionInv(t)
  {
    forall q: RequestId ensures Bounded(t, q) && Exclusive(t, q) {
      SameExecutors(s, t, q);
      assert Bounded(s, q) && Exclusive(s, q);
    }
  }

  /** What the events that are not part of an execution leave alone. */
  predicate OnlyAddsAccepted(s: State, t: State) {
    && t.executors == s.executors && t.hits == s.hits && t.staleMarks == s.staleMarks
    && t.crashes == s.crashes && t.orphans == s.orphans && s.now <= t.now
    && (forall r | r in s.rows :: r in t.rows && t.rows[r] == s.rows[r])
    && (forall r | r in t.rows && r !in s.rows :: t.rows[r].status.Accepted?)
  }

  predicate TouchesExecution(e: Event) {
    e.Claim? || e.Load? || e.Finish? || e.Crash? || e.MarkStale?
  }

  lemma CommitAddsAccepted(s: State, w: Worker, id: RequestId)
    requires w in s.creators && s.creators[w].stage.Ready? && id !in s.rows
    ensures OnlyAddsAccepted(s, Inserted(s, w, id))
  {
  }

  lemma AnsweringAddsNothing(s: State, w: Worker, c: Creator, answer: Answer)
    ensures OnlyAddsAccepted(s, Answered(s, w, c, answer))
  {
  }

  lemma StagingAddsNothing(s: State, w: Worker, stage: Stage)
    requires w in s.creators
    ensures OnlyAddsAccepted(s, AtStage(s, w, stage))
  {
  }

  lemma FindingAddsNothing(s: State, w: Worker, missing: Stage)
    requires w in s.creators
    ensures OnlyAddsAccepted(s, FindSession(s, w, missing))
  {
    hide Answered, AtStage, OnlyAddsAccepted;
    var c := s.creators[w];
    AnsweringAddsNothing(s, w, c, Forbidden);
    StagingAddsNothing(s, w, missing);
    if c.session in s.sessions {
      StagingAddsNothing(s, w, Ready(s.sessions[c.session].count, false));
    }
  }

  lemma LookingAddsNothing(s: State, w: Worker, c: Creator)
    ensures OnlyAddsAccepted(s, StartCreate(s, w, c))
    ensures w in s.creators ==> OnlyAddsAccepted(s, LookAgain(s, w))
  {
    hide Taken, AnswerFor, HolderOf, IsKey, OnlyAddsAccepted, Answered;
    forall v: Worker, d: Creator, answer: Answer ensures OnlyAddsAccepted(s, Answered(s, v, d, answer)) {
      AnsweringAddsNothing(s, v, d, answer);
    }
    SameTable(s, s.(creators := s.creators[w := c]));
  }

  lemma CommitOnlyAdds(s: State, w: Worker, id: RequestId)
    requires w in s.creators && s.creators[w].stage.Ready? && id !in s.rows
    ensures OnlyAddsAccepted(s, TryCommit(s, w, id))
  {
    hide Taken, OnlyAddsAccepted, Inserted, Answered, AtStage, IsKey;
    CommitAddsAccepted(s, w, id);
    StagingAddsNothing(s, w, Rechecking);
    AnsweringAddsNothing(s, w, s.creators[w], Raised);
  }

  lemma OtherEvents(s: State, e: Event)
    requires Enabled(s, e) && !TouchesExecution(e)
    ensures OnlyAddsAccepted(s, Next(s, e))
  {
    hide StartCreate, FindSession, TryCommit, LookAgain, OnlyAddsAccepted;
    match e {
      case Tick(_) => SameTable(s, Next(s, e));
      case Lookup(w, user, key, wanted, generated) =>
        LookingAddsNothing(s, w, Creator(user, key, wanted, if wanted.Some? then wanted.value else generated, Opening));
      case OpenSession(w) => FindingAddsNothing(s, w, Inserting);
      case FlushSession(w) => FindingAddsNothing(s, w, Ready(0, true));
      case CommitRequest(w, id) => CommitOnlyAdds(s, w, id);
      case Recheck(w) => LookingAddsNothing(s, w, s.creators[w]);
      case Observe(w, r, _) => SameTable(s, Next(s, e));
    }
  }

  lemma SameTable(s: State, t: State)
    requires t.rows == s.rows && t.executors == s.executors && t.hits == s.hits
    requires t.staleMarks == s.staleMarks && t.crashes == s.crashes && t.orphans == s.orphans && s.now <= t.now
    ensures OnlyAddsAccepted(s, t)
  {
  }

  lemma StepKeepsExecution(s: State, e: Event)
    requires ExecutionInv(s) && Enabled(s, e)
    ensures ExecutionInv(Next(s, e))
  {
    hide ExecutionInv, Claimed, Loaded, Finished, Crashed, Marked, StartCreate, FindSession, TryCommit, LookAgain;
    match e {
      case Claim(w, r, caller) => ClaimKeepsExecution(s, w, r, caller);
      case Load(w) => LoadKeepsExecution(s, w);
      case Finish(w, outcome) => FinishKeepsExecution(s, w, outcome);
      case Crash(w) => CrashKeepsExecution(s, w);
      case MarkStale(w, r) => MarkKeepsExecution(s, w, r);
      case _ =>
        OtherEvents(s, e);
        CreationKeepsExecution(s, Next(s, e));
    }
  }
}
