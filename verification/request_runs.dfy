/** The request lifecycle over whole runs: any sequence of enabled events, by any
    number of workers, from the empty table. */
module RequestRuns {
  import opened Basics
  import opened Wrappers
  import opened RequestLifecycle
  import opened RequestTheorems
  import opened RequestCreation

  // ------------------------------------------------------------------
  // Runs keep the invariants
  // ------------------------------------------------------------------

  lemma NothingYet()
    ensures ExecutionInv(EMPTY) && CreationInv(EMPTY)
  {
    forall r: RequestId ensures Bounded(EMPTY, r) && Exclusive(EMPTY, r) {
      assert Holders(EMPTY, r) == {};
    }
    forall session: SessionId ensures CountSound(EMPTY, session) {
      assert RowsOf(EMPTY.rows, session) == {};
    }
  }

  lemma {:induction false} RunKeepsInvariants(s: State, trace: seq<Event>)
    requires Legal(s, trace) && ExecutionInv(s) && CreationInv(s)
    ensures ExecutionInv(After(s, trace)) && CreationInv(After(s, trace))
    decreases |trace|
  {
    hide ExecutionInv, CreationInv, Next, Enabled;
    if trace != [] {
      StepKeepsExecution(s, trace[0]);
      StepKeepsCreation(s, trace[0]);
      RunKeepsInvariants(Next(s, trace[0]), trace[1..]);
    }
  }

  lemma Reached(trace: seq<Event>)
    requires Legal(EMPTY, trace)
    ensures ExecutionInv(After(EMPTY, trace)) && CreationInv(After(EMPTY, trace))
  {
    hide *;
    NothingYet();
    RunKeepsInvariants(EMPTY, trace);
  }

  lemma {:induction false} Continue(s: State, first: seq<Event>, rest: seq<Event>)
    requires Legal(s, first) && Legal(After(s, first), rest)
    ensures Legal(s, first + rest) && After(s, first + rest) == After(After(s, first), rest)
    decreases |first|
  {
    hide Next, Enabled;
    if first == [] {
      assert first + rest == rest;
    } else {
      assert (first + rest)[1..] == first[1..] + rest;
      Continue(Next(s, first[0]), first[1..], rest);
    }
  }

  // ------------------------------------------------------------------
  // Who executes a request
  // ------------------------------------------------------------------

  /** In every run, every executor of a request beyond the first is paid for by a stale
      mark of that request, whatever the interleaving. */
  lemma ExecutorsAreBounded(trace: seq<Event>, r: RequestId)
    requires Legal(EMPTY, trace)
    ensures var s := After(EMPTY, trace);
      Live(s, r) + Get(s.crashes, r) <= Get(s.staleMarks, r) + (if IsRunning(s, r) then 1 else 0)
  {
    Reached(trace);
    assert Bounded(After(EMPTY, trace), r);
  }

  /** As long as no stale mark hit a live executor of a request, its row is running
      exactly while it has one executor, alive or crashed, and never has a second. */
  lemma RunningMeansOneExecutor(trace: seq<Event>, r: RequestId)
    requires Legal(EMPTY, trace) && Get(After(EMPTY, trace).hits, r) == 0
    ensures var s := After(EMPTY, trace);
      && Live(s, r) <= 1
      && (IsRunning(s, r) <==> Live(s, r) == 1 || r in s.orphans)
      && !(Live(s, r) == 1 && r in s.orphans)
  {
    Reached(trace);
    assert Exclusive(After(EMPTY, trace), r);
  }

  /** Without a hit, whatever an observation finds stale really is: its executor claimed
      the request longer ago than the threshold. */
  lemma ObservedExecutorIsOld(trace: seq<Event>, v: Worker, r: RequestId, threshold: nat, w: Worker)
    requires Legal(EMPTY, trace) && Get(After(EMPTY, trace).hits, r) == 0
    requires Enabled(After(EMPTY, trace), Observe(v, r, threshold)) && w in Holders(After(EMPTY, trace), r)
    ensures After(EMPTY, trace).executors[w].claimedAt < After(EMPTY, trace).now - threshold
  {
    Reached(trace);
    assert Exclusive(After(EMPTY, trace), r);
  }

  /** A stale mark changes no row but its own, and that one only while it is running. */
  lemma MarkSparesFinished(s: State, v: Worker, r: RequestId, q: RequestId)
    requires Enabled(s, MarkStale(v, r)) && q in s.rows
    ensures q in Next(s, MarkStale(v, r)).rows
    ensures Next(s, MarkStale(v, r)).rows[q] ==
            if q == r && IsRunning(s, r) then s.rows[q].(status := Failed, updatedAt := s.now) else s.rows[q]
    ensures Next(s, MarkStale(v, r)).observed == s.observed - {(v, r)}
  {
    hide Live, Get;
    assert Next(s, MarkStale(v, r)) == Marked(s, v, r);
  }

  // ------------------------------------------------------------------
  // When a completed request stays completed
  // ------------------------------------------------------------------

  predicate Settled(s: State, r: RequestId) {
    r in s.rows && s.rows[r].status.Completed? && Live(s, r) == 0
  }

  lemma SettledIsUnheld(s: State, w: Worker, r: RequestId)
    requires Settled(s, r) && w in s.executors
    ensures s.executors[w].request != r
  {
    assert s.executors[w].request == r <==> w in Holders(s, r);
  }

  lemma ClaimLeavesSettled(s: State, w: Worker, q: RequestId, caller: Option<string>, r: RequestId)
    requires Settled(s, r)
    ensures Settled(Claimed(s, w, q, caller), r) && Claimed(s, w, q, caller).rows[r] == s.rows[r]
  {
    hide Holders;
    if CanClaim(s.rows, q, caller) {
      HoldersAfterPut(s, Claimed(s, w, q, caller), w, Executor(q, s.now, None), r);
      HoldersUnchanged(s, w, r);
    }
  }

  lemma FinishLeavesSettled(s: State, w: Worker, outcome: Status, r: RequestId)
    requires Settled(s, r) && w in s.executors && s.executors[w].loaded.Some?
    ensures Settled(Finished(s, w, outcome), r) && Finished(s, w, outcome).rows[r] == s.rows[r]
  {
    hide Holders;
    SettledIsUnheld(s, w, r);
    HoldersAfterRemoval(s, Finished(s, w, outcome), w, r);
    HoldersUnchanged(s, w, r);
  }

  lemma LoadLeavesSettled(s: State, w: Worker, r: RequestId)
    requires Settled(s, r) && w in s.executors && s.executors[w].request in s.rows
    ensures Settled(Loaded(s, w), r) && Loaded(s, w).rows[r] == s.rows[r]
  {
    hide Holders;
    SettledIsUnheld(s, w, r);
    HoldersAfterPut(s, Loaded(s, w), w, Loaded(s, w).executors[w], r);
    HoldersUnchanged(s, w, r);
  }

  lemma CrashLeavesSettled(s: State, w: Worker, r: RequestId)
    requires Settled(s, r) && w in s.executors
    ensures Settled(Crashed(s, w), r) && Crashed(s, w).rows[r] == s.rows[r]
  {
    hide Holders;
    SettledIsUnheld(s, w, r);
    HoldersAfterRemoval(s, Crashed(s, w), w, r);
    HoldersUnchanged(s, w, r);
  }

  lemma MarkLeavesSettled(s: State, w: Worker, q: RequestId, r: RequestId)
    requires Settled(s, r)
    ensures Settled(Marked(s, w, q), r) && Marked(s, w, q).rows[r] == s.rows[r]
  {
    hide Holders, Get;
    SameExecutors(s, Marked(s, w, q), r);
  }

  lemma StepLeavesSettled(s: State, e: Event, r: RequestId)
    requires Settled(s, r) && Enabled(s, e)
    ensures Settled(Next(s, e), r) && Next(s, e).rows[r] == s.rows[r]
  {
    hide StartCreate, FindSession, TryCommit, LookAgain, Claimed, Loaded, Finished, Crashed, Marked, Holders;
    match e {
      case Claim(w, q, caller) => ClaimLeavesSettled(s, w, q, caller, r);
      case Load(w) => LoadLeavesSettled(s, w, r);
      case Finish(w, outcome) => FinishLeavesSettled(s, w, outcome, r);
      case Crash(w) => CrashLeavesSettled(s, w, r);
      case MarkStale(w, q) => MarkLeavesSettled(s, w, q, r);
      case _ =>
        OtherEvents(s, e);
        SameExecutors(s, Next(s, e), r);
    }
  }

  lemma HoldersUnchanged(s: State, w: Worker, r: RequestId)
    requires Live(s, r) == 0
    ensures Holders(s, r) - {w} == Holders(s, r)
  {
  }

  lemma {:induction false} SettledStays(s: State, r: RequestId, trace: seq<Event>)
    requires Settled(s, r) && Legal(s, trace)
    ensures Settled(After(s, trace), r) && After(s, trace).rows[r] == s.rows[r]
    decreases |trace|
  {
    hide Settled, Next, Enabled;
    if trace != [] {
      StepLeavesSettled(s, trace[0], r);
      assert r in s.rows by { SettledHasRow(s, r); }
      SettledHasRow(Next(s, trace[0]), r);
      SettledStays(Next(s, trace[0]), r, trace[1..]);
      SettledHasRow(After(s, trace), r);
    } else {
      SettledHasRow(s, r);
    }
  }

  lemma SettledHasRow(s: State, r: RequestId)
    requires Settled(s, r)
    ensures r in s.rows
  {
  }

  lemma NothingHappens(s: State)
    ensures Legal(s, []) && After(s, []) == s
  {
  }

  lemma OneEvent(s: State, e: Event)
    requires Enabled(s, e)
    ensures Legal(s, [e]) && After(s, [e]) == Next(s, e)
  {
    hide Next, Enabled;
    assert [e][1..] == [];
    assert Legal(Next(s, e), []);
  }

  lemma Extend(s: State, trace: seq<Event>, e: Event) returns (longer: seq<Event>)
    requires Legal(s, trace) && Enabled(After(s, trace), e)
    ensures longer == trace + [e] && Legal(s, longer) && After(s, longer) == Next(After(s, trace), e)
  {
    hide Next, Enabled, After, Legal;
    OneEvent(After(s, trace), e);
    Continue(s, trace, [e]);
    longer := trace + [e];
  }

  lemma LoadedExecutorCanOverwrite(s: State, r: RequestId, w: Worker) returns (e: Event)
    requires r in s.rows && s.rows[r].status.Completed? && w in Holders(s, r) && s.executors[w].loaded.Some?
    ensures Enabled(s, e) && r in Next(s, e).rows && !Next(s, e).rows[r].status.Completed?
  {
    e := Finish(w, if s.executors[w].loaded.value.Blocked? then Failed else Blocked);
    assert Next(s, e) == Finished(s, w, e.outcome);
  }

  lemma LoadingKeepsHold(s: State, r: RequestId, w: Worker)
    requires r in s.rows && s.rows[r].status.Completed? && w in Holders(s, r)
    ensures var t := Loaded(s, w);
      && t.rows == s.rows && w in Holders(t, r) && t.executors[w].loaded.Some?
  {
  }

  /** Any executor still holding a completed request can overwrite its status. */
  lemma ExecutorCanOverwrite(s: State, r: RequestId, w: Worker) returns (trace: seq<Event>)
    requires r in s.rows && s.rows[r].status.Completed? && w in Holders(s, r)
    ensures Legal(s, trace) && r in After(s, trace).rows && !After(s, trace).rows[r].status.Completed?
  {
    hide Legal, After, Loaded, Finished;
    assert w in s.executors && s.executors[w].request == r;
    if s.executors[w].loaded.None? {
      var t := Next(s, Load(w));
      assert t == Loaded(s, w);
      hide Next, Enabled, Holders;
      OneEvent(s, Load(w));
      LoadingKeepsHold(s, r, w);
      var e := LoadedExecutorCanOverwrite(t, r, w);
      OneEvent(t, e);
      Continue(s, [Load(w)], [e]);
      trace := [Load(w)] + [e];
    } else {
      hide Next, Enabled, Holders;
      var e := LoadedExecutorCanOverwrite(s, r, w);
      OneEvent(s, e);
      trace := [e];
    }
  }

  ghost predicate StaysCompleted(s: State, r: RequestId, trace: seq<Event>)
  {
    Legal(s, trace) ==> r in After(s, trace).rows && After(s, trace).rows[r].status.Completed?
  }

  /** A completed request stays completed in every continuation exactly when nobody
      holds it any more; then not even another field of its row changes. */
  lemma CompletedIsFinalIffUnheld(s: State, r: RequestId)
    requires r in s.rows && s.rows[r].status.Completed?
    ensures (forall trace :: StaysCompleted(s, r, trace)) <==> Live(s, r) == 0
    ensures Live(s, r) == 0 ==>
      forall trace | Legal(s, trace) :: r in After(s, trace).rows && After(s, trace).rows[r] == s.rows[r]
  {
    hide Legal, After, Next, Enabled;
    if Live(s, r) == 0 {
      forall trace | Legal(s, trace)
        ensures r in After(s, trace).rows && After(s, trace).rows[r] == s.rows[r] && StaysCompleted(s, r, trace)
      {
        SettledStays(s, r, trace);
      }
    } else {
      var w :| w in Holders(s, r);
      var trace := ExecutorCanOverwrite(s, r, w);
      assert !StaysCompleted(s, r, trace);
    }
  }

  /** So without a hit, completed is absorbing: in any run that reached it, and
      whatever happens afterwards. */
  lemma CompletedIsAbsorbing(trace: seq<Event>, rest: seq<Event>, r: RequestId)
    requires Legal(EMPTY, trace) && Legal(After(EMPTY, trace), rest)
    requires Get(After(EMPTY, trace).hits, r) == 0
    requires r in After(EMPTY, trace).rows && After(EMPTY, trace).rows[r].status.Completed?
    ensures Legal(EMPTY, trace + rest) && r in After(EMPTY, trace + rest).rows
    ensures After(EMPTY, trace + rest).rows[r] == After(EMPTY, trace).rows[r]
  {
    hide Legal, After, Next, Enabled;
    var s := After(EMPTY, trace);
    RunningMeansOneExecutor(trace, r);
    SettledStays(s, r, rest);
    Continue(EMPTY, trace, rest);
  }

  // ------------------------------------------------------------------
  // What a hit does
  // ------------------------------------------------------------------

  function Hijack(v: Worker, r: RequestId, w: Worker): seq<Event> {
    [MarkStale(v, r), Claim(w, r, None), Load(w)]
  }

  lemma HijackedState(s: State, v: Worker, r: RequestId, first: Worker, second: Worker)
    requires IsRunning(s, r) && (v, r) in s.observed && Unused(s, second) && first in Holders(s, r)
    ensures Legal(s, Hijack(v, r, second))
    ensures var t := After(s, Hijack(v, r, second));
      && first != second && {first, second} <= Holders(t, r) && IsRunning(t, r)
      && t.executors[second].loaded == Some(Running)
  {
    hide Legal, After;
    var a := Next(s, MarkStale(v, r));
    OneEvent(s, MarkStale(v, r));
    var b := Next(a, Claim(second, r, None));
    OneEvent(a, Claim(second, r, None));
    OneEvent(b, Load(second));
    Continue(s, [MarkStale(v, r)], [Claim(second, r, None)]);
    Continue(s, [MarkStale(v, r)] + [Claim(second, r, None)], [Load(second)]);
    assert Hijack(v, r, second) == [MarkStale(v, r)] + [Claim(second, r, None)] + [Load(second)];
  }

  lemma FinishCompletes(t: State, r: RequestId, first: Worker, second: Worker)
    requires IsRunning(t, r) && first != second && {first, second} <= Holders(t, r)
    requires t.executors[second].loaded == Some(Running)
    ensures Enabled(t, Finish(second, Completed))
    ensures var d := Next(t, Finish(second, Completed));
      r in d.rows && d.rows[r].status.Completed? && first in Holders(d, r)
  {
    assert Next(t, Finish(second, Completed)) == Finished(t, second, Completed);
  }

  /** After any stale mark of a live executor, whatever it has done so far, a second one can
      start, and then the status this one completed is overwritten by the first. */
  lemma AnyHitCanUndoCompletion(s: State, v: Worker, r: RequestId, first: Worker, second: Worker) returns (rest: seq<Event>)
    requires IsRunning(s, r) && (v, r) in s.observed && Unused(s, second) && first in Holders(s, r)
    ensures var done := Hijack(v, r, second) + [Finish(second, Completed)];
      && Legal(s, done) && r in After(s, done).rows && After(s, done).rows[r].status.Completed?
      && Legal(s, done + rest) && r in After(s, done + rest).rows && !After(s, done + rest).rows[r].status.Completed?
  {
    hide Legal, After, Hijack;
    HijackedState(s, v, r, first, second);
    var t := After(s, Hijack(v, r, second));
    FinishCompletes(t, r, first, second);
    var d := Next(t, Finish(second, Completed));
    hide Next, Enabled, Holders;
    OneEvent(t, Finish(second, Completed));
    Continue(s, Hijack(v, r, second), [Finish(second, Completed)]);
    rest := ExecutorCanOverwrite(d, r, first);
    Continue(s, Hijack(v, r, second) + [Finish(second, Completed)], rest);
  }

  const FIRST_ROW: Row := Row(0, "ann", None, Accepted, 0)

  lemma FirstRequest() returns (trace: seq<Event>)
    ensures Legal(EMPTY, trace)
    ensures var s := After(EMPTY, trace);
      s.rows == map[0 := FIRST_ROW] && s.executors == map[] && s.now == 0 && s.creators == map[] && s.replies.Keys == {0}
      && s.sessions == map[0 := Session("ann", 1)] && s.raced == {}
  {
    hide After, Legal, Taken;
    assert Legal(EMPTY, []) && After(EMPTY, []) == EMPTY by { NothingHappens(EMPTY); }
    trace := Extend(EMPTY, [], Lookup(0, "ann", None, None, 0));
    trace := Extend(EMPTY, trace, OpenSession(0));
    assert After(EMPTY, trace).creators == map[0 := Creator("ann", None, None, 0, Inserting)];
    trace := Extend(EMPTY, trace, FlushSession(0));
    assert After(EMPTY, trace).creators == map[0 := Creator("ann", None, None, 0, Ready(0, true))];
    assert !Taken(After(EMPTY, trace).rows, "ann", None) by { NoKeyNeverTaken(After(EMPTY, trace).rows, "ann"); }
    trace := Extend(EMPTY, trace, CommitRequest(0, 0));
  }

  lemma NoKeyNeverTaken(rows: Rows, user: string)
    ensures !Taken(rows, user, None)
  {
  }

  /** Such a state is a few events away: an execution that runs past the threshold. */
  lemma AHitIsReachable() returns (trace: seq<Event>)
    ensures Legal(EMPTY, trace)
    ensures var s := After(EMPTY, trace);
      && IsRunning(s, 0) && (2, 0) in s.observed && Unused(s, 3)
      && 1 in Holders(s, 0) && s.executors[1].loaded == Some(Running)
  {
    hide After, Legal;
    trace := FirstRequest();
    trace := Extend(EMPTY, trace, Claim(1, 0, None));
    trace := Extend(EMPTY, trace, Load(1));
    trace := Extend(EMPTY, trace, Tick(1));
    trace := Extend(EMPTY, trace, Observe(2, 0, 0));
  }

  /** A mark that comes late, after the observed executor ended and another claimed the
      request, hits that other one however fresh it is: the update asks for the status
      but not for the age. */
  lemma LateMarkHitsFreshExecutor(s: State, v: Worker, r: RequestId, first: Worker, second: Worker)
    requires IsRunning(s, r) && (v, r) in s.observed && Unused(s, second)
    requires first in Holders(s, r) && s.executors[first].loaded == Some(Running)
    ensures Legal(s, [Finish(first, Failed)] + [Claim(second, r, None)])
    ensures var t := After(s, [Finish(first, Failed)] + [Claim(second, r, None)]);
      && Enabled(t, MarkStale(v, r))
      && second in Holders(t, r) && t.executors[second].claimedAt == t.now
      && Get(Next(t, MarkStale(v, r)).hits, r) == Get(s.hits, r) + 1
  {
    hide Legal, After;
    var a := Next(s, Finish(first, Failed));
    OneEvent(s, Finish(first, Failed));
    var t := Next(a, Claim(second, r, None));
    OneEvent(a, Claim(second, r, None));
    Continue(s, [Finish(first, Failed)], [Claim(second, r, None)]);
    assert second in Holders(t, r);
  }

  /** A worker claims a request in the course of a run. */
  ghost predicate ClaimsIn(s: State, trace: seq<Event>, w: Worker, r: RequestId)
    requires Legal(s, trace)
    decreases |trace|
  {
    trace != [] &&
    ((trace[0].Claim? && trace[0].w == w && trace[0].r == r && CanClaim(s.rows, r, trace[0].caller))
     || ClaimsIn(Next(s, trace[0]), trace[1..], w, r))
  }

  lemma ClaimTakesNoTime(s: State, w: Worker, r: RequestId, caller: Option<string>)
    ensures Claimed(s, w, r, caller).now == s.now
  {
    hide CanClaim, ClaimRow;
  }

  lemma MarkTakesNoTime(s: State, w: Worker, r: RequestId)
    ensures Marked(s, w, r).now == s.now
  {
    hide MarkRow, Get, Live, IsRunning;
  }

  lemma ExecutorTakesNoTime(s: State, w: Worker, outcome: Status)
    requires w in s.executors
    ensures Crashed(s, w).now == s.now
    ensures s.executors[w].request in s.rows ==> Loaded(s, w).now == s.now
    ensures s.executors[w].loaded.Some? ==> Finished(s, w, outcome).now == s.now
  {
    hide FinishRow, Get, IsRunning;
  }

  lemma TimePasses(s: State, e: Event)
    requires Enabled(s, e)
    ensures s.now <= Next(s, e).now
  {
    hide Claimed, Marked, Crashed, Loaded, Finished, StartCreate, FindSession, TryCommit, LookAgain;
    match e {
      case Claim(w, r, caller) => ClaimTakesNoTime(s, w, r, caller);
      case Load(w) => ExecutorTakesNoTime(s, w, Failed);
      case Finish(w, outcome) => ExecutorTakesNoTime(s, w, outcome);
      case Crash(w) => ExecutorTakesNoTime(s, w, Failed);
      case MarkStale(w, r) => MarkTakesNoTime(s, w, r);
      case _ => OtherEvents(s, e);
    }
  }

  /** A worker that holds a request has held it before, since the same time. */
  predicate HeldBefore(s: State, t: State, w: Worker, r: RequestId) {
    w in Holders(t, r) ==> w in Holders(s, r) && t.executors[w].claimedAt == s.executors[w].claimedAt
  }

  lemma ClaimGivesHold(s: State, v: Worker, q: RequestId, caller: Option<string>, w: Worker, r: RequestId)
    ensures var t := Claimed(s, v, q, caller);
      if v == w && q == r && CanClaim(s.rows, r, caller) then w in Holders(t, r) && t.executors[w].claimedAt == s.now
      else HeldBefore(s, t, w, r)
  {
    hide CanClaim, ClaimRow;
  }

  lemma ExecutorKeepsHold(s: State, v: Worker, outcome: Status, w: Worker, r: RequestId)
    requires v in s.executors
    ensures s.executors[v].request in s.rows ==> HeldBefore(s, Loaded(s, v), w, r)
    ensures s.executors[v].loaded.Some? ==> HeldBefore(s, Finished(s, v, outcome), w, r)
    ensures HeldBefore(s, Crashed(s, v), w, r)
  {
    hide Get, IsRunning, FinishRow;
  }

  lemma MarkKeepsHold(s: State, v: Worker, q: RequestId, w: Worker, r: RequestId)
    ensures HeldBefore(s, Marked(s, v, q), w, r)
  {
    hide Get, Live, IsRunning, MarkRow;
  }

  /** Only a claim gives a worker a request, at the present time. */
  lemma HoldComesFromClaim(s: State, e: Event, w: Worker, r: RequestId)
    requires Enabled(s, e) && w in Holders(Next(s, e), r)
    ensures if e.Claim? && e.w == w && e.r == r && CanClaim(s.rows, r, e.caller)
            then Next(s, e).executors[w].claimedAt == s.now
            else w in Holders(s, r) && Next(s, e).executors[w].claimedAt == s.executors[w].claimedAt
  {
    hide CanClaim, Claimed, Loaded, Finished, Crashed, Marked, Holders;
    match e {
      case Claim(v, q, caller) => ClaimGivesHold(s, v, q, caller, w, r);
      case Load(v) => ExecutorKeepsHold(s, v, Failed, w, r);
      case Finish(v, outcome) => ExecutorKeepsHold(s, v, outcome, w, r);
      case Crash(v) => ExecutorKeepsHold(s, v, Failed, w, r);
      case MarkStale(v, q) => MarkKeepsHold(s, v, q, w, r);
      case _ =>
        OtherEvents(s, e);
        SameExecutors(s, Next(s, e), r);
        hide Next, Enabled;
    }
  }

  /** A worker that holds a request has held it all along, or has claimed it since. */
  lemma {:induction false} HoldOrigin(s: State, trace: seq<Event>, w: Worker, r: RequestId)
    requires Legal(s, trace) && w in Holders(After(s, trace), r)
    ensures var t := After(s, trace);
      if ClaimsIn(s, trace, w, r) then s.now <= t.executors[w].claimedAt
      else w in Holders(s, r) && t.executors[w].claimedAt == s.executors[w].claimedAt
    decreases |trace|
  {
    hide Next, Enabled, Holders, CanClaim;
    if trace != [] {
      HoldOrigin(Next(s, trace[0]), trace[1..], w, r);
      TimePasses(s, trace[0]);
      if !ClaimsIn(Next(s, trace[0]), trace[1..], w, r) {
        HoldComesFromClaim(s, trace[0], w, r);
      }
    }
  }

  /** Whatever happens between a stale observation and its mark: an executor that the mark
      would hit is younger than the threshold of the observation if and only if it claimed
      the request after it. */
  lemma HitIsYoungIffReclaimed(
    trace: seq<Event>, v: Worker, r: RequestId, threshold: nat, rest: seq<Event>, w: Worker)
    requires Legal(EMPTY, trace) && Get(After(EMPTY, trace).hits, r) == 0
    requires Enabled(After(EMPTY, trace), Observe(v, r, threshold))
    requires Legal(Next(After(EMPTY, trace), Observe(v, r, threshold)), rest)
    requires w in Holders(After(Next(After(EMPTY, trace), Observe(v, r, threshold)), rest), r)
    ensures var s := After(EMPTY, trace);
      var t := Next(s, Observe(v, r, threshold));
      After(t, rest).executors[w].claimedAt >= s.now - threshold <==> ClaimsIn(t, rest, w, r)
  {
    var s := After(EMPTY, trace);
    var t := Next(s, Observe(v, r, threshold));
    SameExecutors(s, t, r);
    assert t.now == s.now && t.executors == s.executors;
    hide Legal, After, Next, Enabled, ClaimsIn;
    HoldOrigin(t, rest, w, r);
    if w in Holders(s, r) {
      ObservedExecutorIsOld(trace, v, r, threshold, w);
    }
  }

  // ------------------------------------------------------------------
  // Which requests can be started
  // ------------------------------------------------------------------

  /** In every state an unused worker can try to claim any request. It gets it, and makes
      the row running and holds it, if and only if the row is neither running nor completed
      and the caller is not told or is its user: blocked, rejected and failed ones too, and
      nobody else's. Otherwise nothing changes. */
  lemma ClaimStarts(s: State, w: Worker, r: RequestId, caller: Option<string>)
    requires Unused(s, w)
    ensures Enabled(s, Claim(w, r, caller))
    ensures var t := Next(s, Claim(w, r, caller));
      if r in s.rows && !s.rows[r].status.Running? && !s.rows[r].status.Completed?
         && (caller.None? || caller.value == s.rows[r].user)
      then
        && t.rows == s.rows[r := s.rows[r].(status := Running, updatedAt := s.now)]
        && t.executors == s.executors[w := Executor(r, s.now, None)]
        && w in Holders(t, r)
        && t == s.(rows := t.rows, executors := t.executors)
      else t == s
  {
  }

  /** So a blocked, rejected or failed request can be executed again by its user, and any
      outcome of that execution becomes its status, with nothing else changed. */
  lemma RestartEnds(s: State, w: Worker, r: RequestId, outcome: Status) returns (trace: seq<Event>)
    requires Unused(s, w) && r in s.rows && !s.rows[r].status.Running? && !s.rows[r].status.Completed?
    requires outcome.Completed? || outcome.Blocked? || outcome.Rejected? || outcome.Failed?
    ensures trace == [Claim(w, r, Some(s.rows[r].user))] + [Load(w)] + [Finish(w, outcome)]
    ensures Legal(s, trace)
    ensures After(s, trace) == s.(rows := s.rows[r := s.rows[r].(status := outcome, updatedAt := s.now)])
  {
    hide Legal, After;
    var claim := Claim(w, r, Some(s.rows[r].user));
    RestartSteps(s, w, r, outcome);
    hide Next, Enabled;
    var claimed := Next(s, claim);
    var loaded := Next(claimed, Load(w));
    OneEvent(s, claim);
    OneEvent(claimed, Load(w));
    OneEvent(loaded, Finish(w, outcome));
    Continue(s, [claim], [Load(w)]);
    Continue(s, [claim] + [Load(w)], [Finish(w, outcome)]);
    trace := [claim] + [Load(w)] + [Finish(w, outcome)];
  }

  lemma RestartSteps(s: State, w: Worker, r: RequestId, outcome: Status)
    requires Unused(s, w) && r in s.rows && !s.rows[r].status.Running? && !s.rows[r].status.Completed?
    requires outcome.Completed? || outcome.Blocked? || outcome.Rejected? || outcome.Failed?
    ensures var claim := Claim(w, r, Some(s.rows[r].user));
      && Enabled(s, claim) && Enabled(Next(s, claim), Load(w))
      && Enabled(Next(Next(s, claim), Load(w)), Finish(w, outcome))
      && Next(Next(Next(s, claim), Load(w)), Finish(w, outcome)) ==
         s.(rows := s.rows[r := s.rows[r].(status := outcome, updatedAt := s.now)])
  {
    hide CanClaim, ClaimRow, Holders, Claimed, Loaded, Finished;
    var claim := Claim(w, r, Some(s.rows[r].user));
    ClaimStarts(s, w, r, Some(s.rows[r].user));
    LoadAndFinish(s, Next(s, claim), w, r, outcome);
  }

  lemma LoadAndFinish(s: State, claimed: State, w: Worker, r: RequestId, outcome: Status)
    requires r in s.rows && w !in s.executors
    requires claimed == s.(rows := s.rows[r := s.rows[r].(status := Running, updatedAt := s.now)],
                           executors := s.executors[w := Executor(r, s.now, None)])
    requires outcome.Completed? || outcome.Blocked? || outcome.Rejected? || outcome.Failed?
    ensures Enabled(claimed, Load(w)) && Enabled(Next(claimed, Load(w)), Finish(w, outcome))
    ensures Next(Next(claimed, Load(w)), Finish(w, outcome)) ==
            s.(rows := s.rows[r := s.rows[r].(status := outcome, updatedAt := s.now)])
  {
    var loaded := Next(claimed, Load(w));
    assert loaded == claimed.(executors := s.executors[w := Executor(r, s.now, Some(Running))]);
    assert s.executors[w := Executor(r, s.now, Some(Running))] - {w} == s.executors;
  }

  /** An event that ends the execution of a worker. */
  predicate Ends(e: Event, w: Worker) {
    (e.Finish? || e.Crash?) && e.w == w
  }

  lemma LoadedStaysOnce(s: State, e: Event, w: Worker)
    requires Enabled(s, e) && !Ends(e, w) && w in s.executors && s.executors[w].loaded.Some?
    ensures w in Next(s, e).executors && Next(s, e).executors[w] == s.executors[w]
  {
    hide CanClaim, Holders, Live, Get, IsRunning, ClaimRow, FinishRow, MarkRow;
    match e {
      case Claim(_, _, _) =>
      case Load(_) =>
      case Finish(_, _) =>
      case Crash(_) =>
      case MarkStale(_, _) =>
      case _ =>
        OtherEvents(s, e);
        hide Next, Enabled;
    }
  }

  lemma {:induction false} LoadedStays(s: State, trace: seq<Event>, w: Worker)
    requires Legal(s, trace) && (forall e | e in trace :: !Ends(e, w))
    requires w in s.executors && s.executors[w].loaded.Some?
    ensures w in After(s, trace).executors && After(s, trace).executors[w] == s.executors[w]
    decreases |trace|
  {
    hide Next, Enabled, Ends;
    if trace != [] {
      LoadedStaysOnce(s, trace[0], w);
      LoadedStays(Next(s, trace[0]), trace[1..], w);
    }
  }

  /** What a row is when an executor reads it. */
  lemma LoadReads(s: State, w: Worker)
    requires Enabled(s, Load(w))
    ensures var t := Next(s, Load(w));
      && w in t.executors && t.executors[w].request == s.executors[w].request
      && t.executors[w].loaded == Some(s.rows[s.executors[w].request].status)
  {
  }

  lemma FinishWrites(s: State, w: Worker, outcome: Status)
    requires Enabled(s, Finish(w, outcome)) && s.executors[w].request in s.rows
    ensures var r := s.executors[w].request;
      Next(s, Finish(w, outcome)).rows ==
      s.rows[r := s.rows[r].(status := if s.executors[w].loaded == Some(outcome) then s.rows[r].status else outcome,
                             updatedAt := s.now)]
  {
  }

  /** In every run, whatever happens between an executor's reading of its row and its end:
      the outcome becomes the status of the row, over anything else that was written there,
      unless it is the status that was read; then the row keeps the status it has by now.
      The time is always written, and no other row changes. */
  lemma OutcomeIsWrittenUnlessRead(trace: seq<Event>, w: Worker, rest: seq<Event>, outcome: Status)
    requires Legal(EMPTY, trace) && Enabled(After(EMPTY, trace), Load(w))
    requires Legal(Next(After(EMPTY, trace), Load(w)), rest) && (forall e | e in rest :: !Ends(e, w))
    requires outcome.Completed? || outcome.Blocked? || outcome.Rejected? || outcome.Failed?
    ensures var s := After(EMPTY, trace);
      var t := After(Next(s, Load(w)), rest);
      var r := s.executors[w].request;
      && r in s.rows && r in t.rows
      && Enabled(t, Finish(w, outcome))
      && Next(t, Finish(w, outcome)).rows ==
         t.rows[r := t.rows[r].(status := if outcome == s.rows[r].status then t.rows[r].status else outcome,
                                updatedAt := t.now)]
  {
    var s := After(EMPTY, trace);
    LoadReads(s, w);
    var loaded := Next(s, Load(w));
    Reached(trace);
    StepKeepsExecution(s, Load(w));
    StepKeepsCreation(s, Load(w));
    RunKeepsInvariants(loaded, rest);
    LoadedStays(loaded, rest, w);
    var t := After(loaded, rest);
    assert t.executors[w].request in t.rows;
    hide Legal, After, Bounded, Exclusive, CreationInv;
    FinishWrites(t, w, outcome);
  }

  // ------------------------------------------------------------------
  // Creates
  // ------------------------------------------------------------------

  /** However creates with the same user and key interleave, they leave at most one row. */
  lemma OneRowPerKey(trace: seq<Event>, r: RequestId, q: RequestId)
    requires Legal(EMPTY, trace)
    requires var s := After(EMPTY, trace);
      && r in s.rows && q in s.rows && s.rows[r].key.Some?
      && s.rows[r].user == s.rows[q].user && s.rows[r].key == s.rows[q].key
    ensures r == q
  {
    Reached(trace);
  }

  /** All creates of one user with the same non-empty key that were accepted were
      answered with the same request, which exists and is that user's. */
  lemma SameKeySameAnswer(trace: seq<Event>, v: Worker, w: Worker)
    requires Legal(EMPTY, trace)
    requires var s := After(EMPTY, trace);
      && v in s.replies && w in s.replies && s.replies[v].answer.AcceptedAs? && s.replies[w].answer.AcceptedAs?
      && s.replies[v].user == s.replies[w].user && s.replies[v].key == s.replies[w].key && IsKey(s.replies[v].key)
    ensures var s := After(EMPTY, trace);
      && s.replies[v].answer == s.replies[w].answer
      && s.replies[v].answer.request in s.rows
      && s.rows[s.replies[v].answer.request].user == s.replies[v].user
      && s.rows[s.replies[v].answer.request].key == s.replies[v].key
  {
    Reached(trace);
  }

  // ------------------------------------------------------------------
  // The empty key
  // ------------------------------------------------------------------

  predicate IsUnkeyed(s: State, w: Worker) {
    w in s.replies && s.replies[w].answer.AcceptedAs? && !IsKey(s.replies[w].key)
  }

  /** A key that is not looked up is answered only by the create that inserted its row. */
  ghost predicate UnkeyedInv(s: State) {
    && (forall w | w in s.creators && s.creators[w].stage.Rechecking? :: IsKey(s.creators[w].key))
    && (forall w | IsUnkeyed(s, w) ::
          var a := s.replies[w];
          a.answer.request in s.rows && s.rows[a.answer.request].user == a.user && s.rows[a.answer.request].key == a.key)
    && (forall v, w | IsUnkeyed(s, v) && IsUnkeyed(s, w) && v != w ::
          s.replies[v].answer.request != s.replies[w].answer.request)
  }

  lemma AnsweringKeepsUnkeyed(s: State, w: Worker, c: Creator, answer: Answer)
    requires UnkeyedInv(s) && (answer.AcceptedAs? ==> IsKey(c.key))
    ensures UnkeyedInv(Answered(s, w, c, answer))
  {
    hide IsKey;
    var t := Answered(s, w, c, answer);
    assert forall v :: IsUnkeyed(t, v) ==> v != w && IsUnkeyed(s, v);
  }

  lemma TakingUpKeepsUnkeyed(s: State, w: Worker, c: Creator)
    requires UnkeyedInv(s) && (c.stage.Rechecking? ==> IsKey(c.key))
    ensures UnkeyedInv(s.(creators := s.creators[w := c]))
  {
    hide IsKey;
    var t := s.(creators := s.creators[w := c]);
    assert forall v :: IsUnkeyed(t, v) <==> IsUnkeyed(s, v);
  }

  lemma InsertKeepsUnkeyed(s: State, w: Worker, id: RequestId)
    requires UnkeyedInv(s) && w in s.creators && s.creators[w].stage.Ready? && id !in s.rows
    ensures UnkeyedInv(Inserted(s, w, id))
  {
    hide IsKey;
    var t := Inserted(s, w, id);
    var c := s.creators[w];
    assert t.replies == s.replies[w := Reply(c.user, c.key, c.wanted, c.session, AcceptedAs(id))];
    assert forall v :: IsUnkeyed(t, v) && v != w ==> IsUnkeyed(s, v);
  }

  lemma OthersKeepUnkeyed(s: State, t: State)
    requires UnkeyedInv(s) && SameOwners(s, t) && SameCalls(s, t)
    ensures UnkeyedInv(t)
  {
    hide IsKey;
    assert forall r :: r in s.rows <==> r in s.rows.Keys;
    assert forall r :: r in t.rows <==> r in t.rows.Keys;
    assert forall v :: IsUnkeyed(t, v) <==> IsUnkeyed(s, v);
  }

  lemma StartKeepsUnkeyed(s: State, w: Worker, c: Creator)
    requires UnkeyedInv(s) && c.stage.Opening?
    ensures UnkeyedInv(StartCreate(s, w, c))
  {
    hide UnkeyedInv, Taken, HolderOf, AnswerFor, Answered, IsKey;
    if StartCreate(s, w, c) == s.(creators := s.creators[w := c]) {
      TakingUpKeepsUnkeyed(s, w, c);
    } else {
      AnsweringKeepsUnkeyed(s, w, c, AnswerFor(s.rows, HolderOf(s.rows, c.user, c.key), c.wanted));
    }
  }

  lemma FindingKeepsUnkeyed(s: State, w: Worker, missing: Stage)
    requires UnkeyedInv(s) && w in s.creators && !missing.Rechecking?
    ensures UnkeyedInv(FindSession(s, w, missing))
  {
    hide UnkeyedInv, Answered, IsKey;
    var c := s.creators[w];
    AnsweringKeepsUnkeyed(s, w, c, Forbidden);
    TakingUpKeepsUnkeyed(s, w, c.(stage := missing));
    if c.session in s.sessions {
      TakingUpKeepsUnkeyed(s, w, c.(stage := Ready(s.sessions[c.session].count, false)));
    }
  }

  lemma CommitKeepsUnkeyed(s: State, w: Worker, id: RequestId)
    requires UnkeyedInv(s) && w in s.creators && s.creators[w].stage.Ready? && id !in s.rows
    ensures UnkeyedInv(TryCommit(s, w, id))
  {
    hide UnkeyedInv, Taken, Inserted, Answered, IsKey;
    var c := s.creators[w];
    if !Taken(s.rows, c.user, c.key) {
      InsertKeepsUnkeyed(s, w, id);
    } else if IsKey(c.key) {
      TakingUpKeepsUnkeyed(s, w, c.(stage := Rechecking));
    } else {
      AnsweringKeepsUnkeyed(s, w, c, Raised);
    }
  }

  lemma LookAgainKeepsUnkeyed(s: State, w: Worker)
    requires UnkeyedInv(s) && w in s.creators && s.creators[w].stage.Rechecking?
    ensures UnkeyedInv(LookAgain(s, w))
  {
    var c := s.creators[w];
    assert IsKey(c.key);
    hide UnkeyedInv, Taken, HolderOf, AnswerFor, Answered, IsKey;
    if Taken(s.rows, c.user, c.key) {
      AnsweringKeepsUnkeyed(s, w, c, AnswerFor(s.rows, HolderOf(s.rows, c.user, c.key), c.wanted));
    } else {
      AnsweringKeepsUnkeyed(s, w, c, Raised);
    }
  }

  lemma StepKeepsUnkeyed(s: State, e: Event)
    requires UnkeyedInv(s) && Enabled(s, e)
    ensures UnkeyedInv(Next(s, e))
  {
    hide UnkeyedInv, StartCreate, FindSession, TryCommit, LookAgain, Claimed, Finished, Marked, SameOwners, SameCalls;
    match e {
      case Lookup(w, user, key, wanted, generated) =>
        StartKeepsUnkeyed(s, w, Creator(user, key, wanted, if wanted.Some? then wanted.value else generated, Opening));
      case OpenSession(w) => FindingKeepsUnkeyed(s, w, Inserting);
      case FlushSession(w) => FindingKeepsUnkeyed(s, w, Ready(0, true));
      case CommitRequest(w, id) => CommitKeepsUnkeyed(s, w, id);
      case Recheck(w) => LookAgainKeepsUnkeyed(s, w);
      case _ =>
        ExecutionKeepsOwners(s, e);
        OthersKeepUnkeyed(s, Next(s, e));
    }
  }

  lemma {:induction false} RunKeepsUnkeyed(s: State, trace: seq<Event>)
    requires Legal(s, trace) && UnkeyedInv(s)
    ensures UnkeyedInv(After(s, trace))
    decreases |trace|
  {
    hide UnkeyedInv, Next, Enabled;
    if trace != [] {
      StepKeepsUnkeyed(s, trace[0]);
      RunKeepsUnkeyed(Next(s, trace[0]), trace[1..]);
    }
  }

  /** The empty key is not looked up but is subject to the unique constraint: in no run is
      a second create of the same user accepted with it. */
  lemma EmptyKeyIsAcceptedOnce(trace: seq<Event>, v: Worker, w: Worker)
    requires Legal(EMPTY, trace)
    requires var s := After(EMPTY, trace);
      && v in s.replies && w in s.replies && s.replies[v].answer.AcceptedAs? && s.replies[w].answer.AcceptedAs?
      && s.replies[v].user == s.replies[w].user && s.replies[v].key == s.replies[w].key == Some("")
    ensures v == w
  {
    Reached(trace);
    RunKeepsUnkeyed(EMPTY, trace);
    var s := After(EMPTY, trace);
    assert IsUnkeyed(s, v) && IsUnkeyed(s, w);
    OneRowPerKey(trace, s.replies[v].answer.request, s.replies[w].answer.request);
  }

  const READER: Creator := Creator("ann", None, Some(0), 0, Ready(1, false))

  lemma TwoReaders() returns (trace: seq<Event>)
    ensures Legal(EMPTY, trace)
    ensures var s := After(EMPTY, trace);
      s.rows == map[0 := FIRST_ROW] && s.sessions == map[0 := Session("ann", 1)] && s.raced == {}
      && s.creators == map[1 := READER, 2 := READER]
  {
    hide After, Legal, Taken;
    trace := FirstRequest();
    trace := Extend(EMPTY, trace, Lookup(1, "ann", None, Some(0), 0));
    trace := Extend(EMPTY, trace, OpenSession(1));
    assert After(EMPTY, trace).creators == map[1 := READER];
    trace := Extend(EMPTY, trace, Lookup(2, "ann", None, Some(0), 0));
    trace := Extend(EMPTY, trace, OpenSession(2));
  }

  /** Two creates in one session that both read its counter before either commits. */
  lemma LostUpdateIsReachable() returns (trace: seq<Event>)
    ensures Legal(EMPTY, trace)
    ensures var s := After(EMPTY, trace);
      0 in s.raced && 0 in s.sessions && s.sessions[0].count == 2 && |RowsOf(s.rows, 0)| == 3
  {
    hide After, Legal, Taken;
    trace := TwoReaders();
    NoKeyNeverTaken(After(EMPTY, trace).rows, "ann");
    trace := Extend(EMPTY, trace, CommitRequest(1, 1));
    NoKeyNeverTaken(After(EMPTY, trace).rows, "ann");
    trace := Extend(EMPTY, trace, CommitRequest(2, 2));
    assert RowsOf(After(EMPTY, trace).rows, 0) == {0, 1, 2};
  }

  /** A request is always in a session of its own user, and the session counts no more
      requests than it has: the right number unless some commit wrote over a count it
      had not read. */
  lemma CounterNeverRunsAhead(trace: seq<Event>, session: SessionId)
    requires Legal(EMPTY, trace) && session in After(EMPTY, trace).sessions
    ensures var s := After(EMPTY, trace);
      && s.sessions[session].count <= |RowsOf(s.rows, session)|
      && (s.sessions[session].count == |RowsOf(s.rows, session)| <==> session !in s.raced)
      && forall r | r in RowsOf(s.rows, session) :: s.rows[r].user == s.sessions[session].user
  {
    Reached(trace);
    assert CountSound(After(EMPTY, trace), session);
  }

  /** One create at a time: the next starts only after the last was answered. */
  ghost predicate Serial(s: State, trace: seq<Event>)
    requires Legal(s, trace)
    decreases |trace|
  {
    trace == [] || ((trace[0].Lookup? ==> s.creators == map[]) && Serial(Next(s, trace[0]), trace[1..]))
  }

  /** With one create at a time, what it read is what is stored. */
  ghost predicate SerialInv(s: State) {
    && s.raced == {}
    && (forall v, w | v in s.creators && w in s.creators :: v == w)
    && (forall w | w in s.creators && s.creators[w].stage.Ready? ::
          var c := s.creators[w];
          c.stage.count == if c.session in s.sessions then s.sessions[c.session].count else 0)
  }

  lemma AnsweringKeepsSerial(s: State, w: Worker, c: Creator, answer: Answer)
    requires SerialInv(s)
    ensures SerialInv(Answered(s, w, c, answer))
  {
  }

  lemma StagingKeepsSerial(s: State, w: Worker, stage: Stage)
    requires SerialInv(s) && w in s.creators
    requires stage.Ready? ==>
               stage.count == if s.creators[w].session in s.sessions then s.sessions[s.creators[w].session].count else 0
    ensures SerialInv(AtStage(s, w, stage))
  {
  }

  lemma FindingKeepsSerial(s: State, w: Worker, missing: Stage)
    requires SerialInv(s) && w in s.creators && (missing == Inserting || missing == Ready(0, true))
    ensures SerialInv(FindSession(s, w, missing))
  {
    hide SerialInv, Answered, AtStage;
    var c := s.creators[w];
    if c.session !in s.sessions {
      StagingKeepsSerial(s, w, missing);
    } else if s.sessions[c.session].user == c.user {
      StagingKeepsSerial(s, w, Ready(s.sessions[c.session].count, false));
    } else {
      AnsweringKeepsSerial(s, w, c, Forbidden);
    }
  }

  lemma InsertKeepsSerial(s: State, w: Worker, id: RequestId)
    requires SerialInv(s) && w in s.creators && s.creators[w].stage.Ready?
    ensures SerialInv(Inserted(s, w, id))
  {
  }

  lemma CommitKeepsSerial(s: State, w: Worker, id: RequestId)
    requires SerialInv(s) && w in s.creators && s.creators[w].stage.Ready?
    ensures SerialInv(TryCommit(s, w, id))
  {
    hide Taken, IsKey, SerialInv, Inserted, Answered, AtStage;
    var c := s.creators[w];
    if !Taken(s.rows, c.user, c.key) {
      InsertKeepsSerial(s, w, id);
    } else if IsKey(c.key) {
      StagingKeepsSerial(s, w, Rechecking);
    } else {
      AnsweringKeepsSerial(s, w, c, Raised);
    }
  }

  lemma StartKeepsSerial(s: State, w: Worker, c: Creator)
    requires SerialInv(s) && s.creators == map[] && c.stage.Opening?
    ensures SerialInv(StartCreate(s, w, c))
  {
    hide Taken, IsKey, AnswerFor, HolderOf, Answered;
    if StartCreate(s, w, c) != s.(creators := s.creators[w := c]) {
      hide SerialInv;
      AnsweringKeepsSerial(s, w, c, AnswerFor(s.rows, HolderOf(s.rows, c.user, c.key), c.wanted));
    }
  }

  lemma LookAgainKeepsSerial(s: State, w: Worker)
    requires SerialInv(s) && w in s.creators
    ensures SerialInv(LookAgain(s, w))
  {
    hide Taken, AnswerFor, HolderOf, Answered, SerialInv;
    var c := s.creators[w];
    if Taken(s.rows, c.user, c.key) {
      AnsweringKeepsSerial(s, w, c, AnswerFor(s.rows, HolderOf(s.rows, c.user, c.key), c.wanted));
    } else {
      AnsweringKeepsSerial(s, w, c, Raised);
    }
  }

  lemma StepKeepsSerial(s: State, e: Event)
    requires SerialInv(s) && Enabled(s, e) && (e.Lookup? ==> s.creators == map[])
    ensures SerialInv(Next(s, e))
  {
    hide StartCreate, FindSession, TryCommit, LookAgain, Claimed, Finished, Marked, SameOwners, SerialInv;
    match e {
      case Lookup(w, user, key, wanted, generated) =>
        StartKeepsSerial(s, w, Creator(user, key, wanted, if wanted.Some? then wanted.value else generated, Opening));
      case OpenSession(w) => FindingKeepsSerial(s, w, Inserting);
      case FlushSession(w) => FindingKeepsSerial(s, w, Ready(0, true));
      case CommitRequest(w, id) => CommitKeepsSerial(s, w, id);
      case Recheck(w) => LookAgainKeepsSerial(s, w);
      case _ =>
        ExecutionKeepsOwners(s, e);
        SameCallsKeepSerial(s, Next(s, e));
    }
  }

  lemma SameCallsKeepSerial(s: State, t: State)
    requires SerialInv(s) && SameCalls(s, t)
    ensures SerialInv(t)
  {
  }

  lemma {:induction false} SerialRunNeverRaces(s: State, trace: seq<Event>)
    requires Legal(s, trace) && Serial(s, trace) && SerialInv(s)
    ensures After(s, trace).raced == {}
    decreases |trace|
  {
    hide Next, Enabled;
    if trace != [] {
      StepKeepsSerial(s, trace[0]);
      SerialRunNeverRaces(Next(s, trace[0]), trace[1..]);
    }
  }

  /** In a serial run the counter of every session equals its number of requests. */
  lemma SerialCountIsExact(trace: seq<Event>, session: SessionId)
    requires Legal(EMPTY, trace) && Serial(EMPTY, trace) && session in After(EMPTY, trace).sessions
    ensures After(EMPTY, trace).sessions[session].count == |RowsOf(After(EMPTY, trace).rows, session)|
  {
    SerialRunNeverRaces(EMPTY, trace);
    CounterNeverRunsAhead(trace, session);
  }
}
