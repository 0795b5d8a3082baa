/** Theorems about whole runs: bounded work, completion on evidence, faithful
    provenance, and termination without the round cap. */
module AgentRuns {
  import opened Basics
  import opened Wrappers
  import opened TaskControl
  import opened ModelManagement
  import opened AgentLoop
  import opened AgentInvariants
  import opened AgentTheorems

  // ------------------------------------------------------------------
  // The route
  // ------------------------------------------------------------------

  lemma ResolveNeedsOnlySetup(m: Manager, m': Manager, name: string)
    requires m.instances == m'.instances && m.setting == m'.setting && m.selected == m'.selected && m.manual == m'.manual
    ensures Resolve(m, name) == Resolve(m', name)
  {
  }

  /** A pick is a live entry other than the failed one. */
  lemma PickIsLive(m: Manager, failed: Key, blocked: set<string>, online: bool)
    ensures var pick := Fallback(m, failed, blocked, online).1;
            pick.Some? ==> pick.value != failed && exists e | e in m.entries :: e.key == pick.value && e.Live()
  {
    var candidates := Candidates(m.entries, online, true);
    FilterMeaning(m.entries, IsLocal);
    FilterMeaning(m.entries, IsVerified);
    FilterMeaning(m.entries, IsAvailable);
    FirstEligibleMeaning(candidates, failed, Recent(Remembered(m.history, failed)), blocked);
  }

  lemma BackingSurvives(m: Manager, k: Key)
    requires m.Valid() && Backed(m)
    ensures Backed(m.(entries := FailureAt(m.entries, k)))
  {
    var m' := m.(entries := FailureAt(m.entries, k));
    FailureCostsRoom(m, k);
    forall e | e in m'.entries && e.Live() ensures LandsOn(m', e.key) {
      var d :| d in m.entries && d.key == e.key && d.Live();
      ResolveNeedsOnlySetup(m, m', e.key.provider);
    }
  }

  lemma HopIsPaid(m0: Manager, r: Route, pick: Key, inst: Instance)
    requires r.manager.Valid() && HopsPaid(m0, r)
    requires pick != r.current && exists e | e in r.manager.entries :: e.key == pick && e.Live()
    requires Resolve(r.manager, pick.provider) == Some(inst)
    ensures HopsPaid(m0, Hop(r, pick, inst))
    ensures Hop(r, pick, inst).current == pick
  {
    FailureCostsRoom(r.manager, r.current);
    BackingSurvives(r.manager, r.current);
    var e :| e in r.manager.entries && e.key == pick && e.Live();
    assert LandsOn(r.manager, e.key);
    assert e in Hop(r, pick, inst).manager.entries;
  }

  lemma AskingIsSound(m0: Manager, requested: Key, r: Route, history: seq<Key>, blocked: set<string>)
    requires RouteSound(m0, requested, r)
    ensures RouteSound(m0, requested, r.(blocked := blocked, manager := r.manager.(history := history)))
  {
    var m := r.manager.(history := history);
    forall name ensures Resolve(m, name) == Resolve(r.manager, name) {
      ResolveNeedsOnlySetup(m, r.manager, name);
    }
    assert Backed(m0) ==> Backed(m);
  }

  lemma FaithfulHop(requested: Key, r: Route, pick: Key, inst: Instance)
    requires Faithful(requested, r) && Resolve(r.manager, pick.provider) == Some(inst)
    ensures Faithful(requested, Hop(r, pick, inst))
  {
    var hop := Hop(r, pick, inst);
    ResolveNeedsOnlySetup(r.manager, hop.manager, pick.provider);
    assert hop.path[..|hop.path| - 1] == r.path;
    assert r.path == r.path[..|r.path| - 1] + [r.current];
  }

  lemma HopIsSound(m0: Manager, requested: Key, r: Route, pick: Key, inst: Instance)
    requires RouteSound(m0, requested, r)
    requires pick != r.current && exists e | e in r.manager.entries :: e.key == pick && e.Live()
    requires Resolve(r.manager, pick.provider) == Some(inst)
    ensures RouteSound(m0, requested, Hop(r, pick, inst))
    ensures |Hop(r, pick, inst).chain| == |r.chain| + 1
  {
    FaithfulHop(requested, r, pick, inst);
    FailureCostsRoom(r.manager, r.current);
    if Backed(m0) {
      HopIsPaid(m0, r, pick, inst);
    }
  }

  lemma RerouteIsSound(m0: Manager, requested: Key, r: Route, connectivity: bool, online: bool)
    requires RouteSound(m0, requested, r)
    ensures var (r', hopped) := Reroute(r, connectivity, online);
            && RouteSound(m0, requested, r')
            && |r'.chain| == |r.chain| + (if hopped then 1 else 0)
  {
    var blocked := if connectivity then r.blocked + {r.current.provider} else r.blocked;
    var (m, pick) := Fallback(r.manager, r.current, blocked, online);
    var asked := r.(blocked := blocked, manager := m);
    AskingIsSound(m0, requested, r, m.history, blocked);
    if pick.Some? && Resolve(m, pick.value.provider).Some? {
      PickIsLive(r.manager, r.current, blocked, online);
      HopIsSound(m0, requested, asked, pick.value, Resolve(m, pick.value.provider).value);
    }
  }

  // ------------------------------------------------------------------
  // Completion
  // ------------------------------------------------------------------

  lemma DecideIsSound(cfg: Config, d: Desk)
    requires Sound(cfg, d) && Undecided(d)
    ensures Sound(cfg, Decide(cfg, d)) && Decided(cfg, Decide(cfg, d))
    ensures Decide(cfg, d).work.log == d.work.log
  {
    hide LogSound, MachineSound;
    EndingIsSound(d.work.machine, Blocked);
    EndingIsSound(d.work.machine, Failed);
    EndingIsSound(d.work.machine, Completed);
    var d' := Decide(cfg, d);
    SoundnessCarriesOver(cfg, d.work, d'.work);
    if d.work.machine.state.Failed? {
      assert !d.talk.finalText.ApprovalPending() && d' == d;
    } else if d.talk.finalText.ApprovalPending() {
      assert d'.work.machine.state.Blocked? && d'.talk == d.talk;
    } else if MutationOwed(cfg, d.work) {
      assert d'.work.machine.state.Failed? && d'.talk.finalText == NotCompleted(d.talk.finalText);
    } else {
      assert d'.work.machine.state.Completed? && d'.talk == d.talk;
    }
  }

  lemma FinishIsSound(cfg: Config, env: Env, d: Desk)
    requires Sound(cfg, d) && Undecided(d)
    ensures Sound(cfg, FinishDesk(cfg, env, d)) && Decided(cfg, FinishDesk(cfg, env, d))
    ensures FinishDesk(cfg, env, d).work.log == d.work.log
  {
    DecideIsSound(cfg, d);
  }

  // ------------------------------------------------------------------
  // Whole runs
  // ------------------------------------------------------------------

  lemma RunningIsSound(cfg: Config, d: Desk)
    requires Running(cfg, d) && RoundsPaid(d, 0)
    ensures Sound(cfg, d) && Undecided(d)
  {
  }

  lemma FailureIsSound(cfg: Config, m0: Manager, requested: Key, s: RunState, connectivity: bool, online: bool)
    requires Running(cfg, s.desk) && RoundsPaid(s.desk, 0) && RunSound(cfg, m0, requested, s)
    ensures var r := HandleFailure(cfg, s, connectivity, online);
            && RunSound(cfg, m0, requested, r.state)
            && (r.flow.Next? ==> r.state.desk == s.desk && |r.state.route.chain| == |s.route.chain| + 1)
            && !r.flow.Leave?
  {
    RunningIsSound(cfg, s.desk);
    EndingIsSound(s.desk.work.machine, Failed);
    RerouteIsSound(m0, requested, s.route, connectivity, online);
  }

  lemma TimeOutIsSound(cfg: Config, d: Desk)
    requires Running(cfg, d) && RoundsPaid(d, 0)
    ensures Sound(cfg, TimeOut(d)) && Undecided(TimeOut(d))
  {
    EndingIsSound(d.work.machine, Failed);
  }

  lemma RoundIsSound(cfg: Config, env: Env, m0: Manager, requested: Key, s: RunState, round: nat)
    requires RunRunning(cfg, m0, requested, s, round)
    ensures var r := Round(cfg, env, s, round);
            && RunSound(cfg, m0, requested, r.state)
            && (r.flow.Next? ==> RunRunning(cfg, m0, requested, r.state, round + 1))
            && (r.flow.Leave? ==> Undecided(r.state.desk))
  {
    hide HandleText, HandleFailure, TimeOut, Sound, Running, RouteSound, Undecided;
    RunningIsSound(cfg, s.desk);
    if env.timeUp(round) {
      TimeOutIsSound(cfg, s.desk);
    } else {
      match env.reply(round) {
        case Unavailable(connectivity, online) =>
          FailureIsSound(cfg, m0, requested, s, connectivity, online);
        case Exception =>
        case Text(text, calls) =>
          HandleTextIsSound(cfg, env, s.desk, text, calls);
          HandleTextCounts(cfg, env, s.desk, text, calls);
      }
    }
  }

  /** The induction over rounds: every run is sound when it ends, and decided unless
      it was interrupted. */
  lemma {:induction false} RunIsSound(cfg: Config, env: Env, m0: Manager, requested: Key, s: RunState, round: nat, limit: nat)
    requires RunRunning(cfg, m0, requested, s, round) && round <= limit
    ensures RunResult(cfg, m0, requested, RunFrom(cfg, env, s, round, limit))
    decreases limit - round
  {
    hide Round, Conclude, RunRunning, RunSound, RunResult, Undecided;
    StillSound(cfg, m0, requested, s, round);
    if round == limit {
      EndingRun(cfg, env, m0, requested, s, true);
    } else {
      RoundIsSound(cfg, env, m0, requested, s, round);
      var r := Round(cfg, env, s, round);
      match r.flow {
        case Next =>
          RunIsSound(cfg, env, m0, requested, r.state, round + 1, limit);
          assert RunFrom(cfg, env, s, round, limit) == RunFrom(cfg, env, r.state, round + 1, limit);
        case Leave =>
          EndingRun(cfg, env, m0, requested, r.state, false);
        case Abort(cause) =>
          InterruptedRun(cfg, m0, requested, r.state, cause);
          assert RunFrom(cfg, env, s, round, limit) == Outcome(r.state, Interrupted(cause));
      }
    }
  }

  lemma StillSound(cfg: Config, m0: Manager, requested: Key, s: RunState, round: nat)
    requires RunRunning(cfg, m0, requested, s, round)
    ensures RunSound(cfg, m0, requested, s) && Undecided(s.desk)
  {
    RunningIsSound(cfg, s.desk);
  }

  lemma FaithfulToSetup(m0: Manager, requested: Key, r: Route)
    requires Faithful(requested, r) && SameSetup(m0, r.manager)
    ensures Faithful(requested, r.(manager := m0))
  {
    ResolveNeedsOnlySetup(m0, r.manager, r.reported.provider);
  }

  lemma InterruptedRun(cfg: Config, m0: Manager, requested: Key, s: RunState, cause: Interruption)
    requires RunSound(cfg, m0, requested, s)
    ensures RunResult(cfg, m0, requested, Outcome(s, Interrupted(cause)))
  {
    hide Sound, Faithful;
    FaithfulToSetup(m0, requested, s.route);
  }

  lemma EndedRun(cfg: Config, m0: Manager, requested: Key, s: RunState, desk: Desk, route: Route, exit: Exit)
    requires RunSound(cfg, m0, requested, s) && Sound(cfg, desk) && Decided(cfg, desk)
    requires route.(manager := m0) == s.route.(manager := m0)
    ensures RunResult(cfg, m0, requested, Outcome(RunState(desk, route), exit))
  {
    hide Sound, Faithful, Decided;
    FaithfulToSetup(m0, requested, s.route);
  }

  lemma EndingRun(cfg: Config, env: Env, m0: Manager, requested: Key, s: RunState, exhausted: bool)
    requires RunSound(cfg, m0, requested, s) && Undecided(s.desk)
    ensures RunResult(cfg, m0, requested, Conclude(cfg, env, s, exhausted))
  {
    DecideIsSound(cfg, s.desk);
    FinishIsSound(cfg, env, s.desk);
    hide Decide, FinishDesk, Feedback, FilesRefused, Undecided, Decided, Sound, RouteSound, RunSound, RunResult;
    var d := FinishDesk(cfg, env, s.desk);
    FeedbackKeepsRoute(cfg, m0, s.route, d.work.verificationFailed);
    EndedRun(cfg, m0, requested, s, d, Feedback(cfg, s.route, d.work.verificationFailed),
             if exhausted then Exhausted else LeftLoop);
    EndedRun(cfg, m0, requested, s, Decide(cfg, s.desk), s.route, RaisedInEnd(exhausted));
  }

  lemma FeedbackKeepsRoute(cfg: Config, m0: Manager, r: Route, failed: bool)
    ensures Feedback(cfg, r, failed).(manager := m0) == r.(manager := m0)
  {
  }

  lemma InitiallyRunning(cfg: Config, m: Manager, provider: Key)
    requires m.Valid()
    ensures RunRunning(cfg, m, provider, Initial(provider, m), 0)
  {
    InitialDeskRuns(cfg);
    hide Running, RoundsPaid;
  }

  lemma InitialDeskRuns(cfg: Config)
    ensures Running(cfg, INITIAL_DESK) && RoundsPaid(INITIAL_DESK, 0)
  {
    assert NO_WORK.log == [];
  }

  // ------------------------------------------------------------------
  // What every run guarantees
  // ------------------------------------------------------------------

  /** Whatever the cap and whatever model and tools do, a registry of K tools sees at
      most 9K + 3 executions. */
  lemma WorkIsBounded(cfg: Config, env: Env, provider: Key, m: Manager, limit: nat)
    requires m.Valid()
    ensures |Run(cfg, env, provider, m, limit).state.desk.work.log| <= 9 * |cfg.registered| + 3
  {
    InitiallyRunning(cfg, m, provider);
    RunIsSound(cfg, env, m, provider, Initial(provider, m), 0, limit);
    var log := Run(cfg, env, provider, m, limit).state.desk.work.log;
    SuccessesInBound(log, cfg.registered);
    AllSuccessesIn(log, cfg.registered);
  }

  /** The provider is heard at most 9K + 7 times, and at most four directives go out. */
  lemma TalkIsBounded(cfg: Config, env: Env, provider: Key, m: Manager, limit: nat)
    requires m.Valid()
    ensures Run(cfg, env, provider, m, limit).state.desk.talk.rounds <= 9 * |cfg.registered| + 7
    ensures Run(cfg, env, provider, m, limit).state.desk.talk.directives <= 4
  {
    InitiallyRunning(cfg, m, provider);
    RunIsSound(cfg, env, m, provider, Initial(provider, m), 0, limit);
    var log := Run(cfg, env, provider, m, limit).state.desk.work.log;
    SuccessesInBound(log, cfg.registered);
    AllSuccessesIn(log, cfg.registered);
  }

  /** No call is ever executed twice. */
  lemma NothingRepeats(cfg: Config, env: Env, provider: Key, m: Manager, limit: nat)
    requires m.Valid()
    ensures Unrepeated(Run(cfg, env, provider, m, limit).state.desk.work.log)
  {
    InitiallyRunning(cfg, m, provider);
    RunIsSound(cfg, env, m, provider, Initial(provider, m), 0, limit);
  }

  /** No tool is executed more than three times in a run. */
  lemma ToolsAreRationed(cfg: Config, env: Env, provider: Key, m: Manager, limit: nat, t: Tool)
    requires m.Valid()
    ensures Count(Run(cfg, env, provider, m, limit).state.desk.work.log, t) <= 3
  {
    InitiallyRunning(cfg, m, provider);
    RunIsSound(cfg, env, m, provider, Initial(provider, m), 0, limit);
  }

  /** Hence the fix cycles stay below their limit of five, whose stop is never taken, and
      two of the progress signals can never be raised. */
  lemma LaterLimitsAreDead(cfg: Config, env: Env, provider: Key, m: Manager, limit: nat)
    requires m.Valid()
    ensures var work := Run(cfg, env, provider, m, limit).state.desk.work;
            && work.fixCycles <= 3 < MAX_FIX_CYCLES
            && !RepeatedIdentical(work.progress)
            && !ExcessiveSameTool(work.progress)
  {
    InitiallyRunning(cfg, m, provider);
    RunIsSound(cfg, env, m, provider, Initial(provider, m), 0, limit);
    var d := Run(cfg, env, provider, m, limit).state.desk;
    forall t | t in d.work.progress.toolNameCounts ensures d.work.progress.toolNameCounts[t] <= 3 {
      assert Get(d.work.progress.toolNameCounts, t) == Count(d.work.log, t);
    }
    assert Count(d.work.log, ExecuteCommand) <= 3;
  }

  /** A run that leaves the loop or exhausts the cap, even if it raises after that, ends
      in a terminal state that agrees with what the user is told; a task that needs a modification is
      completed only if some modifying or executing call returned no error. */
  lemma CompletionNeedsEvidence(cfg: Config, env: Env, provider: Key, m: Manager, limit: nat)
    requires m.Valid()
    ensures var out := Run(cfg, env, provider, m, limit);
            var state, text, log := out.state.desk.work.machine.state, out.state.desk.talk.finalText, out.state.desk.work.log;
            !out.exit.Interrupted? ==>
              && Terminal(state)
              && (state.Blocked? <==>
                   text.ApprovalRequest? || (text.FromModel? && "__APPROVAL_REQUIRED__:" <= text.text))
              && (state.Failed? <==> FailureText(text) || text.NotCompleted?)
              && !text.StoppedFixCycles?
              && (state.Completed? && cfg.requiresModification ==>
                   exists i | 0 <= i < |log| :: Mutation(log[i]) && log[i].call.tool in cfg.registered)
  {
    InitiallyRunning(cfg, m, provider);
    RunIsSound(cfg, env, m, provider, Initial(provider, m), 0, limit);
  }

  /** In every run the recorded transitions are one path out of Idle without
      self-loops that ends at most once, at its last state, and only two kinds of
      edges outside the table are ever taken. */
  lemma TransitionsAreSound(cfg: Config, env: Env, provider: Key, m: Manager, limit: nat)
    requires m.Valid()
    ensures var machine := Run(cfg, env, provider, m, limit).state.desk.work.machine;
            && Chained(machine)
            && (forall e | e in machine.transitions ::
                  Allowed(e.0, e.1) || e == (Reading, Correcting) || e == (Verifying, Executing))
  {
    InitiallyRunning(cfg, m, provider);
    RunIsSound(cfg, env, m, provider, Initial(provider, m), 0, limit);
  }

  // ------------------------------------------------------------------
  // Provenance
  // ------------------------------------------------------------------

  /** The execution chain that the API exposes. */
  datatype Metadata = Metadata(
    executed: Key, requested: Key, selected: Key, attempted: Key, fallbackActive: bool, chain: seq<Key>)

  function Or(name: string, other: string): string {
    if name != "" then name else other
  }

  /** The abandoned provider, but for empty names, which give way to the reported ones. */
  function Attempted(abandoned: Key, reported: Key): Key {
    Key(Or(abandoned.provider, reported.provider), Or(abandoned.model, reported.model))
  }

  function ExecutionMetadata(r: Route): Metadata {
    Metadata(r.reported, r.requested, r.requested,
             Attempted(if r.chain != [] then r.chain[|r.chain| - 1] else Key("", ""), r.reported),
             r.fallbackExecuted, r.chain)
  }

  /** The exposed chain replays the real path: it starts at the requested provider,
      lists every abandoned hop in order, and is empty in manual mode. The executed
      provider is told truly exactly when no hop was taken or the last target is run
      by an instance of its own; in a backed registry, always. */
  lemma ProvenanceReplaysThePath(cfg: Config, env: Env, provider: Key, m: Manager, limit: nat)
    requires m.Valid()
    ensures var r := Run(cfg, env, provider, m, limit).state.route;
            var d := ExecutionMetadata(r);
            && r.path == d.chain + [r.current]
            && r.path[0] == d.requested == provider
            && (d.fallbackActive <==> |r.path| > 1)
            && (d.executed == r.current <==> !d.fallbackActive || LandsOn(m, d.executed))
            && (cfg.managed && m.manual ==> r.path == [provider] && d.executed == provider)
  {
    InitiallyRunning(cfg, m, provider);
    RunIsSound(cfg, env, m, provider, Initial(provider, m), 0, limit);
    var r := Run(cfg, env, provider, m, limit).state.route;
    assert r.path == r.path[..|r.path| - 1] + [r.current];
  }

  lemma AttemptOnFaithfulRoute(requested: Key, r: Route)
    requires Faithful(requested, r)
    ensures var d := ExecutionMetadata(r);
            if |r.path| <= 1 then d.attempted == d.executed == requested
            else
              var abandoned := r.path[|r.path| - 2];
              d.attempted == abandoned <==>
              && (abandoned.provider == "" ==> d.executed.provider == "")
              && (abandoned.model == "" ==> d.executed.model == "")
  {
    hide Landing, Resolve;
  }

  /** The attempted provider is told truly, as the one abandoned last, exactly when each of
      its two names is not empty, or is empty for the reported one as well. */
  lemma AttemptIsToldTruly(cfg: Config, env: Env, provider: Key, m: Manager, limit: nat)
    requires m.Valid()
    ensures var r := Run(cfg, env, provider, m, limit).state.route;
            var d := ExecutionMetadata(r);
            if |r.path| <= 1 then d.attempted == d.executed == provider
            else
              var abandoned := r.path[|r.path| - 2];
              d.attempted == abandoned <==>
              && (abandoned.provider == "" ==> d.executed.provider == "")
              && (abandoned.model == "" ==> d.executed.model == "")
  {
    hide RunFrom, RunRunning, Faithful, Sound, Decided, Backed, Attempted;
    InitiallyRunning(cfg, m, provider);
    RunIsSound(cfg, env, m, provider, Initial(provider, m), 0, limit);
    var r := Run(cfg, env, provider, m, limit).state.route;
    AttemptOnFaithfulRoute(provider, r.(manager := m));
  }

  // ------------------------------------------------------------------
  // Termination without the cap
  // ------------------------------------------------------------------

  /** A run can exhaust the cap only by spending every round on text or on a hop. */
  lemma {:induction false} ExhaustionSpendsTheCap(
    cfg: Config, env: Env, m0: Manager, requested: Key, s: RunState, round: nat, limit: nat) returns (t: RunState)
    requires RunRunning(cfg, m0, requested, s, round) && round <= limit
    requires RunFrom(cfg, env, s, round, limit).exit.Spent()
    ensures RunRunning(cfg, m0, requested, t, limit)
    decreases limit - round
  {
    hide Round, Finish;
    if round == limit {
      t := s;
    } else {
      RoundIsSound(cfg, env, m0, requested, s, round);
      t := ExhaustionSpendsTheCap(cfg, env, m0, requested, Round(cfg, env, s, round).state, round + 1, limit);
    }
  }

  lemma {:induction false} LargerCapSameRun(cfg: Config, env: Env, s: RunState, round: nat, limit: nat, larger: nat)
    requires round <= limit <= larger && !RunFrom(cfg, env, s, round, limit).exit.Spent()
    ensures RunFrom(cfg, env, s, round, larger) == RunFrom(cfg, env, s, round, limit)
    decreases limit - round
  {
    hide Round, Finish;
    if round < limit && Round(cfg, env, s, round).flow.Next? {
      LargerCapSameRun(cfg, env, Round(cfg, env, s, round).state, round + 1, limit, larger);
    }
  }

  /** With a backed registry the loop ends by itself: a cap above 9K + 7 rounds plus
      the registry's room is never exhausted, and then every larger cap gives the
      very same run. */
  lemma LoopEndsByItself(cfg: Config, env: Env, provider: Key, m: Manager, limit: nat, larger: nat)
    requires m.Valid() && Backed(m)
    requires 9 * |cfg.registered| + 8 + TotalRoom(m.entries) <= limit <= larger
    ensures !Run(cfg, env, provider, m, limit).exit.Spent()
    ensures Run(cfg, env, provider, m, larger) == Run(cfg, env, provider, m, limit)
  {
    InitiallyRunning(cfg, m, provider);
    if Run(cfg, env, provider, m, limit).exit.Spent() {
      var t := ExhaustionSpendsTheCap(cfg, env, m, provider, Initial(provider, m), 0, limit);
      SuccessesInBound(t.desk.work.log, cfg.registered);
      AllSuccessesIn(t.desk.work.log, cfg.registered);
      assert false;
    }
    LargerCapSameRun(cfg, env, Initial(provider, m), 0, limit, larger);
  }
}
