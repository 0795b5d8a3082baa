/** When fallbacks stop by themselves: exactly when every entry that may be picked
    is run by an instance of its own. Otherwise some entry can be picked for ever,
    because its failures are charged to another key. */
module FallbackExactness {
  import opened Wrappers
  import opened ModelManagement
  import opened AgentLoop
  import opened AgentInvariants
  import opened AgentRuns

  /** A provider that is online, but fails every round with a model-level error. */
  const ALWAYS_FAILING: Env :=
    Env(_ => false, _ => Reply.Unavailable(false, true), (_, _) => ToolResult(false, false, false, false, true, 0),
        World(_ => Arguments(Absent, Absent, Absent), _ => false, _ => false, _ => false))

  /** Instances are stored under their own names; the last-resort provider has only one. */
  predicate SelfNamedInstances(m: Manager) {
    && (forall n | n in m.instances :: m.instances[n].name == n)
    && (DETERMINISTIC_PROVIDER.name in m.instances ==> m.instances[DETERMINISTIC_PROVIDER.name] == DETERMINISTIC_PROVIDER)
  }

  /** An entry that stays among the candidates while others are retired. */
  ghost predicate Persistent(es: seq<Entry>, p: Entry) {
    p in es && p.Live() && (p.status.Verified? || forall e | e in es :: !e.status.Verified?)
  }

  /** An entry that can be picked, but that picking never makes current. */
  ghost predicate Phantom(m: Manager, p: Entry) {
    Persistent(m.entries, p) && p.key.provider != "" && !LandsOn(m, p.key)
  }

  lemma PersistentIsCandidate(es: seq<Entry>, p: Entry)
    requires Persistent(es, p)
    ensures p in Candidates(es, true, true)
  {
    FilterMeaning(es, IsVerified);
    FilterMeaning(es, IsAvailable);
    var verified := Filter(es, IsVerified);
    assert verified == [] || verified[0] in verified;
  }

  lemma {:induction false} FirstInstanceIsStored(instances: map<string, Instance>, names: seq<string>)
    ensures var r := FirstInstance(instances, names);
            r.Some? ==> exists n :: n in instances && instances[n] == r.value
  {
    if names != [] && names[0] !in instances {
      FirstInstanceIsStored(instances, names[1..]);
    }
  }

  /** Asking for an instance by its own name finds that instance. */
  lemma FoundUnderItsName(m: Manager, name: string)
    requires SelfNamedInstances(m) && !m.manual && Resolve(m, name).Some?
    ensures var inst := Resolve(m, name).value;
            inst.name != "" ==> Resolve(m, inst.name) == Some(inst)
  {
    FirstInstanceIsStored(m.instances, ["ollama"]);
    FirstInstanceIsStored(m.instances, ["gemini", "nvidia", "opencode"]);
    FirstInstanceIsStored(m.instances, ["ollama", "gemini", "nvidia", "opencode"]);
  }

  /** No pick ever lands on a phantom's key. */
  lemma PhantomIsNeverCurrent(m: Manager, p: Entry, pick: Key)
    requires Phantom(m, p) && SelfNamedInstances(m) && Resolve(m, pick.provider).Some? && !m.manual
    ensures Landing(Resolve(m, pick.provider).value, pick) != p.key
  {
    FoundUnderItsName(m, pick.provider);
  }

  lemma PersistenceSurvives(m: Manager, p: Entry, k: Key)
    requires m.Valid() && Persistent(m.entries, p) && p.key != k
    ensures Persistent(FailureAt(m.entries, k), p)
  {
    FailureCostsRoom(m, k);
    forall e | e in FailureAt(m.entries, k) ensures e.status.Verified? ==> exists d | d in m.entries :: d.status.Verified? {
      var i :| 0 <= i < |m.entries| && FailureAt(m.entries, k)[i] == e;
      assert m.entries[i] in m.entries;
    }
  }

  /** The state of a run that hops for ever. */
  ghost predicate Looping(m: Manager, p: Entry, r: Route) {
    && r.manager.Valid() && SameSetup(m, r.manager)
    && Phantom(m, p) && Persistent(r.manager.entries, p)
    && r.current != p.key && p.key !in r.manager.history
    && p.key.provider !in r.blocked
  }

  lemma LoopingHops(m: Manager, p: Entry, r: Route)
    requires Looping(m, p, r)
    requires SelfNamedInstances(m) && AutoSelect(m.setting, m.instances).Some? && !m.manual
    ensures var (r', hopped) := Reroute(r, false, true);
            hopped && Looping(m, p, r') && |r'.chain| == |r.chain| + 1
  {
    var (m1, pick) := Fallback(r.manager, r.current, r.blocked, true);
    var candidates := Candidates(r.manager.entries, true, true);
    PersistentIsCandidate(r.manager.entries, p);
    FirstEligibleMeaning(candidates, r.current, Recent(m1.history), r.blocked);
    assert p.key !in m1.history;
    assert Eligible(p, r.current, Recent(m1.history), r.blocked);
    assert pick.Some?;
    assert m1 == r.manager.(history := m1.history);
    assert Resolve(m1, pick.value.provider) == Resolve(m, pick.value.provider) by {
      ResolveNeedsOnlySetup(m1, m, pick.value.provider);
    }
    SomeInstanceIsFound(m, pick.value.provider);
    PhantomIsNeverCurrent(m, p, pick.value);
    PersistenceSurvives(r.manager, p, r.current);
    FailureCostsRoom(r.manager, r.current);
  }

  lemma SomeInstanceIsFound(m: Manager, name: string)
    requires AutoSelect(m.setting, m.instances).Some? && !m.manual
    ensures Resolve(m, name).Some?
  {
  }

  lemma {:induction false} LoopingNeverStops(cfg: Config, m: Manager, p: Entry, s: RunState, round: nat, limit: nat)
    requires cfg.managed && m.initialized && !m.manual
    requires SelfNamedInstances(m) && AutoSelect(m.setting, m.instances).Some?
    requires Looping(m, p, s.route) && s.desk.files == NO_FILES && round <= limit
    ensures var out := RunFrom(cfg, ALWAYS_FAILING, s, round, limit);
            out.exit.Exhausted? && |out.state.route.chain| == |s.route.chain| + limit - round
    decreases limit - round
  {
    if round < limit {
      LoopingHops(m, p, s.route);
      var r := Round(cfg, ALWAYS_FAILING, s, round);
      assert r == FallBack(s, false, true) && r.flow.Next?;
      LoopingNeverStops(cfg, m, p, r.state, round + 1, limit);
    }
  }

  /** With a phantom in the registry the loop never ends by itself: against a provider
      that keeps failing, every cap is exhausted, one hop a round. */
  lemma PhantomHopsForever(cfg: Config, m: Manager, p: Entry, start: Key, limit: nat)
    requires cfg.managed && m.Valid() && m.initialized && !m.manual
    requires SelfNamedInstances(m) && AutoSelect(m.setting, m.instances).Some?
    requires Phantom(m, p) && start != p.key && p.key !in m.history
    ensures var out := Run(cfg, ALWAYS_FAILING, start, m, limit);
            out.exit.Exhausted? && |out.state.route.chain| == limit
  {
    LoopingNeverStops(cfg, m, p, Initial(start, m), 0, limit);
  }

  lemma HopsAreBounded(cfg: Config, env: Env, start: Key, m: Manager, limit: nat)
    requires m.Valid() && Backed(m)
    ensures |Run(cfg, env, start, m, limit).state.route.chain| <= TotalRoom(m.entries) + 1
  {
    InitiallyRunning(cfg, m, start);
    RunIsSound(cfg, env, m, start, Initial(start, m), 0, limit);
  }

  /** No run takes more hops, wherever it starts and whatever failed before. */
  ghost predicate HopBound(cfg: Config, m: Manager, bound: nat) {
    forall env: Env, start: Key, history: seq<Key>, limit: nat ::
      |Run(cfg, env, start, m.(history := history), limit).state.route.chain| <= bound
  }

  /** Under automatic routing that can always find some instance, and with entries
      that are either all verified or all unverified, hops are bounded over all runs,
      starting points and failure histories if and only if the registry is backed. */
  lemma HopsAreBoundedExactlyWhenBacked(cfg: Config, m: Manager)
    requires cfg.managed && m.Valid() && m.initialized && !m.manual
    requires SelfNamedInstances(m) && AutoSelect(m.setting, m.instances).Some?
    requires forall e | e in m.entries && e.Live() :: e.key.provider != ""
    requires (forall e | e in m.entries && e.Live() :: e.status.Verified?) || (forall e | e in m.entries :: !e.status.Verified?)
    ensures Backed(m) <==> exists bound: nat :: HopBound(cfg, m, bound)
  {
    if Backed(m) {
      forall env: Env, start: Key, history: seq<Key>, limit: nat
        ensures |Run(cfg, env, start, m.(history := history), limit).state.route.chain| <= TotalRoom(m.entries) + 1
      {
        BackedIgnoresHistory(m, history);
        HopsAreBounded(cfg, env, start, m.(history := history), limit);
      }
      assert HopBound(cfg, m, TotalRoom(m.entries) + 1);
    } else {
      var p :| p in m.entries && p.Live() && !LandsOn(m, p.key);
      var m' := m.(history := []);
      ResolveNeedsOnlySetup(m, m', p.key.provider);
      var start := p.key.(model := p.key.model + "!");
      forall bound: nat ensures !HopBound(cfg, m, bound) {
        PhantomHopsForever(cfg, m', p, start, bound + 1);
        assert |Run(cfg, ALWAYS_FAILING, start, m.(history := []), bound + 1).state.route.chain| > bound;
      }
    }
  }

  lemma BackedIgnoresHistory(m: Manager, history: seq<Key>)
    requires Backed(m)
    ensures Backed(m.(history := history))
  {
    var m' := m.(history := history);
    forall e | e in m'.entries && e.Live() ensures LandsOn(m', e.key) {
      ResolveNeedsOnlySetup(m, m', e.key.provider);
    }
  }

  // ------------------------------------------------------------------
  // Any registry, as long as the service is online
  // ------------------------------------------------------------------

  /** The entries that may be picked online: the live verified ones, if there are verified
      ones at all, and otherwise all live ones. */
  predicate IsCandidate(es: seq<Entry>, e: Entry) {
    e in es && e.Live() && (e.status.Verified? || forall d | d in es :: !d.status.Verified?)
  }

  /** Every entry that may be picked is run by an instance of its own, if by any. */
  ghost predicate CandidatesLand(m: Manager) {
    forall e | IsCandidate(m.entries, e) :: Resolve(m, e.key.provider).Some? ==> LandsOn(m, e.key)
  }

  ghost predicate StaysOnline(env: Env) {
    forall round: nat :: env.reply(round).Unavailable? ==> env.reply(round).online
  }

  lemma PickIsCandidate(m: Manager, failed: Key, blocked: set<string>)
    ensures var pick := Fallback(m, failed, blocked, true).1;
            pick.Some? ==> pick.value != failed && exists e :: IsCandidate(m.entries, e) && e.key == pick.value
  {
    var candidates := Candidates(m.entries, true, true);
    FilterMeaning(m.entries, IsVerified);
    FilterMeaning(m.entries, IsAvailable);
    FirstEligibleMeaning(candidates, failed, Recent(Remembered(m.history, failed)), blocked);
    var verified := Filter(m.entries, IsVerified);
    assert verified == [] || verified[0] in verified;
  }

  /** A failure makes no entry a candidate that was none, as long as another candidate stays. */
  lemma NoNewCandidates(m: Manager, k: Key, p: Entry, e: Entry)
    requires m.Valid() && IsCandidate(m.entries, p) && p.key != k
    requires IsCandidate(FailureAt(m.entries, k), e)
    ensures exists d :: IsCandidate(m.entries, d) && d.key == e.key
  {
    FailureCostsRoom(m, k);
    var d :| d in m.entries && d.key == e.key && d.Live();
    if !IsCandidate(m.entries, d) {
      var v :| v in m.entries && v.status.Verified?;
      assert p in FailureAt(m.entries, k);
      assert e.status.Verified?;
      VerifiedWasVerified(m, k, e, d);
    }
  }

  lemma VerifiedWasVerified(m: Manager, k: Key, e: Entry, d: Entry)
    requires m.Valid() && e in FailureAt(m.entries, k) && e.status.Verified?
    requires d in m.entries && d.key == e.key
    ensures d.status.Verified?
  {
    var i :| 0 <= i < |m.entries| && FailureAt(m.entries, k)[i] == e;
    var j :| 0 <= j < |m.entries| && m.entries[j] == d;
    assert i == j;
  }

  /** Online hops are paid for by the room of the registry, but for the first. */
  ghost predicate OnlinePaid(m0: Manager, r: Route) {
    && r.manager.Valid() && SameSetup(m0, r.manager) && CandidatesLand(r.manager)
    && |r.chain| + TotalRoom(r.manager.entries) <= TotalRoom(m0.entries) + (if r.chain == [] then 0 else 1)
    && (r.chain != [] ==> exists e | e in r.manager.entries :: e.key == r.current && e.Live())
  }

  lemma CandidatesStayLanding(m: Manager, k: Key, p: Entry)
    requires m.Valid() && CandidatesLand(m) && IsCandidate(m.entries, p) && p.key != k
    ensures CandidatesLand(m.(entries := FailureAt(m.entries, k)))
  {
    var m' := m.(entries := FailureAt(m.entries, k));
    forall e | IsCandidate(m'.entries, e) && Resolve(m', e.key.provider).Some? ensures LandsOn(m', e.key) {
      NoNewCandidates(m, k, p, e);
      ResolveNeedsOnlySetup(m, m', e.key.provider);
    }
  }

  lemma OnlineHopIsPaid(m0: Manager, r: Route, pick: Key, inst: Instance)
    requires OnlinePaid(m0, r) && pick != r.current && Resolve(r.manager, pick.provider) == Some(inst)
    requires exists e :: IsCandidate(r.manager.entries, e) && e.key == pick
    ensures OnlinePaid(m0, Hop(r, pick, inst))
  {
    var e :| IsCandidate(r.manager.entries, e) && e.key == pick;
    FailureCostsRoom(r.manager, r.current);
    CandidatesStayLanding(r.manager, r.current, e);
    assert LandsOn(r.manager, e.key);
    assert e in FailureAt(r.manager.entries, r.current);
  }

  lemma OnlineReroute(m0: Manager, r: Route, connectivity: bool)
    requires OnlinePaid(m0, r)
    ensures OnlinePaid(m0, Reroute(r, connectivity, true).0)
  {
    hide OnlinePaid, TotalRoom, Candidates, FirstEligible;
    var blocked := if connectivity then r.blocked + {r.current.provider} else r.blocked;
    var (m, pick) := Fallback(r.manager, r.current, blocked, true);
    var asked := r.(blocked := blocked, manager := m);
    AskingIsPaid(m0, r, m.history, blocked);
    if pick.Some? && Resolve(m, pick.value.provider).Some? {
      PickIsCandidate(r.manager, r.current, blocked);
      OnlineHopIsPaid(m0, asked, pick.value, Resolve(m, pick.value.provider).value);
    }
  }

  lemma AskingIsPaid(m0: Manager, r: Route, history: seq<Key>, blocked: set<string>)
    requires OnlinePaid(m0, r)
    ensures OnlinePaid(m0, r.(blocked := blocked, manager := r.manager.(history := history)))
  {
    var m := r.manager.(history := history);
    forall e | IsCandidate(m.entries, e) && Resolve(m, e.key.provider).Some? ensures LandsOn(m, e.key) {
      ResolveNeedsOnlySetup(r.manager, m, e.key.provider);
    }
  }

  lemma OnlineRound(cfg: Config, env: Env, m0: Manager, s: RunState, round: nat)
    requires StaysOnline(env) && OnlinePaid(m0, s.route)
    ensures OnlinePaid(m0, Round(cfg, env, s, round).state.route)
  {
    hide OnlinePaid, HandleText, Reroute;
    if !env.timeUp(round) && env.reply(round).Unavailable? {
      OnlineReroute(m0, s.route, env.reply(round).connectivity);
    }
  }

  lemma {:induction false} OnlineRunIsPaid(cfg: Config, env: Env, m0: Manager, s: RunState, round: nat, limit: nat)
    requires StaysOnline(env) && OnlinePaid(m0, s.route)
    ensures |RunFrom(cfg, env, s, round, limit).state.route.chain| <= TotalRoom(m0.entries) + 1
    decreases limit - round
  {
    PaidMeansBounded(m0, s.route);
    hide Round, FinishDesk, Decide, FilesRefused, OnlinePaid, StaysOnline;
    if round < limit {
      OnlineRound(cfg, env, m0, s, round);
      var r := Round(cfg, env, s, round);
      PaidMeansBounded(m0, r.state.route);
      if r.flow.Next? {
        OnlineRunIsPaid(cfg, env, m0, r.state, round + 1, limit);
      }
    }
  }

  lemma PaidMeansBounded(m0: Manager, r: Route)
    requires OnlinePaid(m0, r)
    ensures |r.chain| <= TotalRoom(m0.entries) + 1
  {
  }

  /** No run that stays online takes more hops, wherever it starts and whatever failed before. */
  ghost predicate OnlineHopBound(cfg: Config, m: Manager, bound: nat) {
    forall env: Env, start: Key, history: seq<Key>, limit: nat | StaysOnline(env) ::
      |Run(cfg, env, start, m.(history := history), limit).state.route.chain| <= bound
  }

  lemma OnlineHopsAreBounded(cfg: Config, env: Env, start: Key, m: Manager, history: seq<Key>, limit: nat)
    requires StaysOnline(env) && m.Valid() && CandidatesLand(m)
    ensures |Run(cfg, env, start, m.(history := history), limit).state.route.chain| <= TotalRoom(m.entries) + 1
  {
    AskingIsPaid(m, InitialRoute(start, m), history, {});
    OnlineRunIsPaid(cfg, env, m, Initial(start, m.(history := history)), 0, limit);
  }

  /** For every registry, mixed ones included, as long as automatic routing can always find
      some instance: online, hops are bounded over all runs, starting points and failure
      histories if and only if every candidate is run by an instance of its own. */
  lemma OnlineHopsAreBoundedIff(cfg: Config, m: Manager)
    requires cfg.managed && m.Valid() && m.initialized && !m.manual
    requires SelfNamedInstances(m) && AutoSelect(m.setting, m.instances).Some?
    requires forall e | IsCandidate(m.entries, e) :: e.key.provider != ""
    ensures CandidatesLand(m) <==> exists bound: nat :: OnlineHopBound(cfg, m, bound)
  {
    if CandidatesLand(m) {
      forall env: Env, start: Key, history: seq<Key>, limit: nat | StaysOnline(env)
        ensures |Run(cfg, env, start, m.(history := history), limit).state.route.chain| <= TotalRoom(m.entries) + 1
      {
        OnlineHopsAreBounded(cfg, env, start, m, history, limit);
      }
      assert OnlineHopBound(cfg, m, TotalRoom(m.entries) + 1);
    } else {
      var p :| IsCandidate(m.entries, p) && !LandsOn(m, p.key);
      var m' := m.(history := []);
      ResolveNeedsOnlySetup(m, m', p.key.provider);
      var start := p.key.(model := p.key.model + "!");
      assert StaysOnline(ALWAYS_FAILING);
      forall bound: nat ensures !OnlineHopBound(cfg, m, bound) {
        PhantomHopsForever(cfg, m', p, start, bound + 1);
        assert |Run(cfg, ALWAYS_FAILING, start, m.(history := []), bound + 1).state.route.chain| > bound;
      }
    }
  }

  // ------------------------------------------------------------------
  // A registry that is not backed
  // ------------------------------------------------------------------

  /** An entry whose provider has no instance: the last resort of every lookup runs in its
      place. */
  ghost predicate Haunted(m: Manager, lost: Entry, resort: Instance) {
    && m.Valid() && m.initialized && !m.manual && m.history == []
    && SelfNamedInstances(m) && AutoSelect(m.setting, m.instances) == Some(resort)
    && IsCandidate(m.entries, lost) && lost.key.provider !in m.instances
    && lost.key.provider != "" && lost.key.provider != resort.name
  }

  /** With such a registry a run can make as many hops as it has rounds. */
  lemma GhostIsPickedForever(cfg: Config, m: Manager, lost: Entry, resort: Instance, start: Key, limit: nat)
    requires cfg.managed && Haunted(m, lost, resort) && start != lost.key
    ensures !CandidatesLand(m)
    ensures |Run(cfg, ALWAYS_FAILING, start, m, limit).state.route.chain| == limit
  {
    assert Phantom(m, lost);
    PhantomHopsForever(cfg, m, lost, start, limit);
  }

  lemma OnlyEntry(m: Manager, e: Entry)
    requires m.entries == [e] && e.successes == e.failures == e.total == 0 && e.status.Unknown?
    ensures m.Valid()
    ensures IsCandidate(m.entries, e)
  {
    assert e in m.entries;
  }

  lemma OnlyInstance(m: Manager, resort: Instance)
    requires resort.name == "ollama" && m.instances == map["ollama" := resort] && m.setting == Local
    ensures SelfNamedInstances(m) && AutoSelect(m.setting, m.instances) == Some(resort)
  {
  }

  /** For instance an entry of another provider beside the one instance "ollama". */
  lemma HauntedRegistry(m: Manager, lost: Entry, resort: Instance)
    requires lost.key.provider != "" && lost.key.provider != "ollama"
    requires lost.successes == lost.failures == lost.total == 0 && lost.status.Unknown?
    requires resort.name == "ollama"
    requires m == Manager([lost], [], map["ollama" := resort], Local, None, false, true)
    ensures Haunted(m, lost, resort)
  {
    OnlyEntry(m, lost);
    OnlyInstance(m, resort);
    hide Manager.Valid, SelfNamedInstances, AutoSelect, IsCandidate;
  }
}
