/** What happens in the rounds in which a provider fails: which providers are blocked, where
    a run goes on, and why it ends. */
module HopRounds {
  import opened Wrappers
  import opened TaskControl
  import opened ModelManagement
  import opened AgentLoop
  import opened AgentInvariants
  import opened AgentRuns
  import opened AgentRounds

  // ------------------------------------------------------------------
  // Blocked providers
  // ------------------------------------------------------------------

  /** How many of the first rounds failed: the position in the path of the provider that
      runs in the next one. */
  function FailuresBefore(env: Env, k: nat): nat {
    if k == 0 then 0 else FailuresBefore(env, k - 1) + if env.reply(k - 1).Unavailable? then 1 else 0
  }

  predicate Unreachable(env: Env, j: nat) {
    env.reply(j).Unavailable? && env.reply(j).connectivity
  }

  lemma {:induction false} FailuresGrow(env: Env, j: nat, k: nat)
    requires j < k
    ensures FailuresBefore(env, j) + (if env.reply(j).Unavailable? then 1 else 0) <= FailuresBefore(env, k)
    decreases k
  {
    if j < k - 1 {
      FailuresGrow(env, j, k - 1);
    }
  }

  /** The provider that was running in a round, if the path has it. */
  function RanIn(env: Env, path: seq<Key>, j: nat): set<string> {
    if FailuresBefore(env, j) < |path| then {path[FailuresBefore(env, j)].provider} else {}
  }

  /** The providers that were running in those of the first rounds that failed to connect. */
  function UnreachableProviders(env: Env, path: seq<Key>, k: nat): set<string> {
    if k == 0 then {}
    else UnreachableProviders(env, path, k - 1) + if Unreachable(env, k - 1) then RanIn(env, path, k - 1) else {}
  }

  lemma {:induction false} UnreachableStay(env: Env, path: seq<Key>, more: seq<Key>, k: nat)
    requires path <= more && FailuresBefore(env, k) <= |path|
    ensures UnreachableProviders(env, more, k) == UnreachableProviders(env, path, k)
  {
    if k > 0 {
      UnreachableStay(env, path, more, k - 1);
    }
  }

  lemma {:induction false} IsUnreachable(env: Env, path: seq<Key>, k: nat, j: nat)
    requires j < k && Unreachable(env, j) && FailuresBefore(env, j) < |path|
    ensures path[FailuresBefore(env, j)].provider in UnreachableProviders(env, path, k)
  {
    if j < k - 1 {
      IsUnreachable(env, path, k - 1, j);
    }
  }

  /** One round that does not end the run: a failure blocks the provider that ran if it did
      not connect, and moves on to a pick that is not blocked; anything else leaves the route. */
  lemma RoundRoute(cfg: Config, env: Env, s: RunState, k: nat)
    requires Round(cfg, env, s, k).flow.Next?
    ensures var r, r' := s.route, Round(cfg, env, s, k).state.route;
      if env.reply(k).Unavailable? then
        && cfg.managed && !r.manager.manual && r.manager.initialized
        && r'.blocked == r.blocked + (if Unreachable(env, k) then {r.current.provider} else {})
        && r'.path == r.path + [r'.current]
        && r'.reported.provider !in r'.blocked
        && Resolve(r.manager, r'.reported.provider).Some?
        && r'.current == Landing(Resolve(r.manager, r'.reported.provider).value, r'.reported)
        && (Backed(r.manager) ==> r'.current == r'.reported)
      else r' == r
  {
    hide HandleText;
    if env.reply(k).Unavailable? {
      HopRoute(s.route, env.reply(k).connectivity, env.reply(k).online);
      hide Reroute;
    }
  }

  lemma HopRoute(r: Route, connectivity: bool, online: bool)
    requires Reroute(r, connectivity, online).1
    ensures var r' := Reroute(r, connectivity, online).0;
      && r'.blocked == r.blocked + (if connectivity then {r.current.provider} else {})
      && r'.path == r.path + [r'.current]
      && r'.reported.provider !in r'.blocked
      && Resolve(r.manager, r'.reported.provider).Some?
      && r'.current == Landing(Resolve(r.manager, r'.reported.provider).value, r'.reported)
      && (Backed(r.manager) ==> r'.current == r'.reported)
  {
    var blocked := if connectivity then r.blocked + {r.current.provider} else r.blocked;
    var (m, pick) := Fallback(r.manager, r.current, blocked, online);
    FirstEligibleMeaning(Candidates(r.manager.entries, online, true), r.current, Recent(m.history), blocked);
    ResolveNeedsOnlySetup(m, r.manager, pick.value.provider);
    PickIsLive(r.manager, r.current, blocked, online);
    hide FirstEligible, Candidates, Resolve;
  }

  /** In every round that a run reaches, the blocked providers are exactly those that ran in
      an earlier round and could not be connected to; and the provider last picked is none. */
  lemma {:induction false} BlockedAreUnreachable(cfg: Config, env: Env, provider: Key, m: Manager, k: nat)
    requires m.Valid() && At(cfg, env, Initial(provider, m), k).Some?
    ensures var r := At(cfg, env, Initial(provider, m), k).value.route;
      && |r.path| == FailuresBefore(env, k) + 1
      && r.blocked == UnreachableProviders(env, r.path, k)
      && (|r.path| > 1 ==> r.reported.provider !in r.blocked)
  {
    hide Round;
    if k == 0 {
      NothingBlocked(env, provider, m);
    } else {
      var start := Initial(provider, m);
      BlockedAreUnreachable(cfg, env, provider, m, k - 1);
      var s := At(cfg, env, start, k - 1).value;
      RoundRoute(cfg, env, s, k - 1);
      RunsTheLast(cfg, env, provider, m, k - 1);
      UnreachableStay(env, s.route.path, At(cfg, env, start, k).value.route.path, k - 1);
    }
  }

  lemma NothingBlocked(env: Env, provider: Key, m: Manager)
    ensures Initial(provider, m).route.blocked == UnreachableProviders(env, [provider], 0)
  {
  }

  lemma RunsTheLast(cfg: Config, env: Env, provider: Key, m: Manager, k: nat)
    requires m.Valid() && At(cfg, env, Initial(provider, m), k).Some?
    ensures var r := At(cfg, env, Initial(provider, m), k).value.route;
      r.path != [] && r.current == r.path[|r.path| - 1] && SameSetup(m, r.manager) && (Backed(m) ==> Backed(r.manager))
  {
    ReachedIsRunning(cfg, env, m, provider, k);
  }

  /** With a backed registry a run never returns to a provider it could not connect to. */
  lemma {:induction false} NoReturnToUnreachable(
    cfg: Config, env: Env, provider: Key, m: Manager, k: nat, j: nat, i: nat)
    requires m.Valid() && Backed(m) && At(cfg, env, Initial(provider, m), k).Some?
    requires j < k && Unreachable(env, j)
    requires FailuresBefore(env, j) < i < |At(cfg, env, Initial(provider, m), k).value.route.path|
    ensures var path := At(cfg, env, Initial(provider, m), k).value.route.path;
      path[i].provider != path[FailuresBefore(env, j)].provider
  {
    hide Round, UnreachableProviders;
    var start := Initial(provider, m);
    BlockedAreUnreachable(cfg, env, provider, m, k - 1);
    BlockedAreUnreachable(cfg, env, provider, m, k);
    var s, t := At(cfg, env, start, k - 1).value, At(cfg, env, start, k).value;
    RoundRoute(cfg, env, s, k - 1);
    if j == k - 1 || i == |s.route.path| {
      RunsTheLast(cfg, env, provider, m, k - 1);
      FailuresGrow(env, j, k);
      IsUnreachable(env, t.route.path, k, j);
      LandsOnPick(cfg, env, provider, m, k);
    } else {
      FailuresGrow(env, j, k - 1);
      NoReturnToUnreachable(cfg, env, provider, m, k - 1, j, i);
    }
  }

  /** With a backed registry the provider that runs after a hop is the one that was picked. */
  lemma {:induction false} LandsOnPick(cfg: Config, env: Env, provider: Key, m: Manager, k: nat)
    requires m.Valid() && Backed(m) && At(cfg, env, Initial(provider, m), k).Some?
    ensures var r := At(cfg, env, Initial(provider, m), k).value.route;
      |r.path| > 1 ==> r.current == r.reported && r.current == r.path[|r.path| - 1]
  {
    hide Round;
    if k > 0 {
      LandsOnPick(cfg, env, provider, m, k - 1);
      RunsTheLast(cfg, env, provider, m, k - 1);
      RoundRoute(cfg, env, At(cfg, env, Initial(provider, m), k - 1).value, k - 1);
    }
  }

  // ------------------------------------------------------------------
  // Where a run goes on, and why it ends
  // ------------------------------------------------------------------

  /** What a failing provider leaves to be picked from. */
  function BlockedNow(r: Route, connectivity: bool): set<string> {
    r.blocked + if connectivity then {r.current.provider} else {}
  }

  lemma RerouteMeaning(r: Route, connectivity: bool, online: bool)
    ensures var (r', hopped) := Reroute(r, connectivity, online);
      var blocked := BlockedNow(r, connectivity);
      && (hopped ==> exists i | 0 <= i < |r.manager.entries| ::
            && r.manager.entries[i].key == r'.reported
            && Qualifies(r.manager, r.current, blocked, online, r.manager.entries[i])
            && forall j | 0 <= j < i :: !Qualifies(r.manager, r.current, blocked, online, r.manager.entries[j]))
      && (!hopped && AutoSelect(r.manager.setting, r.manager.instances).Some? && !r.manager.manual ==>
            forall j | 0 <= j < |r.manager.entries| :: !Qualifies(r.manager, r.current, blocked, online, r.manager.entries[j]))
  {
    var blocked := if connectivity then r.blocked + {r.current.provider} else r.blocked;
    assert blocked == BlockedNow(r, connectivity);
    PickIsFirst(r.manager, r.current, blocked, online);
    hide Qualifies, FirstEligible, Candidates, AutoSelect;
    var (m, pick) := Fallback(r.manager, r.current, blocked, online);
    if pick.Some? {
      ResolveNeedsOnlySetup(m, r.manager, pick.value.provider);
      if AutoSelect(r.manager.setting, r.manager.instances).Some? && !r.manager.manual {
        SomethingIsFound(r.manager, pick.value.provider);
      }
    }
  }

  lemma SomethingIsFound(m: Manager, name: string)
    requires AutoSelect(m.setting, m.instances).Some? && !m.manual
    ensures Resolve(m, name).Some?
  {
  }

  /** In any round that a run reaches and in which the provider fails, the run goes on only
      under automatic routing of an initialized manager, with the first registered entry that
      qualifies; and if automatic routing finds some instance, it goes on whenever one does. */
  lemma FailureGoesOn(cfg: Config, env: Env, start: RunState, k: nat)
    requires At(cfg, env, start, k).Some? && !env.timeUp(k) && env.reply(k).Unavailable?
    ensures var r := At(cfg, env, start, k).value.route;
      var es, next := r.manager.entries, At(cfg, env, start, k + 1);
      var blocked, online := BlockedNow(r, env.reply(k).connectivity), env.reply(k).online;
      && (next.Some? ==>
            && cfg.managed && !r.manager.manual && r.manager.initialized
            && exists i | 0 <= i < |es| ::
                 && es[i].key == next.value.route.reported && Qualifies(r.manager, r.current, blocked, online, es[i])
                 && forall j | 0 <= j < i :: !Qualifies(r.manager, r.current, blocked, online, es[j]))
      && (next.None? && cfg.managed && !r.manager.manual && r.manager.initialized
          && AutoSelect(r.manager.setting, r.manager.instances).Some? ==>
            forall j | 0 <= j < |es| :: !Qualifies(r.manager, r.current, blocked, online, es[j]))
  {
    var s := At(cfg, env, start, k).value;
    RerouteMeaning(s.route, env.reply(k).connectivity, env.reply(k).online);
    hide Reroute, Qualifies, AutoSelect, BlockedNow, HandleText;
    var r := Round(cfg, env, s, k);
    assert At(cfg, env, start, k + 1) == if r.flow.Next? then Some(r.state) else None;
  }

  /** How the rounds of a run that is cut short end: its last reply tells the cause, a
      failing provider has failed the task unless the user chose it, and nothing was done. */
  lemma WhyInterrupted(cfg: Config, env: Env, provider: Key, m: Manager, limit: nat) returns (last: nat)
    requires m.Valid()
    requires var exit := Run(cfg, env, provider, m, limit).exit; exit.Interrupted? && !exit.cause.Raised?
    ensures last < limit && At(cfg, env, Initial(provider, m), last).Some? && !env.timeUp(last)
    ensures var s := At(cfg, env, Initial(provider, m), last).value;
      var out := Run(cfg, env, provider, m, limit);
      var reply, cause, d := env.reply(last), out.exit.cause, out.state.desk;
      && (cause.Crashed? <==> reply.Exception?)
      && (cause.EmptyReply? <==> reply.Text?)
      && (cause.EmptyReply? ==> reply.text == "")
      && (cause.ManualUnavailable? <==> reply.Unavailable? && cfg.managed && m.manual)
      && (cause.ProviderFailed? <==> reply.Unavailable? && !(cfg.managed && m.manual))
      && (d.work.machine.state.Failed? <==> cause.ProviderFailed?)
      && (!cause.ProviderFailed? ==> d.work == s.desk.work)
      && d.work.log == s.desk.work.log && d.admission == s.desk.admission && d.talk.messages == s.desk.talk.messages
      && d.talk.modelFailures == s.desk.talk.modelFailures + (if reply.Unavailable? then 1 else 0)
  {
    hide Conclude, RunFrom, At, RunRunning, HandleText, Reroute, Backed, Resolve, SameSetup;
    var start := Initial(provider, m);
    StartIsReached(cfg, env, start);
    last := LastRound(cfg, env, start, 0, limit);
    var s := At(cfg, env, start, last).value;
    RunsTheLast(cfg, env, provider, m, last);
    ReachedIsRunning(cfg, env, m, provider, last);
    StillWorking(cfg, m, provider, s, last);
    ConcludesWithoutCause(cfg, env, Round(cfg, env, s, last).state);
    TextsOnlyRaise(cfg, env, s.desk, if env.reply(last).Text? then env.reply(last).text else "",
                   if env.reply(last).Text? then env.reply(last).calls else []);
  }

  lemma StillWorking(cfg: Config, m: Manager, provider: Key, s: RunState, k: nat)
    requires RunRunning(cfg, m, provider, s, k)
    ensures Working(s.desk.work.machine.state) && s.route.manager.manual == m.manual
  {
  }

  lemma ConcludesWithoutCause(cfg: Config, env: Env, s: RunState)
    ensures !Conclude(cfg, env, s, false).exit.Interrupted?
  {
  }

  lemma {:induction false} BatchOnlyRaises(cfg: Config, env: Env, d: Desk, batch: seq<Call>)
    ensures var r := ExecuteBatch(cfg, env, d, batch); r.flow.Abort? ==> r.flow.cause.Raised?
    decreases |batch|
  {
    hide Perform, Dispatch, MishapOf, Noted;
    if batch != [] {
      var r := TakeCall(cfg, env, d, batch[0]);
      if r.flow.Next? {
        BatchOnlyRaises(cfg, env, r.desk, batch[1..]);
      }
    }
  }

  lemma TextsOnlyRaise(cfg: Config, env: Env, d: Desk, text: string, calls: seq<Call>)
    ensures var r := HandleText(cfg, env, d, text, calls); r.flow.Abort? ==> r.flow.cause.Raised?
  {
    hide ExecuteBatch, LimitCheck, Propose, Fresh;
    var d1 := d.(talk := d.talk.(finalText := FromModel(text), rounds := d.talk.rounds + 1));
    var d2 := d1.(admission := Propose(d1.admission, calls));
    BatchOnlyRaises(cfg, env, d2.(talk := d2.talk.(stallRounds := 0)), Fresh(calls, d2.admission.executed));
  }
}
