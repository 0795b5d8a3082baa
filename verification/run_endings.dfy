/** What a run leaves behind: the counters of the registry, and whether its work is held to
    have failed. */
module RunEndings {
  import opened Wrappers
  import opened TaskControl
  import opened ModelManagement
  import opened AgentLoop
  import opened AgentInvariants
  import opened AgentTheorems
  import opened AgentRounds
  import opened RunMeaning
  import opened CallRounds

  // ------------------------------------------------------------------
  // The counters of the registry
  // ------------------------------------------------------------------

  function KeyTimes(keys: seq<Key>, k: Key): nat {
    if keys == [] then 0 else KeyTimes(keys[..|keys| - 1], k) + if keys[|keys| - 1] == k then 1 else 0
  }

  /** The entry of a key has one failure, or one success, more; the others are as before. */
  lemma CountedOnce(es: seq<Entry>, k: Key)
    requires Distinct(es)
    ensures Distinct(FailureAt(es, k)) && Distinct(SuccessAt(es, k))
    ensures forall i | 0 <= i < |es| ::
      && FailureAt(es, k)[i].successes == es[i].successes
      && FailureAt(es, k)[i].failures == es[i].failures + (if es[i].key == k then 1 else 0)
      && SuccessAt(es, k)[i].failures == es[i].failures
      && SuccessAt(es, k)[i].successes == es[i].successes + (if es[i].key == k then 1 else 0)
  {
  }

  /** The failures of every entry are those it had and the hops away from it. */
  ghost predicate ChargedForHops(before: seq<Entry>, es: seq<Entry>, chain: seq<Key>) {
    && Distinct(es) && |es| == |before|
    && forall i | 0 <= i < |es| ::
         && es[i].key == before[i].key && es[i].successes == before[i].successes
         && es[i].failures == before[i].failures + KeyTimes(chain, before[i].key)
  }

  lemma RoundCharges(cfg: Config, env: Env, before: seq<Entry>, s: RunState, k: nat)
    requires ChargedForHops(before, s.route.manager.entries, s.route.chain)
    ensures var r := Round(cfg, env, s, k).state.route; ChargedForHops(before, r.manager.entries, r.chain)
  {
    hide HandleText, ChargedForHops;
    if !env.timeUp(k) && env.reply(k).Unavailable? {
      HopCharges(before, s.route, env.reply(k).connectivity, env.reply(k).online);
      hide Reroute;
    }
  }

  lemma HopCharges(before: seq<Entry>, r: Route, connectivity: bool, online: bool)
    requires ChargedForHops(before, r.manager.entries, r.chain)
    ensures var r' := Reroute(r, connectivity, online).0; ChargedForHops(before, r'.manager.entries, r'.chain)
  {
    CountedOnce(r.manager.entries, r.current);
    assert (r.chain + [r.current])[..|r.chain|] == r.chain;
    hide Candidates, FirstEligible, FailureAt, Resolve;
  }

  lemma {:induction false} ReachedIsCharged(cfg: Config, env: Env, provider: Key, m: Manager, k: nat)
    requires m.Valid() && At(cfg, env, Initial(provider, m), k).Some?
    ensures var r := At(cfg, env, Initial(provider, m), k).value.route;
      ChargedForHops(m.entries, r.manager.entries, r.chain) && r.manager.initialized == m.initialized
  {
    hide Round, ChargedForHops, Manager.Valid;
    if k == 0 {
      NothingCharged(m);
    } else {
      ReachedIsCharged(cfg, env, provider, m, k - 1);
      RoundCharges(cfg, env, m.entries, At(cfg, env, Initial(provider, m), k - 1).value, k - 1);
      RoundKeepsSetup(cfg, env, At(cfg, env, Initial(provider, m), k - 1).value, k - 1);
    }
  }

  lemma RoundKeepsSetup(cfg: Config, env: Env, s: RunState, k: nat)
    ensures Round(cfg, env, s, k).state.route.manager.initialized == s.route.manager.initialized
  {
    hide HandleText, Candidates, FirstEligible, FailureAt, Resolve;
  }

  lemma NothingCharged(m: Manager)
    requires m.Valid()
    ensures ChargedForHops(m.entries, m.entries, [])
  {
  }

  // ------------------------------------------------------------------
  // The end of a run
  // ------------------------------------------------------------------

  lemma UnproductiveMemory(d: Desk, text: FinalText)
    ensures Unproductive(d, text).work == d.work.(machine := Unproductive(d, text).work.machine)
  {
  }

  lemma TextLeavesMemory(cfg: Config, env: Env, d: Desk, text: string, calls: seq<Call>)
    requires DeskTells(env.world, d, 0)
    ensures var r := HandleText(cfg, env, d, text, calls); r.flow.Leave? ==> MemoryTells(r.desk.work)
  {
    hide WorkTells, TalkTells, FilesTell, DeskTells, ExecuteBatch, LimitCheck, Propose, Fresh, Grows, OnlyLastStops;
    hide LastFails, LastGood, Mutated, Firsts, StoppedBy;
    RoundOpens(env.world, d, text);
    var d1 := d.(talk := d.talk.(finalText := FromModel(text), rounds := d.talk.rounds + 1));
    TellsWork(env.world, d1, 1);
    ExecutedProposing(d1.admission, calls);
    var d2 := d1.(admission := Propose(d1.admission, calls));
    SameDesk(env.world, d1, d2, 1);
    var d3 := d2.(talk := d2.talk.(stallRounds := 0));
    SameTalk(env.world, d2, d3);
    BatchTells(cfg, env, d3, Fresh(calls, d2.admission.executed));
  }

  lemma ExecutedProposing(a: Admission, calls: seq<Call>)
    ensures Propose(a, calls).executed == a.executed
  {
    ProposeCounts(a, calls);
  }

  lemma LeavesMemory(cfg: Config, env: Env, s: RunState, k: nat)
    requires StateTells(cfg, env, s.desk, k)
    ensures var r := Round(cfg, env, s, k); r.flow.Leave? ==> MemoryTells(r.state.desk.work)
  {
    hide WorkTells, TalkTells, FilesTell, DeskTells, HandleText, Reroute, CountsTell, LastFails, LastGood, Mutated;
    TellsWork(env.world, s.desk, 0);
    if !env.timeUp(k) && env.reply(k).Text? {
      TextLeavesMemory(cfg, env, s.desk, env.reply(k).text, env.reply(k).calls);
    }
  }

  /** A claimed file is missing in the end. */
  ghost predicate ClaimsMissing(world: World, f: Files) {
    exists file | file in f.created + f.modified :: file.Written? && world.missing(file.text)
  }

  lemma DecisionKeeps(cfg: Config, d: Desk)
    ensures var d' := Decide(cfg, d);
      d'.work.log == d.work.log && d'.work.verificationFailed == d.work.verificationFailed && d'.files == d.files
  {
  }

  /** The entries are those before a run, charged for its hops, with the feedback given. */
  ghost predicate CountedFor(before: seq<Entry>, es: seq<Entry>, chain: seq<Key>, given: bool, k: Key, failed: bool) {
    && |es| == |before|
    && forall i | 0 <= i < |es| ::
         && es[i].key == before[i].key
         && es[i].failures == before[i].failures + KeyTimes(chain, before[i].key)
                              + (if given && failed && before[i].key == k then 1 else 0)
         && es[i].successes == before[i].successes + (if given && !failed && before[i].key == k then 1 else 0)
  }

  lemma FeedbackCounts(cfg: Config, r: Route, failed: bool, before: seq<Entry>)
    requires ChargedForHops(before, r.manager.entries, r.chain)
    ensures var r' := Feedback(cfg, r, failed);
      var given := cfg.managed && r.manager.initialized && r.current.provider != "" && r.current.model != "";
      && CountedFor(before, r'.manager.entries, r.chain, given, r.current, failed)
      && r'.chain == r.chain && r'.current == r.current
  {
    CountedOnce(r.manager.entries, r.current);
    hide FailureAt, SuccessAt, KeyTimes;
  }

  lemma NoFeedbackCounts(r: Route, before: seq<Entry>, k: Key, failed: bool)
    requires ChargedForHops(before, r.manager.entries, r.chain)
    ensures CountedFor(before, r.manager.entries, r.chain, false, k, failed)
  {
    hide KeyTimes;
  }

  /** What the end of a run adds: one success or one failure for the provider that ran, if it
      has a name and a model, as its last result or a missing file decides. */
  lemma ConclusionTells(cfg: Config, env: Env, s: RunState, before: seq<Entry>, exhausted: bool)
    requires MemoryTells(s.desk.work) && ChargedForHops(before, s.route.manager.entries, s.route.chain)
    ensures var out := Conclude(cfg, env, s, exhausted);
      var r := out.state.route;
      var failed := LastFails(out.state.desk.work.log) || ClaimsMissing(env.world, out.state.desk.files);
      var given := cfg.managed && s.route.manager.initialized && r.current.provider != "" && r.current.model != ""
                   && !out.exit.RaisedInEnd?;
      CountedFor(before, r.manager.entries, r.chain, given, r.current, failed)
  {
    hide Decide, Feedback, FilesRefused, FilesMissing, ClaimsMissing, LastFails, LastGood, Mutated, CountedFor, ChargedForHops;
    DecisionKeeps(cfg, s.desk);
    MissingMeaning(env.world, s.desk.files);
    var failed := LastFails(s.desk.work.log) || ClaimsMissing(env.world, s.desk.files);
    FeedbackCounts(cfg, s.route, failed, before);
    NoFeedbackCounts(s.route, before, s.route.current, failed);
  }

  lemma MissingMeaning(world: World, f: Files)
    ensures FilesMissing(world, f) <==> ClaimsMissing(world, f)
  {
    if file :| file in f.created && file.Written? && world.missing(file.text) {
      assert file in f.created + f.modified;
    }
    if file :| file in f.modified && file.Written? && world.missing(file.text) {
      assert file in f.created + f.modified;
    }
  }

  /** Every entry has the failures it had, one for each hop away from it, and at the end of a
      run that is not cut short one failure or one success more if it is the entry that ran:
      a failure if and only if the last result failed verification or a claimed file is
      missing. */
  ghost predicate RegistryTells(cfg: Config, env: Env, m: Manager, out: Outcome) {
    var r := out.state.route;
    var failed := LastFails(out.state.desk.work.log) || ClaimsMissing(env.world, out.state.desk.files);
    var given := cfg.managed && m.initialized && r.current.provider != "" && r.current.model != ""
                 && (out.exit.LeftLoop? || out.exit.Exhausted?);
    CountedFor(m.entries, r.manager.entries, r.chain, given, r.current, failed)
  }

  lemma EndsTold(cfg: Config, env: Env, m: Manager, s: RunState, exhausted: bool)
    requires MemoryTells(s.desk.work) && s.route.manager.initialized == m.initialized
    requires ChargedForHops(m.entries, s.route.manager.entries, s.route.chain)
    ensures RegistryTells(cfg, env, m, Conclude(cfg, env, s, exhausted))
  {
    hide Conclude, ClaimsMissing, LastFails, CountedFor;
    ConclusionTells(cfg, env, s, m.entries, exhausted);
    NotInterrupted(cfg, env, s, exhausted);
  }

  lemma InterruptedTold(cfg: Config, env: Env, m: Manager, s: RunState, cause: Interruption)
    requires ChargedForHops(m.entries, s.route.manager.entries, s.route.chain)
    ensures RegistryTells(cfg, env, m, Outcome(s, Interrupted(cause)))
  {
    hide KeyTimes, ClaimsMissing, LastFails;
  }

  lemma ReachedTold(cfg: Config, env: Env, provider: Key, m: Manager, k: nat)
    requires m.Valid() && At(cfg, env, Initial(provider, m), k).Some?
    ensures var s := At(cfg, env, Initial(provider, m), k).value;
      var r := Round(cfg, env, s, k);
      && MemoryTells(s.desk.work) && (r.flow.Leave? ==> MemoryTells(r.state.desk.work))
      && ChargedForHops(m.entries, s.route.manager.entries, s.route.chain)
      && ChargedForHops(m.entries, r.state.route.manager.entries, r.state.route.chain)
      && s.route.manager.initialized == r.state.route.manager.initialized == m.initialized
  {
    ReachedIsCharged(cfg, env, provider, m, k);
    StateIsTold(cfg, env, provider, m, k);
    var s := At(cfg, env, Initial(provider, m), k).value;
    LeavesMemory(cfg, env, s, k);
    RoundCharges(cfg, env, m.entries, s, k);
    RoundKeepsSetup(cfg, env, s, k);
    TellsWork(env.world, s.desk, 0);
  }

  /** After any run the counters of the registry tell what happened to its entries. */
  lemma RegistryIsTold(cfg: Config, env: Env, provider: Key, m: Manager, limit: nat)
    requires m.Valid()
    ensures RegistryTells(cfg, env, m, Run(cfg, env, provider, m, limit))
  {
    hide Round, At, RunFrom, Conclude, RegistryTells, MemoryTells, ChargedForHops;
    var start := Initial(provider, m);
    StartIsReached(cfg, env, start);
    if Run(cfg, env, provider, m, limit).exit.Spent() {
      ReachedTheCap(cfg, env, start, 0, limit);
      ReachedTold(cfg, env, provider, m, limit);
      EndsTold(cfg, env, m, At(cfg, env, start, limit).value, true);
    } else {
      var last := LastRound(cfg, env, start, 0, limit);
      ReachedTold(cfg, env, provider, m, last);
      var r := Round(cfg, env, At(cfg, env, start, last).value, last);
      match r.flow {
        case Leave => EndsTold(cfg, env, m, r.state, false);
        case Abort(cause) => InterruptedTold(cfg, env, m, r.state, cause);
        case Next =>
      }
    }
  }

  lemma NotInterrupted(cfg: Config, env: Env, s: RunState, exhausted: bool)
    ensures var exit := Conclude(cfg, env, s, exhausted).exit;
      exit.RaisedInEnd? || exit == if exhausted then Exhausted else LeftLoop
  {
  }

  lemma {:induction false} ReachedTheCap(cfg: Config, env: Env, start: RunState, k: nat, limit: nat)
    requires k <= limit && At(cfg, env, start, k).Some?
    requires RunFrom(cfg, env, At(cfg, env, start, k).value, k, limit).exit.Spent()
    ensures At(cfg, env, start, limit).Some?
    ensures RunFrom(cfg, env, At(cfg, env, start, k).value, k, limit) ==
            Conclude(cfg, env, At(cfg, env, start, limit).value, true)
    decreases limit - k
  {
    hide Round;
    if k < limit {
      var s := At(cfg, env, start, k).value;
      var r := Round(cfg, env, s, k);
      assert r.flow.Next? by {
        NotInterrupted(cfg, env, r.state, false);
      }
      assert At(cfg, env, start, k + 1) == Some(r.state);
      ReachedTheCap(cfg, env, start, k + 1, limit);
    }
  }
}
