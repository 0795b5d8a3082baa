/** What happens in the rounds that a run reaches: coaching, failures and their causes. */
module AgentRounds {
  import opened Wrappers
  import opened TaskControl
  import opened ModelManagement
  import opened AgentLoop
  import opened AgentInvariants
  import opened AgentRuns

  // ------------------------------------------------------------------
  // Reached rounds
  // ------------------------------------------------------------------

  /** The state in which a run reaches a round, if it does. */
  function At(cfg: Config, env: Env, start: RunState, k: nat): Option<RunState> {
    if k == 0 then Some(start)
    else
      match At(cfg, env, start, k - 1)
      case None => None
      case Some(s) =>
        var r := Round(cfg, env, s, k - 1);
        if r.flow.Next? then Some(r.state) else None
  }

  lemma StartIsReached(cfg: Config, env: Env, start: RunState)
    ensures At(cfg, env, start, 0) == Some(start)
  {
  }

  /** A run is its rounds up to one it reaches, and then the run from there. */
  lemma {:induction false} RunFromReached(cfg: Config, env: Env, start: RunState, k: nat, limit: nat)
    requires k <= limit && At(cfg, env, start, k).Some?
    ensures RunFrom(cfg, env, start, 0, limit) == RunFrom(cfg, env, At(cfg, env, start, k).value, k, limit)
  {
    hide Round, Conclude;
    if k > 0 {
      RunFromReached(cfg, env, start, k - 1, limit);
    }
  }

  lemma {:induction false} ReachedIsRunning(cfg: Config, env: Env, m: Manager, provider: Key, k: nat)
    requires m.Valid() && At(cfg, env, Initial(provider, m), k).Some?
    ensures RunRunning(cfg, m, provider, At(cfg, env, Initial(provider, m), k).value, k)
  {
    hide Round, RunRunning, RunSound;
    if k == 0 {
      InitiallyRunning(cfg, m, provider);
    } else {
      ReachedIsRunning(cfg, env, m, provider, k - 1);
      RoundIsSound(cfg, env, m, provider, At(cfg, env, Initial(provider, m), k - 1).value, k - 1);
    }
  }

  /** The round in which a run ends, if it does not exhaust its cap. */
  lemma {:induction false} LastRound(cfg: Config, env: Env, start: RunState, k: nat, limit: nat) returns (last: nat)
    requires k <= limit && At(cfg, env, start, k).Some?
    requires !RunFrom(cfg, env, At(cfg, env, start, k).value, k, limit).exit.Spent()
    ensures k <= last < limit && At(cfg, env, start, last).Some?
    ensures var s := At(cfg, env, start, last).value;
      var r := Round(cfg, env, s, last);
      var out := RunFrom(cfg, env, At(cfg, env, start, k).value, k, limit);
      && !r.flow.Next?
      && (r.flow.Leave? ==> out == Conclude(cfg, env, r.state, false))
      && (r.flow.Abort? ==> out == Outcome(r.state, Interrupted(r.flow.cause)))
    decreases limit - k
  {
    hide Round, Conclude;
    assert k < limit by {
      if k == limit {
        SpentAtTheCap(cfg, env, At(cfg, env, start, k).value, k);
      }
    }
    var s := At(cfg, env, start, k).value;
    var r := Round(cfg, env, s, k);
    if r.flow.Next? {
      assert At(cfg, env, start, k + 1) == Some(r.state);
      last := LastRound(cfg, env, start, k + 1, limit);
    } else {
      last := k;
    }
  }

  lemma SpentAtTheCap(cfg: Config, env: Env, s: RunState, k: nat)
    ensures RunFrom(cfg, env, s, k, k).exit.Spent()
  {
  }

  // ------------------------------------------------------------------
  // Replies without calls
  // ------------------------------------------------------------------

  /** In any round that a run reaches, a reply without calls (or without a registry to run
      them) is answered with a directive and another round, as long as a change is required,
      none was made, and fewer than three directives went out. Otherwise it ends the loop:
      nothing is executed, no directive goes out, and it is the text that the decision
      starts from. */
  lemma PlainReply(cfg: Config, env: Env, provider: Key, m: Manager, k: nat, limit: nat)
    requires m.Valid() && k < limit && At(cfg, env, Initial(provider, m), k).Some?
    requires !env.timeUp(k) && env.reply(k).Text? && env.reply(k).text != ""
    requires env.reply(k).calls == [] || !cfg.hasRegistry
    ensures var s := At(cfg, env, Initial(provider, m), k).value;
      var out := Run(cfg, env, provider, m, limit);
      if cfg.requiresModification && !Mutated(s.desk.work.log) && s.desk.talk.directives < 3 then
        var next := At(cfg, env, Initial(provider, m), k + 1);
        && next.Some? && next.value.route == s.route
        && next.value.desk.work == s.desk.work && next.value.desk.admission == s.desk.admission
        && next.value.desk.talk.messages == s.desk.talk.messages + [Directive]
        && next.value.desk.talk.directives == s.desk.talk.directives + 1
      else
        && (out.exit == LeftLoop || out.exit == RaisedInEnd(false))
        && out.state.desk.work.log == s.desk.work.log
        && out.state.desk.talk.directives == s.desk.talk.directives
        && out.state.desk.talk.messages == s.desk.talk.messages
        && out.state.desk.talk.finalText ==
           (if cfg.requiresModification && !Mutated(s.desk.work.log) && !("__APPROVAL_REQUIRED__:" <= env.reply(k).text)
            then NotCompleted(FromModel(env.reply(k).text)) else FromModel(env.reply(k).text))
  {
    var start := Initial(provider, m);
    var s := At(cfg, env, start, k).value;
    ReachedIsRunning(cfg, env, m, provider, k);
    MutationIsLogged(cfg, s.desk);
    RunFromReached(cfg, env, start, k, limit);
    PlainRound(cfg, env, s, k);
    hide Round, Running, RunRunning;
    var r := Round(cfg, env, s, k);
    if r.flow.Next? {
      assert At(cfg, env, start, k + 1) == Some(r.state);
    } else {
      assert RunFrom(cfg, env, s, k, limit) == Conclude(cfg, env, r.state, false);
      PlainEnd(cfg, env, r.state, env.reply(k).text);
    }
  }

  lemma MutationIsLogged(cfg: Config, d: Desk)
    requires Running(cfg, d)
    ensures d.work.mutationDone <==> Mutated(d.work.log)
    ensures Working(d.work.machine.state)
  {
  }

  lemma PlainRound(cfg: Config, env: Env, s: RunState, k: nat)
    requires !env.timeUp(k) && env.reply(k).Text? && env.reply(k).text != ""
    requires env.reply(k).calls == [] || !cfg.hasRegistry
    ensures var r := Round(cfg, env, s, k);
      && r.state.route == s.route && r.state.desk.work == s.desk.work && r.state.desk.admission == s.desk.admission
      && if cfg.requiresModification && !s.desk.work.mutationDone && s.desk.talk.directives < 3 then
           && r.flow.Next?
           && r.state.desk.talk.messages == s.desk.talk.messages + [Directive]
           && r.state.desk.talk.directives == s.desk.talk.directives + 1
         else
           && r.flow.Leave?
           && r.state.desk.talk.messages == s.desk.talk.messages
           && r.state.desk.talk.directives == s.desk.talk.directives
           && r.state.desk.talk.finalText == FromModel(env.reply(k).text)
  {
    hide HandleCalls;
  }

  lemma PlainEnd(cfg: Config, env: Env, s: RunState, text: string)
    requires s.desk.talk.finalText == FromModel(text) && Working(s.desk.work.machine.state)
    ensures var out := Conclude(cfg, env, s, false);
      && (out.exit == LeftLoop || out.exit == RaisedInEnd(false))
      && out.state.desk.work.log == s.desk.work.log
      && out.state.desk.talk.directives == s.desk.talk.directives
      && out.state.desk.talk.messages == s.desk.talk.messages
      && out.state.desk.talk.finalText ==
         (if cfg.requiresModification && !s.desk.work.mutationDone && !("__APPROVAL_REQUIRED__:" <= text)
          then NotCompleted(FromModel(text)) else FromModel(text))
  {
    hide FilesRefused, FilesMissing, Feedback;
  }

  lemma SettleStopsWithoutReply(w: Work, t: Tool, failed: bool)
    ensures Settle(w, t, failed).1.Stop? ==> !Settle(w, t, failed).1.text.FromModel?
  {
  }

  lemma {:induction false} BatchLeavesWithoutReply(cfg: Config, env: Env, d: Desk, batch: seq<Call>)
    ensures var r := ExecuteBatch(cfg, env, d, batch); r.flow.Leave? ==> !r.desk.talk.finalText.FromModel?
    decreases |batch|
  {
    if batch != [] {
      CallLeavesWithoutReply(cfg, env, d, batch[0]);
      hide TakeCall;
      var r := TakeCall(cfg, env, d, batch[0]);
      if r.flow.Next? {
        BatchLeavesWithoutReply(cfg, env, r.desk, batch[1..]);
      }
    }
  }

  lemma CallLeavesWithoutReply(cfg: Config, env: Env, d: Desk, c: Call)
    ensures var r := TakeCall(cfg, env, d, c); r.flow.Leave? ==> !r.desk.talk.finalText.FromModel?
  {
    var raw := Dispatch(cfg, c, env.tool(|d.work.log|, c));
    SettleStopsWithoutReply(Witness(d.work, c, raw), c.tool, AfterVerification(c.tool, raw).Errs());
    hide Witness, Settle, Dispatch, AfterVerification, MishapOf, Noted;
  }

  lemma RoundLeavesCoached(cfg: Config, env: Env, s: RunState, k: nat)
    ensures var r := Round(cfg, env, s, k);
      r.flow.Leave? && r.state.desk.talk.finalText.FromModel? ==>
        && r.state.desk.work == s.desk.work
        && (cfg.requiresModification && !s.desk.work.mutationDone ==> r.state.desk.talk.directives >= 3)
  {
    hide Reroute, ExecuteBatch, LimitCheck, Propose, Fresh;
    if !env.timeUp(k) && env.reply(k).Text? {
      var text, calls := env.reply(k).text, env.reply(k).calls;
      var d1 := s.desk.(talk := s.desk.talk.(finalText := FromModel(text), rounds := s.desk.talk.rounds + 1));
      var d2 := d1.(admission := Propose(d1.admission, calls));
      BatchLeavesWithoutReply(cfg, env, d2.(talk := d2.talk.(stallRounds := 0)), Fresh(calls, d2.admission.executed));
    }
  }

  /** No run that leaves the loop by itself tells the user that the task was not completed
      before the model was told three times to make the change. */
  lemma NotCompletedOnlyAfterCoaching(cfg: Config, env: Env, provider: Key, m: Manager, limit: nat)
    requires m.Valid()
    ensures var out := Run(cfg, env, provider, m, limit);
      var text := out.state.desk.talk.finalText;
      (out.exit.LeftLoop? || out.exit == RaisedInEnd(false)) && text.NotCompleted? && text.before.FromModel? ==>
        out.state.desk.talk.directives >= 3
  {
    hide RunFrom, Round, At, RunRunning, Conclude, Manager.Valid;
    var start := Initial(provider, m);
    StartIsReached(cfg, env, start);
    var out := Run(cfg, env, provider, m, limit);
    if !out.exit.Spent() {
      var last := LastRound(cfg, env, start, 0, limit);
      var s := At(cfg, env, start, last).value;
      RoundLeavesCoached(cfg, env, s, last);
      ReachedIsRunning(cfg, env, m, provider, last);
      LeavesUndecided(cfg, env, m, provider, s, last);
      NotCompletedComesFromDecision(cfg, env, Round(cfg, env, s, last).state);
    }
  }

  lemma LeavesUndecided(cfg: Config, env: Env, m: Manager, provider: Key, s: RunState, k: nat)
    requires RunRunning(cfg, m, provider, s, k)
    ensures var r := Round(cfg, env, s, k); r.flow.Leave? ==> !r.state.desk.talk.finalText.NotCompleted?
  {
    hide Round, RunRunning;
    RoundIsSound(cfg, env, m, provider, s, k);
  }

  lemma NotCompletedComesFromDecision(cfg: Config, env: Env, s: RunState)
    ensures var text := Conclude(cfg, env, s, false).state.desk.talk.finalText;
      text.NotCompleted? && text != s.desk.talk.finalText ==>
        text == NotCompleted(s.desk.talk.finalText) && cfg.requiresModification && !s.desk.work.mutationDone
    ensures Conclude(cfg, env, s, false).state.desk.talk.directives == s.desk.talk.directives
  {
    hide FilesRefused, FilesMissing, Feedback;
  }
}
