/** When a completed modification rests on one whose verification passed. */
module CompletionExactness {
  import opened TaskControl
  import opened ModelManagement
  import opened AgentLoop
  import opened AgentInvariants
  import opened AgentTheorems
  import opened AgentRuns

  /** A handler of this tool can be reached. */
  predicate Callable(cfg: Config, t: Tool) {
    cfg.hasRegistry && t in cfg.registered && (t in cfg.needsApproval ==> cfg.approved)
  }

  /** Which results the handlers of tools may give. */
  type Results = (Tool, ToolResult) -> bool

  /** A change that a tool reports without an error and that fails its verification. */
  predicate Unconfirmed(t: Tool, r: ToolResult) {
    (t.Modifies() || t.Executes()) && !r.Errs() && !r.needsApproval && !VerificationPasses(t, r)
  }

  predicate Confirmed(log: seq<Execution>) {
    exists i | 0 <= i < |log| :: Mutation(log[i]) && !log[i].outcome.Errs()
  }

  ghost predicate ResultsFrom(cfg: Config, results: Results, log: seq<Execution>) {
    forall i | 0 <= i < |log| :: Callable(cfg, log[i].call.tool) ==> results(log[i].call.tool, log[i].raw)
  }

  /** If the run is completed and needed a change, some change was confirmed. */
  ghost predicate CompletesConfirmed(cfg: Config, results: Results, out: Outcome) {
    var log := out.state.desk.work.log;
    && !out.exit.Interrupted? && out.state.desk.work.machine.state.Completed?
    && cfg.requiresModification && ResultsFrom(cfg, results, log)
    ==> Confirmed(log)
  }

  // ------------------------------------------------------------------
  // Where logged results come from
  // ------------------------------------------------------------------

  ghost predicate Traced(cfg: Config, log: seq<Execution>) {
    forall i | 0 <= i < |log| ::
      && log[i].outcome == AfterVerification(log[i].call.tool, log[i].raw)
      && (!log[i].raw.Errs() ==> Callable(cfg, log[i].call.tool))
  }

  predicate NoneWaits(log: seq<Execution>) {
    forall i | 0 <= i < |log| :: !log[i].raw.needsApproval
  }

  /** A result that waits for approval ends the loop with the request. */
  ghost predicate TracedTurn(cfg: Config, r: Turn) {
    && Traced(cfg, r.desk.work.log)
    && (r.flow.Next? ==> NoneWaits(r.desk.work.log))
    && (r.flow.Leave? ==> NoneWaits(r.desk.work.log) || r.desk.talk.finalText.ApprovalPending())
  }

  lemma SettleLogsNothing(w: Work, t: Tool, failed: bool)
    ensures Settle(w, t, failed).0.log == w.log
  {
  }

  lemma PerformLogs(w: Work, c: Call, raw: ToolResult, mishap: Mishap)
    ensures var (w', verdict) := Perform(w, c, raw, mishap);
            && w'.log == w.log + [Logged(c, raw)]
            && (verdict.Continue? ==> !raw.needsApproval)
            && (verdict.Stop? ==> !raw.needsApproval || verdict.text.ApprovalRequest?)
  {
    WitnessLogs(w, c, raw);
    SettleLogsNothing(Witness(w, c, raw), c.tool, AfterVerification(c.tool, raw).Errs());
    hide Witness, Settle;
  }

  lemma TakeCallIsTraced(cfg: Config, env: Env, d: Desk, c: Call)
    requires cfg.hasRegistry && Traced(cfg, d.work.log) && NoneWaits(d.work.log)
    ensures TracedTurn(cfg, TakeCall(cfg, env, d, c))
  {
    hide Perform, MishapOf, Noted;
    var raw := Dispatch(cfg, c, env.tool(|d.work.log|, c));
    PerformLogs(d.work, c, raw, MishapOf(env.world, c, AfterVerification(c.tool, raw)));
  }

  lemma {:induction false} BatchIsTraced(cfg: Config, env: Env, d: Desk, batch: seq<Call>)
    requires cfg.hasRegistry && Traced(cfg, d.work.log) && NoneWaits(d.work.log)
    ensures TracedTurn(cfg, ExecuteBatch(cfg, env, d, batch))
    decreases |batch|
  {
    if batch != [] {
      TakeCallIsTraced(cfg, env, d, batch[0]);
      hide TakeCall;
      var r := TakeCall(cfg, env, d, batch[0]);
      if r.flow.Next? {
        BatchIsTraced(cfg, env, r.desk, batch[1..]);
      }
    }
  }

  lemma HandleTextIsTraced(cfg: Config, env: Env, d: Desk, text: string, calls: seq<Call>)
    requires Traced(cfg, d.work.log) && NoneWaits(d.work.log)
    ensures TracedTurn(cfg, HandleText(cfg, env, d, text, calls))
  {
    hide ExecuteBatch, LimitCheck, Fresh, Propose, Traced, NoneWaits;
    var d1 := d.(talk := d.talk.(finalText := FromModel(text), rounds := d.talk.rounds + 1));
    var d2 := d1.(admission := Propose(d1.admission, calls));
    var d3 := d2.(talk := d2.talk.(stallRounds := 0));
    if cfg.hasRegistry {
      BatchIsTraced(cfg, env, d3, Fresh(calls, d2.admission.executed));
    }
  }

  lemma RoundIsTraced(cfg: Config, env: Env, s: RunState, round: nat)
    requires Traced(cfg, s.desk.work.log) && NoneWaits(s.desk.work.log)
    ensures var r := Round(cfg, env, s, round); TracedTurn(cfg, Turn(r.state.desk, r.flow))
  {
    hide HandleText, Reroute, Traced, NoneWaits;
    if !env.timeUp(round) && env.reply(round).Text? {
      HandleTextIsTraced(cfg, env, s.desk, env.reply(round).text, env.reply(round).calls);
    }
  }

  lemma {:induction false} RunIsTraced(cfg: Config, env: Env, s: RunState, round: nat, limit: nat)
    requires Traced(cfg, s.desk.work.log) && NoneWaits(s.desk.work.log)
    ensures var out := RunFrom(cfg, env, s, round, limit);
            && Traced(cfg, out.state.desk.work.log)
            && (!out.exit.Interrupted? ==>
                  NoneWaits(out.state.desk.work.log) || out.state.desk.talk.finalText.ApprovalPending())
    decreases limit - round
  {
    hide Round, Feedback, Traced, NoneWaits;
    if round < limit {
      RoundIsTraced(cfg, env, s, round);
      var r := Round(cfg, env, s, round);
      if r.flow.Next? {
        RunIsTraced(cfg, env, r.state, round + 1, limit);
      }
    }
  }

  /** If no reachable tool gives an unconfirmed change, completed runs are confirmed. */
  lemma CompletionIsConfirmed(cfg: Config, results: Results, env: Env, provider: Key, m: Manager, limit: nat)
    requires m.Valid()
    requires forall t, r :: Callable(cfg, t) && results(t, r) ==> !Unconfirmed(t, r)
    ensures CompletesConfirmed(cfg, results, Run(cfg, env, provider, m, limit))
  {
    CompletionNeedsEvidence(cfg, env, provider, m, limit);
    RunIsTraced(cfg, env, Initial(provider, m), 0, limit);
    hide RunFrom;
    var out := Run(cfg, env, provider, m, limit);
    var log := out.state.desk.work.log;
    if !out.exit.Interrupted? && out.state.desk.work.machine.state.Completed? && cfg.requiresModification
       && ResultsFrom(cfg, results, log) {
      var i :| 0 <= i < |log| && Mutation(log[i]) && log[i].call.tool in cfg.registered;
      var e := log[i];
      assert Callable(cfg, e.call.tool) && results(e.call.tool, e.raw);
      assert !Unconfirmed(e.call.tool, e.raw);
    }
  }

  // ------------------------------------------------------------------
  // A run that completes unconfirmed
  // ------------------------------------------------------------------

  /** All arguments are texts, and the disk is in order. */
  const PLAIN: World :=
    World(_ => Arguments(Written("a"), Written("a"), Written("a")), _ => false, _ => false, _ => false)

  /** The model proposes one call and is done; the tool gives this result. */
  function OneCall(c: Call, r: ToolResult): Env {
    Env(_ => false, round => if round == 0 then Text("edit", [c]) else Text("done", []), (_, _) => r, PLAIN)
  }

  lemma UnconfirmedWork(c: Call, r: ToolResult)
    requires Unconfirmed(c.tool, r)
    ensures var (w, verdict) := Perform(NO_WORK, c, r, Smooth);
            && verdict.Continue?
            && w.log == [Logged(c, r)] && Logged(c, r).outcome.Errs()
            && w.mutationDone && w.machine.state.Correcting?
  {
    assert Recorded(NO_PROGRESS, c, false).MutationHappened();
  }

  lemma UnconfirmedCall(cfg: Config, d: Desk, c: Call, r: ToolResult)
    requires Callable(cfg, c.tool) && Unconfirmed(c.tool, r)
    requires d.work == NO_WORK && c !in d.admission.executed
    ensures var t := TakeCall(cfg, OneCall(c, r), d, c);
            && t.flow.Next?
            && t.desk.work.log == [Logged(c, r)] && t.desk.work.mutationDone && t.desk.work.machine.state.Correcting?
            && t.desk.talk.finalText == d.talk.finalText
  {
    UnconfirmedWork(c, r);
    hide Perform;
    assert TakeCall(cfg, OneCall(c, r), d, c) == ExecuteOne(PLAIN, d, c, r);
  }

  lemma UnconfirmedRound(cfg: Config, s: RunState, c: Call, r: ToolResult) returns (next: RunState)
    requires Callable(cfg, c.tool) && Unconfirmed(c.tool, r) && s.desk == INITIAL_DESK
    ensures Round(cfg, OneCall(c, r), s, 0) == Step(next, Next)
    ensures next.desk.work.log == [Logged(c, r)] && next.desk.work.mutationDone
    ensures next.desk.work.machine.state.Correcting? && next.desk.talk.finalText == FromModel("edit")
  {
    hide TakeCall, HandleText;
    var env := OneCall(c, r);
    var d := FirstProposal(cfg, env, "edit", c);
    UnconfirmedCall(cfg, d, c, r);
    assert !IsTooLong(FromModel("edit"));
    next := s.(desk := HandleText(cfg, env, INITIAL_DESK, "edit", [c]).desk);
  }

  lemma NotAnApproval(text: string)
    requires text == "edit" || text == "done"
    ensures !FromModel(text).ApprovalPending()
  {
    assert APPROVAL_REQUIRED_PREFIX[0] != text[0];
  }

  lemma MutationCompletes(cfg: Config, env: Env, s: RunState, exhausted: bool)
    requires s.desk.work.mutationDone && !Terminal(s.desk.work.machine.state) && !s.desk.talk.finalText.ApprovalPending()
    ensures var out := Conclude(cfg, env, s, exhausted);
            && !out.exit.Interrupted? && out.state.desk.work.machine.state.Completed?
            && out.state.desk.work.log == s.desk.work.log
  {
    hide Feedback, FilesRefused;
  }

  lemma DoneLeaves(cfg: Config, c: Call, r: ToolResult, s: RunState, round: nat)
    requires s.desk.work.mutationDone && round > 0
    ensures var last := Round(cfg, OneCall(c, r), s, round);
            && last.flow.Leave? && last.state.desk.work == s.desk.work
            && last.state.desk.talk.finalText == FromModel("done")
  {
    hide HandleCalls, HandleFailure;
  }

  lemma UnconfirmedEnding(cfg: Config, c: Call, r: ToolResult, s: RunState, limit: nat)
    requires s.desk.work.mutationDone && !Terminal(s.desk.work.machine.state)
    requires s.desk.talk.finalText == FromModel("edit") && limit > 0
    ensures var out := RunFrom(cfg, OneCall(c, r), s, 1, limit);
            && !out.exit.Interrupted? && out.state.desk.work.machine.state.Completed?
            && out.state.desk.work.log == s.desk.work.log
  {
    NotAnApproval("edit");
    NotAnApproval("done");
    var env := OneCall(c, r);
    hide Round, Conclude, OneCall, FinalText.ApprovalPending;
    if limit == 1 {
      MutationCompletes(cfg, env, s, true);
    } else {
      DoneLeaves(cfg, c, r, s, 1);
      MutationCompletes(cfg, env, Round(cfg, env, s, 1).state, false);
    }
  }

  /** Whatever else is configured, one unconfirmed change of a reachable tool is enough to
      complete a run that needs a change. */
  lemma CompletedUnconfirmed(cfg: Config, c: Call, r: ToolResult, provider: Key, m: Manager, limit: nat)
    requires Callable(cfg, c.tool) && Unconfirmed(c.tool, r) && cfg.requiresModification && limit > 0
    ensures var out := Run(cfg, OneCall(c, r), provider, m, limit);
            && !out.exit.Interrupted? && out.state.desk.work.machine.state.Completed?
            && out.state.desk.work.log == [Logged(c, r)] && !Confirmed(out.state.desk.work.log)
  {
    UnconfirmedWork(c, r);
    var env := OneCall(c, r);
    var s := Initial(provider, m);
    assert s.desk == INITIAL_DESK;
    assert !Confirmed([Logged(c, r)]);
    hide Round, Conclude, Perform, Initial, OneCall, Confirmed, Unconfirmed, Callable;
    var s1 := UnconfirmedRound(cfg, s, c, r);
    assert RunFrom(cfg, env, s, 0, limit) == RunFrom(cfg, env, s1, 1, limit);
    UnconfirmedEnding(cfg, c, r, s1, limit);
  }

  /** For instance a command that ends with an error code: the tool reports no error, its
      verification fails, and it counts as an executed change. */
  lemma FailingCommandCompletes(cfg: Config, args: string, provider: Key, m: Manager, limit: nat)
    requires Callable(cfg, ExecuteCommand) && cfg.requiresModification && limit > 0
    ensures var failed := ToolResult(false, false, false, false, false, 0);
            var out := Run(cfg, OneCall(Call(ExecuteCommand, args), failed), provider, m, limit);
            out.state.desk.work.machine.state.Completed? && !Confirmed(out.state.desk.work.log)
  {
    CompletedUnconfirmed(cfg, Call(ExecuteCommand, args), ToolResult(false, false, false, false, false, 0), provider, m, limit);
  }

  /** For every configuration and every set of results that handlers may give: all completed
      runs that needed a change have a confirmed one if and only if no reachable tool may
      report an unconfirmed change. */
  lemma CompletionIsConfirmedIff(cfg: Config, results: Results, provider: Key, m: Manager, limit: nat)
    requires m.Valid()
    ensures (forall env :: CompletesConfirmed(cfg, results, Run(cfg, env, provider, m, limit))) <==>
            (cfg.requiresModification && limit > 0 ==>
               forall t, r :: Callable(cfg, t) && results(t, r) ==> !Unconfirmed(t, r))
  {
    hide RunFrom, Callable, Unconfirmed;
    if cfg.requiresModification && limit > 0 {
      if t, r :| Callable(cfg, t) && results(t, r) && Unconfirmed(t, r) {
        var c := Call(t, "");
        CompletedUnconfirmed(cfg, c, r, provider, m, limit);
        assert !CompletesConfirmed(cfg, results, Run(cfg, OneCall(c, r), provider, m, limit));
      } else {
        forall env ensures CompletesConfirmed(cfg, results, Run(cfg, env, provider, m, limit)) {
          CompletionIsConfirmed(cfg, results, env, provider, m, limit);
        }
      }
    } else if limit == 0 {
      forall env ensures CompletesConfirmed(cfg, results, Run(cfg, env, provider, m, limit)) {
        CompletionNeedsEvidence(cfg, env, provider, m, limit);
        NothingRuns(cfg, env, provider, m);
      }
    }
  }

  lemma NothingRuns(cfg: Config, env: Env, provider: Key, m: Manager)
    ensures Run(cfg, env, provider, m, 0).state.desk.work.log == []
  {
  }
}
