/** Theorems about every run of the agentic loop, whatever the model proposes,
    whatever the tools answer, and whatever the round cap is. */
module AgentTheorems {
  import opened Basics
  import opened TaskControl
  import opened AgentLoop
  import opened AgentInvariants

  // ------------------------------------------------------------------
  // One execution
  // ------------------------------------------------------------------

  lemma AdvanceIsSound(m: Machine, t: Tool, mutated: bool, raw: ToolResult)
    requires MachineSound(m) && Working(m.state)
    ensures var next := Advance(m, TargetState(t, mutated), VerificationPasses(t, raw));
            MachineSound(next) && Working(next.state)
  {
    hide Chained, OnlyToleratedFlags;
    var target := TargetState(t, mutated);
    var m1 := Move(m, target);
    MoveKeepsChain(m, target);
    MoveKeepsFlags(m, target);
    if !VerificationPasses(t, raw) {
      MoveKeepsChain(m1, Correcting);
      MoveKeepsFlags(m1, Correcting);
    }
  }

  lemma EndingIsSound(m: Machine, s: TaskState)
    requires MachineSound(m) && Terminal(s) && (Working(m.state) || Terminal(m.state))
    ensures MachineSound(Move(m, s)) && Terminal(Move(m, s).state)
  {
    assert Working(m.state) ==> Allowed(m.state, s);
    MoveKeepsChain(m, s);
    MoveKeepsFlags(m, s);
  }

  lemma RecordedChanges(p: Progress, c: Call, failed: bool)
    ensures var q := Recorded(p, c, failed);
            && q.identicalCalls == p.identicalCalls[c := Get(p.identicalCalls, c) + 1]
            && q.toolNameCounts == p.toolNameCounts[c.tool := Get(p.toolNameCounts, c.tool) + 1]
            && (q.MutationHappened() <==> p.MutationHappened() || (!failed && (c.tool.Modifies() || c.tool.Executes())))
  {
  }

  lemma RecordedMatches(p: Progress, log: seq<Execution>, e: Execution)
    requires ProgressMatches(p, log) && e.call !in Calls(log)
    ensures ProgressMatches(Recorded(p, e.call, e.raw.Errs()), log + [e])
  {
    Append(log, e);
    RecordedChanges(p, e.call, e.raw.Errs());
    hide Recorded, Mutated, Count, Calls, Successes, Progress.MutationHappened, Tool.Modifies, Tool.Executes;
  }

  /** The log stays sound when one more call is logged. */
  lemma LoggingIsSound(cfg: Config, log: seq<Execution>, c: Call, raw: ToolResult)
    requires LogSound(cfg, log) && c !in Calls(log) && Count(log, c.tool) <= 2 && Possible(cfg, c, raw)
    requires |log| <= 3 * Successes(log) + 2
    ensures LogSound(cfg, log + [Logged(c, raw)])
  {
    Append(log, Logged(c, raw));
    CallsAreLogged(log);
  }

  lemma WitnessIsSound(cfg: Config, w: Work, c: Call, raw: ToolResult)
    requires RunningWork(cfg, w) && c !in Calls(w.log) && Count(w.log, c.tool) <= 2 && Possible(cfg, c, raw)
    ensures var w1 := Witness(w, c, raw);
            && SoundWork(cfg, w1)
            && Working(w1.machine.state)
            && Successes(w1.log) == Successes(w.log) + (if Logged(c, raw).outcome.Errs() then 0 else 1)
            && (c.tool.ExecuteCommand? ==> w1.fixCycles < Count(w1.log, ExecuteCommand))
  {
    hide Chained, OnlyToleratedFlags, Advance, LogSound, ProgressMatches;
    var e := Logged(c, raw);
    Append(w.log, e);
    LoggingIsSound(cfg, w.log, c, raw);
    RecordedMatches(w.progress, w.log, e);
    AdvanceIsSound(w.machine, c.tool, Recorded(w.progress, c, raw.Errs()).MutationHappened(), raw);
  }

  /** Settling a result changes neither the log nor the progress; it goes on only
      within the failure budget, and can only stop for failures. */
  lemma SettleKeepsLog(w: Work, t: Tool, failed: bool)
    requires w.consecutiveFailures <= 2
    requires t.ExecuteCommand? ==> w.fixCycles <= 2
    ensures var (w', verdict) := Settle(w, t, failed);
            && w' == w.(machine := w'.machine, consecutiveFailures := w'.consecutiveFailures,
                        fixCycles := w'.fixCycles, lastWasModify := w'.lastWasModify)
            && w'.fixCycles <= w.fixCycles + (if t.ExecuteCommand? then 1 else 0)
            && w'.consecutiveFailures == (if failed then w.consecutiveFailures + 1 else 0)
            && (verdict.Continue? ==> w'.machine == w.machine && w'.consecutiveFailures <= 2)
            && (verdict.Stop? ==> w'.machine == Move(w.machine, Failed) && verdict.text.StoppedFailing?)
  {
  }

  lemma SoundnessCarriesOver(cfg: Config, w: Work, w': Work)
    requires SoundWork(cfg, w) && w'.log == w.log && w'.progress == w.progress && w'.mutationDone == w.mutationDone
    requires w'.fixCycles <= Count(w.log, ExecuteCommand) && MachineSound(w'.machine)
    ensures SoundWork(cfg, w')
  {
  }

  lemma SettleIsSound(cfg: Config, w: Work, t: Tool, failed: bool)
    requires SoundWork(cfg, w) && Working(w.machine.state) && w.consecutiveFailures <= 2
    requires |w.log| <= 3 * Successes(w.log) + if failed then w.consecutiveFailures + 1 else 0
    requires t.ExecuteCommand? ==> w.fixCycles < Count(w.log, ExecuteCommand)
    ensures var (w', verdict) := Settle(w, t, failed);
            && SoundWork(cfg, w')
            && w'.log == w.log && w'.progress == w.progress
            && (verdict.Continue? ==> RunningWork(cfg, w'))
            && (verdict.Stop? ==> w'.machine.state.Failed? && verdict.text.StoppedFailing?)
  {
    assert Count(w.log, ExecuteCommand) <= 3;
    SettleKeepsLog(w, t, failed);
    EndingIsSound(w.machine, Failed);
    SoundnessCarriesOver(cfg, w, Settle(w, t, failed).0);
  }

  lemma WitnessLogs(w: Work, c: Call, raw: ToolResult)
    ensures var w1 := Witness(w, c, raw);
            && w1.log == w.log + [Logged(c, raw)]
            && w1.progress.directivesIssued == w.progress.directivesIssued
            && w1.consecutiveFailures == w.consecutiveFailures
  {
  }

  /** One admitted call keeps the work sound; it stops either as failed or with an
      approval request pending. */
  lemma PerformIsSound(cfg: Config, w: Work, c: Call, raw: ToolResult, mishap: Mishap)
    requires RunningWork(cfg, w) && c !in Calls(w.log) && Count(w.log, c.tool) <= 2 && Possible(cfg, c, raw)
    ensures var (w', verdict) := Perform(w, c, raw, mishap);
            && SoundWork(cfg, w')
            && w'.log == w.log + [Logged(c, raw)]
            && w'.progress.directivesIssued == w.progress.directivesIssued
            && (verdict.Continue? ==> RunningWork(cfg, w') && !raw.needsApproval && !mishap.EarlyRaise?)
            && (verdict.Stop? ==>
                 || (w'.machine.state.Failed? && verdict.text.StoppedFailing?)
                 || (Working(w'.machine.state) && verdict.text.ApprovalRequest?))
  {
    hide Witness, Settle, SoundWork, Calls, Count, Successes, AfterVerification, Possible;
    WitnessIsSound(cfg, w, c, raw);
    WitnessLogs(w, c, raw);
    if !raw.needsApproval {
      SettleIsSound(cfg, Witness(w, c, raw), c.tool, Logged(c, raw).outcome.Errs());
    }
  }

  lemma ExecuteOneIsSound(cfg: Config, world: World, d: Desk, c: Call, raw: ToolResult)
    requires Running(cfg, d) && RoundsPaid(d, 1) && Possible(cfg, c, raw)
    requires c !in d.admission.executed
    requires Count(d.work.log, c.tool) < Get(d.admission.names, c.tool) <= 3
    ensures var r := ExecuteOne(world, d, c, raw);
            && Kept(cfg, r)
            && RoundsPaid(r.desk, 0)
            && r.desk.admission.names == d.admission.names
            && r.desk.work.log == d.work.log + [Logged(c, raw)]
  {
    hide MishapOf, Noted, Perform, AfterVerification, ProgressMatches, MachineSound, Count;
    PerformIsSound(cfg, d.work, c, raw, MishapOf(world, c, AfterVerification(c.tool, raw)));
    Append(d.work.log, Logged(c, raw));
    AppendMessage(d.talk.messages, ToolMessage(c), d.work.log, Logged(c, raw));
  }

  // ------------------------------------------------------------------
  // One batch
  // ------------------------------------------------------------------

  lemma CoverMoves(d: Desk, batch: seq<Call>, d': Desk, raw: ToolResult)
    requires Covered(d, batch) && batch != []
    requires d'.admission.names == d.admission.names
    requires d'.work.log == d.work.log || d'.work.log == d.work.log + [Logged(batch[0], raw)]
    ensures Covered(d', batch[1..])
    ensures Count(d.work.log, batch[0].tool) < Get(d.admission.names, batch[0].tool) <= 3
  {
    Append(d.work.log, Logged(batch[0], raw));
    assert forall t :: Occurrences(batch, t) == (if batch[0].tool == t then 1 else 0) + Occurrences(batch[1..], t);
    assert forall b | b in batch[1..] :: b in batch;
  }

  lemma AnsweringIsSound(cfg: Config, d: Desk)
    requires Running(cfg, d) && RoundsPaid(d, 0)
    ensures Kept(cfg, Answer(d))
  {
    assert (d.talk.messages + [AssistantMessage])[..|d.talk.messages|] == d.talk.messages;
  }

  lemma TakeCallIsSound(cfg: Config, env: Env, d: Desk, batch: seq<Call>)
    requires Running(cfg, d) && RoundsPaid(d, 1) && Covered(d, batch) && batch != []
    requires RoundsPaid(d, 0) || batch[0] !in d.admission.executed
    ensures var r := TakeCall(cfg, env, d, batch[0]);
            Kept(cfg, r) && (r.flow.Next? ==> Covered(r.desk, batch[1..]))
  {
    var c := batch[0];
    var raw := Dispatch(cfg, c, env.tool(|d.work.log|, c));
    CoverMoves(d, batch, d, raw);
    if c !in d.admission.executed {
      ExecuteOneIsSound(cfg, env.world, d, c, raw);
      CoverMoves(d, batch, ExecuteOne(env.world, d, c, raw).desk, raw);
    }
  }

  lemma {:induction false} BatchIsSound(cfg: Config, env: Env, d: Desk, batch: seq<Call>)
    requires Running(cfg, d) && RoundsPaid(d, 1) && Covered(d, batch)
    requires RoundsPaid(d, 0) || (batch != [] && batch[0] !in d.admission.executed)
    ensures Kept(cfg, ExecuteBatch(cfg, env, d, batch))
    decreases |batch|
  {
    if batch == [] {
      AnsweringIsSound(cfg, d);
    } else {
      TakeCallIsSound(cfg, env, d, batch);
      var r := TakeCall(cfg, env, d, batch[0]);
      if r.flow.Next? {
        BatchIsSound(cfg, env, r.desk, batch[1..]);
      }
    }
  }

  // ------------------------------------------------------------------
  // Admission
  // ------------------------------------------------------------------

  lemma {:induction false} ProposeCounts(a: Admission, calls: seq<Call>)
    ensures Propose(a, calls).executed == a.executed
    ensures forall t :: Get(Propose(a, calls).names, t) == Get(a.names, t) + Occurrences(calls, t)
    decreases |calls|
  {
    if calls != [] {
      var c := calls[0];
      ProposeCounts(a.(seen := a.seen[c := Get(a.seen, c) + 1],
                       names := a.names[c.tool := Get(a.names, c.tool) + 1],
                       deduplicated := if c in a.executed then a.deduplicated + 1 else a.deduplicated),
                    calls[1..]);
    }
  }

  lemma {:induction false} FreshIsSelection(calls: seq<Call>, executed: set<Call>)
    ensures forall t :: Occurrences(Fresh(calls, executed), t) <= Occurrences(calls, t)
    ensures forall c :: c in Fresh(calls, executed) <==> c in calls && c !in executed
  {
    if calls != [] {
      FreshIsSelection(calls[1..], executed);
      var rest := Fresh(calls[1..], executed);
      assert ([calls[0]] + rest)[1..] == rest;
      assert Fresh(calls, executed) == if calls[0] in executed then rest else [calls[0]] + rest;
    }
  }

  lemma {:induction false} WithinLimits(a: Admission, calls: seq<Call>)
    ensures LimitCheck(a, calls).Within? ==>
              forall c | c in calls :: Get(a.seen, c) <= 2 && Get(a.names, c.tool) <= 3
  {
    if calls != [] {
      WithinLimits(a, calls[1..]);
    }
  }

  // ------------------------------------------------------------------
  // One round
  // ------------------------------------------------------------------

  lemma DirectiveIsSound(cfg: Config, d: Desk, stallRounds: nat)
    requires Running(cfg, d) && RoundsPaid(d, 1)
    ensures d.work.progress.directivesIssued == 0 ==> Kept(cfg, Turn(CoachToModify(d, stallRounds), Next))
    ensures d.talk.directives < 3 ==> Kept(cfg, Turn(d.(talk := Instruct(d.talk.(stallRounds := stallRounds))), Next))
  {
    var messages := d.talk.messages;
    assert (messages + [Directive])[..|messages|] == messages;
  }

  lemma StopIsSound(cfg: Config, d: Desk, text: FinalText)
    requires Running(cfg, d) && RoundsPaid(d, 1) && FailureText(text)
    ensures Kept(cfg, Turn(Unproductive(d, text), Leave))
  {
    EndingIsSound(d.work.machine, Failed);
  }

  lemma StalledIsSound(cfg: Config, d: Desk)
    requires Running(cfg, d) && RoundsPaid(d, 1)
    ensures Kept(cfg, Stalled(cfg, d))
  {
    DirectiveIsSound(cfg, d, d.talk.stallRounds + 1);
    StopIsSound(cfg, d.(talk := d.talk.(stallRounds := d.talk.stallRounds + 1)), StoppedStalled);
  }

  lemma HandleCallsIsSound(cfg: Config, env: Env, d: Desk, calls: seq<Call>)
    requires Running(cfg, d) && RoundsPaid(d, 1)
    ensures Kept(cfg, HandleCalls(cfg, env, d, calls))
  {
    var d1 := d.(admission := Propose(d.admission, calls));
    ProposeCounts(d.admission, calls);
    var batch := Fresh(calls, d1.admission.executed);
    FreshIsSelection(calls, d1.admission.executed);
    assert Running(cfg, d1);
    if batch == [] {
      StalledIsSound(cfg, d1);
    } else {
      match LimitCheck(d1.admission, calls) {
        case Repeated(tool) =>
          DirectiveIsSound(cfg, d1, 0);
          StopIsSound(cfg, d1, StoppedRepeating(tool));
        case Overused(tool) =>
          StopIsSound(cfg, d1, StoppedOverused(tool));
        case Within =>
          WithinLimits(d1.admission, calls);
          assert batch[0] in batch;
          BatchIsSound(cfg, env, d1.(talk := d1.talk.(stallRounds := 0)), batch);
      }
    }
  }

  lemma TextArrives(cfg: Config, d: Desk, text: string)
    requires Running(cfg, d) && RoundsPaid(d, 0)
    ensures var d1 := d.(talk := d.talk.(finalText := FromModel(text), rounds := d.talk.rounds + 1));
            Running(cfg, d1) && RoundsPaid(d1, 1)
  {
    hide RunningWork;
  }

  lemma LeavingIsSound(cfg: Config, d: Desk)
    requires Running(cfg, d) && RoundsPaid(d, 1)
    ensures Kept(cfg, Turn(d, Leave))
  {
  }

  lemma HandleTextIsSound(cfg: Config, env: Env, d: Desk, text: string, calls: seq<Call>)
    requires Running(cfg, d) && RoundsPaid(d, 0)
    ensures Kept(cfg, HandleText(cfg, env, d, text, calls))
  {
    hide Running, RoundsPaid, HandleCalls, Instruct, Kept, MutationOwed;
    var d1 := d.(talk := d.talk.(finalText := FromModel(text), rounds := d.talk.rounds + 1));
    TextArrives(cfg, d, text);
    if calls == [] || !cfg.hasRegistry {
      DirectiveIsSound(cfg, d1, d1.talk.stallRounds);
      LeavingIsSound(cfg, d1);
    } else {
      HandleCallsIsSound(cfg, env, d1, calls);
    }
  }

  // ------------------------------------------------------------------
  // Rounds are counted once
  // ------------------------------------------------------------------

  lemma {:induction false} BatchKeepsRounds(cfg: Config, env: Env, d: Desk, batch: seq<Call>)
    ensures ExecuteBatch(cfg, env, d, batch).desk.talk.rounds == d.talk.rounds
    decreases |batch|
  {
    if batch != [] {
      var r := TakeCall(cfg, env, d, batch[0]);
      if r.flow.Next? {
        BatchKeepsRounds(cfg, env, r.desk, batch[1..]);
      }
    }
  }

  lemma HandleTextCounts(cfg: Config, env: Env, d: Desk, text: string, calls: seq<Call>)
    ensures HandleText(cfg, env, d, text, calls).desk.talk.rounds == d.talk.rounds + 1
  {
    var d1 := d.(talk := d.talk.(finalText := FromModel(text), rounds := d.talk.rounds + 1));
    if calls != [] && cfg.hasRegistry {
      var d2 := d1.(admission := Propose(d1.admission, calls));
      BatchKeepsRounds(cfg, env, d2.(talk := d2.talk.(stallRounds := 0)), Fresh(calls, d2.admission.executed));
    }
  }

  // ------------------------------------------------------------------
  // The first round
  // ------------------------------------------------------------------

  /** A run whose first reply proposes one call executes it, and then takes up the reply. */
  lemma FirstProposal(cfg: Config, env: Env, text: string, c: Call) returns (d: Desk)
    requires cfg.hasRegistry
    ensures d.work == NO_WORK && d.files == NO_FILES && d.admission.executed == {}
    ensures d.talk.finalText == FromModel(text)
    ensures var t := TakeCall(cfg, env, d, c);
            HandleText(cfg, env, INITIAL_DESK, text, [c]) == if t.flow.Next? then Answer(t.desk) else t
  {
    hide TakeCall, Answer;
    var a := Admission(map[c := 1], map[c.tool := 1], {}, 0);
    d := INITIAL_DESK.(admission := a, talk := INITIAL_DESK.talk.(finalText := FromModel(text), rounds := 1));
    assert [c][1..] == [];
    assert Propose(INITIAL_DESK.admission, [c]) == Propose(a, []);
    assert Fresh([c], {}) == [c] + Fresh([], {});
    assert LimitCheck(a, [c]) == LimitCheck(a, []);
    assert HandleText(cfg, env, INITIAL_DESK, text, [c]) == ExecuteBatch(cfg, env, d, [c]);
    var t := TakeCall(cfg, env, d, c);
    assert t.flow.Next? ==> ExecuteBatch(cfg, env, d, [c]) == ExecuteBatch(cfg, env, t.desk, []);
  }
}
