/** What happens to the calls that a model proposes: which are executed, in which order, with
    which results, and when the loop stops instead. */
module CallRounds {
  import opened Basics
  import opened TaskControl
  import opened ModelManagement
  import opened AgentLoop
  import opened AgentInvariants
  import opened AgentTheorems
  import opened AgentRounds
  import opened RunMeaning

  // ------------------------------------------------------------------
  // One batch
  // ------------------------------------------------------------------

  /** Each call at its first occurrence, unless it was executed before. */
  function Firsts(calls: seq<Call>, done: set<Call>): seq<Call> {
    if calls == [] then []
    else if calls[0] in done then Firsts(calls[1..], done)
    else [calls[0]] + Firsts(calls[1..], done + {calls[0]})
  }

  lemma {:induction false} FirstsOfFresh(calls: seq<Call>, executed: set<Call>, done: set<Call>)
    requires executed <= done
    ensures Firsts(Fresh(calls, executed), done) == Firsts(calls, done)
  {
    if calls != [] {
      var rest := Fresh(calls[1..], executed);
      if calls[0] in executed {
        FirstsOfFresh(calls[1..], executed, done);
        assert Fresh(calls, executed) == rest;
      } else {
        assert Fresh(calls, executed) == [calls[0]] + rest && ([calls[0]] + rest)[1..] == rest;
        FirstsOfFresh(calls[1..], executed, done);
        FirstsOfFresh(calls[1..], executed, done + {calls[0]});
      }
    }
  }

  /** What a handler's result is made of: an error without a result if the tool is not
      registered, or waits for an approval that was not given. */
  function Given(cfg: Config, t: Tool, handler: ToolResult): ToolResult {
    if t in cfg.registered && (cfg.approved || t !in cfg.needsApproval) then handler
    else handler.(hasError := true, errorTruthy := true, hasResult := false, needsApproval := t in cfg.registered)
  }

  lemma DispatchGives(cfg: Config, c: Call, handler: ToolResult)
    ensures Dispatch(cfg, c, handler) == Given(cfg, c.tool, handler)
  {
  }

  /** A log grows by the first calls of a list, in order, each with the result that it
      is given. */
  ghost predicate Grows(cfg: Config, env: Env, log: seq<Execution>, more: seq<Execution>, calls: seq<Call>) {
    && log <= more && |more| <= |log| + |calls|
    && forall i | |log| <= i < |more| ::
         && more[i].call == calls[i - |log|]
         && more[i] == Logged(more[i].call, Given(cfg, more[i].call.tool, env.tool(i, more[i].call)))
  }

  /** The loop goes on after this many calls: the last does not wait for approval, is not the
      third failure in a row, and the loop does not raise over it. */
  predicate GoesOn(world: World, log: seq<Execution>, n: nat)
    requires 0 < n <= |log|
  {
    && !log[n - 1].raw.needsApproval && FailureStreak(log[..n]) < 3
    && !TripsEarly(world, log[n - 1]) && !TripsLate(world, log[n - 1])
  }

  /** None of the calls but the last stops the loop. */
  ghost predicate OnlyLastStops(world: World, log: seq<Execution>, more: seq<Execution>) {
    forall j | |log| < j < |more| :: GoesOn(world, more, j)
  }

  /** The loop raises over the last call. */
  ghost predicate LastTrips(world: World, log: seq<Execution>) {
    && log != []
    && var e := log[|log| - 1];
       TripsEarly(world, e) || (TripsLate(world, e) && !e.raw.needsApproval && StaysInLimits(log))
  }

  lemma GrowsByOne(cfg: Config, env: Env, log: seq<Execution>, more: seq<Execution>, c: Call, calls: seq<Call>)
    requires Grows(cfg, env, log + [Logged(c, Given(cfg, c.tool, env.tool(|log|, c)))], more, calls)
    ensures Grows(cfg, env, log, more, [c] + calls)
  {
    hide Given;
    var e := Logged(c, Given(cfg, c.tool, env.tool(|log|, c)));
    assert (log + [e])[|log|] == e && (log + [e]) <= more && more[|log|] == e;
    assert log <= log + [e];
    forall i | |log| <= i < |more|
      ensures more[i].call == ([c] + calls)[i - |log|]
      ensures more[i] == Logged(more[i].call, Given(cfg, more[i].call.tool, env.tool(i, more[i].call)))
    {
    }
  }

  lemma StopsByOne(world: World, log: seq<Execution>, e: Execution, more: seq<Execution>)
    requires log + [e] <= more && OnlyLastStops(world, log + [e], more)
    requires !e.raw.needsApproval && FailureStreak(log + [e]) < 3 && !TripsEarly(world, e) && !TripsLate(world, e)
    ensures OnlyLastStops(world, log, more)
  {
    hide FailureStreak, TripsEarly, TripsLate;
    forall j | |log| < j < |more| ensures GoesOn(world, more, j) {
      if j == |log| + 1 {
        assert more[j - 1] == (log + [e])[|log|] == e;
        assert more[..j] == log + [e];
      }
    }
  }

  predicate TooLong(text: FinalText) {
    text.FromModel? && |text.text| > 20000
  }

  /** A batch executes its calls at their first occurrences, until one waits for approval, is
      the third failure in a row or makes the loop raise; a reply too long for a turn makes it
      raise after all of them. */
  lemma {:induction false} BatchTells(cfg: Config, env: Env, d: Desk, batch: seq<Call>)
    requires DeskTells(env.world, d, 1)
    ensures var r := ExecuteBatch(cfg, env, d, batch);
      var firsts := Firsts(batch, Calls(d.work.log));
      && Grows(cfg, env, d.work.log, r.desk.work.log, firsts) && OnlyLastStops(env.world, d.work.log, r.desk.work.log)
      && r.desk.admission.seen == d.admission.seen && r.desk.admission.names == d.admission.names
      && r.desk.talk.directives == d.talk.directives
      && r.desk.work.progress.directivesIssued == d.work.progress.directivesIssued
      && (r.flow.Abort? ==>
            && r.flow.cause.Raised?
            && if |r.desk.work.log| > |d.work.log| && LastTrips(env.world, r.desk.work.log) then true
               else |r.desk.work.log| == |d.work.log| + |firsts| && TooLong(d.talk.finalText))
      && (r.flow.Next? ==>
            && !TooLong(d.talk.finalText)
            && DeskTells(env.world, r.desk, 0) && |r.desk.work.log| == |d.work.log| + |firsts|
            && r.desk.admission.deduplicated == d.admission.deduplicated + |batch| - |firsts|
            && (d.work.log == r.desk.work.log || FailureStreak(r.desk.work.log) < 3))
      && (r.flow.Leave? ==>
            |r.desk.work.log| > |d.work.log| && StoppedBy(r.desk.talk.finalText, r.desk.work.log) && MemoryTells(r.desk.work)
            && !LastTrips(env.world, r.desk.work.log))
    decreases |batch|
  {
    hide DeskTells, StoppedBy, MemoryTells, Dispatch, Given, FailureStreak, GoesOn, TripsEarly, TripsLate, StaysInLimits;
    if batch == [] {
      AnswerTells(env.world, d);
    } else {
      var c := batch[0];
      var raw := Given(cfg, c.tool, env.tool(|d.work.log|, c));
      DispatchGives(cfg, c, env.tool(|d.work.log|, c));
      ExecutedAreCalls(env.world, d, 1);
      if c in d.admission.executed {
        var next := TakeCall(cfg, env, d, c).desk;
        SameDesk(env.world, d, next, 1);
        BatchTells(cfg, env, next, batch[1..]);
      } else {
        ExecuteOneTells(env.world, d, c, raw, 1);
        hide ExecuteOne;
        var t := ExecuteOne(env.world, d, c, raw);
        var e := Logged(c, raw);
        CallsPush(d.work.log, e);
        if t.flow.Next? {
          BatchTells(cfg, env, t.desk, batch[1..]);
          var r := ExecuteBatch(cfg, env, t.desk, batch[1..]);
          GrowsByOne(cfg, env, d.work.log, r.desk.work.log, c, Firsts(batch[1..], Calls(d.work.log) + {c}));
          StopsByOne(env.world, d.work.log, e, r.desk.work.log);
        } else {
          assert Grows(cfg, env, d.work.log + [e], d.work.log + [e], Firsts(batch[1..], Calls(d.work.log) + {c}));
          GrowsByOne(cfg, env, d.work.log, d.work.log + [e], c, Firsts(batch[1..], Calls(d.work.log) + {c}));
        }
      }
    }
  }

  lemma ExecutedAreCalls(world: World, d: Desk, open: nat)
    requires DeskTells(world, d, open)
    ensures d.admission.executed == Calls(d.work.log)
  {
  }

  lemma SameDesk(world: World, d: Desk, d': Desk, open: nat)
    requires DeskTells(world, d, open) && d' == d.(admission := d'.admission)
    requires d'.admission.executed == d.admission.executed
    ensures DeskTells(world, d', open)
  {
  }

  lemma AnswerTells(world: World, d: Desk)
    requires DeskTells(world, d, 1)
    ensures Answer(d).flow.Next? ==> DeskTells(world, Answer(d).desk, 0)
    ensures Answer(d).flow == if TooLong(d.talk.finalText) then Abort(Raised) else Next
  {
    hide WorkTells, TalkTells, FilesTell;
    TalkPush(d.talk, AssistantMessage, d.work.log, 1);
  }

  // ------------------------------------------------------------------
  // Proposals
  // ------------------------------------------------------------------

  /** All calls proposed in the first rounds. */
  function Proposals(cfg: Config, env: Env, k: nat): seq<Call> {
    if k == 0 then []
    else
      Proposals(cfg, env, k - 1) +
      if cfg.hasRegistry && env.reply(k - 1).Text? then env.reply(k - 1).calls else []
  }

  function Times(calls: seq<Call>, c: Call): nat {
    if calls == [] then 0 else (if calls[0] == c then 1 else 0) + Times(calls[1..], c)
  }

  lemma {:induction false} TimesSum(a: seq<Call>, b: seq<Call>)
    ensures forall c :: Times(a + b, c) == Times(a, c) + Times(b, c)
    ensures forall t :: Occurrences(a + b, t) == Occurrences(a, t) + Occurrences(b, t)
  {
    if a == [] {
      assert a + b == b;
    } else {
      assert (a + b)[1..] == a[1..] + b;
      TimesSum(a[1..], b);
    }
  }

  /** The counters of admission, as all proposals so far tell them. */
  ghost predicate CountsTell(a: Admission, proposals: seq<Call>) {
    && (forall c :: Get(a.seen, c) == Times(proposals, c))
    && (forall t :: Get(a.names, t) == Occurrences(proposals, t))
  }

  lemma {:induction false} ProposeTells(a: Admission, before: seq<Call>, calls: seq<Call>)
    requires CountsTell(a, before)
    ensures var b := Propose(a, calls);
      && CountsTell(b, before + calls) && b.executed == a.executed
      && b.deduplicated == a.deduplicated + |calls| - |Fresh(calls, a.executed)|
    decreases |calls|
  {
    if calls == [] {
      assert before + calls == before;
    } else {
      var c := calls[0];
      TimesSum(before, [c]);
      assert [c][1..] == [];
      assert Times([c], c) == 1 && forall b | b != c :: Times([c], b) == 0;
      assert forall t :: Occurrences([c], t) == if c.tool == t then 1 else 0;
      var next := a.(seen := a.seen[c := Get(a.seen, c) + 1],
                     names := a.names[c.tool := Get(a.names, c.tool) + 1],
                     deduplicated := if c in a.executed then a.deduplicated + 1 else a.deduplicated);
      ProposeTells(next, before + [c], calls[1..]);
      assert before + [c] + calls[1..] == before + calls;
    }
  }

  /** The first proposal of a reply that was made too often: the same call more than twice,
      or the same tool four times, over all proposals so far. */
  ghost predicate IsFirstExcess(proposals: seq<Call>, calls: seq<Call>, i: nat) {
    && i < |calls|
    && (Times(proposals, calls[i]) > 2 || Occurrences(proposals, calls[i].tool) >= 4)
    && forall j | 0 <= j < i :: Times(proposals, calls[j]) <= 2 && Occurrences(proposals, calls[j].tool) < 4
  }

  lemma {:induction false} LimitMeaning(a: Admission, proposals: seq<Call>, calls: seq<Call>)
    requires CountsTell(a, proposals)
    ensures var limit := LimitCheck(a, calls);
      && (limit.Within? ==> forall c | c in calls :: Times(proposals, c) <= 2 && Occurrences(proposals, c.tool) < 4)
      && (!limit.Within? ==>
            exists i: nat ::
              && IsFirstExcess(proposals, calls, i)
              && limit == if Times(proposals, calls[i]) > 2 then Repeated(calls[i].tool) else Overused(calls[i].tool))
  {
    if calls != [] {
      LimitMeaning(a, proposals, calls[1..]);
      assert Get(a.seen, calls[0]) == Times(proposals, calls[0]);
      assert Get(a.names, calls[0].tool) == Occurrences(proposals, calls[0].tool);
      hide CountsTell, Times, Occurrences;
      if Get(a.seen, calls[0]) > 2 || Get(a.names, calls[0].tool) >= 4 {
        assert IsFirstExcess(proposals, calls, 0);
      } else if !LimitCheck(a, calls[1..]).Within? {
        var i: nat :| IsFirstExcess(proposals, calls[1..], i)
          && LimitCheck(a, calls[1..]) ==
             if Times(proposals, calls[1..][i]) > 2 then Repeated(calls[1..][i].tool) else Overused(calls[1..][i].tool);
        assert calls[i + 1] == calls[1..][i];
        forall j | 0 <= j < i + 1 ensures Times(proposals, calls[j]) <= 2 && Occurrences(proposals, calls[j].tool) < 4 {
          if j > 0 {
            assert calls[j] == calls[1..][j - 1];
          }
        }
        assert IsFirstExcess(proposals, calls, i + 1);
      }
    }
  }

  // ------------------------------------------------------------------
  // Every round
  // ------------------------------------------------------------------

  /** What the desk says when a run reaches a round. */
  ghost predicate StateTells(cfg: Config, env: Env, d: Desk, k: nat) {
    && DeskTells(env.world, d, 0)
    && CountsTell(d.admission, Proposals(cfg, env, k))
    && |d.work.log| + d.admission.deduplicated <= |Proposals(cfg, env, k)|
    && (d.talk.directives == 0 ==> |d.work.log| + d.admission.deduplicated == |Proposals(cfg, env, k)|)
    && d.work.progress.directivesIssued <= d.talk.directives
  }

  /** What a reply with calls does, in terms of the log before it and all proposals so far. */
  ghost predicate CallsTaken(
    cfg: Config, env: Env, d: Desk, r: Turn, proposals: seq<Call>, calls: seq<Call>, tooLong: bool)
  {
    var log, more := d.work.log, r.desk.work.log;
    var owed := cfg.requiresModification && !Mutated(log);
    if forall c | c in calls :: c in Calls(log) then
      // all executed before: one directive, and then the end
      && more == log
      && (r.flow.Next? <==> if owed then d.work.progress.directivesIssued == 0 else d.talk.directives == 0)
      && (r.flow.Next? ==> r.desk.talk.directives == d.talk.directives + 1)
      && (!r.flow.Next? ==>
            && r.flow.Leave? && r.desk.talk.directives == d.talk.directives
            && (owed ==> r.desk.work.machine.state == Failed && r.desk.talk.unproductive == d.talk.unproductive + 1)
            && r.desk.talk.finalText ==
               if owed then StoppedStalled
               else match LastGood(log) case Some(t) => ShowingResult(t) case None => NothingToShow)
    else if exists i: nat :: IsFirstExcess(proposals, calls, i) then
      // proposed too often: one directive, and then the end
      && more == log
      && exists i: nat ::
           && IsFirstExcess(proposals, calls, i)
           && var repeated := Times(proposals, calls[i]) > 2;
              && (r.flow.Next? <==> repeated && owed && d.work.progress.directivesIssued == 0)
              && (r.flow.Next? ==> r.desk.talk.directives == d.talk.directives + 1)
              && (!r.flow.Next? ==>
                    && r.flow.Leave? && r.desk.talk.directives == d.talk.directives
                    && r.desk.work.machine.state == Failed && r.desk.talk.unproductive == d.talk.unproductive + 1
                    && r.desk.talk.finalText ==
                       if repeated then StoppedRepeating(calls[i].tool) else StoppedOverused(calls[i].tool))
    else
      // executed, each at its first occurrence
      && Grows(cfg, env, log, more, Firsts(calls, Calls(log))) && OnlyLastStops(env.world, log, more)
      && r.desk.talk.directives == d.talk.directives
      && (r.flow.Next? ==> !tooLong && |more| == |log| + |Firsts(calls, Calls(log))|)
      && (r.flow.Leave? ==>
            |more| > |log| && StoppedBy(r.desk.talk.finalText, more) && !LastTrips(env.world, more))
      && (r.flow.Abort? ==>
            && r.flow.cause.Raised?
            && if |more| > |log| && LastTrips(env.world, more) then true
               else |more| == |log| + |Firsts(calls, Calls(log))| && tooLong)
  }

  lemma CoachedTells(world: World, d: Desk, stallRounds: nat)
    requires DeskTells(world, d, 1)
    ensures DeskTells(world, CoachToModify(d, stallRounds), 0)
    ensures DeskTells(world, d.(talk := Instruct(d.talk.(stallRounds := stallRounds))), 0)
  {
    hide TalkTells, FilesTell, StageAfter, LastFails, LastGood, FailureStreak, FixCycles, EndsInEdit, Mutated;
    StallIsNoTalk(d.talk, stallRounds, d.work.log, 1);
    TalkPush(d.talk.(stallRounds := stallRounds), Directive, d.work.log, 1);
    TalkPush(d.talk, Directive, d.work.log, 1);
    var t := Instruct(d.talk);
    StallIsNoTalk(t, stallRounds, d.work.log, 0);
  }

  lemma StallIsNoTalk(t: Talk, stallRounds: nat, log: seq<Execution>, open: nat)
    requires TalkTells(t, log, open)
    ensures TalkTells(t.(stallRounds := stallRounds), log, open)
  {
  }

  lemma TellsWork(world: World, d: Desk, open: nat)
    requires DeskTells(world, d, open)
    ensures MemoryTells(d.work) && d.admission.executed == Calls(d.work.log)
    ensures !Terminal(d.work.machine.state)
  {
    hide ProgressTells, LastFails, LastGood, FailureStreak, FixCycles, EndsInEdit, TalkTells, FilesTell;
    NotTerminal(d.work.log);
  }

  lemma StalledTells(cfg: Config, world: World, d: Desk)
    requires DeskTells(world, d, 1)
    ensures var r := Stalled(cfg, d);
      var owed := cfg.requiresModification && !Mutated(d.work.log);
      && r.desk.work.log == d.work.log && r.desk.admission == d.admission
      && (r.flow.Next? <==> if owed then d.work.progress.directivesIssued == 0 else d.talk.directives == 0)
      && (r.flow.Next? ==>
            && DeskTells(world, r.desk, 0) && r.desk.talk.directives == d.talk.directives + 1
            && r.desk.work.progress.directivesIssued <= d.work.progress.directivesIssued + 1)
      && (!r.flow.Next? ==>
            && r.flow.Leave? && r.desk.talk.directives == d.talk.directives
            && (owed ==> r.desk.work.machine.state == Failed && r.desk.talk.unproductive == d.talk.unproductive + 1)
            && r.desk.talk.finalText ==
               if owed then StoppedStalled
               else match LastGood(d.work.log) case Some(t) => ShowingResult(t) case None => NothingToShow)
  {
    hide DeskTells, LastGood, Mutated, LastFails;
    TellsWork(world, d, 1);
    CoachedTells(world, d, d.talk.stallRounds + 1);
  }

  lemma RepetitionTells(cfg: Config, world: World, d: Desk, tool: Tool)
    requires DeskTells(world, d, 1)
    ensures var r := Repetition(cfg, d, tool);
      var owed := cfg.requiresModification && !Mutated(d.work.log);
      && r.desk.work.log == d.work.log && r.desk.admission == d.admission
      && (r.flow.Next? <==> owed && d.work.progress.directivesIssued == 0)
      && (r.flow.Next? ==>
            && DeskTells(world, r.desk, 0) && r.desk.talk.directives == d.talk.directives + 1
            && r.desk.work.progress.directivesIssued <= d.work.progress.directivesIssued + 1)
      && (!r.flow.Next? ==>
            && r.flow.Leave? && r.desk.talk.directives == d.talk.directives
            && r.desk.work.machine.state == Failed && r.desk.talk.unproductive == d.talk.unproductive + 1
            && r.desk.talk.finalText == StoppedRepeating(tool))
  {
    hide DeskTells, LastGood, Mutated, LastFails;
    TellsWork(world, d, 1);
    CoachedTells(world, d, 0);
  }

  lemma {:induction false} NoneFresh(calls: seq<Call>, executed: set<Call>)
    ensures Fresh(calls, executed) == [] <==> forall c | c in calls :: c in executed
    ensures Firsts(Fresh(calls, executed), executed) == Firsts(calls, executed)
    ensures |Firsts(calls, executed)| <= |Fresh(calls, executed)| <= |calls|
  {
    FreshIsSelection(calls, executed);
    FirstsOfFresh(calls, executed, executed);
    FirstsAreFewer(calls, executed, executed);
    if Fresh(calls, executed) != [] {
      assert Fresh(calls, executed)[0] in Fresh(calls, executed);
    }
  }

  lemma {:induction false} FirstsAreFewer(calls: seq<Call>, executed: set<Call>, done: set<Call>)
    requires executed <= done
    ensures |Firsts(calls, done)| <= |Fresh(calls, executed)| <= |calls|
  {
    if calls != [] {
      FirstsAreFewer(calls[1..], executed, done);
      FirstsAreFewer(calls[1..], executed, done + {calls[0]});
    }
  }

  /** A reply with calls, on a desk that its log and the proposals tell. */
  lemma CallsTell(cfg: Config, env: Env, d: Desk, calls: seq<Call>, before: seq<Call>)
    requires DeskTells(env.world, d, 1) && CountsTell(d.admission, before)
    ensures var r := HandleCalls(cfg, env, d, calls);
      && CallsTaken(cfg, env, d, r, before + calls, calls, TooLong(d.talk.finalText))
      && (r.flow.Next? ==>
            && DeskTells(env.world, r.desk, 0) && CountsTell(r.desk.admission, before + calls)
            && |r.desk.work.log| + r.desk.admission.deduplicated <=
               |d.work.log| + d.admission.deduplicated + |calls|
            && (r.desk.talk.directives == d.talk.directives ==>
                  |r.desk.work.log| + r.desk.admission.deduplicated ==
                  |d.work.log| + d.admission.deduplicated + |calls|)
            && r.desk.talk.directives >= d.talk.directives
            && r.desk.work.progress.directivesIssued - d.work.progress.directivesIssued <=
               r.desk.talk.directives - d.talk.directives)
  {
    hide DeskTells, Repetition, Propose, Fresh, Firsts, LimitCheck, ExecuteBatch, Stalled, Grows, OnlyLastStops;
    hide StoppedBy, Mutated, Calls, LastGood, Times, Occurrences, MemoryTells, FailureStreak, LastTrips;
    ProposeTells(d.admission, before, calls);
    ExecutedAreCalls(env.world, d, 1);
    var d1 := d.(admission := Propose(d.admission, calls));
    SameDesk(env.world, d, d1, 1);
    var batch := Fresh(calls, d.admission.executed);
    NoneFresh(calls, d.admission.executed);
    LimitMeaning(d1.admission, before + calls, calls);
    StalledTells(cfg, env.world, d1);
    TellsWork(env.world, d1, 1);
    if LimitCheck(d1.admission, calls).Repeated? {
      RepetitionTells(cfg, env.world, d1, LimitCheck(d1.admission, calls).tool);
    }
    var d2 := d1.(talk := d1.talk.(stallRounds := 0));
    SameTalk(env.world, d1, d2);
    BatchTells(cfg, env, d2, batch);
  }

  lemma SameTalk(world: World, d: Desk, d': Desk)
    requires DeskTells(world, d, 1) && d' == d.(talk := d.talk.(stallRounds := 0))
    ensures DeskTells(world, d', 1)
  {
    StallIsNoTalk(d.talk, 0, d.work.log, 1);
  }

  lemma StartedReading()
    ensures NO_WORK.machine.state == Reading
  {
  }

  lemma NothingDone()
    ensures WorkTells(NO_WORK)
  {
    StartedReading();
    hide Move;
    assert NO_WORK.log == [] && !Mutated([]);
  }

  lemma NothingSaid(world: World, t: Talk, f: Files)
    requires t.messages == [] && t.directives == t.rounds == 0 && f.created == f.modified == {}
    ensures TalkTells(t, [], 0) && FilesTell(world, f, []) && Calls([]) == {}
  {
  }

  lemma NothingProposed(a: Admission)
    requires a.seen == map[] && a.names == map[]
    ensures CountsTell(a, [])
  {
  }

  lemma InitiallyTold(cfg: Config, env: Env, provider: Key, m: Manager)
    ensures StateTells(cfg, env, Initial(provider, m).desk, 0)
  {
    NothingDone();
    hide WorkTells, TalkTells, FilesTell, Calls, CountsTell;
    var d := Initial(provider, m).desk;
    assert d == INITIAL_DESK && d.work == NO_WORK && d.work.log == [];
    NothingSaid(env.world, d.talk, d.files);
    NothingProposed(d.admission);
  }

  lemma TextTells(cfg: Config, env: Env, d: Desk, k: nat)
    requires StateTells(cfg, env, d, k)
    requires env.reply(k).Text? && !env.timeUp(k)
    ensures var text, calls := env.reply(k).text, env.reply(k).calls;
      var r := HandleText(cfg, env, d, text, calls);
      && (r.flow.Next? ==> StateTells(cfg, env, r.desk, k + 1))
      && (cfg.hasRegistry && calls != [] ==>
            CallsTaken(cfg, env, d, r, Proposals(cfg, env, k + 1), calls, |text| > 20000))
  {
    hide DeskTells, CountsTell, HandleCalls, WorkTells, CallsTaken, Mutated;
    var text, calls := env.reply(k).text, env.reply(k).calls;
    var d1 := d.(talk := d.talk.(finalText := FromModel(text), rounds := d.talk.rounds + 1));
    RoundOpens(env.world, d, text);
    assert Proposals(cfg, env, k) + [] == Proposals(cfg, env, k);
    if calls == [] || !cfg.hasRegistry {
      CoachedTells(env.world, d1, d1.talk.stallRounds);
      NudgedTells(env.world, d, text);
    } else {
      CallsTell(cfg, env, d1, calls, Proposals(cfg, env, k));
      SameTaken(cfg, env, d, d1, HandleCalls(cfg, env, d1, calls), Proposals(cfg, env, k + 1), calls, |text| > 20000);
    }
  }

  lemma RoundOpens(world: World, d: Desk, text: string)
    requires DeskTells(world, d, 0)
    ensures DeskTells(world, d.(talk := d.talk.(finalText := FromModel(text), rounds := d.talk.rounds + 1)), 1)
  {
    hide WorkTells, FilesTell;
  }

  lemma NudgedTells(world: World, d: Desk, text: string)
    requires DeskTells(world, d, 0)
    ensures DeskTells(world, d.(talk := Instruct(d.talk.(finalText := FromModel(text), rounds := d.talk.rounds + 1))), 0)
  {
    hide WorkTells, FilesTell;
    TalkPush(d.talk.(finalText := FromModel(text), rounds := d.talk.rounds + 1), Directive, d.work.log, 1);
  }

  lemma SameTaken(
    cfg: Config, env: Env, d: Desk, d': Desk, r: Turn, proposals: seq<Call>, calls: seq<Call>, tooLong: bool)
    requires d'.work == d.work && d'.talk.directives == d.talk.directives && d'.talk.unproductive == d.talk.unproductive
    requires CallsTaken(cfg, env, d', r, proposals, calls, tooLong)
    ensures CallsTaken(cfg, env, d, r, proposals, calls, tooLong)
  {
  }

  /** Whenever a run reaches a round, the log of its executions, the messages and the
      replies so far tell everything that its state counts and remembers. */
  lemma {:induction false} StateIsTold(cfg: Config, env: Env, provider: Key, m: Manager, k: nat)
    requires At(cfg, env, Initial(provider, m), k).Some?
    ensures StateTells(cfg, env, At(cfg, env, Initial(provider, m), k).value.desk, k)
  {
    hide StateTells, HandleText, HandleFailure, Proposals;
    if k == 0 {
      InitiallyTold(cfg, env, provider, m);
    } else {
      StateIsTold(cfg, env, provider, m, k - 1);
      var s := At(cfg, env, Initial(provider, m), k - 1).value;
      if env.reply(k - 1).Text? {
        TextTells(cfg, env, s.desk, k - 1);
      } else {
        FailureKeepsDesk(cfg, env, s, k - 1);
      }
    }
  }

  lemma FailureKeepsDesk(cfg: Config, env: Env, s: RunState, k: nat)
    requires StateTells(cfg, env, s.desk, k) && !env.reply(k).Text? && Round(cfg, env, s, k).flow.Next?
    ensures Round(cfg, env, s, k).state.desk == s.desk && StateTells(cfg, env, s.desk, k + 1)
  {
    hide DeskTells, CountsTell, Reroute;
    assert Proposals(cfg, env, k) + [] == Proposals(cfg, env, k);
  }

  /** And a reply with calls executes those that it should: nothing if all were executed
      before or one was proposed too often, and otherwise each at its first occurrence. */
  lemma CallsAreTaken(cfg: Config, env: Env, provider: Key, m: Manager, k: nat)
    requires At(cfg, env, Initial(provider, m), k).Some? && !env.timeUp(k) && cfg.hasRegistry
    requires env.reply(k).Text? && env.reply(k).text != "" && env.reply(k).calls != []
    ensures var s := At(cfg, env, Initial(provider, m), k).value;
      var r := Round(cfg, env, s, k);
      && r.state.route == s.route
      && CallsTaken(cfg, env, s.desk, Turn(r.state.desk, r.flow), Proposals(cfg, env, k + 1), env.reply(k).calls,
                    |env.reply(k).text| > 20000)
  {
    StateIsTold(cfg, env, provider, m, k);
    hide StateTells, HandleText, CallsTaken, Proposals;
    TextTells(cfg, env, At(cfg, env, Initial(provider, m), k).value.desk, k);
  }
}
