/** When a run can end by an exception of the loop's own. */
module RaiseExactness {
  import opened TaskControl
  import opened ModelManagement
  import opened AgentLoop
  import opened AgentTheorems
  import opened CompletionExactness
  import RunMeaning

  predicate Waits(cfg: Config, t: Tool) {
    t in cfg.registered && t in cfg.needsApproval && !cfg.approved
  }

  /** The file that the arguments name: the first of the two entries that is truthy, if any. */
  predicate NamesRefusedFile(world: World, a: Arguments) {
    var file := if a.filePath.Truthy() then a.filePath else a.path;
    file.Truthy() && (RunMeaning.IsNumberOrList(file) || (file.Written? && world.refused(file.text)))
  }

  /** A call that some run proposing it ends by an exception over: the path of a file to
      create is no text or has a parent that cannot be looked at, the command is no text, the
      file it names cannot be looked at in the end, or the name that the model made up for a
      tool does not fit into a turn with the report. */
  predicate MayRaise(cfg: Config, world: World, c: Call) {
    var a := world.arguments(c.args);
    match c.tool
    case CreateFile =>
      || RunMeaning.IsNumberOrList(a.path) || (a.path.Written? && world.parentRefused(a.path.text))
      || (!Waits(cfg, c.tool) && NamesRefusedFile(world, a))
    case WriteFile | CreateProject | ModifyFile => !Waits(cfg, c.tool) && NamesRefusedFile(world, a)
    case ExecuteCommand => Callable(cfg, c.tool) && RunMeaning.IsNumberOrList(a.command)
    case Other(name) => !Waits(cfg, c.tool) && |name| > 16970
    case _ => false
  }

  /** Every call that may be proposed is harmless, and if a reply may be too long for a turn
      it waits for an approval, so that the reply never becomes one. */
  ghost predicate Harmless(cfg: Config, world: World, proposable: Call -> bool, maxChars: nat) {
    forall c | proposable(c) :: !MayRaise(cfg, world, c) && (maxChars > 20000 ==> Waits(cfg, c.tool))
  }

  /** Replies have at most this many characters and propose only such calls. */
  ghost predicate MayOccur(env: Env, world: World, proposable: Call -> bool, maxChars: nat) {
    && env.world == world
    && forall round: nat | env.reply(round).Text? ::
         |env.reply(round).text| <= maxChars && forall c | c in env.reply(round).calls :: proposable(c)
  }

  // ------------------------------------------------------------------
  // Runs without exceptions
  // ------------------------------------------------------------------

  predicate IsFine(world: World, r: Turn) {
    r.flow != Abort(Raised) && !FilesRefused(world, r.desk.files)
  }

  lemma SettleNeverRaises(w: Work, t: Tool, failed: bool)
    ensures !Settle(w, t, failed).1.Raise?
  {
  }

  lemma DispatchMarks(cfg: Config, c: Call, handler: ToolResult)
    requires cfg.hasRegistry
    ensures var raw := Dispatch(cfg, c, handler);
            && (Waits(cfg, c.tool) ==> raw.needsApproval)
            && (!Callable(cfg, c.tool) ==> raw.hasError)
            && (Waits(cfg, c.tool) ==> !Callable(cfg, c.tool))
            && AfterVerification(c.tool, raw).chars == handler.chars
            && (raw.hasError ==> AfterVerification(c.tool, raw).hasError)
  {
  }

  lemma HarmlessMishap(cfg: Config, world: World, c: Call, handler: ToolResult)
    requires cfg.hasRegistry && !MayRaise(cfg, world, c)
    ensures var mishap := MishapOf(world, c, AfterVerification(c.tool, Dispatch(cfg, c, handler)));
            !mishap.EarlyRaise? && (mishap.LateRaise? ==> Waits(cfg, c.tool))
  {
    DispatchMarks(cfg, c, handler);
    hide Dispatch, AfterVerification, Callable, Waits;
  }

  lemma HarmlessFile(cfg: Config, world: World, f: Files, c: Call)
    requires !MayRaise(cfg, world, c) && !Waits(cfg, c.tool) && !FilesRefused(world, f)
    ensures !FilesRefused(world, Noted(f, c.tool, world.arguments(c.args)))
  {
  }

  lemma HarmlessCall(cfg: Config, world: World, d: Desk, c: Call, handler: ToolResult)
    requires cfg.hasRegistry && !MayRaise(cfg, world, c) && !FilesRefused(world, d.files)
    ensures var r := ExecuteOne(world, d, c, Dispatch(cfg, c, handler));
            && IsFine(world, r)
            && (r.flow.Next? ==> r.desk.talk.finalText == d.talk.finalText && !Waits(cfg, c.tool))
  {
    var raw := Dispatch(cfg, c, handler);
    DispatchMarks(cfg, c, handler);
    HarmlessMishap(cfg, world, c, handler);
    SettleNeverRaises(Witness(d.work, c, raw), c.tool, AfterVerification(c.tool, raw).Errs());
    if !Waits(cfg, c.tool) {
      HarmlessFile(cfg, world, d.files, c);
    }
    hide Dispatch, AfterVerification, MishapOf, MayRaise, Waits, Witness, Settle, Noted, FilesRefused;
  }

  lemma {:induction false} HarmlessBatch(cfg: Config, env: Env, d: Desk, batch: seq<Call>)
    requires cfg.hasRegistry && !FilesRefused(env.world, d.files)
    requires forall c | c in batch :: !MayRaise(cfg, env.world, c)
    requires IsTooLong(d.talk.finalText) ==>
               batch != [] && batch[0] !in d.admission.executed && forall c | c in batch :: Waits(cfg, c.tool)
    ensures IsFine(env.world, ExecuteBatch(cfg, env, d, batch))
    decreases |batch|
  {
    hide ExecuteOne, MayRaise, Waits, FilesRefused;
    if batch != [] {
      HarmlessCall(cfg, env.world, d, batch[0], env.tool(|d.work.log|, batch[0]));
      var r := TakeCall(cfg, env, d, batch[0]);
      if r.flow.Next? {
        HarmlessBatch(cfg, env, r.desk, batch[1..]);
      }
    }
  }

  lemma HarmlessText(cfg: Config, env: Env, d: Desk, text: string, calls: seq<Call>)
    requires !FilesRefused(env.world, d.files)
    requires cfg.hasRegistry ==>
      forall c | c in calls :: !MayRaise(cfg, env.world, c) && (|text| > 20000 ==> Waits(cfg, c.tool))
    ensures IsFine(env.world, HandleText(cfg, env, d, text, calls))
  {
    hide MayRaise, Waits, FilesRefused, ExecuteBatch, LimitCheck, Fresh, Propose;
    var d1 := d.(talk := d.talk.(finalText := FromModel(text), rounds := d.talk.rounds + 1));
    var d2 := d1.(admission := Propose(d1.admission, calls));
    var d3 := d2.(talk := d2.talk.(stallRounds := 0));
    var batch := Fresh(calls, d2.admission.executed);
    FreshIsSelection(calls, d2.admission.executed);
    if cfg.hasRegistry && batch != [] {
      assert batch[0] in batch;
      HarmlessBatch(cfg, env, d3, batch);
    }
  }

  lemma HarmlessRound(cfg: Config, env: Env, proposable: Call -> bool, maxChars: nat, s: RunState, round: nat)
    requires MayOccur(env, env.world, proposable, maxChars) && !FilesRefused(env.world, s.desk.files)
    requires cfg.hasRegistry && maxChars > 0 ==> Harmless(cfg, env.world, proposable, maxChars)
    ensures var r := Round(cfg, env, s, round); IsFine(env.world, Turn(r.state.desk, r.flow))
  {
    hide HandleText, Reroute, FilesRefused, MayRaise, Waits;
    if !env.timeUp(round) && env.reply(round).Text? && env.reply(round).text != "" {
      HarmlessText(cfg, env, s.desk, env.reply(round).text, env.reply(round).calls);
    }
  }

  lemma {:induction false} HarmlessRun(
    cfg: Config, env: Env, proposable: Call -> bool, maxChars: nat, s: RunState, round: nat, limit: nat)
    requires MayOccur(env, env.world, proposable, maxChars) && !FilesRefused(env.world, s.desk.files)
    requires cfg.hasRegistry && maxChars > 0 ==> Harmless(cfg, env.world, proposable, maxChars)
    ensures !RunFrom(cfg, env, s, round, limit).exit.Raises()
    decreases limit - round
  {
    hide Round, Finish, FilesRefused, MayOccur, Harmless;
    if round < limit {
      HarmlessRound(cfg, env, proposable, maxChars, s, round);
      var r := Round(cfg, env, s, round);
      if r.flow.Next? {
        HarmlessRun(cfg, env, proposable, maxChars, r.state, round + 1, limit);
      }
    }
  }

  // ------------------------------------------------------------------
  // Runs that raise
  // ------------------------------------------------------------------

  /** A result without an error, of which the model is told all it can be told. */
  const FINE: ToolResult := ToolResult(false, false, true, false, true, MAX_SHOWN_CHARS)

  /** The longest reply that matters. */
  function LongReply(maxChars: nat): string {
    if maxChars > 20000 then seq(20001, _ => 'x') else "x"
  }

  /** The model proposes one call, and then the time is over. */
  function Provoking(world: World, c: Call, maxChars: nat): Env {
    Env(round => round > 0, _ => Text(LongReply(maxChars), [c]), (_, _) => FINE, world)
  }

  /** The first call of a run neither exhausts the failure budget nor ends a fix cycle. */
  lemma FirstCallContinues(c: Call, raw: ToolResult, mishap: Mishap)
    requires !raw.needsApproval
    ensures Perform(NO_WORK, c, raw, mishap).1 == if mishap.Smooth? then Continue else Raise
  {
  }

  lemma ProvokedMishap(cfg: Config, world: World, c: Call)
    requires cfg.hasRegistry
    ensures var mishap := MishapOf(world, c, AfterVerification(c.tool, Dispatch(cfg, c, FINE)));
            && (Waits(cfg, c.tool) && MayRaise(cfg, world, c) ==> mishap.EarlyRaise?)
            && (MayRaise(cfg, world, c) && mishap.Smooth? ==>
                  FilesRefused(world, Noted(NO_FILES, c.tool, world.arguments(c.args))))
  {
    var file := ClaimedFile(world.arguments(c.args));
    assert c.tool.ExecuteCommand? && Callable(cfg, c.tool) ==> !AfterVerification(c.tool, FINE).hasError;
    assert IsRefused(world, file) ==> SomeRefused(world, {} + {file}) by {
      assert file in {} + {file};
    }
    hide IsRefused, SomeRefused;
  }

  /** Whatever else is configured, such a call ends a run of any positive cap by an exception,
      and so does any call that need not wait for approval in a reply too long for a turn. */
  lemma ProvokedRunRaises(cfg: Config, world: World, c: Call, maxChars: nat, provider: Key, m: Manager, limit: nat)
    requires cfg.hasRegistry && limit > 0
    requires MayRaise(cfg, world, c) || (maxChars > 20000 && !Waits(cfg, c.tool))
    ensures Run(cfg, Provoking(world, c, maxChars), provider, m, limit).exit.Raises()
  {
    var env := Provoking(world, c, maxChars);
    var s := Initial(provider, m);
    var r := ProvokedRound(cfg, world, c, maxChars, s);
    hide Round, Finish, Decide, FilesRefused, Provoking;
    if r.flow.Next? {
      assert RunFrom(cfg, env, s, 0, limit) == RunFrom(cfg, env, r.state, 1, limit);
      if limit > 1 {
        OutOfTime(cfg, world, c, maxChars, r.state);
      }
    }
  }

  lemma OutOfTime(cfg: Config, world: World, c: Call, maxChars: nat, s: RunState)
    ensures Round(cfg, Provoking(world, c, maxChars), s, 1) == Step(s.(desk := TimeOut(s.desk)), Leave)
    ensures TimeOut(s.desk).files == s.desk.files
  {
  }

  lemma ProvokedRound(cfg: Config, world: World, c: Call, maxChars: nat, s: RunState) returns (r: Step)
    requires cfg.hasRegistry && s.desk == INITIAL_DESK
    requires MayRaise(cfg, world, c) || (maxChars > 20000 && !Waits(cfg, c.tool))
    ensures r == Round(cfg, Provoking(world, c, maxChars), s, 0)
    ensures r.flow == Abort(Raised) || (r.flow.Next? && FilesRefused(world, r.state.desk.files))
  {
    hide ExecuteOne, HandleText, MayRaise, Waits, FilesRefused;
    var env := Provoking(world, c, maxChars);
    var d := FirstProposal(cfg, env, LongReply(maxChars), c);
    assert TakeCall(cfg, env, d, c) == ExecuteOne(world, d, c, Dispatch(cfg, c, FINE));
    ProvokedCall(cfg, world, d, c);
    r := Round(cfg, env, s, 0);
  }

  lemma ProvokedCall(cfg: Config, world: World, d: Desk, c: Call)
    requires cfg.hasRegistry && d.work == NO_WORK && d.files == NO_FILES
    requires MayRaise(cfg, world, c) || !Waits(cfg, c.tool)
    ensures var t := ExecuteOne(world, d, c, Dispatch(cfg, c, FINE));
            && (t.flow == Abort(Raised) || t.flow.Next?)
            && (t.flow.Next? ==> t.desk.talk.finalText == d.talk.finalText)
            && (t.flow.Next? && MayRaise(cfg, world, c) ==> FilesRefused(world, t.desk.files))
  {
    var raw := Dispatch(cfg, c, FINE);
    var mishap := MishapOf(world, c, AfterVerification(c.tool, raw));
    ProvokedMishap(cfg, world, c);
    if Waits(cfg, c.tool) {
      assert mishap.EarlyRaise?;
    } else {
      assert !raw.needsApproval;
      FirstCallContinues(c, raw, mishap);
    }
    hide Dispatch, AfterVerification, MishapOf, MayRaise, Waits, Witness, Settle, Noted, FilesRefused;
  }

  /** For every configuration, disk and set of calls that may be proposed: no run whose
      replies keep to a length raises if and only if all these calls are harmless. */
  lemma NoRunRaisesIff(
    cfg: Config, world: World, proposable: Call -> bool, maxChars: nat, provider: Key, m: Manager, limit: nat)
    ensures (forall env | MayOccur(env, world, proposable, maxChars) :: !Run(cfg, env, provider, m, limit).exit.Raises()) <==>
            (cfg.hasRegistry && limit > 0 && maxChars > 0 ==> Harmless(cfg, world, proposable, maxChars))
  {
    hide RunFrom, MayRaise, Waits;
    if cfg.hasRegistry && limit > 0 && maxChars > 0 && !Harmless(cfg, world, proposable, maxChars) {
      var c :| proposable(c) && (MayRaise(cfg, world, c) || (maxChars > 20000 && !Waits(cfg, c.tool)));
      ProvokedRunRaises(cfg, world, c, maxChars, provider, m, limit);
      assert MayOccur(Provoking(world, c, maxChars), world, proposable, maxChars);
    } else {
      forall env | MayOccur(env, world, proposable, maxChars)
        ensures !Run(cfg, env, provider, m, limit).exit.Raises()
      {
        if limit > 0 {
          HarmlessRun(cfg, env, proposable, maxChars, Initial(provider, m), 0, limit);
        } else {
          NoRoundNoRaise(cfg, env, provider, m);
        }
      }
    }
  }

  /** So over calls that cannot raise themselves it is the length of replies that decides. */
  lemma SmoothRunsRaiseIff(cfg: Config, world: World, maxChars: nat, provider: Key, m: Manager, limit: nat)
    requires exists c :: !MayRaise(cfg, world, c) && !Waits(cfg, c.tool)
    ensures var smooth := (c: Call) => !MayRaise(cfg, world, c);
            (forall env | MayOccur(env, world, smooth, maxChars) :: !Run(cfg, env, provider, m, limit).exit.Raises()) <==>
            (cfg.hasRegistry && limit > 0 ==> maxChars <= 20000)
  {
    hide MayRaise, Waits, RunFrom, MayOccur;
    NoRunRaisesIff(cfg, world, c => !MayRaise(cfg, world, c), maxChars, provider, m, limit);
  }

  lemma NoRoundNoRaise(cfg: Config, env: Env, provider: Key, m: Manager)
    ensures !Run(cfg, env, provider, m, 0).exit.Raises()
  {
  }
}
