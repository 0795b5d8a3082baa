/** What the state of a run says: everything it counts and remembers is told by the log of
    executions, the replies and the messages. */
module RunMeaning {
  import opened Basics
  import opened Wrappers
  import opened TaskControl
  import opened AgentLoop
  import opened AgentInvariants
  import opened AgentTheorems

  // ------------------------------------------------------------------
  // What a log tells
  // ------------------------------------------------------------------

  /** Which results of which tools pass verification. */
  lemma VerificationByTool(t: Tool, r: ToolResult)
    ensures VerificationPasses(t, r) <==>
      match t
      case ReadFile | ReadFiles | ListDirectory | FileExists | SearchFiles => true
      case VerifyFiles | Calculator | ListTools | GetCurrentDatetime | ResolvePath => true
      case CreateFile | WriteFile | ModifyFile | CreateDirectory | CreateProject =>
        (r.hasResult || !r.hasError) && r.checksPass
      case ExecuteCommand | AnalyzeProject => !r.hasError && r.checksPass
      case Other(_) => r.hasResult || !r.hasError
  {
  }

  function Stage(t: Tool, changed: bool): TaskState {
    match t
    case VerifyFiles => Verifying
    case FileExists => if changed then Verifying else Reading
    case ModifyFile | WriteFile | CreateFile | CreateProject | CreateDirectory => Modifying
    case ExecuteCommand => Executing
    case _ => Reading
  }

  /** The stage of the last call, unless its result failed verification. */
  function StageAfter(log: seq<Execution>): TaskState {
    if log == [] then Reading
    else
      var e := log[|log| - 1];
      if VerificationPasses(e.call.tool, e.raw) then Stage(e.call.tool, Mutated(log)) else Correcting
  }

  predicate LastFails(log: seq<Execution>) {
    log != [] && !VerificationPasses(log[|log| - 1].call.tool, log[|log| - 1].raw)
  }

  /** The tool of the last call whose own result carried no error. */
  function LastGood(log: seq<Execution>): Option<Tool> {
    if log == [] then None
    else if log[|log| - 1].raw.Errs() then LastGood(log[..|log| - 1])
    else Some(log[|log| - 1].call.tool)
  }

  /** How many of the last calls failed in a row. */
  function FailureStreak(log: seq<Execution>): nat {
    if log == [] || !log[|log| - 1].outcome.Errs() then 0 else 1 + FailureStreak(log[..|log| - 1])
  }

  predicate EndsInEdit(log: seq<Execution>) {
    log != [] && (log[|log| - 1].call.tool.ModifyFile? || log[|log| - 1].call.tool.WriteFile?)
  }

  /** Commands directly behind an edit. */
  function FixCycles(log: seq<Execution>): nat {
    if log == [] then 0
    else
      var init := log[..|log| - 1];
      FixCycles(init) + if log[|log| - 1].call.tool.ExecuteCommand? && EndsInEdit(init) then 1 else 0
  }

  /** Reading calls since the last change or command. */
  function ReadStreak(log: seq<Execution>): nat {
    if log == [] then 0
    else
      var init := log[..|log| - 1];
      match log[|log| - 1].call.tool
      case ReadFile | ReadFiles | ListDirectory | SearchFiles | AnalyzeProject | FileExists => ReadStreak(init) + 1
      case ModifyFile | WriteFile | CreateFile | CreateProject | CreateDirectory | ExecuteCommand => 0
      case _ => ReadStreak(init)
  }

  function Tools(log: seq<Execution>): seq<Tool> {
    if log == [] then [] else Tools(log[..|log| - 1]) + [log[|log| - 1].call.tool]
  }

  function Edits(log: seq<Execution>, goodOnly: bool): nat {
    if log == [] then 0
    else
      var e := log[|log| - 1];
      Edits(log[..|log| - 1], goodOnly) + if e.call.tool.Modifies() && (goodOnly ==> !e.raw.Errs()) then 1 else 0
  }

  function Commands(log: seq<Execution>, goodOnly: bool): nat {
    if log == [] then 0
    else
      var e := log[|log| - 1];
      Commands(log[..|log| - 1], goodOnly) + if e.call.tool.ExecuteCommand? && (goodOnly ==> !e.raw.Errs()) then 1 else 0
  }

  /** The files that the calls of a log claim to create, or to modify. */
  function Claims(world: World, log: seq<Execution>, create: bool): set<Argument> {
    if log == [] then {}
    else
      var c := log[|log| - 1].call;
      var a := world.arguments(c.args);
      Claims(world, log[..|log| - 1], create) +
      if if create then c.tool.CreateFile? || c.tool.WriteFile? || c.tool.CreateProject? else c.tool.ModifyFile? then
        if a.filePath.Truthy() then {a.filePath} else if a.path.Truthy() then {a.path} else {}
      else {}
  }

  // ------------------------------------------------------------------
  // The state that a log stands for
  // ------------------------------------------------------------------

  ghost predicate ProgressTells(p: Progress, log: seq<Execution>) {
    && p.lastTools == Tools(log)
    && p.readOnlyRounds == ReadStreak(log)
    && p.mutatingCalls == Edits(log, false) && p.successfulMutatingCalls == Edits(log, true)
    && p.executingCalls == Commands(log, false) && p.successfulExecutingCalls == Commands(log, true)
    && (p.MutationHappened() <==> Mutated(log))
  }

  ghost predicate WorkTells(w: Work) {
    && w.machine.state == StageAfter(w.log)
    && ProgressTells(w.progress, w.log)
    && (w.mutationDone <==> Mutated(w.log))
    && (w.verificationFailed <==> LastFails(w.log))
    && w.lastTool == LastGood(w.log)
    && w.consecutiveFailures == FailureStreak(w.log)
    && w.fixCycles == FixCycles(w.log)
    && (w.lastWasModify <==> EndsInEdit(w.log))
  }

  lemma LogPush(log: seq<Execution>, e: Execution)
    ensures var more := log + [e];
      && more[..|log|] == log && more[|more| - 1] == e && more[..|more| - 1] == log && more != []
      && (Mutated(more) <==> Mutated(log) || Mutation(e))
  {
    Append(log, e);
  }

  lemma ProgressPush(p: Progress, log: seq<Execution>, e: Execution)
    requires ProgressTells(p, log)
    ensures ProgressTells(Recorded(p, e.call, e.raw.Errs()), log + [e])
  {
    LogPush(log, e);
    hide Mutated;
  }

  lemma StageMeaning(t: Tool, changed: bool)
    ensures TargetState(t, changed) == Stage(t, changed)
  {
  }

  lemma WorkPush(w: Work, c: Call, raw: ToolResult)
    requires WorkTells(w)
    ensures var w1 := Witness(w, c, raw);
      && w1.log == w.log + [Logged(c, raw)]
      && w1.machine.state == StageAfter(w1.log)
      && ProgressTells(w1.progress, w1.log)
      && (w1.mutationDone <==> Mutated(w1.log))
      && (w1.verificationFailed <==> LastFails(w1.log))
      && w1.lastTool == LastGood(w1.log)
      && w1.consecutiveFailures == w.consecutiveFailures && w1.fixCycles == w.fixCycles
      && w1.progress.directivesIssued == w.progress.directivesIssued
      && w1.lastWasModify == w.lastWasModify
  {
    hide Recorded, Mutated, Stage, TargetState, VerificationPasses, ProgressTells, AfterVerification;
    hide FailureStreak, FixCycles, EndsInEdit, Progress.MutationHappened, Mutation, Working;
    var e := Logged(c, raw);
    LogPush(w.log, e);
    ProgressPush(w.progress, w.log, e);
    TellsMutation(Recorded(w.progress, c, raw.Errs()), w.log + [e]);
    WitnessLogs(w, c, raw);
    StageMeaning(c.tool, Mutated(w.log + [e]));
    NotTerminal(w.log);
    NotTerminalStage(c.tool, Mutated(w.log + [e]));
  }

  lemma TellsMutation(p: Progress, log: seq<Execution>)
    requires ProgressTells(p, log)
    ensures p.MutationHappened() <==> Mutated(log)
  {
  }

  lemma NotTerminal(log: seq<Execution>)
    ensures !Terminal(StageAfter(log))
  {
  }

  lemma NotTerminalStage(t: Tool, changed: bool)
    ensures !Terminal(Stage(t, changed))
  {
  }

  lemma SettlePush(w: Work, before: seq<Execution>, e: Execution)
    requires w.log == before + [e]
    requires w.consecutiveFailures == FailureStreak(before) && w.fixCycles == FixCycles(before)
    requires w.lastWasModify <==> EndsInEdit(before)
    ensures var (w', verdict) := Settle(w, e.call.tool, e.outcome.Errs());
      && w'.log == w.log && w'.progress == w.progress && w'.mutationDone == w.mutationDone
      && w'.verificationFailed == w.verificationFailed && w'.lastTool == w.lastTool
      && w'.consecutiveFailures == FailureStreak(w.log)
      && (FailureStreak(w.log) >= 3 <==> verdict.Stop? && verdict.text == StoppedFailing(FailureStreak(w.log)))
      && (FailureStreak(w.log) < 3 ==>
            && w'.machine == w.machine
            && w'.fixCycles == FixCycles(w.log) && (w'.lastWasModify <==> EndsInEdit(w.log))
            && (verdict.Continue? <==> FixCycles(w.log) == FixCycles(before) || FixCycles(w.log) < 5)
            && (verdict.Stop? ==> verdict.text.StoppedFixCycles?))
      && !verdict.Raise?
  {
    hide FailureStreak, FixCycles, EndsInEdit, Move;
    StreaksPush(before, e);
  }

  lemma StreaksPush(log: seq<Execution>, e: Execution)
    ensures FailureStreak(log + [e]) == if e.outcome.Errs() then FailureStreak(log) + 1 else 0
    ensures FixCycles(log + [e]) == FixCycles(log) + if e.call.tool.ExecuteCommand? && EndsInEdit(log) then 1 else 0
    ensures EndsInEdit(log + [e]) <==> e.call.tool.ModifyFile? || e.call.tool.WriteFile?
  {
    hide Mutated;
    LogPush(log, e);
  }

  /** Neither the failures in a row nor the fix cycles stop the loop after the last call. */
  predicate StaysInLimits(log: seq<Execution>)
    requires log != []
  {
    FailureStreak(log) < 3 && (FixCycles(log) == FixCycles(log[..|log| - 1]) || FixCycles(log) < 5)
  }

  /** One call with which the loop goes on leaves a state that its longer log tells; one that
      stops it waits for approval, or was the third failure in a row. */
  lemma PerformTells(w: Work, c: Call, raw: ToolResult, mishap: Mishap)
    requires WorkTells(w)
    ensures var (w', verdict) := Perform(w, c, raw, mishap);
      && w'.log == w.log + [Logged(c, raw)]
      && (verdict.Continue? ==> WorkTells(w') && !raw.needsApproval && FailureStreak(w'.log) < 3 && mishap.Smooth?)
      && (verdict.Stop? ==>
            || (raw.needsApproval && verdict.text == ApprovalRequest(c) && w'.machine.state == StageAfter(w'.log))
            || (!raw.needsApproval && FailureStreak(w'.log) >= 3 && verdict.text == StoppedFailing(FailureStreak(w'.log)))
            || (!raw.needsApproval && FixCycles(w'.log) >= 5 && verdict.text.StoppedFixCycles?))
      && (verdict.Raise? <==> mishap.EarlyRaise? || (mishap.LateRaise? && !raw.needsApproval && StaysInLimits(w'.log)))
      && w'.progress.directivesIssued == w.progress.directivesIssued
      && (w'.verificationFailed <==> LastFails(w'.log)) && w'.lastTool == LastGood(w'.log)
      && (w'.mutationDone <==> Mutated(w'.log))
  {
    hide Witness, Settle, ProgressTells, StageAfter, LastFails, LastGood, FailureStreak, FixCycles, EndsInEdit, Mutated;
    WorkPush(w, c, raw);
    SettlePush(Witness(w, c, raw), w.log, Logged(c, raw));
    LogPush(w.log, Logged(c, raw));
  }

  function Directives(messages: seq<Message>): nat {
    if messages == [] then 0
    else Directives(messages[..|messages| - 1]) + if messages[|messages| - 1].Directive? then 1 else 0
  }

  function Answers(messages: seq<Message>): nat {
    if messages == [] then 0
    else Answers(messages[..|messages| - 1]) + if messages[|messages| - 1].AssistantMessage? then 1 else 0
  }

  /** Every directive is a message, and every answered round but for `open` of them brought
      a directive or ended with the reply taken into the conversation; every result is told. */
  ghost predicate TalkTells(t: Talk, log: seq<Execution>, open: nat) {
    && t.directives == Directives(t.messages)
    && t.rounds == t.directives + Answers(t.messages) + open
    && Told(t.messages) == Executed(log)
  }

  ghost predicate FilesTell(world: World, f: Files, log: seq<Execution>) {
    f.created == Claims(world, log, true) && f.modified == Claims(world, log, false)
  }

  ghost predicate DeskTells(world: World, d: Desk, open: nat) {
    && WorkTells(d.work)
    && TalkTells(d.talk, d.work.log, open)
    && FilesTell(world, d.files, d.work.log)
    && d.admission.executed == Calls(d.work.log)
  }

  lemma MessagePush(messages: seq<Message>, m: Message)
    ensures Directives(messages + [m]) == Directives(messages) + if m.Directive? then 1 else 0
    ensures Answers(messages + [m]) == Answers(messages) + if m.AssistantMessage? then 1 else 0
    ensures m.Directive? || m.AssistantMessage? ==> Told(messages + [m]) == Told(messages)
    ensures m.ToolMessage? ==> Told(messages + [m]) == Told(messages) + [m.call]
  {
    assert (messages + [m])[..|messages|] == messages;
    assert Told(messages) + [] == Told(messages);
  }

  lemma ExecutedPush(log: seq<Execution>, e: Execution)
    ensures Executed(log + [e]) == Executed(log) + [e.call]
  {
    assert (log + [e])[..|log|] == log;
  }

  lemma TalkPush(t: Talk, m: Message, log: seq<Execution>, open: nat)
    requires TalkTells(t, log, open)
    ensures m.Directive? && open > 0 ==>
      TalkTells(t.(messages := t.messages + [m], directives := t.directives + 1), log, open - 1)
    ensures m.AssistantMessage? && open > 0 ==> TalkTells(t.(messages := t.messages + [m]), log, open - 1)
    ensures m.ToolMessage? ==>
      forall e: Execution | e.call == m.call :: TalkTells(t.(messages := t.messages + [m]), log + [e], open)
  {
    hide Directives, Answers, Told, Executed;
    MessagePush(t.messages, m);
    if m.ToolMessage? {
      forall e: Execution | e.call == m.call ensures TalkTells(t.(messages := t.messages + [m]), log + [e], open) {
        ExecutedPush(log, e);
      }
    }
  }

  lemma FilesPush(world: World, f: Files, log: seq<Execution>, e: Execution)
    requires FilesTell(world, f, log)
    ensures FilesTell(world, Noted(f, e.call.tool, world.arguments(e.call.args)), log + [e])
  {
    LogPush(log, e);
  }

  lemma CallsPush(log: seq<Execution>, e: Execution)
    ensures Calls(log + [e]) == Calls(log) + {e.call}
  {
    Append(log, e);
  }

  /** Why a batch stops the loop. */
  ghost predicate StoppedBy(text: FinalText, log: seq<Execution>) {
    && log != []
    && var e := log[|log| - 1];
       || (e.raw.needsApproval && text == ApprovalRequest(e.call))
       || (!e.raw.needsApproval && FailureStreak(log) >= 3 && text == StoppedFailing(FailureStreak(log)))
       || (!e.raw.needsApproval && FixCycles(log) >= 5 && text.StoppedFixCycles?)
  }

  /** What is told when the loop ends: the memories that the ending still uses. */
  ghost predicate MemoryTells(w: Work) {
    && (w.mutationDone <==> Mutated(w.log)) && (w.verificationFailed <==> LastFails(w.log)) && w.lastTool == LastGood(w.log)
  }

  lemma TellsMemory(w: Work)
    requires WorkTells(w)
    ensures MemoryTells(w)
  {
  }

  predicate IsNumberOrList(a: Argument) {
    a.Scalar? || a.Compound?
  }

  /** Executions over which the loop itself raises: right after they were recorded, before
      anything is decided ... */
  predicate TripsEarly(world: World, e: Execution) {
    var a := world.arguments(e.call.args);
    match e.call.tool
    case CreateFile => IsNumberOrList(a.path) || (a.path.Written? && world.parentRefused(a.path.text))
    case ExecuteCommand => !e.outcome.hasError && IsNumberOrList(a.command)
    case _ => false
  }

  /** ... or when the loop would go on, and notes the file and tells the model. */
  predicate TripsLate(world: World, e: Execution) {
    var a := world.arguments(e.call.args);
    match e.call.tool
    case CreateFile | WriteFile | CreateProject | ModifyFile =>
      if a.filePath.Truthy() then a.filePath.Compound? else a.path.Truthy() && a.path.Compound?
    case Other(name) => |name| + Min(e.outcome.chars, 3014) > 19984
    case _ => false
  }

  lemma TripsMeaning(world: World, c: Call, raw: ToolResult)
    ensures MishapOf(world, c, AfterVerification(c.tool, raw)) ==
            if TripsEarly(world, Logged(c, raw)) then EarlyRaise
            else if TripsLate(world, Logged(c, raw)) then LateRaise else Smooth
  {
    hide AfterVerification;
  }

  lemma ExecuteOneTells(world: World, d: Desk, c: Call, raw: ToolResult, open: nat)
    requires DeskTells(world, d, open)
    ensures var r := ExecuteOne(world, d, c, raw);
      && r.desk.work.log == d.work.log + [Logged(c, raw)]
      && r.desk.talk.directives == d.talk.directives
      && r.desk.work.progress.directivesIssued == d.work.progress.directivesIssued
      && (r.flow.Next? ==>
            && DeskTells(world, r.desk, open) && r.desk.talk.finalText == d.talk.finalText
            && !raw.needsApproval && FailureStreak(r.desk.work.log) < 3
            && !TripsEarly(world, Logged(c, raw)) && !TripsLate(world, Logged(c, raw)))
      && (r.flow.Leave? ==>
            && StoppedBy(r.desk.talk.finalText, r.desk.work.log) && MemoryTells(r.desk.work)
            && FilesTell(world, d.files, d.work.log))
      && (r.flow.Abort? ==> r.flow.cause.Raised?)
      && (r.flow.Abort? <==>
            || TripsEarly(world, Logged(c, raw))
            || (TripsLate(world, Logged(c, raw)) && !raw.needsApproval && StaysInLimits(r.desk.work.log)))
      && r.desk.admission ==
         if raw.needsApproval || TripsEarly(world, Logged(c, raw)) then d.admission
         else d.admission.(executed := d.admission.executed + {c})
  {
    hide Perform, MishapOf, TripsEarly, TripsLate, StaysInLimits, Noted, WorkTells, TalkTells, FilesTell;
    hide AfterVerification, FailureStreak, FixCycles, LastFails, LastGood, Mutated, Calls;
    var e := Logged(c, raw);
    TripsMeaning(world, c, raw);
    PerformTells(d.work, c, raw, MishapOf(world, c, AfterVerification(c.tool, raw)));
    TalkPush(d.talk, ToolMessage(c), d.work.log, open);
    FilesPush(world, d.files, d.work.log, e);
    CallsPush(d.work.log, e);
    assert (d.work.log + [e])[|d.work.log + [e]| - 1] == e;
    var (w, verdict) := Perform(d.work, c, raw, MishapOf(world, c, AfterVerification(c.tool, raw)));
    assert ExecuteOne(world, d, c, raw).flow == FlowOf(verdict);
  }
}
