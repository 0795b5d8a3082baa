/** The agentic loop: an untrusted provider proposes tool calls, the backend
    admits, executes, coaches, switches provider and decides completion.

    The first half is the loop as functions over a run state; the second half is
    the loop as the program runs it, an object with fields, nested loops and early
    exits, proved to compute those functions. The theorems about whole runs are in
    the module AgentRuns. */
module AgentLoop {
  import opened Basics
  import opened Wrappers
  import opened TaskControl
  import opened ModelManagement

  // ------------------------------------------------------------------
  // Tool results and their verification
  // ------------------------------------------------------------------

  /** What the loop looks at in a tool's result dictionary: whether the key "error"
      is there and whether its value is truthy, whether the key "result" is there,
      whether approval is requested, whether the disk checks would pass, and how long it
      is when the model is told. */
  datatype ToolResult = ToolResult(
    hasError: bool, errorTruthy: bool, hasResult: bool, needsApproval: bool, checksPass: bool, chars: nat)
  {
    predicate Errs() {
      hasError && errorTruthy
    }
  }

  /** Tools whose results are never verified. */
  predicate SkipsVerification(t: Tool) {
    || t.ReadFile? || t.ReadFiles? || t.ListDirectory? || t.FileExists? || t.SearchFiles?
    || t.VerifyFiles? || t.Calculator? || t.ListTools? || t.GetCurrentDatetime? || t.ResolvePath?
  }

  /** Tools that have a verifier of their own. */
  predicate HasVerifier(t: Tool) {
    || t.CreateFile? || t.WriteFile? || t.ModifyFile? || t.CreateDirectory?
    || t.ExecuteCommand? || t.CreateProject? || t.AnalyzeProject?
  }

  predicate VerificationPasses(t: Tool, r: ToolResult) {
    if SkipsVerification(t) then true
    else if r.hasError && !r.hasResult then false
    else if !HasVerifier(t) then true
    else if (t.ExecuteCommand? || t.AnalyzeProject?) && r.hasError then false
    else r.checksPass
  }

  /** A failed verification puts an error into the result. */
  function AfterVerification(t: Tool, r: ToolResult): ToolResult {
    if VerificationPasses(t, r) then r else r.(hasError := true, errorTruthy := true)
  }

  // ------------------------------------------------------------------
  // The run
  // ------------------------------------------------------------------

  const MAX_FIX_CYCLES := 5
  const MAX_SAME_TOOL_CALLS := 2
  const MAX_SAME_TOOL_NAME := 4
  const MAX_CONSECUTIVE_TOOL_FAILURES := 3
  const MAX_NUDGES := 3
  const MAX_TURN_CHARS := 20000
  const MAX_SHOWN_CHARS := 3014
  const APPROVAL_REQUIRED_PREFIX := "__APPROVAL_REQUIRED__:"

  datatype Config = Config(
    hasRegistry: bool,
    registered: set<Tool>,
    needsApproval: set<Tool>,
    approved: bool,
    requiresModification: bool,
    managed: bool)  // a ModelManager is in use

  /** One provider round: an error the loop catches by kind, any other exception,
      or a reply with the tool calls found in it. */
  datatype Reply =
    | Unavailable(connectivity: bool, online: bool)
    | Exception
    | Text(text: string, calls: seq<Call>)

  /** What the loop tells apart about an argument: a text, another value that can be in a
      set (a number, a truth value, null), or a list or dictionary. */
  datatype Argument = Absent | Written(text: string) | Scalar(truthy: bool) | Compound(filled: bool)
  {
    predicate Truthy() {
      match this
      case Absent => false
      case Written(text) => text != ""
      case Scalar(truthy) => truthy
      case Compound(filled) => filled
    }

    predicate IsNoText() {
      Scalar? || Compound?
    }
  }

  datatype Arguments = Arguments(path: Argument, filePath: Argument, command: Argument)

  /** The arguments that a call's text stands for, and the disk as the loop itself looks at
      it: the paths whose parent, or which themselves, the operating system refuses to look
      at, and the files that are missing in the end. */
  datatype World = World(
    arguments: string -> Arguments,
    parentRefused: string -> bool,
    refused: string -> bool,
    missing: string -> bool)

  /** The environment decides, round by round and call by call. */
  datatype Env = Env(
    timeUp: nat -> bool,
    reply: nat -> Reply,
    tool: (nat, Call) -> ToolResult,
    world: World)

  datatype FinalText =
    | NoText
    | FromModel(text: string)
    | ApprovalRequest(call: Call)
    | StoppedForTime
    | StoppedStalled
    | StoppedRepeating(tool: Tool)
    | StoppedOverused(tool: Tool)
    | StoppedFailing(count: nat)
    | StoppedFixCycles(count: nat)
    | ShowingResult(tool: Tool)
    | NothingToShow
    | NotCompleted(before: FinalText)
  {
    predicate ApprovalPending() {
      ApprovalRequest? || (FromModel? && APPROVAL_REQUIRED_PREFIX <= text)
    }
  }

  datatype Message = Directive | ToolMessage(call: Call) | AssistantMessage

  datatype Execution = Execution(call: Call, raw: ToolResult, outcome: ToolResult)

  /** What was proposed and what may not be executed again. */
  datatype Admission = Admission(
    seen: map<Call, nat>,
    names: map<Tool, nat>,
    executed: set<Call>,
    deduplicated: nat)

  /** What was executed, and what followed from it. The program keeps no log; the
      log is every execution in order, with the tool's own result and the result
      after verification. */
  datatype Work = Work(
    machine: Machine,
    progress: Progress,
    mutationDone: bool,
    verificationFailed: bool,
    lastTool: Option<Tool>,
    consecutiveFailures: nat,
    fixCycles: nat,
    lastWasModify: bool,
    log: seq<Execution>)

  /** The conversation with the model and the counters of coaching. */
  datatype Talk = Talk(
    rounds: nat,
    stallRounds: nat,
    directives: nat,
    unproductive: nat,
    modelFailures: nat,
    finalText: FinalText,
    messages: seq<Message>)

  /** Which provider runs, and what the metrics say about it. `path` is the list of
      all (provider, model) pairs that really ran; the program keeps no such list. */
  datatype Route = Route(
    current: Key,
    requested: Key,
    reported: Key,
    chain: seq<Key>,
    fallbackExecuted: bool,
    blocked: set<string>,
    manager: Manager,
    path: seq<Key>)

  /** The files that the calls of the run claim to create or to modify. */
  datatype Files = Files(created: set<Argument>, modified: set<Argument>)

  /** Everything a reply can change. */
  datatype Desk = Desk(admission: Admission, work: Work, talk: Talk, files: Files)

  datatype RunState = RunState(desk: Desk, route: Route)

  /** Early returns, and exceptions, out of the middle of the loop. */
  datatype Interruption = ManualUnavailable | ProviderFailed | Crashed | EmptyReply | Raised

  /** How a run ends; an exception can also come after the loop and the completion decision. */
  datatype Exit = Exhausted | LeftLoop | Interrupted(cause: Interruption) | RaisedInEnd(exhausted: bool)
  {
    /** The cap, and not the loop itself, ended the rounds. */
    predicate Spent() {
      Exhausted? || (RaisedInEnd? && exhausted)
    }

    predicate Raises() {
      RaisedInEnd? || (Interrupted? && cause.Raised?)
    }
  }

  datatype Flow = Next | Leave | Abort(cause: Interruption)
  datatype Turn = Turn(desk: Desk, flow: Flow)
  datatype Step = Step(state: RunState, flow: Flow)
  datatype Outcome = Outcome(state: RunState, exit: Exit)

  const STARTED: Machine := Move(Move(Move(Machine(Idle, []), Understanding), Planning), Reading)
  const NO_WORK: Work := Work(STARTED, NO_PROGRESS, false, false, None, 0, 0, false, [])

  const NO_FILES: Files := Files({}, {})

  const INITIAL_DESK: Desk := Desk(Admission(map[], map[], {}, 0), NO_WORK, Talk(0, 0, 0, 0, 0, NoText, []), NO_FILES)

  function InitialRoute(provider: Key, manager: Manager): Route {
    Route(provider, provider, provider, [], false, {}, manager, [provider])
  }

  function Initial(provider: Key, manager: Manager): RunState {
    RunState(INITIAL_DESK, InitialRoute(provider, manager))
  }

  // ------------------------------------------------------------------
  // Executing calls
  // ------------------------------------------------------------------

  /** The result a call gets: unknown tools and ungranted approvals never reach a handler. */
  function Dispatch(cfg: Config, c: Call, handler: ToolResult): ToolResult {
    if c.tool !in cfg.registered then ToolResult(true, true, false, false, handler.checksPass, handler.chars)
    else if c.tool in cfg.needsApproval && !cfg.approved then
      ToolResult(true, true, false, true, handler.checksPass, handler.chars)
    else handler
  }

  function TargetState(t: Tool, mutated: bool): TaskState {
    if t.VerifyFiles? || (t.FileExists? && mutated) then Verifying else StateForTool(t)
  }

  /** The task state follows the tool, and moves on to Correcting if verification failed. */
  function Advance(m: Machine, target: TaskState, passed: bool): Machine {
    if passed then Move(m, target) else Move(Move(m, target), Correcting)
  }

  /** Recording one result: log, progress, task state and verification. */
  function Witness(w: Work, c: Call, raw: ToolResult): Work {
    var p := Recorded(w.progress, c, raw.Errs());
    var passed := VerificationPasses(c.tool, raw);
    w.(progress := p,
       mutationDone := p.MutationHappened(),
       machine := Advance(w.machine, TargetState(c.tool, p.MutationHappened()), passed),
       verificationFailed := !passed,
       lastTool := if raw.Errs() then w.lastTool else Some(c.tool),
       log := w.log + [Execution(c, raw, AfterVerification(c.tool, raw))])
  }

  predicate EndsFixCycle(w: Work, t: Tool) {
    t.ExecuteCommand? && w.lastWasModify
  }

  /** Fix cycles: a file modification followed, with no other tool between, by a command. */
  function TrackFix(w: Work, t: Tool): Work {
    if t.ModifyFile? || t.WriteFile? then w.(lastWasModify := true)
    else if EndsFixCycle(w, t) then w.(fixCycles := w.fixCycles + 1, lastWasModify := false)
    else w.(lastWasModify := false)
  }

  datatype Verdict = Continue | Stop(text: FinalText) | Raise

  /** The failure budget and the fix cycles, after a result that needs no approval. */
  function Settle(w: Work, t: Tool, failed: bool): (Work, Verdict) {
    var w1 := w.(consecutiveFailures := if failed then w.consecutiveFailures + 1 else 0);
    if failed && w1.consecutiveFailures >= MAX_CONSECUTIVE_TOOL_FAILURES then
      (w1.(machine := Move(w1.machine, Failed)), Stop(StoppedFailing(w1.consecutiveFailures)))
    else
      var w2 := TrackFix(w1, t);
      (w2, if EndsFixCycle(w1, t) && w2.fixCycles >= MAX_FIX_CYCLES then Stop(StoppedFixCycles(w2.fixCycles)) else Continue)
  }

  /** The preflight look at the parent of a file to create. */
  predicate PreflightRaises(world: World, path: Argument) {
    path.IsNoText() || (path.Written? && world.parentRefused(path.text))
  }

  predicate ClaimsToCreate(t: Tool) {
    t.CreateFile? || t.WriteFile? || t.CreateProject?
  }

  predicate ClaimsFile(t: Tool) {
    ClaimsToCreate(t) || t.ModifyFile?
  }

  function ClaimedFile(a: Arguments): Argument {
    if a.filePath.Truthy() then a.filePath else a.path
  }

  /** A call that gets this far is noted with its file. */
  function Noted(f: Files, t: Tool, a: Arguments): Files {
    var file := ClaimedFile(a);
    if !ClaimsFile(t) || !file.Truthy() then f
    else if ClaimsToCreate(t) then f.(created := f.created + {file})
    else f.(modified := f.modified + {file})
  }

  /** What the model is told is a turn of the conversation, which refuses long ones. All
      names but those that a model made up are short. */
  predicate IsLongReport(t: Tool, chars: nat) {
    t.Other? && |t.name| + 16 + Min(chars, MAX_SHOWN_CHARS) > MAX_TURN_CHARS
  }

  /** Whether and where the loop itself raises over a call: where it looks at the path or
      the command right after the result was recorded, or where it notes the file and
      reports the result in the end. */
  datatype Mishap = Smooth | EarlyRaise | LateRaise

  function MishapOf(world: World, c: Call, outcome: ToolResult): Mishap {
    var a := world.arguments(c.args);
    if c.tool.CreateFile? && PreflightRaises(world, a.path) then EarlyRaise
    else if c.tool.ExecuteCommand? && !outcome.hasError && a.command.IsNoText() then EarlyRaise
    else if ClaimsFile(c.tool) && ClaimedFile(a).Truthy() && ClaimedFile(a).Compound? then LateRaise
    else if IsLongReport(c.tool, outcome.chars) then LateRaise
    else Smooth
  }

  /** What one admitted call does to the work, and whether it stops the loop. */
  function Perform(w: Work, c: Call, raw: ToolResult, mishap: Mishap): (Work, Verdict) {
    var w1 := Witness(w, c, raw);
    if mishap.EarlyRaise? then (w1, Raise)
    else if raw.needsApproval then (w1, Stop(ApprovalRequest(c)))
    else
      var (w2, verdict) := Settle(w1, c.tool, AfterVerification(c.tool, raw).Errs());
      (w2, if verdict.Continue? && mishap.LateRaise? then Raise else verdict)
  }

  /** What the model is told after a call, or the user if the loop stops. */
  function Report(t: Talk, c: Call, verdict: Verdict): Talk {
    match verdict
    case Stop(text) => t.(finalText := text)
    case Continue => t.(messages := t.messages + [ToolMessage(c)])
    case Raise => t
  }

  /** A call that waits for approval, or fails early, does not count as executed. */
  function Admit(a: Admission, c: Call, waits: bool): Admission {
    if waits then a else a.(executed := a.executed + {c})
  }

  /** One admitted call. */
  function ExecuteOne(world: World, s: Desk, c: Call, raw: ToolResult): Turn {
    var mishap := MishapOf(world, c, AfterVerification(c.tool, raw));
    var (w, verdict) := Perform(s.work, c, raw, mishap);
    Turn(Desk(Admit(s.admission, c, raw.needsApproval || mishap.EarlyRaise?), w, Report(s.talk, c, verdict),
              if verdict.Continue? then Noted(s.files, c.tool, world.arguments(c.args)) else s.files),
         FlowOf(verdict))
  }

  function FlowOf(verdict: Verdict): Flow {
    match verdict
    case Continue => Next
    case Stop(_) => Leave
    case Raise => Abort(Raised)
  }

  /** The reply itself becomes a turn of the conversation, which refuses long ones. */
  predicate IsTooLong(text: FinalText) {
    text.FromModel? && |text.text| > MAX_TURN_CHARS
  }

  function Answer(s: Desk): Turn {
    if IsTooLong(s.talk.finalText) then Turn(s, Abort(Raised))
    else Turn(s.(talk := s.talk.(messages := s.talk.messages + [AssistantMessage])), Next)
  }

  /** The next call of a batch: a repetition within the batch is skipped. */
  function TakeCall(cfg: Config, env: Env, s: Desk, c: Call): Turn {
    if c in s.admission.executed then
      Turn(s.(admission := s.admission.(deduplicated := s.admission.deduplicated + 1)), Next)
    else ExecuteOne(env.world, s, c, Dispatch(cfg, c, env.tool(|s.work.log|, c)))
  }

  /** The admitted batch in order, until a call stops the loop. */
  function ExecuteBatch(cfg: Config, env: Env, s: Desk, batch: seq<Call>): Turn
    decreases |batch|
  {
    if batch == [] then Answer(s)
    else
      var r := TakeCall(cfg, env, s, batch[0]);
      if r.flow.Next? then ExecuteBatch(cfg, env, r.desk, batch[1..]) else r
  }

  // ------------------------------------------------------------------
  // Admission
  // ------------------------------------------------------------------

  function Propose(a: Admission, calls: seq<Call>): Admission
    decreases |calls|
  {
    if calls == [] then a
    else
      var c := calls[0];
      Propose(a.(seen := a.seen[c := Get(a.seen, c) + 1],
                 names := a.names[c.tool := Get(a.names, c.tool) + 1],
                 deduplicated := if c in a.executed then a.deduplicated + 1 else a.deduplicated),
              calls[1..])
  }

  function Fresh(calls: seq<Call>, executed: set<Call>): seq<Call> {
    if calls == [] then []
    else (if calls[0] in executed then [] else [calls[0]]) + Fresh(calls[1..], executed)
  }

  datatype Limit = Within | Repeated(tool: Tool) | Overused(tool: Tool)

  /** The first proposal that breaks a limit decides. */
  function LimitCheck(a: Admission, calls: seq<Call>): Limit {
    if calls == [] then Within
    else if Get(a.seen, calls[0]) > MAX_SAME_TOOL_CALLS then Repeated(calls[0].tool)
    else if Get(a.names, calls[0].tool) >= MAX_SAME_TOOL_NAME then Overused(calls[0].tool)
    else LimitCheck(a, calls[1..])
  }

  predicate MutationOwed(cfg: Config, w: Work) {
    cfg.requiresModification && !w.mutationDone
  }

  function Instruct(t: Talk): Talk {
    t.(messages := t.messages + [Directive], directives := t.directives + 1)
  }

  /** The one directive issued through the progress detector. */
  function CoachToModify(s: Desk, stallRounds: nat): Desk {
    s.(work := s.work.(progress := s.work.progress.(directivesIssued := s.work.progress.directivesIssued + 1)),
       talk := Instruct(s.talk).(stallRounds := stallRounds))
  }

  function Unproductive(s: Desk, text: FinalText): Desk {
    s.(work := s.work.(machine := Move(s.work.machine, Failed)),
       talk := s.talk.(unproductive := s.talk.unproductive + 1, finalText := text))
  }

  /** Every proposed call had been executed before. */
  function Stalled(cfg: Config, s: Desk): Turn {
    var t := s.talk.(stallRounds := s.talk.stallRounds + 1);
    if MutationOwed(cfg, s.work) then
      if s.work.progress.directivesIssued == 0 then Turn(CoachToModify(s, t.stallRounds), Next)
      else Turn(Unproductive(s.(talk := t), StoppedStalled), Leave)
    else if t.directives == 0 then Turn(s.(talk := Instruct(t)), Next)
    else
      var text := match s.work.lastTool case Some(tool) => ShowingResult(tool) case None => NothingToShow;
      Turn(s.(talk := t.(finalText := text)), Leave)
  }

  /** A call was proposed once too often: coach once, otherwise stop. */
  function Repetition(cfg: Config, s: Desk, tool: Tool): Turn {
    if MutationOwed(cfg, s.work) && s.work.progress.directivesIssued == 0 then Turn(CoachToModify(s, 0), Next)
    else Turn(Unproductive(s, StoppedRepeating(tool)), Leave)
  }

  /** A reply that proposes calls. */
  function HandleCalls(cfg: Config, env: Env, s: Desk, calls: seq<Call>): Turn {
    var s1 := s.(admission := Propose(s.admission, calls));
    var batch := Fresh(calls, s1.admission.executed);
    if batch == [] then Stalled(cfg, s1)
    else
      match LimitCheck(s1.admission, calls)
      case Repeated(tool) => Repetition(cfg, s1, tool)
      case Overused(tool) => Turn(Unproductive(s1, StoppedOverused(tool)), Leave)
      case Within => ExecuteBatch(cfg, env, s1.(talk := s1.talk.(stallRounds := 0)), batch)
  }

  /** A non-empty reply. */
  function HandleText(cfg: Config, env: Env, s: Desk, text: string, calls: seq<Call>): Turn {
    var t := s.talk.(finalText := FromModel(text), rounds := s.talk.rounds + 1);
    if calls == [] || !cfg.hasRegistry then
      if MutationOwed(cfg, s.work) && t.directives < MAX_NUDGES then Turn(s.(talk := Instruct(t)), Next)
      else Turn(s.(talk := t), Leave)
    else HandleCalls(cfg, env, s.(talk := t), calls)
  }

  // ------------------------------------------------------------------
  // Provider failures
  // ------------------------------------------------------------------

  /** Switching to the instance found for a pick. */
  function Hop(r: Route, pick: Key, inst: Instance): Route {
    r.(current := Landing(inst, pick),
       reported := pick,
       chain := r.chain + [r.current],
       fallbackExecuted := true,
       manager := r.manager.(entries := FailureAt(r.manager.entries, r.current)),
       path := r.path + [Landing(inst, pick)])
  }

  /** A failure under automatic routing: the new route, and whether it hopped. */
  function Reroute(r: Route, connectivity: bool, online: bool): (Route, bool) {
    var blocked := if connectivity then r.blocked + {r.current.provider} else r.blocked;
    var (m, pick) := Fallback(r.manager, r.current, blocked, online);
    var asked := r.(blocked := blocked, manager := m);
    if pick.Some? && Resolve(m, pick.value.provider).Some? then
      (Hop(asked, pick.value, Resolve(m, pick.value.provider).value), true)
    else (asked, false)
  }

  function GiveUp(s: Desk): Desk {
    s.(work := s.work.(machine := Move(s.work.machine, Failed)),
       talk := s.talk.(modelFailures := s.talk.modelFailures + 1))
  }

  function CountModelFailure(s: Desk): Desk {
    s.(talk := s.talk.(modelFailures := s.talk.modelFailures + 1))
  }

  /** Automatic routing: hop if a fallback can be found, otherwise give up. */
  function FallBack(s: RunState, connectivity: bool, online: bool): Step {
    var (r, hopped) := Reroute(s.route, connectivity, online);
    if hopped then Step(RunState(s.desk, r), Next) else Step(RunState(GiveUp(s.desk), r), Abort(ProviderFailed))
  }

  function HandleFailure(cfg: Config, s: RunState, connectivity: bool, online: bool): Step {
    if cfg.managed && s.route.manager.manual then
      Step(s.(desk := CountModelFailure(s.desk)), Abort(ManualUnavailable))
    else if cfg.managed && s.route.manager.initialized then FallBack(s, connectivity, online)
    else Step(s.(desk := GiveUp(s.desk)), Abort(ProviderFailed))
  }

  // ------------------------------------------------------------------
  // Rounds and completion
  // ------------------------------------------------------------------

  function TimeOut(s: Desk): Desk {
    s.(work := s.work.(machine := Move(s.work.machine, Failed)), talk := s.talk.(finalText := StoppedForTime))
  }

  function Round(cfg: Config, env: Env, s: RunState, round: nat): Step {
    if env.timeUp(round) then Step(s.(desk := TimeOut(s.desk)), Leave)
    else
      match env.reply(round)
      case Unavailable(connectivity, online) => HandleFailure(cfg, s, connectivity, online)
      case Exception => Step(s, Abort(Crashed))
      case Text(text, calls) =>
        if text == "" then Step(s, Abort(EmptyReply))
        else
          var r := HandleText(cfg, env, s.desk, text, calls);
          Step(s.(desk := r.desk), r.flow)
  }

  /** The completion decision. */
  function Decide(cfg: Config, s: Desk): Desk {
    if s.talk.finalText.ApprovalPending() then s.(work := s.work.(machine := Move(s.work.machine, Blocked)))
    else if Terminal(s.work.machine.state) then s
    else if MutationOwed(cfg, s.work) then
      s.(work := s.work.(machine := Move(s.work.machine, Failed)),
         talk := s.talk.(finalText := NotCompleted(s.talk.finalText)))
    else s.(work := s.work.(machine := Move(s.work.machine, Completed)))
  }

  /** The feedback given to the model manager. */
  function Feedback(cfg: Config, r: Route, failed: bool): Route {
    if cfg.managed && r.manager.initialized && r.current.provider != "" && r.current.model != "" then
      r.(manager := r.manager.(entries :=
        if failed then FailureAt(r.manager.entries, r.current) else SuccessAt(r.manager.entries, r.current)))
    else r
  }

  /** A claimed file that cannot be looked at in the end. */
  predicate IsRefused(world: World, file: Argument) {
    !file.Written? || world.refused(file.text)
  }

  predicate SomeRefused(world: World, files: set<Argument>) {
    exists file | file in files :: IsRefused(world, file)
  }

  predicate SomeMissing(world: World, files: set<Argument>) {
    exists file | file in files :: file.Written? && world.missing(file.text)
  }

  predicate FilesRefused(world: World, f: Files) {
    SomeRefused(world, f.created) || SomeRefused(world, f.modified)
  }

  predicate FilesMissing(world: World, f: Files) {
    SomeMissing(world, f.created) || SomeMissing(world, f.modified)
  }

  /** The completion decision and the check of the session's files. */
  function FinishDesk(cfg: Config, env: Env, s: Desk): Desk {
    var d := Decide(cfg, s);
    d.(work := d.work.(verificationFailed := d.work.verificationFailed || FilesMissing(env.world, d.files)))
  }

  /** The end of a run that left the loop or exhausted the cap, unless it raises. */
  function Finish(cfg: Config, env: Env, s: RunState): RunState {
    var d := FinishDesk(cfg, env, s.desk);
    RunState(d, Feedback(cfg, s.route, d.work.verificationFailed))
  }

  /** The session's files are looked at after the decision and before the feedback. */
  function Conclude(cfg: Config, env: Env, s: RunState, exhausted: bool): Outcome {
    if FilesRefused(env.world, s.desk.files) then
      Outcome(s.(desk := Decide(cfg, s.desk)), RaisedInEnd(exhausted))
    else Outcome(Finish(cfg, env, s), if exhausted then Exhausted else LeftLoop)
  }

  function RunFrom(cfg: Config, env: Env, s: RunState, round: nat, limit: nat): Outcome
    decreases limit - round
  {
    if round >= limit then Conclude(cfg, env, s, true)
    else
      var r := Round(cfg, env, s, round);
      match r.flow
      case Next => RunFrom(cfg, env, r.state, round + 1, limit)
      case Leave => Conclude(cfg, env, r.state, false)
      case Abort(cause) => Outcome(r.state, Interrupted(cause))
  }

  function Run(cfg: Config, env: Env, provider: Key, manager: Manager, limit: nat): Outcome {
    RunFrom(cfg, env, Initial(provider, manager), 0, limit)
  }

  // ------------------------------------------------------------------
  // The program
  // ------------------------------------------------------------------

  /** The part of the loop that deals with replies and tool calls. */
  class CallDesk {
    const cfg: Config
    const taskMachine: TaskStateMachine
    const progress: ProgressDetector

    var seenToolCalls: map<Call, nat>
    var toolNameCounts: map<Tool, nat>
    var executedCalls: set<Call>
    var deduplicated: nat

    var mutationDone: bool
    var verificationFailed: bool
    var lastTool: Option<Tool>
    var consecutiveFailures: nat
    var fixCycleCount: nat
    var lastWasModify: bool
    var calls: nat
    ghost var log: seq<Execution>

    var rounds: nat
    var stallRounds: nat
    var directives: nat
    var unproductive: nat
    var modelFailures: nat
    var finalText: FinalText
    var currentMessages: seq<Message>

    var sessionFilesCreated: set<Argument>
    var sessionFilesModified: set<Argument>

    ghost function AdmissionView(): Admission
      reads this
    {
      Admission(seenToolCalls, toolNameCounts, executedCalls, deduplicated)
    }

    ghost function WorkView(): Work
      reads this, taskMachine, progress
    {
      Work(taskMachine.View(), progress.View(), mutationDone, verificationFailed, lastTool,
           consecutiveFailures, fixCycleCount, lastWasModify, log)
    }

    ghost function TalkView(): Talk
      reads this
    {
      Talk(rounds, stallRounds, directives, unproductive, modelFailures, finalText, currentMessages)
    }

    ghost function FilesView(): Files
      reads this
    {
      Files(sessionFilesCreated, sessionFilesModified)
    }

    ghost function View(): Desk
      reads this, taskMachine, progress
    {
      Desk(AdmissionView(), WorkView(), TalkView(), FilesView())
    }

    /** The program's own count of executions agrees with the log. */
    ghost predicate Valid()
      reads this
    {
      calls == |log|
    }

    constructor (cfg: Config)
      ensures Valid() && View() == INITIAL_DESK && this.cfg == cfg
      ensures fresh(taskMachine) && fresh(progress)
    {
      this.cfg := cfg;
      taskMachine := new TaskStateMachine();
      progress := new ProgressDetector();
      seenToolCalls, toolNameCounts, executedCalls, deduplicated := map[], map[], {}, 0;
      mutationDone, verificationFailed, lastTool, consecutiveFailures := false, false, None, 0;
      fixCycleCount, lastWasModify, calls, log := 0, false, 0, [];
      rounds, stallRounds, directives, unproductive, modelFailures := 0, 0, 0, 0, 0;
      finalText, currentMessages := NoText, [];
      sessionFilesCreated, sessionFilesModified := {}, {};
      new;
      var now := taskMachine.Transition(Understanding);
      now := taskMachine.Transition(Planning);
      now := taskMachine.Transition(Reading);
    }

    method ProposeAll(calls: seq<Call>)
      modifies `seenToolCalls, `toolNameCounts, `deduplicated
      ensures AdmissionView() == Propose(old(AdmissionView()), calls)
    {
      ghost var target := Propose(AdmissionView(), calls);
      assert calls[0..] == calls;
      for i := 0 to |calls|
        invariant Propose(AdmissionView(), calls[i..]) == target
      {
        var c := calls[i];
        assert calls[i..][0] == c && calls[i..][1..] == calls[i + 1..];
        seenToolCalls := seenToolCalls[c := Get(seenToolCalls, c) + 1];
        toolNameCounts := toolNameCounts[c.tool := Get(toolNameCounts, c.tool) + 1];
        if c in executedCalls {
          deduplicated := deduplicated + 1;
        }
      }
    }

    method CheckLimits(calls: seq<Call>) returns (limit: Limit)
      ensures limit == LimitCheck(AdmissionView(), calls)
    {
      assert calls[0..] == calls;
      for i := 0 to |calls|
        invariant LimitCheck(AdmissionView(), calls[i..]) == LimitCheck(AdmissionView(), calls)
      {
        var c := calls[i];
        assert calls[i..][0] == c && calls[i..][1..] == calls[i + 1..];
        if Get(seenToolCalls, c) > MAX_SAME_TOOL_CALLS {
          return Repeated(c.tool);
        }
        if Get(toolNameCounts, c.tool) >= MAX_SAME_TOOL_NAME {
          return Overused(c.tool);
        }
      }
      limit := Within;
    }

    method SelectFresh(calls: seq<Call>) returns (batch: seq<Call>)
      ensures batch == Fresh(calls, executedCalls)
    {
      batch := [];
      assert calls[0..] == calls;
      for i := 0 to |calls|
        invariant Fresh(calls, executedCalls) == batch + Fresh(calls[i..], executedCalls)
      {
        var c := calls[i];
        assert calls[i..][0] == c && calls[i..][1..] == calls[i + 1..];
        if c !in executedCalls {
          batch := batch + [c];
        }
      }
    }

    method AdvanceState(target: TaskState)
      modifies taskMachine
      ensures taskMachine.View() == Advance(old(taskMachine.View()), target, !verificationFailed)
    {
      var now := taskMachine.Transition(target);
      if verificationFailed {
        now := taskMachine.Transition(Correcting);
      }
    }

    method WitnessResult(c: Call, raw: ToolResult)
      requires Valid()
      modifies `log, `calls, `lastTool, `mutationDone, `verificationFailed, taskMachine, progress
      ensures Valid() && WorkView() == Witness(old(WorkView()), c, raw)
    {
      ghost var w := WorkView();
      ghost var p := Recorded(w.progress, c, raw.Errs());
      log := log + [Execution(c, raw, AfterVerification(c.tool, raw))];
      calls := calls + 1;
      if !raw.Errs() {
        lastTool := Some(c.tool);
      }
      progress.Record(c, raw.Errs());
      mutationDone := progress.successfulMutatingCalls > 0 || progress.successfulExecutingCalls > 0;
      assert progress.View() == p && mutationDone == p.MutationHappened();
      verificationFailed := !VerificationPasses(c.tool, raw);
      AdvanceState(TargetState(c.tool, mutationDone));
    }

    method SettleResult(t: Tool, failed: bool) returns (verdict: Verdict)
      modifies `consecutiveFailures, `fixCycleCount, `lastWasModify, taskMachine
      ensures (WorkView(), verdict) == Settle(old(WorkView()), t, failed)
    {
      if failed {
        consecutiveFailures := consecutiveFailures + 1;
        if consecutiveFailures >= MAX_CONSECUTIVE_TOOL_FAILURES {
          var now := taskMachine.Transition(Failed);
          return Stop(StoppedFailing(consecutiveFailures));
        }
      } else {
        consecutiveFailures := 0;
      }
      if t.ModifyFile? || t.WriteFile? {
        lastWasModify := true;
      } else if t.ExecuteCommand? && lastWasModify {
        fixCycleCount := fixCycleCount + 1;
        lastWasModify := false;
        if fixCycleCount >= MAX_FIX_CYCLES {
          return Stop(StoppedFixCycles(fixCycleCount));
        }
      } else {
        lastWasModify := false;
      }
      verdict := Continue;
    }

    method PerformCall(c: Call, raw: ToolResult, mishap: Mishap) returns (verdict: Verdict)
      requires Valid()
      modifies `log, `calls, `lastTool, `mutationDone, `verificationFailed
      modifies `consecutiveFailures, `fixCycleCount, `lastWasModify, taskMachine, progress
      ensures Valid() && (WorkView(), verdict) == Perform(old(WorkView()), c, raw, mishap)
    {
      WitnessResult(c, raw);
      if mishap.EarlyRaise? {
        return Raise;
      }
      if raw.needsApproval {
        return Stop(ApprovalRequest(c));
      }
      verdict := SettleResult(c.tool, AfterVerification(c.tool, raw).Errs());
      if verdict.Continue? && mishap.LateRaise? {
        verdict := Raise;
      }
    }

    method CloseCall(c: Call, waits: bool, a: Arguments, verdict: Verdict)
      modifies `executedCalls, `finalText, `currentMessages, `sessionFilesCreated, `sessionFilesModified
      ensures AdmissionView() == Admit(old(AdmissionView()), c, waits)
      ensures TalkView() == Report(old(TalkView()), c, verdict)
      ensures FilesView() == if verdict.Continue? then Noted(old(FilesView()), c.tool, a) else old(FilesView())
    {
      hide Noted;
      if !waits {
        executedCalls := executedCalls + {c};
      }
      if verdict.Continue? {
        NoteFile(c.tool, a);
      }
      match verdict {
        case Stop(text) => finalText := text;
        case Continue => currentMessages := currentMessages + [ToolMessage(c)];
        case Raise =>
      }
    }

    method NoteFile(t: Tool, a: Arguments)
      modifies `sessionFilesCreated, `sessionFilesModified
      ensures FilesView() == Noted(old(FilesView()), t, a)
    {
      var file := if a.filePath.Truthy() then a.filePath else a.path;
      if file.Truthy() {
        if t.CreateFile? || t.WriteFile? || t.CreateProject? {
          sessionFilesCreated := sessionFilesCreated + {file};
        } else if t.ModifyFile? {
          sessionFilesModified := sessionFilesModified + {file};
        }
      }
    }

    method Execute(world: World, c: Call, raw: ToolResult) returns (flow: Flow)
      requires Valid()
      modifies this, taskMachine, progress
      ensures Valid()
      ensures Turn(View(), flow) == ExecuteOne(world, old(View()), c, raw)
    {
      hide Perform, Admit, Report, MishapOf, Noted, AfterVerification;
      ghost var before := View();
      var mishap := MishapOf(world, c, AfterVerification(c.tool, raw));
      var verdict := PerformCall(c, raw, mishap);
      ghost var work := WorkView();
      assert View() == before.(work := work);
      CloseCall(c, raw.needsApproval || mishap.EarlyRaise?, world.arguments(c.args), verdict);
      assert WorkView() == work;
      flow := FlowOf(verdict);
    }

    method ExecuteAll(env: Env, batch: seq<Call>) returns (flow: Flow)
      requires Valid()
      modifies this, taskMachine, progress
      ensures Valid()
      ensures Turn(View(), flow) == ExecuteBatch(cfg, env, old(View()), batch)
    {
      ghost var target := ExecuteBatch(cfg, env, View(), batch);
      assert batch[0..] == batch;
      for i := 0 to |batch|
        invariant Valid()
        invariant ExecuteBatch(cfg, env, View(), batch[i..]) == target
      {
        var c := batch[i];
        assert batch[i..][0] == c && batch[i..][1..] == batch[i + 1..];
        if c in executedCalls {
          deduplicated := deduplicated + 1;
          continue;
        }
        flow := Execute(env.world, c, Dispatch(cfg, c, env.tool(calls, c)));
        if !flow.Next? {
          return;
        }
      }
      if IsTooLong(finalText) {
        return Abort(Raised);
      }
      currentMessages := currentMessages + [AssistantMessage];
      flow := Next;
    }

    method AddDirective()
      modifies `currentMessages, `directives
      ensures TalkView() == Instruct(old(TalkView()))
    {
      currentMessages := currentMessages + [Directive];
      directives := directives + 1;
    }

    method Coach(rounds: nat)
      modifies `currentMessages, `directives, `stallRounds, progress
      ensures View() == CoachToModify(old(View()), rounds)
    {
      progress.DirectiveFor();
      AddDirective();
      stallRounds := rounds;
    }

    method DeclareUnproductive(text: FinalText)
      modifies `unproductive, `finalText, taskMachine
      ensures View() == Unproductive(old(View()), text)
    {
      unproductive := unproductive + 1;
      var now := taskMachine.Transition(Failed);
      finalText := text;
    }

    method OnStall() returns (flow: Flow)
      modifies `stallRounds, `directives, `unproductive, `finalText, `currentMessages, taskMachine, progress
      ensures Turn(View(), flow) == Stalled(cfg, old(View()))
    {
      hide Unproductive, CoachToModify, Instruct;
      ghost var s := View();
      if cfg.requiresModification && !mutationDone {
        if progress.directivesIssued == 0 {
          Coach(stallRounds + 1);
          return Next;
        }
        stallRounds := stallRounds + 1;
        assert View() == s.(talk := s.talk.(stallRounds := s.talk.stallRounds + 1));
        DeclareUnproductive(StoppedStalled);
        return Leave;
      }
      stallRounds := stallRounds + 1;
      if directives == 0 {
        AddDirective();
        return Next;
      }
      finalText := match lastTool case Some(tool) => ShowingResult(tool) case None => NothingToShow;
      flow := Leave;
    }

    /** A call was proposed once too often: coach once, otherwise stop. */
    method OnRepetition(tool: Tool) returns (flow: Flow)
      modifies `stallRounds, `directives, `unproductive, `finalText, `currentMessages, taskMachine, progress
      ensures Turn(View(), flow) == Repetition(cfg, old(View()), tool)
    {
      hide Unproductive, CoachToModify;
      if cfg.requiresModification && !mutationDone && progress.directivesIssued == 0 {
        Coach(0);
        return Next;
      }
      DeclareUnproductive(StoppedRepeating(tool));
      flow := Leave;
    }

    method OnCalls(env: Env, proposed: seq<Call>) returns (flow: Flow)
      requires Valid()
      modifies this, taskMachine, progress
      ensures Valid() && Turn(View(), flow) == HandleCalls(cfg, env, old(View()), proposed)
    {
      ghost var s := View();
      ProposeAll(proposed);
      assert View() == s.(admission := Propose(s.admission, proposed));
      var batch := SelectFresh(proposed);
      if batch == [] {
        flow := OnStall();
        return;
      }
      var limit := CheckLimits(proposed);
      match limit {
        case Repeated(tool) =>
          flow := OnRepetition(tool);
        case Overused(tool) =>
          DeclareUnproductive(StoppedOverused(tool));
          flow := Leave;
        case Within =>
          ghost var t := View();
          stallRounds := 0;
          assert View() == t.(talk := t.talk.(stallRounds := 0));
          flow := ExecuteAll(env, batch);
      }
    }

    method OnText(env: Env, text: string, proposed: seq<Call>) returns (flow: Flow)
      requires Valid()
      modifies this, taskMachine, progress
      ensures Valid() && Turn(View(), flow) == HandleText(cfg, env, old(View()), text, proposed)
    {
      hide HandleCalls;
      finalText := FromModel(text);
      rounds := rounds + 1;
      if proposed == [] || !cfg.hasRegistry {
        if cfg.requiresModification && !mutationDone && directives < MAX_NUDGES {
          AddDirective();
          return Next;
        }
        return Leave;
      }
      flow := OnCalls(env, proposed);
    }

    method GivingUp()
      modifies `modelFailures, taskMachine
      ensures View() == GiveUp(old(View()))
    {
      modelFailures := modelFailures + 1;
      var now := taskMachine.Transition(Failed);
    }

    method RefuseFallback()
      modifies `modelFailures
      ensures View() == CountModelFailure(old(View()))
    {
      modelFailures := modelFailures + 1;
    }

    method TimingOut()
      modifies `finalText, taskMachine
      ensures View() == TimeOut(old(View()))
    {
      finalText := StoppedForTime;
      var now := taskMachine.Transition(Failed);
    }

    method DecideCompletion()
      modifies `finalText, taskMachine
      ensures View() == Decide(cfg, old(View()))
    {
      var now := taskMachine.state;
      if finalText.ApprovalPending() {
        now := taskMachine.Transition(Blocked);
      } else if !Terminal(taskMachine.state) {
        if cfg.requiresModification && !mutationDone {
          now := taskMachine.Transition(Failed);
          finalText := NotCompleted(finalText);
        } else {
          now := taskMachine.Transition(Completed);
        }
      }
    }

    /** Looks at each of the claimed files, unless one of them cannot be looked at. */
    method LookAt(world: World, files: set<Argument>) returns (raised: bool, missing: bool)
      ensures raised <==> SomeRefused(world, files)
      ensures !raised ==> (missing <==> SomeMissing(world, files))
    {
      raised, missing := false, false;
      var rest := files;
      while rest != {}
        invariant rest <= files && !raised
        invariant forall file | file in files && file !in rest :: !IsRefused(world, file)
        invariant missing <==> exists file | file in files && file !in rest :: file.Written? && world.missing(file.text)
        decreases |rest|
      {
        var file :| file in rest;
        if !file.Written? || world.refused(file.text) {
          return true, missing;
        }
        if world.missing(file.text) {
          missing := true;
        }
        rest := rest - {file};
      }
    }

    method FinishWork(env: Env) returns (raised: bool)
      modifies `finalText, `verificationFailed, taskMachine
      ensures raised <==> FilesRefused(env.world, old(View()).files)
      ensures View() == if raised then Decide(cfg, old(View())) else FinishDesk(cfg, env, old(View()))
    {
      DecideCompletion();
      var missing;
      raised, missing := LookAt(env.world, sessionFilesCreated);
      if raised {
        return;
      }
      var others;
      raised, others := LookAt(env.world, sessionFilesModified);
      if !raised && (missing || others) {
        verificationFailed := true;
      }
    }
  }

  /** The provider in use and the metrics that report it. */
  class ProviderRoute {
    const manager: ModelManager
    var provider: Key
    const requested: Key
    var reported: Key
    var fallbackChain: seq<Key>
    var fallbackExecuted: bool
    var blockedProviders: set<string>
    ghost var path: seq<Key>

    ghost function View(): Route
      reads this, manager, manager.entries
    {
      Route(provider, requested, reported, fallbackChain, fallbackExecuted, blockedProviders, manager.View(), path)
    }

    constructor (provider: Key, manager: ModelManager)
      ensures View() == InitialRoute(provider, manager.View()) && this.manager == manager
    {
      this.manager := manager;
      this.provider, requested, reported := provider, provider, provider;
      fallbackChain, fallbackExecuted, blockedProviders, path := [], false, {}, [provider];
    }

    /** Taking a fallback whose instance was found. */
    method SwitchTo(pick: Key, inst: Instance)
      requires manager.Separate()
      modifies this, manager.entries
      ensures View() == Hop(old(View()), pick, inst)
    {
      var failed := provider;
      manager.RecordFailure(failed);
      provider := Landing(inst, pick);
      path := path + [provider];
      fallbackExecuted := true;
      reported := pick;
      fallbackChain := fallbackChain + [failed];
    }

    method Rerouting(connectivity: bool, online: bool) returns (hopped: bool)
      requires manager.Separate()
      modifies this, manager`fallbackHistory, manager.entries
      ensures (View(), hopped) == Reroute(old(View()), connectivity, online)
    {
      if connectivity {
        blockedProviders := blockedProviders + {provider.provider};
      }
      var pick := manager.GetFallbackProvider(provider, blockedProviders, online);
      if pick.Some? {
        var inst := manager.GetProviderInstance(pick.value.provider);
        if inst.Some? {
          SwitchTo(pick.value, inst.value);
          return true;
        }
      }
      hopped := false;
    }

    method GiveFeedback(cfg: Config, failed: bool)
      requires manager.Separate()
      modifies manager.entries
      ensures View() == Feedback(cfg, old(View()), failed)
    {
      if cfg.managed && manager.initialized && provider.provider != "" && provider.model != "" {
        if failed {
          manager.RecordFailure(provider);
        } else {
          manager.RecordSuccess(provider);
        }
      }
    }
  }

  /** One request's run. */
  class ExecutionAgent {
    const desk: CallDesk
    const route: ProviderRoute

    ghost function View(): RunState
      reads desk, desk.taskMachine, desk.progress, route, route.manager, route.manager.entries
    {
      RunState(desk.View(), route.View())
    }

    ghost predicate Valid()
      reads desk, route, route.manager
    {
      desk.Valid() && route.manager.Separate()
    }

    constructor (cfg: Config, provider: Key, manager: ModelManager)
      requires manager.Separate()
      ensures Valid() && View() == Initial(provider, manager.View())
      ensures desk.cfg == cfg && route.manager == manager
      ensures fresh(desk) && fresh(desk.taskMachine) && fresh(desk.progress) && fresh(route)
    {
      desk := new CallDesk(cfg);
      route := new ProviderRoute(provider, manager);
    }

    method FallingBack(connectivity: bool, online: bool) returns (flow: Flow)
      requires Valid()
      modifies desk, desk.taskMachine, route, route.manager`fallbackHistory, route.manager.entries
      ensures Valid()
      ensures Step(View(), flow) == FallBack(old(View()), connectivity, online)
    {
      hide Reroute, GiveUp;
      var hopped := route.Rerouting(connectivity, online);
      if hopped {
        return Next;
      }
      desk.GivingUp();
      flow := Abort(ProviderFailed);
    }

    method OnFailure(connectivity: bool, online: bool) returns (flow: Flow)
      requires Valid()
      modifies desk, desk.taskMachine, route, route.manager`fallbackHistory, route.manager.entries
      ensures Valid()
      ensures Step(View(), flow) == HandleFailure(desk.cfg, old(View()), connectivity, online)
    {
      if desk.cfg.managed && route.manager.manual {
        desk.RefuseFallback();
        return Abort(ManualUnavailable);
      }
      if desk.cfg.managed && route.manager.initialized {
        flow := FallingBack(connectivity, online);
        return;
      }
      desk.GivingUp();
      flow := Abort(ProviderFailed);
    }

    method Complete(env: Env, exhausted: bool) returns (exit: Exit)
      requires Valid()
      modifies desk, desk.taskMachine, route.manager.entries
      ensures Valid() && Outcome(View(), exit) == Conclude(desk.cfg, env, old(View()), exhausted)
    {
      hide FilesRefused, FinishDesk, Decide;
      var raised := desk.FinishWork(env);
      if raised {
        return RaisedInEnd(exhausted);
      }
      route.GiveFeedback(desk.cfg, desk.verificationFailed);
      exit := if exhausted then Exhausted else LeftLoop;
    }

    method OneRound(env: Env, round: nat) returns (flow: Flow)
      requires Valid()
      modifies desk, desk.taskMachine, desk.progress, route, route.manager`fallbackHistory, route.manager.entries
      ensures Valid()
      ensures Step(View(), flow) == Round(desk.cfg, env, old(View()), round)
    {
      if env.timeUp(round) {
        desk.TimingOut();
        return Leave;
      }
      match env.reply(round) {
        case Unavailable(connectivity, online) =>
          flow := OnFailure(connectivity, online);
        case Exception =>
          flow := Abort(Crashed);
        case Text(text, proposed) =>
          if text == "" {
            return Abort(EmptyReply);
          }
          flow := desk.OnText(env, text, proposed);
      }
    }

    /** The whole run, with the round cap as a parameter. */
    method RunWithProvider(env: Env, limit: nat) returns (exit: Exit)
      requires Valid()
      modifies desk, desk.taskMachine, desk.progress, route, route.manager`fallbackHistory, route.manager.entries
      ensures Valid()
      ensures Outcome(View(), exit) == RunFrom(desk.cfg, env, old(View()), 0, limit)
    {
      ghost var target := RunFrom(desk.cfg, env, View(), 0, limit);
      for round := 0 to limit
        invariant Valid()
        invariant RunFrom(desk.cfg, env, View(), round, limit) == target
      {
        var flow := OneRound(env, round);
        match flow {
          case Next =>
          case Leave =>
            exit := Complete(env, false);
            return;
          case Abort(cause) =>
            return Interrupted(cause);
        }
      }
      exit := Complete(env, true);
    }
  }
}
