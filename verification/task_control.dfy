/** The backend-owned control layer of the agentic loop: the task state machine
    and the progress detector. Each mutable object has a value view, and each
    mutating method is proved to act on that view as a specification function. */
module TaskControl {
  import opened Basics

  // ------------------------------------------------------------------
  // Task state machine
  // ------------------------------------------------------------------

  datatype TaskState =
    | Idle | Understanding | Planning | Reading | Modifying | Executing
    | Verifying | Correcting | Completed | Failed | Blocked

  predicate Terminal(s: TaskState) {
    s.Completed? || s.Failed? || s.Blocked?
  }

  /** The edges the design allows; any other edge is taken all the same, but flagged. */
  predicate Allowed(src: TaskState, dst: TaskState) {
    match src
    case Idle =>
      dst.Understanding? || dst.Planning? || dst.Reading? || dst.Modifying? || dst.Executing? || Terminal(dst)
    case Understanding =>
      dst.Planning? || dst.Reading? || dst.Modifying? || dst.Executing? || dst.Verifying? || Terminal(dst)
    case Planning =>
      dst.Reading? || dst.Modifying? || dst.Executing? || dst.Verifying? || Terminal(dst)
    case Reading =>
      dst.Reading? || dst.Modifying? || dst.Executing? || dst.Planning? || dst.Verifying? || Terminal(dst)
    case Modifying =>
      dst.Modifying? || dst.Executing? || dst.Verifying? || dst.Correcting? || dst.Reading? || Terminal(dst)
    case Executing =>
      dst.Executing? || dst.Verifying? || dst.Correcting? || dst.Modifying? || dst.Reading? || Terminal(dst)
    case Verifying =>
      dst.Verifying? || dst.Correcting? || dst.Reading? || dst.Modifying? || Terminal(dst)
    case Correcting =>
      dst.Correcting? || dst.Modifying? || dst.Executing? || dst.Verifying? || dst.Reading? || Terminal(dst)
    case Completed => dst.Completed?
    case Failed => dst.Failed?
    case Blocked => dst.Blocked?
  }

  /** A tool name: one constructor for each name the control layer or the verifier
      compares against, and every other string a model may come up with. */
  datatype Tool =
    | ReadFile | ReadFiles | ListDirectory | SearchFiles | AnalyzeProject | FileExists
    | ModifyFile | WriteFile | CreateFile | CreateProject | CreateDirectory
    | ExecuteCommand | VerifyFiles
    | Calculator | ListTools | GetCurrentDatetime | ResolvePath
    | Other(name: string)
  {
    predicate Reads() {
      ReadFile? || ReadFiles? || ListDirectory? || SearchFiles? || AnalyzeProject? || FileExists?
    }

    predicate Modifies() {
      ModifyFile? || WriteFile? || CreateFile? || CreateProject? || CreateDirectory?
    }

    predicate Executes() {
      ExecuteCommand?
    }
  }

  function StateForTool(t: Tool): TaskState {
    if t.Reads() then Reading
    else if t.Modifies() then Modifying
    else if t.Executes() then Executing
    else Reading
  }

  type Edge = (TaskState, TaskState)

  datatype Machine = Machine(state: TaskState, transitions: seq<Edge>)

  /** Terminal states are sticky; a self-transition leaves no record. */
  function Move(m: Machine, s: TaskState): Machine {
    if Terminal(m.state) || s == m.state then m
    else Machine(s, m.transitions + [(m.state, s)])
  }

  /** The recorded edges form one path out of Idle that ends in the current
      state, has no self-loop, and leaves no terminal state. */
  ghost predicate Chained(m: Machine) {
    && (m.transitions == [] ==> m.state.Idle?)
    && (m.transitions != [] ==> m.transitions[0].0.Idle? && m.transitions[|m.transitions| - 1].1 == m.state)
    && (forall i | 0 <= i < |m.transitions| :: m.transitions[i].0 != m.transitions[i].1)
    && (forall i | 0 <= i < |m.transitions| :: !Terminal(m.transitions[i].0))
    && (forall i | 0 < i < |m.transitions| :: m.transitions[i - 1].1 == m.transitions[i].0)
  }

  /** The two edges that runs of the loop take although the table forbids them. */
  predicate ToleratedFlag(e: Edge) {
    e == (Reading, Correcting) || e == (Verifying, Executing)
  }

  /** Every recorded edge is in the table, or is one of the two tolerated ones. */
  ghost predicate OnlyToleratedFlags(m: Machine) {
    forall e | e in m.transitions :: Allowed(e.0, e.1) || ToleratedFlag(e)
  }

  lemma MoveKeepsChain(m: Machine, s: TaskState)
    requires Chained(m)
    ensures Chained(Move(m, s))
    ensures m.transitions <= Move(m, s).transitions
    ensures Terminal(m.state) ==> Move(m, s) == m
    ensures !Terminal(m.state) ==> Move(m, s).state == s
  {
  }

  lemma MoveKeepsFlags(m: Machine, s: TaskState)
    requires OnlyToleratedFlags(m)
    requires Terminal(m.state) || s == m.state || Allowed(m.state, s) || ToleratedFlag((m.state, s))
    ensures OnlyToleratedFlags(Move(m, s))
  {
  }

  /** The table by the state that is entered: no run comes back to its start; the end can
      be reached from everywhere, and so can reading and modifying; and corrections only
      follow a change, a command or a verification. */
  lemma AllowedByTarget(src: TaskState, dst: TaskState)
    ensures Terminal(src) ==> (Allowed(src, dst) <==> dst == src)
    ensures !Terminal(src) ==>
      (Allowed(src, dst) <==>
        match dst
        case Idle => false
        case Understanding => src.Idle?
        case Planning => src.Idle? || src.Understanding? || src.Reading?
        case Reading | Modifying => true
        case Executing => !src.Verifying?
        case Verifying => !src.Idle?
        case Correcting => src.Modifying? || src.Executing? || src.Verifying? || src.Correcting?
        case Completed | Failed | Blocked => true)
  {
  }

  class TaskStateMachine {
    var state: TaskState
    var transitions: seq<Edge>

    ghost function View(): Machine
      reads this
    {
      Machine(state, transitions)
    }

    constructor ()
      ensures View() == Machine(Idle, [])
    {
      state, transitions := Idle, [];
    }

    method Transition(newState: TaskState) returns (now: TaskState)
      modifies this
      ensures View() == Move(old(View()), newState)
      ensures now == state
    {
      if Terminal(state) {
        return state;
      }
      if newState != state {
        transitions := transitions + [(state, newState)];
        state := newState;
      }
      return state;
    }
  }

  // ------------------------------------------------------------------
  // Progress detection
  // ------------------------------------------------------------------

  /** A proposed tool call after argument normalisation. `args` is the key-sorted
      JSON text of the arguments, so two calls are equal when their call keys are. */
  datatype Call = Call(tool: Tool, args: string)

  const MAX_IDENTICAL_CALLS := 2
  const MAX_SAME_TOOL_BEFORE_SUSPECT := 3

  datatype Progress = Progress(
    identicalCalls: map<Call, nat>,
    toolNameCounts: map<Tool, nat>,
    readOnlyRounds: nat,
    mutatingCalls: nat,
    executingCalls: nat,
    successfulMutatingCalls: nat,
    successfulExecutingCalls: nat,
    lastTools: seq<Tool>,
    directivesIssued: nat)
  {
    predicate MutationHappened() {
      successfulMutatingCalls > 0 || successfulExecutingCalls > 0
    }
  }

  const NO_PROGRESS: Progress := Progress(map[], map[], 0, 0, 0, 0, 0, [], 0)

  /** One executed call; `failed` is whether the tool's own result carried an error. */
  function Recorded(p: Progress, c: Call, failed: bool): Progress {
    var q := p.(
      identicalCalls := p.identicalCalls[c := Get(p.identicalCalls, c) + 1],
      toolNameCounts := p.toolNameCounts[c.tool := Get(p.toolNameCounts, c.tool) + 1],
      lastTools := p.lastTools + [c.tool]);
    if c.tool.Reads() then
      q.(readOnlyRounds := p.readOnlyRounds + 1)
    else if c.tool.Modifies() then
      q.(mutatingCalls := p.mutatingCalls + 1, readOnlyRounds := 0,
         successfulMutatingCalls := p.successfulMutatingCalls + if failed then 0 else 1)
    else if c.tool.Executes() then
      q.(executingCalls := p.executingCalls + 1, readOnlyRounds := 0,
         successfulExecutingCalls := p.successfulExecutingCalls + if failed then 0 else 1)
    else q
  }

  class ProgressDetector {
    var identicalCalls: map<Call, nat>
    var toolNameCounts: map<Tool, nat>
    var readOnlyRounds: nat
    var mutatingCalls: nat
    var executingCalls: nat
    var successfulMutatingCalls: nat
    var successfulExecutingCalls: nat
    var lastTools: seq<Tool>
    var directivesIssued: nat

    ghost function View(): Progress
      reads this
    {
      Progress(identicalCalls, toolNameCounts, readOnlyRounds, mutatingCalls, executingCalls,
               successfulMutatingCalls, successfulExecutingCalls, lastTools, directivesIssued)
    }

    constructor ()
      ensures View() == NO_PROGRESS
    {
      identicalCalls, toolNameCounts := map[], map[];
      readOnlyRounds, mutatingCalls, executingCalls := 0, 0, 0;
      successfulMutatingCalls, successfulExecutingCalls := 0, 0;
      lastTools, directivesIssued := [], 0;
    }

    method Record(call: Call, failed: bool)
      modifies this
      ensures View() == Recorded(old(View()), call, failed)
    {
      identicalCalls := identicalCalls[call := Get(identicalCalls, call) + 1];
      toolNameCounts := toolNameCounts[call.tool := Get(toolNameCounts, call.tool) + 1];
      lastTools := lastTools + [call.tool];
      if call.tool.Reads() {
        readOnlyRounds := readOnlyRounds + 1;
      } else if call.tool.Modifies() {
        mutatingCalls := mutatingCalls + 1;
        readOnlyRounds := 0;
        if !failed {
          successfulMutatingCalls := successfulMutatingCalls + 1;
        }
      } else if call.tool.Executes() {
        executingCalls := executingCalls + 1;
        readOnlyRounds := 0;
        if !failed {
          successfulExecutingCalls := successfulExecutingCalls + 1;
        }
      }
    }

    method DirectiveFor()
      modifies this
      ensures View() == old(View()).(directivesIssued := old(directivesIssued) + 1)
    {
      directivesIssued := directivesIssued + 1;
    }
  }

  /** The two signals of the evaluator that count repetitions. */
  ghost predicate RepeatedIdentical(p: Progress) {
    exists c | c in p.identicalCalls :: p.identicalCalls[c] > MAX_IDENTICAL_CALLS
  }

  ghost predicate ExcessiveSameTool(p: Progress) {
    exists n | n in p.toolNameCounts :: p.toolNameCounts[n] >= MAX_SAME_TOOL_BEFORE_SUSPECT + 1
  }

  // ------------------------------------------------------------------
  // Cycle detection
  // ------------------------------------------------------------------

  /** All but the last `n` elements, as the slice `s[:-n]` with n > 0 gives them. */
  function ButLast<T>(s: seq<T>, n: nat): seq<T> {
    if n <= |s| then s[..|s| - n] else []
  }

  predicate Constant<T(==)>(s: seq<T>) {
    forall i | 0 <= i < |s| :: s[i] == s[0]
  }

  /** One iteration of the detector's loop over candidate periods. */
  predicate CycleOfPeriod(window: seq<Tool>, period: nat) {
    var tail := Last(window, period);
    && !Constant(tail)
    && var candidates := Last(window, 2 * period);
       && |candidates| == 2 * period
       && candidates[..period] == tail
       && Last(ButLast(window, 2 * period), period) == tail
  }

  predicate DetectCycle(tools: seq<Tool>) {
    var window := Last(tools, 8);
    |window| >= 4 && (CycleOfPeriod(window, 1) || CycleOfPeriod(window, 2) || CycleOfPeriod(window, 3))
  }

  lemma PeriodOneNever(window: seq<Tool>)
    ensures !CycleOfPeriod(window, 1)
  {
    assert |Last(window, 1)| <= 1;
  }

  lemma PeriodThreeNever(window: seq<Tool>)
    requires |window| <= 8
    ensures !CycleOfPeriod(window, 3)
  {
    if |Last(window, 6)| == 6 {
      assert |ButLast(window, 6)| <= 2;
      assert |Last(ButLast(window, 6), 3)| <= 2;
      if |window| >= 3 {
        assert |Last(window, 3)| == 3;
      }
    }
  }

  /** The last six entries are a, b, a, b, a, b with a different from b. */
  predicate ThreefoldAlternation(tools: seq<Tool>) {
    var n := |tools|;
    && n >= 6
    && tools[n - 1] == tools[n - 3] == tools[n - 5]
    && tools[n - 2] == tools[n - 4] == tools[n - 6]
    && tools[n - 1] != tools[n - 2]
  }

  lemma PeriodTwo(window: seq<Tool>)
    ensures CycleOfPeriod(window, 2) <==> ThreefoldAlternation(window)
  {
    var n := |window|;
    var tail := Last(window, 2);
    if n < 6 {
      if n >= 4 {
        assert |Last(ButLast(window, 4), 2)| <= 1 && |tail| == 2;
      }
    } else {
      var middle, front := Last(window, 4)[..2], Last(ButLast(window, 4), 2);
      assert tail[0] == window[n - 2] && tail[1] == window[n - 1] && |tail| == 2;
      assert middle[0] == window[n - 4] && middle[1] == window[n - 3] && |middle| == 2;
      assert front[0] == window[n - 6] && front[1] == window[n - 5] && |front| == 2;
      assert Constant(tail) <==> tail[1] == tail[0];
      assert middle == tail <==> middle[0] == tail[0] && middle[1] == tail[1];
      assert front == tail <==> front[0] == tail[0] && front[1] == tail[1];
    }
  }

  /** What the detector detects: three rounds of an alternation of two tools.
      Period 1 is excluded as constant, and period 3 would need nine entries of a
      window of eight, so no longer cycle is ever seen. */
  lemma CycleIsThreefoldAlternation(tools: seq<Tool>)
    ensures DetectCycle(tools) <==> ThreefoldAlternation(tools)
  {
    var window := Last(tools, 8);
    PeriodOneNever(window);
    PeriodTwo(window);
    PeriodThreeNever(window);
  }
}
