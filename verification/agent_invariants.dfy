/** The execution log of a run and the invariants of the agentic loop. */
module AgentInvariants {
  import opened Basics
  import opened TaskControl
  import opened ModelManagement
  import opened AgentLoop

  // ------------------------------------------------------------------
  // The execution log
  // ------------------------------------------------------------------

  /** Executions of one tool. */
  function Count(log: seq<Execution>, t: Tool): nat {
    if log == [] then 0
    else Count(log[..|log| - 1], t) + if log[|log| - 1].call.tool == t then 1 else 0
  }

  /** Executions without an error after verification. */
  function Successes(log: seq<Execution>): nat {
    if log == [] then 0
    else Successes(log[..|log| - 1]) + if log[|log| - 1].outcome.Errs() then 0 else 1
  }

  function Calls(log: seq<Execution>): set<Call> {
    if log == [] then {} else Calls(log[..|log| - 1]) + {log[|log| - 1].call}
  }

  /** A modifying or executing tool whose own result carried no error. */
  predicate Mutation(e: Execution) {
    !e.raw.Errs() && (e.call.tool.Modifies() || e.call.tool.Executes())
  }

  predicate Mutated(log: seq<Execution>) {
    exists i | 0 <= i < |log| :: Mutation(log[i])
  }

  predicate Unrepeated(log: seq<Execution>) {
    forall i, j | 0 <= i < j < |log| :: log[i].call != log[j].call
  }

  lemma Append(log: seq<Execution>, e: Execution)
    ensures forall t :: Count(log + [e], t) == Count(log, t) + if e.call.tool == t then 1 else 0
    ensures Successes(log + [e]) == Successes(log) + if e.outcome.Errs() then 0 else 1
    ensures Calls(log + [e]) == Calls(log) + {e.call}
    ensures Mutated(log + [e]) <==> Mutated(log) || Mutation(e)
  {
    assert (log + [e])[..|log|] == log;
    if Mutated(log) {
      var i :| 0 <= i < |log| && Mutation(log[i]);
      assert Mutation((log + [e])[i]);
    }
    if Mutation(e) {
      assert Mutation((log + [e])[|log|]);
    }
  }

  lemma {:induction false} CallsAreLogged(log: seq<Execution>)
    ensures forall i | 0 <= i < |log| :: log[i].call in Calls(log)
  {
    if log != [] {
      CallsAreLogged(log[..|log| - 1]);
    }
  }

  lemma {:induction false} CountIsPositive(log: seq<Execution>, i: nat)
    requires i < |log|
    ensures Count(log, log[i].call.tool) >= 1
  {
    if i < |log| - 1 {
      CountIsPositive(log[..|log| - 1], i);
    }
  }

  // ------------------------------------------------------------------
  // Successes are bounded by the registry
  // ------------------------------------------------------------------

  function SuccessesIn(log: seq<Execution>, tools: set<Tool>): nat {
    if log == [] then 0
    else SuccessesIn(log[..|log| - 1], tools) +
         if !log[|log| - 1].outcome.Errs() && log[|log| - 1].call.tool in tools then 1 else 0
  }

  lemma {:induction false} DropTool(log: seq<Execution>, tools: set<Tool>, t: Tool)
    ensures SuccessesIn(log, tools) <= SuccessesIn(log, tools - {t}) + Count(log, t)
  {
    if log != [] {
      DropTool(log[..|log| - 1], tools, t);
    }
  }

  lemma {:induction false} NoToolNoSuccess(log: seq<Execution>)
    ensures SuccessesIn(log, {}) == 0
  {
    if log != [] {
      NoToolNoSuccess(log[..|log| - 1]);
    }
  }

  lemma {:induction false} SuccessesInBound(log: seq<Execution>, tools: set<Tool>)
    requires forall t :: Count(log, t) <= 3
    ensures SuccessesIn(log, tools) <= 3 * |tools|
    decreases |tools|
  {
    if tools == {} {
      NoToolNoSuccess(log);
    } else {
      var t :| t in tools;
      DropTool(log, tools, t);
      SuccessesInBound(log, tools - {t});
    }
  }

  /** Only a registered tool returns no error, and verification removes none. */
  predicate SuccessesRegistered(log: seq<Execution>, registered: set<Tool>) {
    && (forall e | e in log :: !e.raw.Errs() ==> e.call.tool in registered)
    && (forall e | e in log :: e.raw.Errs() ==> e.outcome.Errs())
  }

  lemma {:induction false} AllSuccessesIn(log: seq<Execution>, registered: set<Tool>)
    requires SuccessesRegistered(log, registered)
    ensures SuccessesIn(log, registered) == Successes(log)
  {
    if log != [] {
      assert forall e | e in log[..|log| - 1] :: e in log;
      AllSuccessesIn(log[..|log| - 1], registered);
    }
  }

  // ------------------------------------------------------------------
  // Invariants
  // ------------------------------------------------------------------

  predicate Working(s: TaskState) {
    s.Reading? || s.Modifying? || s.Executing? || s.Verifying? || s.Correcting?
  }

  /** The progress detector counts exactly the log. */
  ghost predicate ProgressMatches(p: Progress, log: seq<Execution>) {
    && p.identicalCalls.Keys == Calls(log)
    && (forall c | c in p.identicalCalls :: p.identicalCalls[c] == 1)
    && (forall t :: Get(p.toolNameCounts, t) == Count(log, t))
    && (p.MutationHappened() <==> Mutated(log))
  }

  /** No call twice, no tool more than three times, only registered tools succeed,
      and failures come in runs of at most two, three at the end. */
  ghost predicate LogSound(cfg: Config, log: seq<Execution>) {
    && Unrepeated(log)
    && (forall t :: Count(log, t) <= 3)
    && SuccessesRegistered(log, cfg.registered)
    && |log| <= 3 * Successes(log) + 3
  }

  ghost predicate MachineSound(m: Machine) {
    Chained(m) && OnlyToleratedFlags(m)
  }

  /** What holds of the work at every moment, and still when the run is over. */
  ghost predicate SoundWork(cfg: Config, w: Work) {
    && LogSound(cfg, w.log)
    && ProgressMatches(w.progress, w.log)
    && w.mutationDone == w.progress.MutationHappened()
    && w.progress.directivesIssued <= 1
    && w.fixCycles <= Count(w.log, ExecuteCommand)
    && MachineSound(w.machine)
  }

  /** The calls whose results the model was told, in order. */
  function Told(messages: seq<Message>): seq<Call> {
    if messages == [] then []
    else Told(messages[..|messages| - 1]) +
         match messages[|messages| - 1] case ToolMessage(c) => [c] case _ => []
  }

  function Executed(log: seq<Execution>): seq<Call> {
    if log == [] then [] else Executed(log[..|log| - 1]) + [log[|log| - 1].call]
  }

  lemma AppendMessage(messages: seq<Message>, m: Message, log: seq<Execution>, e: Execution)
    ensures Told(messages + [m]) == Told(messages) + match m case ToolMessage(c) => [c] case _ => []
    ensures Executed(log + [e]) == Executed(log) + [e.call]
  {
    assert (messages + [m])[..|messages|] == messages;
    assert (log + [e])[..|log|] == log;
  }

  /** Texts of the stops that declare the task failed while the loop runs. */
  predicate FailureText(text: FinalText) {
    text.StoppedForTime? || text.StoppedStalled? || text.StoppedRepeating? || text.StoppedOverused? || text.StoppedFailing?
  }

  /** Texts that end the loop without a verdict yet. */
  predicate OpenText(text: FinalText) {
    text.NoText? || text.FromModel? || text.ApprovalRequest? || text.ShowingResult? || text.NothingToShow?
  }

  /** Before the completion decision: a stop has failed the task, or nothing has been decided. */
  ghost predicate Undecided(d: Desk) {
    || (d.work.machine.state.Failed? && FailureText(d.talk.finalText))
    || (Working(d.work.machine.state) && OpenText(d.talk.finalText))
  }

  ghost predicate Sound(cfg: Config, d: Desk) {
    && SoundWork(cfg, d.work)
    && d.talk.directives <= 3 + d.work.progress.directivesIssued
    && d.talk.rounds <= 3 * Successes(d.work.log) + 3 + d.talk.directives
  }

  /** What holds in addition while the loop goes on. */
  ghost predicate RunningWork(cfg: Config, w: Work) {
    && SoundWork(cfg, w)
    && w.consecutiveFailures <= 2
    && |w.log| <= 3 * Successes(w.log) + w.consecutiveFailures
    && Working(w.machine.state)
  }

  ghost predicate Running(cfg: Config, d: Desk) {
    && RunningWork(cfg, d.work)
    && d.admission.executed == Calls(d.work.log)
    && (forall t :: Count(d.work.log, t) <= Get(d.admission.names, t))
    && d.talk.directives <= 3 + d.work.progress.directivesIssued
    && (d.talk.finalText.NoText? || d.talk.finalText.FromModel?)
    && Told(d.talk.messages) == Executed(d.work.log)
  }

  /** Every round so far, but for `open` of them, executed something or issued a directive. */
  ghost predicate RoundsPaid(d: Desk, open: nat) {
    d.talk.rounds <= |d.work.log| + d.talk.directives + open
  }

  /** What every round does to a running desk. */
  ghost predicate Kept(cfg: Config, r: Turn) {
    && Sound(cfg, r.desk)
    && (r.flow.Next? ==> Running(cfg, r.desk) && RoundsPaid(r.desk, 0))
    && (r.flow.Leave? ==> Undecided(r.desk))
  }

  /** A result that an admitted call can get: only a registered tool succeeds. */
  predicate Possible(cfg: Config, c: Call, raw: ToolResult) {
    raw.Errs() || c.tool in cfg.registered
  }

  function Logged(c: Call, raw: ToolResult): Execution {
    Execution(c, raw, AfterVerification(c.tool, raw))
  }

  function Occurrences(calls: seq<Call>, t: Tool): nat {
    if calls == [] then 0 else (if calls[0].tool == t then 1 else 0) + Occurrences(calls[1..], t)
  }

  /** Every name in the batch is within its limit, and was proposed once for each execution to come. */
  ghost predicate Covered(d: Desk, batch: seq<Call>) {
    && (forall t :: Count(d.work.log, t) + Occurrences(batch, t) <= Get(d.admission.names, t))
    && (forall c | c in batch :: Get(d.admission.names, c.tool) <= 3)
  }

  // ------------------------------------------------------------------
  // The route
  // ------------------------------------------------------------------

  /** The metrics tell the path: every abandoned hop in order, the requested
      provider first, and what is reported names where the last hop was sent. */
  ghost predicate Faithful(requested: Key, r: Route) {
    && r.requested == requested
    && r.path != [] && r.path[0] == requested
    && r.current == r.path[|r.path| - 1]
    && r.chain == r.path[..|r.path| - 1]
    && (r.fallbackExecuted <==> r.chain != [])
    && (r.chain == [] ==> r.reported == requested)
    && (r.chain != [] ==>
         && Resolve(r.manager, r.reported.provider).Some?
         && r.current == Landing(Resolve(r.manager, r.reported.provider).value, r.reported))
  }

  /** The run changes only counters, statuses and the failure history of the manager. */
  ghost predicate SameSetup(m0: Manager, m: Manager) {
    m == m0.(entries := m.entries, history := m.history)
  }

  /** Hops are paid for by the room of the registry; only the first may be free,
      since a request may start at a provider the registry does not know. */
  ghost predicate HopsPaid(m0: Manager, r: Route) {
    && Backed(r.manager)
    && |r.chain| + TotalRoom(r.manager.entries) <= TotalRoom(m0.entries) + (if r.chain == [] then 0 else 1)
    && (r.chain != [] ==> exists e | e in r.manager.entries :: e.key == r.current && e.Live())
  }

  ghost predicate RouteSound(m0: Manager, requested: Key, r: Route) {
    && Faithful(requested, r)
    && SameSetup(m0, r.manager)
    && r.manager.Valid()
    && (Backed(m0) ==> HopsPaid(m0, r))
  }

  // ------------------------------------------------------------------
  // Whole runs
  // ------------------------------------------------------------------

  /** The final state and the final text agree, and completion of a task that needs
      a modification rests on a logged mutation. */
  ghost predicate Decided(cfg: Config, d: Desk) {
    var state, text := d.work.machine.state, d.talk.finalText;
    && Terminal(state)
    && (state.Blocked? <==> text.ApprovalPending())
    && (state.Failed? <==> FailureText(text) || text.NotCompleted?)
    && (!state.Failed? ==> OpenText(text))
    && (text.NotCompleted? ==> cfg.requiresModification && !Mutated(d.work.log))
    && (state.Completed? ==> !cfg.requiresModification || Mutated(d.work.log))
  }

  ghost predicate RunSound(cfg: Config, m0: Manager, requested: Key, s: RunState) {
    && Sound(cfg, s.desk)
    && RouteSound(m0, requested, s.route)
    && (cfg.managed && m0.manual ==> s.route.chain == [])
  }

  ghost predicate RunRunning(cfg: Config, m0: Manager, requested: Key, s: RunState, round: nat) {
    && Running(cfg, s.desk) && RoundsPaid(s.desk, 0)
    && RouteSound(m0, requested, s.route)
    && (cfg.managed && m0.manual ==> s.route.chain == [])
    && round == s.desk.talk.rounds + |s.route.chain|
  }

  /** What holds when a run is over. */
  ghost predicate RunResult(cfg: Config, m0: Manager, requested: Key, out: Outcome) {
    && Sound(cfg, out.state.desk)
    && Faithful(requested, out.state.route.(manager := m0))
    && (Backed(m0) ==> |out.state.route.chain| <= TotalRoom(m0.entries) + 1)
    && (cfg.managed && m0.manual ==> out.state.route.chain == [])
    && (!out.exit.Interrupted? ==> Decided(cfg, out.state.desk))
  }
}
