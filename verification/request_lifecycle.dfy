/** The request lifecycle as a concurrent protocol over one shared table. Every
    database statement or commit of a create, an execute or a stale recovery is one
    atomic event, and a run is any sequence of enabled events of any workers. */
module RequestLifecycle {
  import opened Basics
  import opened Wrappers

  type RequestId = nat
  type SessionId = nat
  type Worker = nat

  datatype Status = Accepted | Running | Completed | Blocked | Rejected | Failed

  datatype Row = Row(session: SessionId, user: string, key: Option<string>, status: Status, updatedAt: int)
  datatype Session = Session(user: string, count: nat)

  // ------------------------------------------------------------------
  // Database statements
  // ------------------------------------------------------------------

  type Rows = map<RequestId, Row>

  predicate Claimable(s: Status) {
    s.Accepted? || s.Blocked? || s.Rejected? || s.Failed?
  }

  /** Whether the conditional update that claims a request affects its row. */
  predicate CanClaim(rows: Rows, r: RequestId, caller: Option<string>) {
    r in rows && Claimable(rows[r].status) && (caller.None? || caller.value == rows[r].user)
  }

  function ClaimRow(rows: Rows, r: RequestId, caller: Option<string>, now: int): Rows {
    if CanClaim(rows, r, caller) then rows[r := rows[r].(status := Running, updatedAt := now)] else rows
  }

  /** The update of a stale row, conditional on its being still running. */
  function MarkRow(rows: Rows, r: RequestId, now: int): Rows {
    if r in rows && rows[r].status.Running? then rows[r := rows[r].(status := Failed, updatedAt := now)] else rows
  }

  /** The final commit of an execution: unconditional, but the status column is
      written only if it differs from the one that was loaded. */
  function FinishRow(rows: Rows, r: RequestId, loaded: Status, outcome: Status, now: int): Rows {
    if r !in rows then rows
    else rows[r := rows[r].(status := if outcome == loaded then rows[r].status else outcome, updatedAt := now)]
  }

  /** The unique constraint on (user, key); rows without a key never collide. */
  predicate Taken(rows: Rows, user: string, key: Option<string>) {
    key.Some? && exists r :: r in rows && rows[r].user == user && rows[r].key == key
  }

  // ------------------------------------------------------------------
  // State
  // ------------------------------------------------------------------

  /** A create call between two statements. */
  datatype Stage = Opening | Inserting | Ready(count: nat, inserts: bool) | Rechecking
  datatype Creator = Creator(user: string, key: Option<string>, wanted: Option<SessionId>, session: SessionId, stage: Stage)

  /** An execute call that claimed its request; `loaded` is the status it read afterwards. */
  datatype Executor = Executor(request: RequestId, claimedAt: int, loaded: Option<Status>)

  datatype Answer = AcceptedAs(request: RequestId) | SessionMismatch | Forbidden | Raised
  datatype Reply = Reply(user: string, key: Option<string>, wanted: Option<SessionId>, session: SessionId, answer: Answer)

  /** The table, the calls in progress, and a record of what has happened. `raced` are
      the sessions over whose counter a commit wrote a value it had not read. */
  datatype State = State(
    now: int,
    rows: Rows,
    sessions: map<SessionId, Session>,
    creators: map<Worker, Creator>,
    executors: map<Worker, Executor>,
    observed: set<(Worker, RequestId)>,
    replies: map<Worker, Reply>,
    raced: set<SessionId>,
    staleMarks: map<RequestId, nat>,
    hits: map<RequestId, nat>,
    crashes: map<RequestId, nat>,
    orphans: set<RequestId>)

  const EMPTY: State := State(0, map[], map[], map[], map[], {}, map[], {}, map[], map[], map[], {})

  /** The executors that hold a request. */
  function Holders(s: State, r: RequestId): set<Worker> {
    set w | w in s.executors && s.executors[w].request == r
  }

  function Live(s: State, r: RequestId): nat {
    |Holders(s, r)|
  }

  predicate IsRunning(s: State, r: RequestId) {
    r in s.rows && s.rows[r].status.Running?
  }

  // ------------------------------------------------------------------
  // Events
  // ------------------------------------------------------------------

  datatype Event =
    | Tick(elapsed: nat)
    // create
    | Lookup(w: Worker, user: string, key: Option<string>, wanted: Option<SessionId>, generated: SessionId)
    | OpenSession(w: Worker)
    | FlushSession(w: Worker)
    | CommitRequest(w: Worker, id: RequestId)
    | Recheck(w: Worker)
    // execute
    | Claim(w: Worker, r: RequestId, caller: Option<string>)
    | Load(w: Worker)
    | Finish(w: Worker, outcome: Status)
    | Crash(w: Worker)
    // stale recovery
    | Observe(w: Worker, r: RequestId, threshold: nat)
    | MarkStale(w: Worker, r: RequestId)

  predicate Unused(s: State, w: Worker) {
    w !in s.creators && w !in s.executors && w !in s.replies
  }

  predicate Enabled(s: State, e: Event) {
    match e
    case Tick(_) => true
    case Lookup(w, _, _, _, _) => Unused(s, w)
    case OpenSession(w) => w in s.creators && s.creators[w].stage.Opening?
    case FlushSession(w) =>
      // an uncommitted insert of the same session by another worker blocks this one
      && w in s.creators && s.creators[w].stage.Inserting?
      && forall v | v in s.creators :: s.creators[v].session == s.creators[w].session ==>
           !(s.creators[v].stage.Ready? && s.creators[v].stage.inserts)
    case CommitRequest(w, id) => w in s.creators && s.creators[w].stage.Ready? && id !in s.rows
    case Recheck(w) => w in s.creators && s.creators[w].stage.Rechecking?
    case Claim(w, _, _) => Unused(s, w)
    case Load(w) => w in s.executors && s.executors[w].loaded.None? && s.executors[w].request in s.rows
    case Finish(w, outcome) =>
      && w in s.executors && s.executors[w].loaded.Some?
      && (outcome.Completed? || outcome.Blocked? || outcome.Rejected? || outcome.Failed?)
    case Crash(w) => w in s.executors
    case Observe(w, r, threshold) => IsRunning(s, r) && s.rows[r].updatedAt < s.now - threshold
    case MarkStale(w, r) => (w, r) in s.observed
  }

  /** A call is answered with the row that holds its key, if the session fits. */
  function AnswerFor(rows: Rows, r: RequestId, wanted: Option<SessionId>): Answer
    requires r in rows
  {
    if wanted.Some? && rows[r].session != wanted.value then SessionMismatch else AcceptedAs(r)
  }

  function Answered(s: State, w: Worker, c: Creator, answer: Answer): State {
    s.(creators := s.creators - {w}, replies := s.replies[w := Reply(c.user, c.key, c.wanted, c.session, answer)])
  }

  function AtStage(s: State, w: Worker, stage: Stage): State
    requires w in s.creators
  {
    s.(creators := s.creators[w := s.creators[w].(stage := stage)])
  }

  ghost function HolderOf(rows: Rows, user: string, key: Option<string>): (r: RequestId)
    requires Taken(rows, user, key)
    ensures r in rows && rows[r].user == user && rows[r].key == key
  {
    var r :| r in rows && rows[r].user == user && rows[r].key == key; r
  }

  /** A key that the code looks up: present and not empty. */
  predicate IsKey(key: Option<string>) {
    key.Some? && key.value != ""
  }

  /** After the session row was found: another user's session is refused. */
  function WithSession(s: State, w: Worker): State
    requires w in s.creators && s.creators[w].session in s.sessions
  {
    var c := s.creators[w];
    var session := s.sessions[c.session];
    if session.user != c.user then Answered(s, w, c, Forbidden) else AtStage(s, w, Ready(session.count, false))
  }

  /** The commit of a new request: the insert and the absolute counter value. */
  function Inserted(s: State, w: Worker, id: RequestId): State
    requires w in s.creators && s.creators[w].stage.Ready?
  {
    var c := s.creators[w];
    var before := if c.session in s.sessions then s.sessions[c.session].count else 0;
    Answered(
      s.(rows := s.rows[id := Row(c.session, c.user, c.key, Accepted, s.now)],
         sessions := s.sessions[c.session := Session(c.user, c.stage.count + 1)],
         raced := if before == c.stage.count then s.raced else s.raced + {c.session}),
      w, c, AcceptedAs(id))
  }

  /** The first statement of a create: the lookup of its key. */
  ghost function StartCreate(s: State, w: Worker, c: Creator): State {
    if IsKey(c.key) && Taken(s.rows, c.user, c.key)
    then Answered(s, w, c, AnswerFor(s.rows, HolderOf(s.rows, c.user, c.key), c.wanted))
    else s.(creators := s.creators[w := c])
  }

  /** The session row is read, or found missing and taken to `missing`. */
  function FindSession(s: State, w: Worker, missing: Stage): State
    requires w in s.creators
  {
    if s.creators[w].session in s.sessions then WithSession(s, w) else AtStage(s, w, missing)
  }

  /** The commit of a create fails on a key that is taken by then. */
  ghost function TryCommit(s: State, w: Worker, id: RequestId): State
    requires w in s.creators && s.creators[w].stage.Ready?
  {
    var c := s.creators[w];
    if !Taken(s.rows, c.user, c.key) then Inserted(s, w, id)
    else if IsKey(c.key) then AtStage(s, w, Rechecking)
    else Answered(s, w, c, Raised)
  }

  ghost function LookAgain(s: State, w: Worker): State
    requires w in s.creators
  {
    var c := s.creators[w];
    Answered(s, w, c,
      if Taken(s.rows, c.user, c.key) then AnswerFor(s.rows, HolderOf(s.rows, c.user, c.key), c.wanted) else Raised)
  }

  function Claimed(s: State, w: Worker, r: RequestId, caller: Option<string>): State {
    if CanClaim(s.rows, r, caller) then
      s.(rows := ClaimRow(s.rows, r, caller, s.now), executors := s.executors[w := Executor(r, s.now, None)])
    else s
  }

  function Loaded(s: State, w: Worker): State
    requires w in s.executors && s.executors[w].request in s.rows
  {
    var x := s.executors[w];
    s.(executors := s.executors[w := x.(loaded := Some(s.rows[x.request].status))])
  }

  function Finished(s: State, w: Worker, outcome: Status): State
    requires w in s.executors && s.executors[w].loaded.Some?
  {
    var x := s.executors[w];
    s.(rows := FinishRow(s.rows, x.request, x.loaded.value, outcome, s.now), executors := s.executors - {w})
  }

  function Crashed(s: State, w: Worker): State
    requires w in s.executors
  {
    var r := s.executors[w].request;
    s.(executors := s.executors - {w},
       crashes := s.crashes[r := Get(s.crashes, r) + 1],
       orphans := if IsRunning(s, r) then s.orphans + {r} else s.orphans)
  }

  function Marked(s: State, w: Worker, r: RequestId): State {
    if IsRunning(s, r) then
      s.(rows := MarkRow(s.rows, r, s.now),
         observed := s.observed - {(w, r)},
         staleMarks := s.staleMarks[r := Get(s.staleMarks, r) + 1],
         hits := if Live(s, r) > 0 then s.hits[r := Get(s.hits, r) + 1] else s.hits,
         orphans := s.orphans - {r})
    else s.(observed := s.observed - {(w, r)})
  }

  ghost function Next(s: State, e: Event): State
    requires Enabled(s, e)
  {
    match e
    case Tick(elapsed) => s.(now := s.now + elapsed)
    case Lookup(w, user, key, wanted, generated) =>
      StartCreate(s, w, Creator(user, key, wanted, if wanted.Some? then wanted.value else generated, Opening))
    case OpenSession(w) => FindSession(s, w, Inserting)
    case FlushSession(w) => FindSession(s, w, Ready(0, true))
    case CommitRequest(w, id) => TryCommit(s, w, id)
    case Recheck(w) => LookAgain(s, w)
    case Claim(w, r, caller) => Claimed(s, w, r, caller)
    case Load(w) => Loaded(s, w)
    case Finish(w, outcome) => Finished(s, w, outcome)
    case Crash(w) => Crashed(s, w)
    case Observe(w, r, _) => s.(observed := s.observed + {(w, r)})
    case MarkStale(w, r) => Marked(s, w, r)
  }

  // ------------------------------------------------------------------
  // Runs
  // ------------------------------------------------------------------

  ghost predicate Legal(s: State, trace: seq<Event>)
    decreases |trace|
  {
    trace == [] || (Enabled(s, trace[0]) && Legal(Next(s, trace[0]), trace[1..]))
  }

  ghost function After(s: State, trace: seq<Event>): State
    requires Legal(s, trace)
    decreases |trace|
  {
    if trace == [] then s else After(Next(s, trace[0]), trace[1..])
  }

  // ------------------------------------------------------------------
  // Invariants of execution
  // ------------------------------------------------------------------

  /** Every executor beyond the one a running row may have is paid for by a stale mark. */
  ghost predicate Bounded(s: State, r: RequestId) {
    Live(s, r) + Get(s.crashes, r) <= Get(s.staleMarks, r) + (if IsRunning(s, r) then 1 else 0)
  }

  /** As long as no stale mark hit a live executor of it, a running row has exactly one
      executor, alive or crashed, and any other row has none. */
  ghost predicate Exclusive(s: State, r: RequestId) {
    Get(s.hits, r) == 0 ==>
      && Live(s, r) + (if r in s.orphans then 1 else 0) == (if IsRunning(s, r) then 1 else 0)
      && (forall w | w in Holders(s, r) ::
            && s.executors[w].claimedAt == s.rows[r].updatedAt
            && (s.executors[w].loaded.Some? ==> s.executors[w].loaded.value.Running?))
  }

  ghost predicate ExecutionInv(s: State) {
    && (forall w | w in s.executors :: s.executors[w].request in s.rows)
    && (forall r | r in s.orphans :: r in s.rows)
    && (forall r: RequestId :: Bounded(s, r))
    && (forall r: RequestId :: Exclusive(s, r))
  }

  // ------------------------------------------------------------------
  // Invariants of creation
  // ------------------------------------------------------------------

  function RowsOf(rows: Rows, session: SessionId): set<RequestId> {
    set r | r in rows && rows[r].session == session
  }

  ghost predicate UniqueKeys(rows: Rows) {
    forall r, q | r in rows && q in rows && r != q && rows[r].key.Some? ::
      !(rows[r].user == rows[q].user && rows[r].key == rows[q].key)
  }

  ghost predicate RepliesSound(s: State) {
    forall w | w in s.replies && s.replies[w].answer.AcceptedAs? ::
      var r := s.replies[w].answer.request;
      r in s.rows && s.rows[r].user == s.replies[w].user && (IsKey(s.replies[w].key) ==> s.rows[r].key == s.replies[w].key)
  }

  /** The counter never exceeds the session's requests, and falls short exactly when
      some commit wrote over a value it had not read. */
  ghost predicate CountSound(s: State, session: SessionId) {
    if session in s.sessions then
      && s.sessions[session].count <= |RowsOf(s.rows, session)|
      && (s.sessions[session].count == |RowsOf(s.rows, session)| <==> session !in s.raced)
    else RowsOf(s.rows, session) == {} && session !in s.raced
  }

  /** A count read for a session is not ahead of its requests, and is still the
      current one if none was added since. */
  ghost predicate ReadSound(s: State, c: Creator) {
    c.stage.Ready? ==>
      && c.stage.count <= |RowsOf(s.rows, c.session)|
      && (c.session in s.sessions ==> s.sessions[c.session].user == c.user || c.stage.inserts)
      && (c.session in s.sessions <==> !c.stage.inserts)
      && (c.stage.count == |RowsOf(s.rows, c.session)| && c.session in s.sessions ==>
            s.sessions[c.session].count == c.stage.count)
      && (c.stage.inserts ==> c.stage.count == 0)
  }

  /** At most one worker at a time holds the uncommitted insert of a session. */
  ghost predicate OneInserter(s: State) {
    forall v, w | v in s.creators && w in s.creators && v != w ::
      s.creators[v].session == s.creators[w].session ==>
        !(s.creators[v].stage.Ready? && s.creators[v].stage.inserts && s.creators[w].stage.Ready? && s.creators[w].stage.inserts)
  }

  ghost predicate CreationInv(s: State) {
    && UniqueKeys(s.rows)
    && RepliesSound(s)
    && OneInserter(s)
    && (forall session: SessionId :: CountSound(s, session))
    && (forall w | w in s.creators :: ReadSound(s, s.creators[w]))
    && (forall r | r in s.rows :: s.rows[r].session in s.sessions && s.sessions[s.rows[r].session].user == s.rows[r].user)
  }
}
