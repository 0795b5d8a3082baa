/** Metrics shared by many workers: each worker counts in memory and publishes its latest
    totals into one table, from which a snapshot is aggregated. */
module MetricSinking {
  import opened Wrappers

  type Worker = nat
  type Name = string
  type Key = (Worker, Name)

  datatype Published = Count(count: int) | Duration(seconds: real)
  datatype Record = Record(value: Published, updatedAt: int)
  type Table = map<Key, Record>

  // ------------------------------------------------------------------
  // Sums
  // ------------------------------------------------------------------

  ghost function Sum(m: map<Key, int>): int
    decreases |m|
  {
    if m == map[] then 0
    else
      var k :| k in m;
      assert |m - {k}| < |m| by { FewerKeys(m, k); }
      m[k] + Sum(m - {k})
  }

  lemma FewerKeys(m: map<Key, int>, k: Key)
    requires k in m
    ensures |m - {k}| < |m|
  {
    assert m == (m - {k})[k := m[k]];
  }

  /** The sum does not depend on the order in which the entries are taken. */
  lemma {:induction false} SumOf(m: map<Key, int>, k: Key)
    requires k in m
    ensures Sum(m) == m[k] + Sum(m - {k})
    decreases |m|
  {
    var j :| j in m && Sum(m) == m[j] + Sum(m - {j});
    if j != k {
      FewerKeys(m, j);
      FewerKeys(m, k);
      SumOf(m - {j}, k);
      SumOf(m - {k}, j);
      assert m - {j} - {k} == m - {k} - {j};
    }
  }

  lemma SumWith(m: map<Key, int>, k: Key, v: int)
    requires k !in m
    ensures Sum(m[k := v]) == v + Sum(m)
  {
    SumOf(m[k := v], k);
    assert m[k := v] - {k} == m;
  }

  predicate Below(a: map<Key, int>, b: map<Key, int>) {
    && (forall k | k in a :: k in b && a[k] <= b[k])
    && (forall k | k in b :: 0 <= b[k])
  }

  /** Everything that `b` counts is also in `a`. */
  predicate Covers(a: map<Key, int>, b: map<Key, int>) {
    forall k | k in b :: if k in a then a[k] == b[k] else b[k] == 0
  }

  lemma CoversSplit(a: map<Key, int>, b: map<Key, int>, k: Key)
    requires k in b
    ensures Covers(a, b) <==> (if k in a then a[k] == b[k] else b[k] == 0) && Covers(a - {k}, b - {k})
  {
    if Covers(a - {k}, b - {k}) {
      forall j | j in b && j != k ensures if j in a then a[j] == b[j] else b[j] == 0 {
        assert j in b - {k};
      }
    }
  }

  lemma {:induction false} SumBelow(a: map<Key, int>, b: map<Key, int>)
    requires Below(a, b)
    ensures Sum(a) <= Sum(b)
    ensures Sum(a) == Sum(b) <==> Covers(a, b)
    decreases |b|
  {
    if b == map[] {
      assert a == map[];
    } else {
      var k :| k in b;
      FewerKeys(b, k);
      SumOf(b, k);
      SumBelow(a - {k}, b - {k});
      CoversSplit(a, b, k);
      if k in a {
        SumOf(a, k);
      } else {
        assert a - {k} == a;
      }
    }
  }

  // ------------------------------------------------------------------
  // The snapshot
  // ------------------------------------------------------------------

  predicate Shown(r: Record, cutoff: Option<int>) {
    cutoff.None? || cutoff.value <= r.updatedAt
  }

  /** The counter rows of one name that a snapshot aggregates. */
  function CountRows(t: Table, cutoff: Option<int>, name: Name): map<Key, int> {
    map k | k in t && k.1 == name && t[k].value.Count? && Shown(t[k], cutoff) :: t[k].value.count
  }

  function DurationRows(t: Table, cutoff: Option<int>, name: Name): map<Key, real> {
    map k | k in t && k.1 == name && t[k].value.Duration? && Shown(t[k], cutoff) :: t[k].value.seconds
  }

  ghost predicate IsSumOf(counters: map<Name, int>, t: Table, cutoff: Option<int>) {
    forall name: Name ::
      && (name in counters <==> CountRows(t, cutoff, name) != map[])
      && (name in counters ==> counters[name] == Sum(CountRows(t, cutoff, name)))
  }

  ghost predicate IsMaximum(x: real, m: map<Key, real>) {
    && (forall k | k in m :: m[k] <= x)
    && (exists k :: k in m && m[k] == x)
  }

  ghost predicate IsMaxOf(durations: map<Name, real>, t: Table, cutoff: Option<int>) {
    forall name: Name ::
      && (name in durations <==> DurationRows(t, cutoff, name) != map[])
      && (name in durations ==> IsMaximum(durations[name], DurationRows(t, cutoff, name)))
  }

  function With(t: Table, k: Key, r: Record): Table {
    t[k := r]
  }

  lemma CountRowsWith(t: Table, cutoff: Option<int>, k: Key, r: Record, name: Name)
    requires k !in t
    ensures CountRows(With(t, k, r), cutoff, name) ==
      if name == k.1 && r.value.Count? && Shown(r, cutoff) then CountRows(t, cutoff, name)[k := r.value.count]
      else CountRows(t, cutoff, name)
    ensures k !in CountRows(t, cutoff, name)
  {
  }

  lemma DurationRowsWith(t: Table, cutoff: Option<int>, k: Key, r: Record, name: Name)
    requires k !in t
    ensures DurationRows(With(t, k, r), cutoff, name) ==
      if name == k.1 && r.value.Duration? && Shown(r, cutoff) then DurationRows(t, cutoff, name)[k := r.value.seconds]
      else DurationRows(t, cutoff, name)
    ensures k !in DurationRows(t, cutoff, name)
  {
  }

  lemma AggregateCount(counters: map<Name, int>, t: Table, cutoff: Option<int>, k: Key, r: Record)
    requires IsSumOf(counters, t, cutoff) && k !in t
    ensures
      var more := if r.value.Count? && Shown(r, cutoff)
                  then counters[k.1 := (if k.1 in counters then counters[k.1] else 0) + r.value.count] else counters;
      IsSumOf(more, With(t, k, r), cutoff)
  {
    hide CountRows, With, Sum;
    var more := if r.value.Count? && Shown(r, cutoff)
                then counters[k.1 := (if k.1 in counters then counters[k.1] else 0) + r.value.count] else counters;
    forall name: Name
      ensures name in more <==> CountRows(With(t, k, r), cutoff, name) != map[]
      ensures name in more ==> more[name] == Sum(CountRows(With(t, k, r), cutoff, name))
    {
      CountRowsWith(t, cutoff, k, r, name);
      assert name in counters <==> CountRows(t, cutoff, name) != map[];
      EmptySum();
      if name == k.1 && r.value.Count? && Shown(r, cutoff) {
        SumWith(CountRows(t, cutoff, name), k, r.value.count);
        assert k in CountRows(With(t, k, r), cutoff, name);
      }
    }
  }

  lemma EmptySum()
    ensures Sum(map[]) == 0
  {
  }

  lemma AggregateDuration(durations: map<Name, real>, t: Table, cutoff: Option<int>, k: Key, r: Record)
    requires IsMaxOf(durations, t, cutoff) && k !in t
    ensures
      var more := if r.value.Duration? && Shown(r, cutoff) && (k.1 in durations ==> durations[k.1] < r.value.seconds)
                  then durations[k.1 := r.value.seconds] else durations;
      IsMaxOf(more, With(t, k, r), cutoff)
  {
    hide DurationRows, With;
    var more := if r.value.Duration? && Shown(r, cutoff) && (k.1 in durations ==> durations[k.1] < r.value.seconds)
                then durations[k.1 := r.value.seconds] else durations;
    forall name: Name
      ensures name in more <==> DurationRows(With(t, k, r), cutoff, name) != map[]
      ensures name in more ==> IsMaximum(more[name], DurationRows(With(t, k, r), cutoff, name))
    {
      DurationRowsWith(t, cutoff, k, r, name);
      var rows := DurationRows(t, cutoff, name);
      assert name in durations <==> rows != map[];
      if name == k.1 && r.value.Duration? && Shown(r, cutoff) {
        var now := rows[k := r.value.seconds];
        assert k in now && now[k] == r.value.seconds;
        assert forall j | j in rows :: j in now && now[j] == rows[j];
      }
    }
  }

  // ------------------------------------------------------------------
  // The classes
  // ------------------------------------------------------------------

  /** What one worker has counted and timed since it started. */
  class Metrics {
    var counters: map<Name, int>
    var durations: map<Name, real>

    constructor ()
      ensures counters == map[] && durations == map[]
    {
      counters, durations := map[], map[];
    }

    method Inc(name: Name, amount: int)
      modifies this`counters
      ensures counters == old(counters)[name := (if name in old(counters) then old(counters)[name] else 0) + amount]
    {
      var before := 0;
      if name in counters {
        before := counters[name];
      }
      counters := counters[name := before + amount];
    }

    method RecordDuration(name: Name, seconds: real)
      modifies this`durations
      ensures durations == old(durations)[name := seconds]
    {
      durations := durations[name := seconds];
    }
  }

  /** What a flush that nothing interleaves with leaves: the duration wins where a name
      is both counted and timed, and nobody else's rows change. */
  ghost predicate FlushedTo(
    before: Table, after: Table, w: Worker, counters: map<Name, int>, durations: map<Name, real>, now: int)
  {
    && (forall n | n in durations :: (w, n) in after && after[(w, n)] == Record(Duration(durations[n]), now))
    && (forall n | n in counters && n !in durations :: (w, n) in after && after[(w, n)] == Record(Count(counters[n]), now))
    && (forall k | k in before :: k in after)
    && (forall k | k in after ::
          (k.0 == w && (k.1 in counters || k.1 in durations)) || (k in before && after[k] == before[k]))
  }

  /** What a sink takes for the present: unless it is given a clock, the moment of its own
      construction, for ever. */
  datatype Clock = Frozen(at: int) | Live
  {
    function Time(now: int): int {
      if Frozen? then at else now
    }
  }

  class PostgresMetricSink {
    var table: Table
    const retention: Option<nat>
    const clock: Clock

    constructor (retention: Option<nat>, live: bool, now: int)
      ensures table == map[] && this.retention == retention
      ensures clock == if live then Live else Frozen(now)
    {
      table, this.retention := map[], retention;
      clock := if live then Live else Frozen(now);
    }

    /** Inserts or overwrites the row of a worker and a name. */
    method RecordMetric(w: Worker, name: Name, value: Published, now: int)
      modifies this`table
      ensures table == old(table)[(w, name) := Record(value, clock.Time(now))]
    {
      table := table[(w, name) := Record(value, clock.Time(now))];
    }

    method Flush(w: Worker, metrics: Metrics, now: int)
      modifies this`table
      ensures FlushedTo(old(table), table, w, metrics.counters, metrics.durations, clock.Time(now))
    {
      ghost var before := table;
      var names := metrics.counters.Keys;
      while names != {}
        invariant names <= metrics.counters.Keys
        invariant forall n | n in metrics.counters && n !in names ::
                    (w, n) in table && table[(w, n)] == Record(Count(metrics.counters[n]), clock.Time(now))
        invariant forall k | k in before :: k in table
        invariant forall k | k in table :: (k.0 == w && k.1 in metrics.counters) || (k in before && table[k] == before[k])
        decreases |names|
      {
        var n :| n in names;
        RecordMetric(w, n, Count(metrics.counters[n]), now);
        names := names - {n};
      }
      names := metrics.durations.Keys;
      while names != {}
        invariant names <= metrics.durations.Keys
        invariant forall n | n in metrics.durations && n !in names ::
                    (w, n) in table && table[(w, n)] == Record(Duration(metrics.durations[n]), clock.Time(now))
        invariant forall n | n in metrics.counters && n !in metrics.durations ::
                    (w, n) in table && table[(w, n)] == Record(Count(metrics.counters[n]), clock.Time(now))
        invariant forall k | k in before :: k in table
        invariant forall k | k in table ::
          (k.0 == w && (k.1 in metrics.counters || k.1 in metrics.durations)) || (k in before && table[k] == before[k])
        decreases |names|
      {
        var n :| n in names;
        RecordMetric(w, n, Duration(metrics.durations[n]), now);
        names := names - {n};
      }
    }

    /** The sum of the counters and the maximum of the durations that are not too old. */
    method Snapshot(now: int) returns (counters: map<Name, int>, durations: map<Name, real>)
      ensures var cutoff := if retention.None? then None else Some(clock.Time(now) - retention.value);
        IsSumOf(counters, table, cutoff) && IsMaxOf(durations, table, cutoff)
    {
      hide IsSumOf, IsMaxOf;
      var cutoff := if retention.None? then None else Some(clock.Time(now) - retention.value);
      counters, durations := map[], map[];
      var rest := table.Keys;
      ghost var seen: Table := map[];
      NothingSeen(cutoff);
      while rest != {}
        invariant rest <= table.Keys
        invariant forall k | k in table && k !in rest :: k in seen && seen[k] == table[k]
        invariant forall k | k in seen :: k in table && k !in rest
        invariant IsSumOf(counters, seen, cutoff) && IsMaxOf(durations, seen, cutoff)
        decreases |rest|
      {
        var k :| k in rest;
        var r := table[k];
        AggregateCount(counters, seen, cutoff, k, r);
        AggregateDuration(durations, seen, cutoff, k, r);
        if cutoff.None? || cutoff.value <= r.updatedAt {
          match r.value {
            case Count(n) => counters := counters[k.1 := (if k.1 in counters then counters[k.1] else 0) + n];
            case Duration(d) =>
              if k.1 !in durations || durations[k.1] < d {
                durations := durations[k.1 := d];
              }
          }
        }
        rest, seen := rest - {k}, With(seen, k, r);
      }
      assert seen == table;
    }
  }

  lemma NothingSeen(cutoff: Option<int>)
    ensures IsSumOf(map[], map[], cutoff) && IsMaxOf(map[], map[], cutoff)
  {
  }

  // ------------------------------------------------------------------
  // The protocol of the workers
  // ------------------------------------------------------------------

  type Task = nat

  /** The counters and timings of all workers, the table they share, the records whose
      value was read but not written yet, and a log of all writes. */
  datatype State = State(
    counters: map<Key, int>,
    durations: map<Key, real>,
    table: Table,
    inFlight: map<Task, (Key, Published)>,
    written: seq<(Key, Published)>)

  const EMPTY: State := State(map[], map[], map[], map[], [])

  /** A write carries the time that the writer's clock shows. */
  datatype Event =
    | Counted(k: Key, amount: nat)
    | Timed(k: Key, seconds: real)
    | ReadCounter(task: Task, k: Key)
    | ReadDuration(task: Task, k: Key)
    | Write(task: Task, at: int)

  predicate Enabled(s: State, e: Event) {
    match e
    case Counted(_, _) => true
    case Timed(_, _) => true
    case ReadCounter(task, k) => task !in s.inFlight && k in s.counters
    case ReadDuration(task, k) => task !in s.inFlight && k in s.durations
    case Write(task, _) => task in s.inFlight
  }

  function Next(s: State, e: Event): State
    requires Enabled(s, e)
  {
    match e
    case Counted(k, amount) => s.(counters := s.counters[k := (if k in s.counters then s.counters[k] else 0) + amount])
    case Timed(k, seconds) => s.(durations := s.durations[k := seconds])
    case ReadCounter(task, k) => s.(inFlight := s.inFlight[task := (k, Count(s.counters[k]))])
    case ReadDuration(task, k) => s.(inFlight := s.inFlight[task := (k, Duration(s.durations[k]))])
    case Write(task, at) =>
      var r := s.inFlight[task];
      s.(table := s.table[r.0 := Record(r.1, at)], inFlight := s.inFlight - {task}, written := s.written + [r])
  }

  predicate Legal(s: State, trace: seq<Event>)
    decreases |trace|
  {
    trace == [] || (Enabled(s, trace[0]) && Legal(Next(s, trace[0]), trace[1..]))
  }

  function After(s: State, trace: seq<Event>): State
    requires Legal(s, trace)
    decreases |trace|
  {
    if trace == [] then s else After(Next(s, trace[0]), trace[1..])
  }

  lemma NothingHappens(s: State)
    ensures Legal(s, []) && After(s, []) == s
  {
  }

  lemma {:induction false} Continue(s: State, first: seq<Event>, rest: seq<Event>)
    requires Legal(s, first) && Legal(After(s, first), rest)
    ensures Legal(s, first + rest) && After(s, first + rest) == After(After(s, first), rest)
    decreases |first|
  {
    hide Next, Enabled;
    if first == [] {
      assert first + rest == rest;
    } else {
      assert (first + rest)[1..] == first[1..] + rest;
      Continue(Next(s, first[0]), first[1..], rest);
    }
  }

  lemma Extend(s: State, trace: seq<Event>, e: Event) returns (longer: seq<Event>)
    requires Legal(s, trace) && Enabled(After(s, trace), e)
    ensures longer == trace + [e] && Legal(s, longer) && After(s, longer) == Next(After(s, trace), e)
  {
    hide Next, Enabled;
    assert [e][1..] == [];
    NothingHappens(Next(After(s, trace), e));
    Continue(s, trace, [e]);
    longer := trace + [e];
  }

  /** The last value a log of writes holds for a key. */
  function LastWritten(log: seq<(Key, Published)>, k: Key): Option<Published> {
    if log == [] then None
    else if log[|log| - 1].0 == k then Some(log[|log| - 1].1)
    else LastWritten(log[..|log| - 1], k)
  }

  predicate AtMostCounted(s: State, k: Key, v: Published) {
    v.Count? ==> k in s.counters && 0 <= v.count <= s.counters[k]
  }

  ghost predicate Inv(s: State) {
    && (forall k | k in s.counters :: 0 <= s.counters[k])
    && (forall k | k in s.table :: AtMostCounted(s, k, s.table[k].value))
    && (forall t | t in s.inFlight :: AtMostCounted(s, s.inFlight[t].0, s.inFlight[t].1))
    && (forall k: Key :: LastWritten(s.written, k) == if k in s.table then Some(s.table[k].value) else None)
  }

  lemma StepKeepsInv(s: State, e: Event)
    requires Inv(s) && Enabled(s, e)
    ensures Inv(Next(s, e))
  {
    var t := Next(s, e);
    if e.Write? {
      forall k: Key ensures LastWritten(t.written, k) == if k in t.table then Some(t.table[k].value) else None {
        assert t.written[..|t.written| - 1] == s.written;
        assert LastWritten(s.written, k) == if k in s.table then Some(s.table[k].value) else None;
      }
    }
  }

  lemma {:induction false} RunKeepsInv(s: State, trace: seq<Event>)
    requires Inv(s) && Legal(s, trace)
    ensures Inv(After(s, trace))
    decreases |trace|
  {
    hide Inv, Next, Enabled;
    if trace != [] {
      StepKeepsInv(s, trace[0]);
      RunKeepsInv(Next(s, trace[0]), trace[1..]);
    }
  }

  lemma Reached(trace: seq<Event>)
    requires Legal(EMPTY, trace)
    ensures Inv(After(EMPTY, trace))
  {
    RunKeepsInv(EMPTY, trace);
  }

  // ------------------------------------------------------------------
  // What was counted and timed
  // ------------------------------------------------------------------

  /** All that was counted for a key. */
  function CountedIn(trace: seq<Event>, k: Key): nat {
    if trace == [] then 0
    else
      CountedIn(trace[..|trace| - 1], k) +
      match trace[|trace| - 1]
      case Counted(j, amount) => if j == k then amount else 0
      case _ => 0
  }

  /** What was timed last for a key. */
  function TimedIn(trace: seq<Event>, k: Key): Option<real> {
    if trace == [] then None
    else
      match trace[|trace| - 1]
      case Timed(j, seconds) => if j == k then Some(seconds) else TimedIn(trace[..|trace| - 1], k)
      case _ => TimedIn(trace[..|trace| - 1], k)
  }

  /** After any run a worker's counter is the sum of what it counted, and its duration what
      it timed last. */
  lemma {:induction false} WorkersRemember(trace: seq<Event>, k: Key)
    requires Legal(EMPTY, trace)
    ensures var s := After(EMPTY, trace);
      && (if k in s.counters then s.counters[k] else 0) == CountedIn(trace, k)
      && (if k in s.durations then Some(s.durations[k]) else None) == TimedIn(trace, k)
  {
    if trace != [] {
      var n := |trace| - 1;
      assert trace == trace[..n] + [trace[n]];
      LastEvent(EMPTY, trace[..n], trace[n]);
      WorkersRemember(trace[..n], k);
      hide Legal, After;
    }
  }

  lemma {:induction false} LastEvent(s: State, trace: seq<Event>, e: Event)
    requires Legal(s, trace + [e])
    ensures Legal(s, trace) && Enabled(After(s, trace), e) && After(s, trace + [e]) == Next(After(s, trace), e)
    decreases |trace|
  {
    hide Enabled, Next;
    if trace == [] {
      assert trace + [e] == [e] && [e][1..] == [];
    } else {
      assert (trace + [e])[1..] == trace[1..] + [e];
      LastEvent(Next(s, trace[0]), trace[1..], e);
    }
  }

  /** If all workers' durations of a name are published, what a snapshot reports for it is the
      longest of them. */
  lemma LongestIsReported(s: State, name: Name, durations: map<Name, real>)
    requires IsMaxOf(durations, s.table, None)
    requires forall k | k in s.durations && k.1 == name :: k in s.table && s.table[k].value == Duration(s.durations[k])
    requires forall k | k in s.table && k.1 == name && s.table[k].value.Duration? :: k in s.durations
    ensures name in durations <==> exists k :: k in s.durations && k.1 == name
    ensures name in durations ==>
      && (forall k | k in s.durations && k.1 == name :: s.durations[k] <= durations[name])
      && (exists k :: k in s.durations && k.1 == name && s.durations[k] == durations[name])
  {
    var rows := DurationRows(s.table, None, name);
    assert forall k :: k in rows <==> k in s.durations && k.1 == name;
    assert forall k | k in rows :: rows[k] == s.durations[k];
    assert name in durations <==> rows != map[];
    if k :| k in s.durations && k.1 == name {
      assert k in rows;
    }
  }

  // ------------------------------------------------------------------
  // What a snapshot reports
  // ------------------------------------------------------------------

  /** What a snapshot reports for a counter, and what was really counted. */
  ghost function Reported(s: State, cutoff: Option<int>, name: Name): int {
    Sum(CountRows(s.table, cutoff, name))
  }

  function CountersNamed(s: State, name: Name): map<Key, int> {
    map k | k in s.counters && k.1 == name :: s.counters[k]
  }

  ghost function TrueTotal(s: State, name: Name): int {
    Sum(CountersNamed(s, name))
  }

  /** A worker's row is up to date, or it has nothing to report. */
  predicate Exact(s: State, k: Key) {
    k in s.counters && s.counters[k] != 0 ==> k in s.table && s.table[k].value == Count(s.counters[k])
  }

  /** After any interleaving of counting and flushing, a snapshot never reports more than
      was counted, whatever retention hides. Without retention it reports exactly that if and
      only if every worker's row holds what it has counted. */
  lemma SnapshotNeverOvercounts(trace: seq<Event>, cutoff: Option<int>, name: Name)
    requires Legal(EMPTY, trace)
    ensures var s := After(EMPTY, trace);
      && Reported(s, cutoff, name) <= TrueTotal(s, name)
      && (cutoff.None? ==>
            (Reported(s, cutoff, name) == TrueTotal(s, name) <==>
             forall k | k in s.counters && k.1 == name :: Exact(s, k)))
  {
    Reached(trace);
    var s := After(EMPTY, trace);
    var a, b := CountRows(s.table, cutoff, name), CountersNamed(s, name);
    assert Below(a, b);
    SumBelow(a, b);
    if cutoff.None? {
      if Covers(a, b) {
        forall k | k in s.counters && k.1 == name ensures Exact(s, k) {
          assert k in b;
        }
      }
    }
  }

  /** The counters that the log of writes says were published last. */
  function LastCounts(s: State, name: Name): map<Key, int> {
    map k | k in s.table && k.1 == name && LastWritten(s.written, k).Some? && LastWritten(s.written, k).value.Count?
      :: LastWritten(s.written, k).value.count
  }

  /** The snapshot is the sum of each worker's last published value, and publishing a
      value once more changes nothing. */
  lemma SnapshotSumsLastWrites(trace: seq<Event>, name: Name)
    requires Legal(EMPTY, trace)
    ensures var s := After(EMPTY, trace);
      && Reported(s, None, name) == Sum(LastCounts(s, name))
      && (forall k | LastWritten(s.written, k).Some? :: k in s.table)
      && (forall k, now | k in s.table ::
            CountRows(s.table[k := Record(s.table[k].value, now)], None, name) == CountRows(s.table, None, name))
  {
    Reached(trace);
    var s := After(EMPTY, trace);
    assert CountRows(s.table, None, name) == LastCounts(s, name);
    forall k, now | k in s.table
      ensures CountRows(s.table[k := Record(s.table[k].value, now)], None, name) == CountRows(s.table, None, name)
    {
    }
  }

  // ------------------------------------------------------------------
  // When a published count never falls
  // ------------------------------------------------------------------

  function Amount(v: Published): int {
    if v.Count? then v.count else 0
  }

  function PublishedCount(s: State, k: Key): int {
    if k in s.table then Amount(s.table[k].value) else 0
  }

  predicate Reads(s: State, t: Task, k: Key) {
    t in s.inFlight && s.inFlight[t].0 == k
  }

  /** The next read of a counter waits for the last one to be written, and its name is
      not published as a duration. */
  ghost predicate IsOrderly(s: State, e: Event, k: Key) {
    match e
    case ReadCounter(_, j) => j == k ==> forall t :: !Reads(s, t, k)
    case ReadDuration(_, j) => j != k
    case _ => true
  }

  ghost predicate Orderly(s: State, trace: seq<Event>, k: Key)
    requires Legal(s, trace)
    decreases |trace|
  {
    trace == [] || (IsOrderly(s, trace[0], k) && Orderly(Next(s, trace[0]), trace[1..], k))
  }

  predicate NeverFalls(s: State, trace: seq<Event>, k: Key)
    requires Legal(s, trace)
    decreases |trace|
  {
    trace == [] ||
    (PublishedCount(s, k) <= PublishedCount(Next(s, trace[0]), k) && NeverFalls(Next(s, trace[0]), trace[1..], k))
  }

  /** No read in flight is behind what is published, or behind another one. */
  ghost predicate ReadsAgree(s: State, k: Key) {
    && (forall t | Reads(s, t, k) :: PublishedCount(s, k) <= Amount(s.inFlight[t].1))
    && (forall t, u | Reads(s, t, k) && Reads(s, u, k) :: Amount(s.inFlight[t].1) == Amount(s.inFlight[u].1))
  }

  lemma WriteIsOrderly(s: State, task: Task, at: int, k: Key)
    requires ReadsAgree(s, k) && task in s.inFlight
    ensures var t := Next(s, Write(task, at)); ReadsAgree(t, k) && PublishedCount(s, k) <= PublishedCount(t, k)
  {
    hide Amount;
    var t := Next(s, Write(task, at));
    assert forall u :: Reads(t, u, k) ==> Reads(s, u, k) && t.inFlight[u] == s.inFlight[u];
    assert Reads(s, task, k) <==> s.inFlight[task].0 == k;
  }

  lemma ReadIsOrderly(s: State, task: Task, j: Key, k: Key)
    requires Inv(s) && ReadsAgree(s, k) && task !in s.inFlight && j in s.counters
    requires j == k ==> forall t :: !Reads(s, t, k)
    ensures ReadsAgree(Next(s, ReadCounter(task, j)), k)
    ensures PublishedCount(Next(s, ReadCounter(task, j)), k) == PublishedCount(s, k)
  {
    var t := Next(s, ReadCounter(task, j));
    assert forall u :: Reads(t, u, k) ==> (u == task && j == k) || (Reads(s, u, k) && t.inFlight[u] == s.inFlight[u]);
    if j == k && k in s.table {
      assert AtMostCounted(s, k, s.table[k].value);
    }
    hide Inv;
  }

  lemma CountingIsOrderly(s: State, e: Event, k: Key)
    requires ReadsAgree(s, k) && Enabled(s, e) && (e.Counted? || e.Timed? || (e.ReadDuration? && e.k != k))
    ensures ReadsAgree(Next(s, e), k) && PublishedCount(s, k) <= PublishedCount(Next(s, e), k)
  {
    hide Amount;
    assert forall u :: Reads(Next(s, e), u, k) ==> Reads(s, u, k) && Next(s, e).inFlight[u] == s.inFlight[u];
  }

  lemma OrderlyStep(s: State, e: Event, k: Key)
    requires Inv(s) && ReadsAgree(s, k) && Enabled(s, e) && IsOrderly(s, e, k)
    ensures ReadsAgree(Next(s, e), k) && PublishedCount(s, k) <= PublishedCount(Next(s, e), k)
  {
    hide Inv, ReadsAgree, PublishedCount, Next;
    match e {
      case Write(task, at) => WriteIsOrderly(s, task, at, k);
      case ReadCounter(task, j) => ReadIsOrderly(s, task, j, k);
      case _ => CountingIsOrderly(s, e, k);
    }
  }

  lemma {:induction false} OrderlyRunNeverFalls(s: State, trace: seq<Event>, k: Key)
    requires Inv(s) && ReadsAgree(s, k) && Legal(s, trace) && Orderly(s, trace, k)
    ensures NeverFalls(s, trace, k)
    decreases |trace|
  {
    hide Inv, ReadsAgree, Next, Enabled, IsOrderly;
    if trace != [] {
      OrderlyStep(s, trace[0], k);
      StepKeepsInv(s, trace[0]);
      OrderlyRunNeverFalls(Next(s, trace[0]), trace[1..], k);
    }
  }

  ghost predicate Monotone(s: State, trace: seq<Event>, k: Key) {
    Legal(s, trace) && Orderly(s, trace, k) ==> NeverFalls(s, trace, k)
  }

  /** Writing what is behind makes the published count fall. */
  lemma BehindFalls(s: State, k: Key, t: Task) returns (trace: seq<Event>)
    requires Reads(s, t, k) && Amount(s.inFlight[t].1) < PublishedCount(s, k)
    ensures trace == [Write(t, 0)] && Legal(s, trace) && Orderly(s, trace, k) && !NeverFalls(s, trace, k)
  {
    trace := [Write(t, 0)];
    assert trace[1..] == [];
    NothingHappens(Next(s, Write(t, 0)));
  }

  lemma DisagreementFalls(s: State, k: Key, t: Task, u: Task) returns (trace: seq<Event>)
    requires Reads(s, t, k) && Reads(s, u, k) && Amount(s.inFlight[t].1) < Amount(s.inFlight[u].1)
    ensures Legal(s, trace) && Orderly(s, trace, k) && !NeverFalls(s, trace, k)
  {
    var after := Next(s, Write(u, 0));
    var rest := BehindFalls(after, k, t);
    trace := [Write(u, 0)] + rest;
    assert trace[1..] == rest;
  }

  lemma SomeRunFalls(s: State, k: Key) returns (trace: seq<Event>)
    requires !ReadsAgree(s, k)
    ensures !Monotone(s, trace, k)
  {
    hide Orderly, Legal, NeverFalls, Next;
    if t :| Reads(s, t, k) && Amount(s.inFlight[t].1) < PublishedCount(s, k) {
      trace := BehindFalls(s, k, t);
    } else {
      var t, u :| Reads(s, t, k) && Reads(s, u, k) && Amount(s.inFlight[t].1) != Amount(s.inFlight[u].1);
      if Amount(s.inFlight[t].1) < Amount(s.inFlight[u].1) {
        trace := DisagreementFalls(s, k, t, u);
      } else {
        trace := DisagreementFalls(s, k, u, t);
      }
    }
  }

  /** In any reachable state, a published count never falls in any orderly continuation if
      and only if no read of it in flight is behind it or behind another one. */
  lemma NeverFallsIffReadsAgree(trace: seq<Event>, k: Key)
    requires Legal(EMPTY, trace)
    ensures var s := After(EMPTY, trace);
      (forall rest :: Monotone(s, rest, k)) <==> ReadsAgree(s, k)
  {
    hide ReadsAgree;
    Reached(trace);
    var s := After(EMPTY, trace);
    if ReadsAgree(s, k) {
      forall rest ensures Monotone(s, rest, k) {
        if Legal(s, rest) && Orderly(s, rest, k) {
          OrderlyRunNeverFalls(s, rest, k);
        }
      }
    } else {
      var rest := SomeRunFalls(s, k);
      assert !Monotone(s, rest, k);
    }
  }

  /** So with one read at a time, from the start, the published count never falls. */
  lemma OneFlushAtATimeNeverFalls(trace: seq<Event>, k: Key)
    requires Legal(EMPTY, trace) && Orderly(EMPTY, trace, k)
    ensures NeverFalls(EMPTY, trace, k)
  {
    OrderlyRunNeverFalls(EMPTY, trace, k);
  }

  /** Two overlapping flushes of one worker: a report goes down, though nothing was
      subtracted. */
  lemma OverlappingFlushesRollBack(k: Key) returns (before: seq<Event>, after: seq<Event>)
    ensures Legal(EMPTY, before) && Legal(EMPTY, after) && after == before + [Write(0, 0)]
    ensures PublishedCount(After(EMPTY, before), k) == 2 && PublishedCount(After(EMPTY, after), k) == 1
  {
    NothingHappens(EMPTY);
    hide Legal, After;
    before := Extend(EMPTY, [], Counted(k, 1));
    before := Extend(EMPTY, before, ReadCounter(0, k));
    before := Extend(EMPTY, before, Counted(k, 1));
    before := Extend(EMPTY, before, ReadCounter(1, k));
    before := Extend(EMPTY, before, Write(1, 0));
    after := Extend(EMPTY, before, Write(0, 0));
  }

  // ------------------------------------------------------------------
  // When a snapshot is exact
  // ------------------------------------------------------------------

  /** Nothing is counted for a key, and it is not read as a duration. */
  predicate IsQuiet(e: Event, k: Key) {
    !(e.Counted? && e.k == k) && !(e.ReadDuration? && e.k == k)
  }

  predicate Quiet(trace: seq<Event>, k: Key) {
    forall i | 0 <= i < |trace| :: IsQuiet(trace[i], k)
  }

  /** The reads of a key in flight hold its present count. */
  ghost predicate ReadsCurrent(s: State, k: Key) {
    k in s.counters && forall t | Reads(s, t, k) :: s.inFlight[t].1 == Count(s.counters[k])
  }

  /** A run writes the row of a key. */
  predicate WritesRow(s: State, trace: seq<Event>, k: Key)
    requires Legal(s, trace)
    decreases |trace|
  {
    trace != [] &&
    ((trace[0].Write? && s.inFlight[trace[0].task].0 == k) || WritesRow(Next(s, trace[0]), trace[1..], k))
  }

  lemma QuietStep(s: State, e: Event, k: Key)
    requires ReadsCurrent(s, k) && Enabled(s, e) && IsQuiet(e, k)
    ensures var t := Next(s, e);
      && ReadsCurrent(t, k) && t.counters[k] == s.counters[k]
      && (if e.Write? && s.inFlight[e.task].0 == k
          then k in t.table && t.table[k].value == Count(s.counters[k])
          else (k in t.table <==> k in s.table) && (k in s.table ==> t.table[k] == s.table[k]))
  {
    var t := Next(s, e);
    assert forall u :: Reads(t, u, k) ==> Reads(s, u, k) || (e.ReadCounter? && u == e.task);
    if e.Write? && s.inFlight[e.task].0 == k {
      assert Reads(s, e.task, k);
    }
  }

  /** However flushes interleave while a key is quiet, its row is exact at the end exactly
      if it was at the start or some flush wrote it. */
  lemma {:induction false} QuietRunIsExact(s: State, trace: seq<Event>, k: Key)
    requires ReadsCurrent(s, k) && Legal(s, trace) && Quiet(trace, k)
    ensures var t := After(s, trace);
      && k in t.counters && t.counters[k] == s.counters[k]
      && (Exact(t, k) <==> Exact(s, k) || WritesRow(s, trace, k))
    decreases |trace|
  {
    hide ReadsCurrent, Next, Enabled, IsQuiet;
    CurrentCounts(s, k);
    if trace != [] {
      var e, rest := trace[0], trace[1..];
      QuietStep(s, e, k);
      forall i | 0 <= i < |rest| ensures IsQuiet(rest[i], k) {
        assert rest[i] == trace[i + 1];
      }
      CurrentCounts(Next(s, e), k);
      QuietRunIsExact(Next(s, e), rest, k);
    }
  }

  lemma CurrentCounts(s: State, k: Key)
    requires ReadsCurrent(s, k)
    ensures k in s.counters
  {
  }

  /** A counter name that is only flushed: no read in flight is out of date, and from then
      on nothing is counted under it or published as a duration. */
  ghost predicate OnlyFlushed(s: State, rest: seq<Event>, name: Name) {
    && (forall k: Key | k.1 == name :: Quiet(rest, k))
    && (forall k | k in s.counters && k.1 == name :: ReadsCurrent(s, k))
  }

  lemma {:induction false} QuietCountsNothingNew(s: State, trace: seq<Event>, k: Key)
    requires Legal(s, trace) && Quiet(trace, k) && k !in s.counters
    ensures k !in After(s, trace).counters
    decreases |trace|
  {
    if trace != [] {
      var rest := trace[1..];
      assert IsQuiet(trace[0], k);
      forall i | 0 <= i < |rest| ensures IsQuiet(rest[i], k) {
        assert rest[i] == trace[i + 1];
      }
      QuietCountsNothingNew(Next(s, trace[0]), rest, k);
    }
  }

  /** After any run, and then any interleaving of flushes without further counting, the
      snapshot is exact if and only if every worker's row was, or some flush wrote it. */
  lemma FlushedSnapshotIsExact(trace: seq<Event>, rest: seq<Event>, name: Name)
    requires Legal(EMPTY, trace) && Legal(After(EMPTY, trace), rest) && OnlyFlushed(After(EMPTY, trace), rest, name)
    ensures var s := After(EMPTY, trace);
      var t := After(s, rest);
      && TrueTotal(t, name) == TrueTotal(s, name)
      && (Reported(t, None, name) == TrueTotal(t, name) <==>
          forall k | k in s.counters && k.1 == name :: Exact(s, k) || WritesRow(s, rest, k))
  {
    hide Legal, After, Exact, WritesRow, Quiet, ReadsCurrent;
    var s := After(EMPTY, trace);
    var t := After(s, rest);
    Continue(EMPTY, trace, rest);
    SnapshotNeverOvercounts(trace + rest, None, name);
    forall k: Key | k.1 == name
      ensures k in s.counters <==> k in t.counters
      ensures k in s.counters ==> t.counters[k] == s.counters[k] && (Exact(t, k) <==> Exact(s, k) || WritesRow(s, rest, k))
    {
      if k in s.counters {
        QuietRunIsExact(s, rest, k);
      } else {
        QuietCountsNothingNew(s, rest, k);
      }
    }
    assert CountersNamed(t, name) == CountersNamed(s, name);
  }

  // ------------------------------------------------------------------
  // A flush as a run
  // ------------------------------------------------------------------

  /** The counters and the timings of one worker. */
  function CountersOf(s: State, w: Worker): map<Name, int> {
    map k | k in s.counters && k.0 == w :: k.1 := s.counters[k]
  }

  function DurationsOf(s: State, w: Worker): map<Name, real> {
    map k | k in s.durations && k.0 == w :: k.1 := s.durations[k]
  }

  /** What a flush reads for a name. */
  function ValueOf(s: State, k: Key, timed: bool): Published
    requires if timed then k in s.durations else k in s.counters
  {
    if timed then Duration(s.durations[k]) else Count(s.counters[k])
  }

  predicate Readable(s: State, w: Worker, names: set<Name>, timed: bool) {
    forall n | n in names :: if timed then (w, n) in s.durations else (w, n) in s.counters
  }

  /** Only the rows of these names have changed, to what the worker holds. */
  ghost predicate WrittenFor(s: State, t: State, w: Worker, names: set<Name>, timed: bool, at: int)
    requires Readable(s, w, names, timed)
  {
    && t.counters == s.counters && t.durations == s.durations && t.inFlight == s.inFlight
    && (forall n | n in names :: (w, n) in t.table && t.table[(w, n)] == Record(ValueOf(s, (w, n), timed), at))
    && (forall k | k in s.table :: k in t.table)
    && (forall k | k in t.table && !(k.0 == w && k.1 in names) :: k in s.table && t.table[k] == s.table[k])
  }

  lemma WriteOne(s: State, w: Worker, name: Name, timed: bool, task: Task, at: int) returns (trace: seq<Event>)
    requires task !in s.inFlight && Readable(s, w, {name}, timed)
    ensures Legal(s, trace) && WrittenFor(s, After(s, trace), w, {name}, timed, at)
  {
    NothingHappens(s);
    assert name in {name};
    hide Legal, After;
    trace := Extend(s, [], if timed then ReadDuration(task, (w, name)) else ReadCounter(task, (w, name)));
    trace := Extend(s, trace, Write(task, at));
    assert s.inFlight[task := ((w, name), ValueOf(s, (w, name), timed))] - {task} == s.inFlight;
  }

  lemma {:induction false} WriteAll(s: State, w: Worker, names: set<Name>, timed: bool, task: Task, at: int)
    returns (trace: seq<Event>)
    requires task !in s.inFlight && Readable(s, w, names, timed)
    ensures Legal(s, trace) && WrittenFor(s, After(s, trace), w, names, timed, at)
    decreases |names|
  {
    NothingHappens(s);
    hide Legal, After;
    if names == {} {
      trace := [];
    } else {
      var n :| n in names;
      var rest := WriteAll(s, w, names - {n}, timed, task, at);
      var one := WriteOne(After(s, rest), w, n, timed, task, at);
      Continue(s, rest, one);
      trace := rest + one;
    }
  }

  /** First the counters, then the durations over them. */
  lemma TwoPasses(s: State, m: State, t: State, w: Worker, at: int)
    requires Readable(s, w, CountersOf(s, w).Keys, false) && WrittenFor(s, m, w, CountersOf(s, w).Keys, false, at)
    requires Readable(m, w, DurationsOf(s, w).Keys, true) && WrittenFor(m, t, w, DurationsOf(s, w).Keys, true, at)
    ensures FlushedTo(s.table, t.table, w, CountersOf(s, w), DurationsOf(s, w), at)
    ensures t.counters == s.counters && t.durations == s.durations && t.inFlight == s.inFlight
  {
  }

  lemma WorkerNames(s: State, w: Worker)
    ensures Readable(s, w, CountersOf(s, w).Keys, false) && Readable(s, w, DurationsOf(s, w).Keys, true)
    ensures forall n :: n in CountersOf(s, w) <==> (w, n) in s.counters
    ensures forall n :: n in DurationsOf(s, w) <==> (w, n) in s.durations
  {
  }

  lemma FlushedIsExact(s: State, t: State, w: Worker, at: int, name: Name)
    requires t.counters == s.counters && FlushedTo(s.table, t.table, w, CountersOf(s, w), DurationsOf(s, w), at)
    requires (w, name) in s.counters && s.counters[(w, name)] != 0
    ensures Exact(t, (w, name)) <==> (w, name) !in s.durations
  {
    WorkerNames(s, w);
  }

  /** A flush that nothing interleaves with is a run, and leaves what the sink's own flush
      leaves. Afterwards a counter of its worker is exact if and only if the worker does not
      also time that name: its row is then overwritten with the duration. */
  lemma FlushIsExactUnlessTimed(s: State, w: Worker, task: Task, at: int) returns (trace: seq<Event>)
    requires task !in s.inFlight
    ensures Legal(s, trace)
    ensures var t := After(s, trace);
      && t.counters == s.counters && t.durations == s.durations && t.inFlight == s.inFlight
      && FlushedTo(s.table, t.table, w, CountersOf(s, w), DurationsOf(s, w), at)
      && (forall name | (w, name) in s.counters && s.counters[(w, name)] != 0 ::
            Exact(t, (w, name)) <==> (w, name) !in s.durations)
  {
    WorkerNames(s, w);
    var first := WriteAll(s, w, CountersOf(s, w).Keys, false, task, at);
    var m := After(s, first);
    assert m.durations == s.durations && m.inFlight == s.inFlight;
    assert Readable(m, w, DurationsOf(s, w).Keys, true);
    hide Legal, After, WrittenFor, FlushedTo, Readable, CountersOf, DurationsOf, Exact;
    var second := WriteAll(m, w, DurationsOf(s, w).Keys, true, task, at);
    Continue(s, first, second);
    trace := first + second;
    TwoPasses(s, m, After(m, second), w, at);
    forall name | (w, name) in s.counters && s.counters[(w, name)] != 0
      ensures Exact(After(s, trace), (w, name)) <==> (w, name) !in s.durations
    {
      FlushedIsExact(s, After(s, trace), w, at, name);
    }
  }

  // ------------------------------------------------------------------
  // What retention hides
  // ------------------------------------------------------------------

  /** A write by a worker's own frozen clock. */
  predicate IsFrozenWrite(s: State, e: Event, born: Worker -> int) {
    e.Write? && e.task in s.inFlight ==> e.at == Frozen(born(s.inFlight[e.task].0.0)).Time(e.at)
  }

  ghost predicate FrozenWrites(s: State, trace: seq<Event>, born: Worker -> int)
    requires Legal(s, trace)
    decreases |trace|
  {
    trace == [] || (IsFrozenWrite(s, trace[0], born) && FrozenWrites(Next(s, trace[0]), trace[1..], born))
  }

  ghost predicate DatedByBirth(t: Table, born: Worker -> int) {
    forall k | k in t :: t[k].updatedAt == born(k.0)
  }

  lemma {:induction false} RowsAreDatedByBirth(s: State, trace: seq<Event>, born: Worker -> int)
    requires Legal(s, trace) && FrozenWrites(s, trace, born) && DatedByBirth(s.table, born)
    ensures DatedByBirth(After(s, trace).table, born)
    decreases |trace|
  {
    if trace != [] {
      RowsAreDatedByBirth(Next(s, trace[0]), trace[1..], born);
    }
  }

  /** Without live clocks retention does not look at the age of a row: after any run, and
      whenever it is taken, a snapshot leaves out exactly the workers constructed longer
      before the reader than the retention. So it is exact if and only if every worker that
      has counted something was not, and its row is up to date. */
  lemma FrozenRetention(
    trace: seq<Event>, born: Worker -> int, reader: Worker, readAt: int, retention: nat, name: Name)
    requires Legal(EMPTY, trace) && FrozenWrites(EMPTY, trace, born)
    ensures var s := After(EMPTY, trace);
      var cutoff := Some(Frozen(born(reader)).Time(readAt) - retention);
      && (forall k | k in s.table :: Shown(s.table[k], cutoff) <==> born(reader) - born(k.0) <= retention)
      && (Reported(s, cutoff, name) == TrueTotal(s, name) <==>
          forall k | k in s.counters && k.1 == name ::
            s.counters[k] == 0 || (Exact(s, k) && born(reader) - born(k.0) <= retention))
  {
    Reached(trace);
    RowsAreDatedByBirth(EMPTY, trace, born);
    var s := After(EMPTY, trace);
    hide Legal, After, FrozenWrites;
    var cutoff := Some(Frozen(born(reader)).Time(readAt) - retention);
    var a, b := CountRows(s.table, cutoff, name), CountersNamed(s, name);
    assert Below(a, b);
    SumBelow(a, b);
    if Covers(a, b) {
      forall k | k in s.counters && k.1 == name
        ensures s.counters[k] == 0 || (Exact(s, k) && born(reader) - born(k.0) <= retention)
      {
        assert k in b;
      }
    }
  }
}
