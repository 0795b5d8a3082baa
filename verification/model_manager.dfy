/** The model registry and the part of the model manager that picks fallbacks:
    reliability counters, candidate filtering, the failure history, and the
    instance a chosen provider name really resolves to. */
module ModelManagement {
  import opened Basics
  import opened Wrappers

  // ------------------------------------------------------------------
  // Registry entries
  // ------------------------------------------------------------------

  datatype ModelStatus = Unknown | Checking | Verified | Slow | Limited | Unavailable | Unreliable | Offline

  /** The registry key "provider:model". */
  datatype Key = Key(provider: string, model: string)

  datatype Entry = Entry(key: Key, status: ModelStatus, successes: nat, failures: nat, total: nat)
  {
    /** Only these statuses may serve as a fallback. */
    predicate Live() {
      status.Verified? || status.Slow? || status.Unknown?
    }

    predicate WellCounted() {
      total == successes + failures
    }
  }

  function Succeeded(e: Entry): Entry {
    e.(successes := e.successes + 1, total := e.total + 1)
  }

  /** A failure; five of them at a reliability below 0.3 retire the entry. */
  function FailedOnce(e: Entry): Entry {
    var f := e.(failures := e.failures + 1, total := e.total + 1);
    if f.failures >= 5 && 10 * f.successes < 3 * f.total then f.(status := Unreliable) else f
  }

  class ModelEntry {
    const key: Key
    var status: ModelStatus
    var successCount: nat
    var failureCount: nat
    var totalRequests: nat

    ghost function View(): Entry
      reads this
    {
      Entry(key, status, successCount, failureCount, totalRequests)
    }

    constructor (key: Key)
      ensures View() == Entry(key, Unknown, 0, 0, 0)
    {
      this.key := key;
      status := Unknown;
      successCount, failureCount, totalRequests := 0, 0, 0;
    }

    method RecordSuccess()
      modifies this
      ensures View() == Succeeded(old(View()))
    {
      successCount := successCount + 1;
      totalRequests := totalRequests + 1;
    }

    method RecordFailure()
      modifies this
      ensures View() == old(View()).(failures := old(failureCount) + 1, total := old(totalRequests) + 1)
    {
      failureCount := failureCount + 1;
      totalRequests := totalRequests + 1;
    }
  }

  /** Registry keys are dictionary keys. */
  ghost predicate Distinct(es: seq<Entry>) {
    forall i, j | 0 <= i < j < |es| :: es[i].key != es[j].key
  }

  function Find(es: seq<Entry>, k: Key): (r: Option<nat>)
    ensures r.Some? ==> r.value < |es| && es[r.value].key == k
    ensures r.None? ==> forall i | 0 <= i < |es| :: es[i].key != k
  {
    if es == [] then None
    else if es[|es| - 1].key == k then Some(|es| - 1)
    else Find(es[..|es| - 1], k)
  }

  function SuccessAt(es: seq<Entry>, k: Key): (r: seq<Entry>)
    ensures |r| == |es| && forall i | 0 <= i < |es| :: r[i].key == es[i].key
  {
    match Find(es, k)
    case Some(i) => es[i := Succeeded(es[i])]
    case None => es
  }

  function FailureAt(es: seq<Entry>, k: Key): (r: seq<Entry>)
    ensures |r| == |es| && forall i | 0 <= i < |es| :: r[i].key == es[i].key
  {
    match Find(es, k)
    case Some(i) => es[i := FailedOnce(es[i])]
    case None => es
  }

  // ------------------------------------------------------------------
  // Fallback selection
  // ------------------------------------------------------------------

  function Filter(es: seq<Entry>, p: Entry -> bool): seq<Entry> {
    if es == [] then []
    else Filter(es[..|es| - 1], p) + if p(es[|es| - 1]) then [es[|es| - 1]] else []
  }

  lemma {:induction false} FilterMeaning(es: seq<Entry>, p: Entry -> bool)
    ensures forall e :: e in Filter(es, p) <==> e in es && p(e)
  {
    if es != [] {
      FilterMeaning(es[..|es| - 1], p);
    }
  }

  predicate IsVerified(e: Entry) { e.status.Verified? }
  predicate IsAvailable(e: Entry) { !e.status.Unavailable? }
  predicate IsLocal(e: Entry) { (e.key.provider == "ollama" || e.key.provider == "opencode") && IsAvailable(e) }

  function Candidates(es: seq<Entry>, online: bool, preferVerified: bool): seq<Entry> {
    if !online then Filter(es, IsLocal)
    else if preferVerified && Filter(es, IsVerified) != [] then Filter(es, IsVerified)
    else Filter(es, IsAvailable)
  }

  const MAX_FALLBACK_ATTEMPTS := 3

  predicate Eligible(e: Entry, failed: Key, recent: seq<Key>, blocked: set<string>) {
    e.key != failed && e.key !in recent && e.key.provider !in blocked && e.Live()
  }

  function FirstEligible(es: seq<Entry>, failed: Key, recent: seq<Key>, blocked: set<string>): Option<Key> {
    if es == [] then None
    else if Eligible(es[0], failed, recent, blocked) then Some(es[0].key)
    else FirstEligible(es[1..], failed, recent, blocked)
  }

  lemma {:induction false} FirstEligibleMeaning(es: seq<Entry>, failed: Key, recent: seq<Key>, blocked: set<string>)
    ensures var r := FirstEligible(es, failed, recent, blocked);
            && (r.Some? ==> exists e | e in es :: e.key == r.value && Eligible(e, failed, recent, blocked))
            && (r.None? ==> forall e | e in es :: !Eligible(e, failed, recent, blocked))
  {
    if es != [] && !Eligible(es[0], failed, recent, blocked) {
      FirstEligibleMeaning(es[1..], failed, recent, blocked);
    }
  }

  /** The failure history is appended to and, once past 30 entries, cut to its last 50. */
  function Remembered(history: seq<Key>, failed: Key): seq<Key> {
    var h := history + [failed];
    if |h| > MAX_FALLBACK_ATTEMPTS * 10 then Last(h, 50) else h
  }

  function Recent(history: seq<Key>): seq<Key> {
    Last(history, MAX_FALLBACK_ATTEMPTS)
  }

  // ------------------------------------------------------------------
  // Instances
  // ------------------------------------------------------------------

  /** A provider object: its own name, its model, and whether assigning the model works. */
  datatype Instance = Instance(name: string, model: string, switchable: bool)

  datatype Setting = Local | Remote | Auto | Deterministic

  datatype Manager = Manager(
    entries: seq<Entry>,
    history: seq<Key>,
    instances: map<string, Instance>,
    setting: Setting,
    selected: Option<string>,
    manual: bool,
    initialized: bool)
  {
    ghost predicate Valid() {
      Distinct(entries) && forall e | e in entries :: e.WellCounted()
    }
  }

  const DETERMINISTIC_PROVIDER: Instance := Instance("deterministic", "", true)

  function FirstInstance(instances: map<string, Instance>, names: seq<string>): Option<Instance> {
    if names == [] then None
    else if names[0] in instances then Some(instances[names[0]])
    else FirstInstance(instances, names[1..])
  }

  function AutoSelect(setting: Setting, instances: map<string, Instance>): Option<Instance> {
    match setting
    case Local => FirstInstance(instances, ["ollama"])
    case Remote => FirstInstance(instances, ["gemini", "nvidia", "opencode"])
    case Auto =>
      var r := FirstInstance(instances, ["ollama", "gemini", "nvidia", "opencode"]);
      if r.Some? then r else Some(DETERMINISTIC_PROVIDER)
    case Deterministic => Some(DETERMINISTIC_PROVIDER)
  }

  /** The object a provider name resolves to: its own instance, or outside manual
      mode whatever automatic selection finds. */
  function Resolve(m: Manager, name: string): Option<Instance> {
    var wanted := if name != "" then Some(name) else m.selected;
    match wanted
    case None => AutoSelect(m.setting, m.instances)
    case Some(n) =>
      if n in m.instances then Some(m.instances[n])
      else if m.manual then None
      else AutoSelect(m.setting, m.instances)
  }

  /** Where execution really lands when `target` is assigned to that instance. */
  function Landing(inst: Instance, target: Key): Key {
    Key(inst.name, if inst.switchable then target.model else inst.model)
  }

  /** Choosing this key makes this very key run. */
  predicate LandsOn(m: Manager, k: Key) {
    var r := Resolve(m, k.provider);
    r.Some? && Landing(r.value, k) == k
  }

  /** Every entry that may be chosen is run by an instance of its own. */
  ghost predicate Backed(m: Manager) {
    forall e | e in m.entries && e.Live() :: LandsOn(m, e.key)
  }

  /** The pick for a failed key; the history is updated whether or not there is one. */
  function Fallback(m: Manager, failed: Key, blocked: set<string>, online: bool): (r: (Manager, Option<Key>)) {
    var h := Remembered(m.history, failed);
    (m.(history := h),
     FirstEligible(Candidates(m.entries, online, true), failed, Recent(h), blocked))
  }

  // ------------------------------------------------------------------
  // What a pick guarantees
  // ------------------------------------------------------------------

  function RememberedAll(failures: seq<Key>): seq<Key> {
    if failures == [] then []
    else Remembered(RememberedAll(failures[..|failures| - 1]), failures[|failures| - 1])
  }

  lemma LastRemembered(failures: seq<Key>, failed: Key)
    ensures Remembered(Last(failures, 50), failed) == Last(failures + [failed], 50)
  {
    var h, n := Last(failures, 50), |failures|;
    if n >= 50 {
      assert (h + [failed])[1..] == (failures + [failed])[n - 49..];
    }
  }

  /** After any failures the history is exactly the last 50 of them. */
  lemma {:induction false} HistoryIsLastFifty(failures: seq<Key>)
    ensures RememberedAll(failures) == Last(failures, 50)
    ensures |RememberedAll(failures)| == Min(|failures|, 50)
  {
    hide Remembered;
    if failures != [] {
      var n := |failures| - 1;
      HistoryIsLastFifty(failures[..n]);
      hide Last;
      LastRemembered(failures[..n], failures[n]);
      assert failures[..n] + [failures[n]] == failures;
    }
  }

  /** One more failure makes the history one longer up to 50, and trimming never hides one
      of the three failures that the next pick must avoid. */
  lemma HistoryIsBounded(history: seq<Key>, failed: Key)
    ensures |Remembered(history, failed)| == Min(|history| + 1, 50)
    ensures Recent(Remembered(history, failed)) == Last(history + [failed], 3)
  {
  }

  /** A pick is a live registered entry, is none of the three most recent failures
      (the present one included), and belongs to no blocked provider. There is no
      pick exactly when no candidate qualifies. */
  lemma PickIsTrustworthy(m: Manager, failed: Key, blocked: set<string>, online: bool)
    ensures var pick := Fallback(m, failed, blocked, online).1;
            pick.Some? ==>
              && (exists e | e in m.entries :: e.key == pick.value && e.Live())
              && pick.value !in Last(m.history + [failed], 3)
              && pick.value != failed
              && pick.value.provider !in blocked
    ensures var pick := Fallback(m, failed, blocked, online).1;
            pick.None? <==>
              forall e | e in Candidates(m.entries, online, true) ::
                !(e.Live() && e.key.provider !in blocked && e.key !in Last(m.history + [failed], 3))
  {
    var recent := Recent(Remembered(m.history, failed));
    HistoryIsBounded(m.history, failed);
    var tail := Last(m.history + [failed], 3);
    assert tail[|tail| - 1] == failed;
    var candidates := Candidates(m.entries, online, true);
    FilterMeaning(m.entries, IsLocal);
    FilterMeaning(m.entries, IsVerified);
    FilterMeaning(m.entries, IsAvailable);
    FirstEligibleMeaning(candidates, failed, recent, blocked);
    forall e | e in candidates
      ensures Eligible(e, failed, recent, blocked) <==>
              e.Live() && e.key.provider !in blocked && e.key !in tail
    {
    }
  }

  // ------------------------------------------------------------------
  // Which entry is picked
  // ------------------------------------------------------------------

  /** The entries that may be picked at all: live local ones offline; online the live
      verified ones if there are verified ones, and otherwise all live ones. */
  predicate MayBePicked(es: seq<Entry>, online: bool, e: Entry) {
    && (e.status.Verified? || e.status.Slow? || e.status.Unknown?)
    && if online then e.status.Verified? || forall d | d in es :: !d.status.Verified?
       else e.key.provider == "ollama" || e.key.provider == "opencode"
  }

  /** And that are not among the last three failures, nor of a blocked provider. */
  predicate Qualifies(m: Manager, failed: Key, blocked: set<string>, online: bool, e: Entry) {
    MayBePicked(m.entries, online, e) && e.key.provider !in blocked && e.key !in Last(m.history + [failed], 3)
  }

  lemma {:induction false} FirstEligibleSum(
    a: seq<Entry>, b: seq<Entry>, failed: Key, recent: seq<Key>, blocked: set<string>)
    ensures FirstEligible(a + b, failed, recent, blocked) ==
      if FirstEligible(a, failed, recent, blocked).Some? then FirstEligible(a, failed, recent, blocked)
      else FirstEligible(b, failed, recent, blocked)
  {
    hide Eligible;
    if a == [] {
      assert a + b == b;
    } else {
      assert (a + b)[1..] == a[1..] + b;
      FirstEligibleSum(a[1..], b, failed, recent, blocked);
    }
  }

  /** The first entry, in the order of registration, that passes a filter and is eligible. */
  predicate IsFirstPick(es: seq<Entry>, p: Entry -> bool, i: nat) {
    i < |es| && p(es[i]) && forall j | 0 <= j < i :: !p(es[j])
  }

  lemma {:induction false} FilteredPickIsFirst(
    es: seq<Entry>, p: Entry -> bool, q: Entry -> bool, failed: Key, recent: seq<Key>, blocked: set<string>)
    requires forall e | e in es :: q(e) <==> p(e) && Eligible(e, failed, recent, blocked)
    ensures var r := FirstEligible(Filter(es, p), failed, recent, blocked);
      && (r.Some? ==> exists i: nat :: IsFirstPick(es, q, i) && es[i].key == r.value)
      && (r.None? ==> forall i | 0 <= i < |es| :: !q(es[i]))
  {
    hide Eligible;
    if es != [] {
      var n := |es| - 1;
      FilteredPickIsFirst(es[..n], p, q, failed, recent, blocked);
      FirstEligibleSum(Filter(es[..n], p), if p(es[n]) then [es[n]] else [], failed, recent, blocked);
      var before := FirstEligible(Filter(es[..n], p), failed, recent, blocked);
      assert es[n] in es && [es[n]][1..] == [];
      hide FirstEligible;
      if before.Some? {
        var i: nat :| IsFirstPick(es[..n], q, i) && es[..n][i].key == before.value;
        assert IsFirstPick(es, q, i);
      } else {
        assert forall j | 0 <= j < n :: es[..n][j] == es[j];
        OneEligible(es[n], failed, recent, blocked);
        assert q(es[n]) ==> IsFirstPick(es, q, n);
      }
    }
  }

  lemma OneEligible(e: Entry, failed: Key, recent: seq<Key>, blocked: set<string>)
    ensures FirstEligible([e], failed, recent, blocked) == if Eligible(e, failed, recent, blocked) then Some(e.key) else None
    ensures FirstEligible([], failed, recent, blocked) == None
  {
  }

  lemma CandidatesAreFiltered(es: seq<Entry>, online: bool) returns (p: Entry -> bool)
    ensures Candidates(es, online, true) == Filter(es, p)
    ensures forall e | e in es && e.Live() :: p(e) <==> MayBePicked(es, online, e)
  {
    FilterMeaning(es, IsVerified);
    var verified := Filter(es, IsVerified);
    assert verified == [] || verified[0] in verified;
    p := if !online then IsLocal else if verified != [] then IsVerified else IsAvailable;
  }

  /** A pick is the first entry in the order of registration that qualifies; there is none
      exactly if no entry does. */
  lemma PickIsFirst(m: Manager, failed: Key, blocked: set<string>, online: bool)
    ensures var pick := Fallback(m, failed, blocked, online).1;
      && (pick.Some? ==> exists i | 0 <= i < |m.entries| ::
            && m.entries[i].key == pick.value && Qualifies(m, failed, blocked, online, m.entries[i])
            && forall j | 0 <= j < i :: !Qualifies(m, failed, blocked, online, m.entries[j]))
      && (pick.None? ==> forall j | 0 <= j < |m.entries| :: !Qualifies(m, failed, blocked, online, m.entries[j]))
  {
    var recent := Recent(Remembered(m.history, failed));
    HistoryIsBounded(m.history, failed);
    var tail := Last(m.history + [failed], 3);
    assert tail[|tail| - 1] == failed;
    var p := CandidatesAreFiltered(m.entries, online);
    var q := (e: Entry) => Qualifies(m, failed, blocked, online, e);
    assert forall e | e in m.entries :: q(e) <==> p(e) && Eligible(e, failed, recent, blocked);
    hide Eligible, Qualifies, Filter, FirstEligible, Candidates;
    FilteredPickIsFirst(m.entries, p, q, failed, recent, blocked);
  }

  // ------------------------------------------------------------------
  // The reliability measure
  // ------------------------------------------------------------------

  /** Failures at which an entry with this many successes is retired. */
  function Threshold(successes: nat): nat {
    Max(5, 7 * successes / 3 + 1)
  }

  /** How many more failures a live entry survives, counting the one that retires it. */
  function Room(e: Entry): nat {
    if e.Live() then Max(1, Threshold(e.successes) - e.failures) else 0
  }

  function TotalRoom(es: seq<Entry>): nat {
    if es == [] then 0 else TotalRoom(es[..|es| - 1]) + Room(es[|es| - 1])
  }

  /** The threshold is exact: a failure retires a live entry exactly when it is reached. */
  lemma RetiredAtThreshold(e: Entry)
    requires e.WellCounted() && e.Live()
    ensures FailedOnce(e).Live() <==> e.failures + 1 < Threshold(e.successes)
    ensures FailedOnce(e) == e.(failures := e.failures + 1, total := e.total + 1, status := FailedOnce(e).status)
    ensures FailedOnce(e).status == if FailedOnce(e).Live() then e.status else Unreliable
    ensures FailedOnce(e).WellCounted()
    ensures Room(FailedOnce(e)) == Room(e) - 1
  {
  }

  lemma {:induction false} TotalRoomUpdate(es: seq<Entry>, i: nat, e: Entry)
    requires i < |es|
    ensures TotalRoom(es[i := e]) == TotalRoom(es) - Room(es[i]) + Room(e)
  {
    var init := es[..|es| - 1];
    if i == |es| - 1 {
      assert es[i := e][..|es| - 1] == init;
    } else {
      assert es[i := e][..|es| - 1] == init[i := e];
      TotalRoomUpdate(init, i, e);
    }
  }

  /** One failure costs the registry one unit of room if the entry it hits is
      live, and never adds any; no other entry changes. */
  lemma FailureCostsRoom(m: Manager, k: Key)
    requires m.Valid()
    ensures var m' := m.(entries := FailureAt(m.entries, k));
            && m'.Valid()
            && TotalRoom(m'.entries) <= TotalRoom(m.entries)
            && ((exists e | e in m.entries :: e.key == k && e.Live()) ==>
                 TotalRoom(m'.entries) == TotalRoom(m.entries) - 1)
            && (forall e | e in m.entries && e.key != k :: e in m'.entries)
            && (forall e | e in m'.entries :: e.key != k ==> e in m.entries)
            && (forall e | e in m'.entries && e.Live() :: exists d | d in m.entries :: d.key == e.key && d.Live())
  {
    var es := m.entries;
    match Find(es, k) {
      case None =>
      case Some(i) =>
        var es' := FailureAt(es, k);
        TotalRoomUpdate(es, i, FailedOnce(es[i]));
        assert es[i] in es;
        if es[i].Live() {
          RetiredAtThreshold(es[i]);
        }
        forall e | e in es && e.key == k ensures e == es[i] {
          var j :| 0 <= j < |es| && es[j] == e;
        }
        forall e | e in es && e.key != k ensures e in es' {
          var j :| 0 <= j < |es| && es[j] == e;
          assert es'[j] == e;
        }
        forall e | e in es' ensures e in es || e == FailedOnce(es[i]) {
        }
        forall e | e in es' && e.Live() ensures exists d | d in es :: d.key == e.key && d.Live() {
          if e !in es {
            assert es[i].Live();
          }
        }
    }
  }

  /** One success never costs room: it is counted for the entry it names, whose status
      stays, and no other entry changes. */
  lemma SuccessCostsNothing(m: Manager, k: Key)
    requires m.Valid()
    ensures var m' := m.(entries := SuccessAt(m.entries, k));
      && m'.Valid()
      && TotalRoom(m.entries) <= TotalRoom(m'.entries)
      && |m'.entries| == |m.entries|
      && forall i | 0 <= i < |m.entries| ::
           m'.entries[i] ==
           if m.entries[i].key == k
           then m.entries[i].(successes := m.entries[i].successes + 1, total := m.entries[i].total + 1) else m.entries[i]
  {
    match Find(m.entries, k) {
      case None =>
      case Some(i) =>
        TotalRoomUpdate(m.entries, i, Succeeded(m.entries[i]));
        assert forall e | e in SuccessAt(m.entries, k) :: e in m.entries || e == Succeeded(m.entries[i]);
        assert m.entries[i] in m.entries;
        hide TotalRoom;
    }
  }

  /** Which instance a name finds: its own; in manual mode no other; and otherwise, or without
      any name, what the setting prefers among those there are. */
  lemma ResolveMeaning(m: Manager, name: string)
    ensures var wanted := if name != "" then Some(name) else m.selected;
      && (wanted.Some? && wanted.value in m.instances ==> Resolve(m, name) == Some(m.instances[wanted.value]))
      && (wanted.Some? && wanted.value !in m.instances && m.manual ==> Resolve(m, name) == None)
      && (wanted.None? || (wanted.value !in m.instances && !m.manual) ==>
            Resolve(m, name) == AutoSelect(m.setting, m.instances))
  {
  }

  lemma PreferredInstance(m: Manager)
    ensures AutoSelect(m.setting, m.instances) ==
      if m.setting.Deterministic? then Some(Instance("deterministic", "", true))
      else if "ollama" in m.instances && !m.setting.Remote? then Some(m.instances["ollama"])
      else if m.setting.Local? then None
      else if "gemini" in m.instances then Some(m.instances["gemini"])
      else if "nvidia" in m.instances then Some(m.instances["nvidia"])
      else if "opencode" in m.instances then Some(m.instances["opencode"])
      else if m.setting.Remote? then None else Some(Instance("deterministic", "", true))
  {
    FirstInstanceCons(m.instances, "ollama", ["gemini", "nvidia", "opencode"]);
    FirstInstanceCons(m.instances, "gemini", ["nvidia", "opencode"]);
    FirstInstanceCons(m.instances, "nvidia", ["opencode"]);
    FirstInstanceCons(m.instances, "opencode", []);
    FirstInstanceCons(m.instances, "ollama", []);
    assert ["ollama"] + ["gemini", "nvidia", "opencode"] == ["ollama", "gemini", "nvidia", "opencode"];
    assert ["gemini"] + ["nvidia", "opencode"] == ["gemini", "nvidia", "opencode"];
    assert ["nvidia"] + ["opencode"] == ["nvidia", "opencode"];
    assert ["opencode"] + [] == ["opencode"] && ["ollama"] + [] == ["ollama"];
  }

  lemma FirstInstanceCons(instances: map<string, Instance>, name: string, rest: seq<string>)
    ensures FirstInstance(instances, [name] + rest) ==
            if name in instances then Some(instances[name]) else FirstInstance(instances, rest)
  {
    assert ([name] + rest)[1..] == rest;
  }

  // ------------------------------------------------------------------
  // Discovery backs every entry
  // ------------------------------------------------------------------

  datatype Discovered = Discovered(name: string, models: seq<string>, instance: Option<Instance>)

  function Registered(es: seq<Entry>, k: Key): seq<Entry> {
    if Find(es, k).Some? then es else es + [Entry(k, Unknown, 0, 0, 0)]
  }

  function RegisteredAll(es: seq<Entry>, provider: string, models: seq<string>): seq<Entry> {
    if models == [] then es
    else Registered(RegisteredAll(es, provider, models[..|models| - 1]), Key(provider, models[|models| - 1]))
  }

  function Initialized(m: Manager, found: seq<Discovered>): Manager {
    if found == [] then m.(instances := map[], initialized := true)
    else
      var d := found[|found| - 1];
      var m' := Initialized(m, found[..|found| - 1]);
      m'.(instances := if d.instance.Some? then m'.instances[d.name := d.instance.value] else m'.instances,
          entries := RegisteredAll(m'.entries, d.name, d.models))
  }

  /** What the discovery code provides for every provider it enumerates models of. */
  ghost predicate SelfNamed(found: seq<Discovered>) {
    && (forall d | d in found :: d.name != "" && (d.models != [] ==> d.instance.Some?))
    && (forall d | d in found && d.instance.Some? :: d.instance.value.name == d.name && d.instance.value.switchable)
    && (forall i, j | 0 <= i < j < |found| :: found[i].name != found[j].name)
  }

  lemma {:induction false} RegisteringKeepsValidity(es: seq<Entry>, provider: string, models: seq<string>)
    requires Distinct(es) && forall e | e in es :: e.WellCounted()
    ensures var es' := RegisteredAll(es, provider, models);
            && Distinct(es')
            && (forall e | e in es' :: e.WellCounted())
            && (forall e | e in es' :: e in es || (e.key.provider == provider && models != []))
  {
    if models != [] {
      RegisteringKeepsValidity(es, provider, models[..|models| - 1]);
    }
  }

  lemma {:induction false} DiscoveryKeepsInstances(m: Manager, found: seq<Discovered>)
    requires m.entries == [] && SelfNamed(found)
    ensures var m' := Initialized(m, found);
            && m'.Valid()
            && (forall e | e in m'.entries ::
                  && e.key.provider in m'.instances
                  && e.key.provider != "")
            && (forall n | n in m'.instances ::
                  && m'.instances[n].name == n && m'.instances[n].switchable
                  && exists d | d in found :: d.name == n)
  {
    if found != [] {
      var d, rest := found[|found| - 1], found[..|found| - 1];
      assert forall e | e in rest :: e in found;
      assert SelfNamed(rest);
      DiscoveryKeepsInstances(m, rest);
      RegisteringKeepsValidity(Initialized(m, rest).entries, d.name, d.models);
      assert d in found;
    }
  }

  /** A freshly discovered registry is valid, and every entry of it is run by an
      instance of its own: the condition under which fallbacks are faithful. */
  lemma DiscoveryIsBacked(m: Manager, found: seq<Discovered>)
    requires m.entries == [] && SelfNamed(found)
    ensures Initialized(m, found).Valid() && Backed(Initialized(m, found))
  {
    DiscoveryKeepsInstances(m, found);
  }

  predicate IsFound(found: seq<Discovered>, k: Key) {
    exists i | 0 <= i < |found| :: found[i].name == k.provider && k.model in found[i].models
  }

  predicate HasKey(es: seq<Entry>, k: Key) {
    exists e | e in es :: e.key == k
  }

  ghost predicate AllUntried(es: seq<Entry>) {
    forall e | e in es :: e == Entry(e.key, Unknown, 0, 0, 0)
  }

  lemma {:induction false} RegisteringAdds(es: seq<Entry>, provider: string, models: seq<string>, k: Key)
    requires AllUntried(es)
    ensures var more := RegisteredAll(es, provider, models);
      AllUntried(more) && (HasKey(more, k) <==> HasKey(es, k) || (k.provider == provider && k.model in models))
  {
    if models != [] {
      var n := |models| - 1;
      RegisteringAdds(es, provider, models[..n], k);
      var before, key := RegisteredAll(es, provider, models[..n]), Key(provider, models[n]);
      assert k.model in models <==> k.model in models[..n] || k.model == models[n];
      assert HasKey(Registered(before, key), k) <==> HasKey(before, k) || k == key by {
        if Find(before, key).None? && k == key {
          assert Entry(key, Unknown, 0, 0, 0) in before + [Entry(key, Unknown, 0, 0, 0)];
        }
      }
    }
  }

  /** Discovery registers exactly the models that were found, all of them unknown and
      without any record of their own. */
  lemma {:induction false} DiscoveryRegistersFound(m: Manager, found: seq<Discovered>, k: Key)
    requires m.entries == []
    ensures var m' := Initialized(m, found);
      && AllUntried(m'.entries) && (HasKey(m'.entries, k) <==> IsFound(found, k))
      && m' == m.(entries := m'.entries, instances := m'.instances, initialized := true)
  {
    if found != [] {
      var n := |found| - 1;
      DiscoveryRegistersFound(m, found[..n], k);
      RegisteringAdds(Initialized(m, found[..n]).entries, found[n].name, found[n].models, k);
      hide HasKey, AllUntried, RegisteredAll;
      if IsFound(found[..n], k) {
        var i :| 0 <= i < n && found[..n][i].name == k.provider && k.model in found[..n][i].models;
        assert found[i] == found[..n][i];
      }
      if i :| 0 <= i < n && found[i].name == k.provider && k.model in found[i].models {
        assert found[..n][i] == found[i];
      }
    }
  }

  /** A name finds the instance that was discovered last under it. */
  lemma {:induction false} DiscoveryFindsInstances(m: Manager, found: seq<Discovered>, i: nat)
    requires i < |found| && found[i].instance.Some?
    requires forall j | i < j < |found| && found[j].name == found[i].name :: found[j].instance.None?
    ensures var instances := Initialized(m, found).instances;
      found[i].name in instances && instances[found[i].name] == found[i].instance.value
  {
    var n := |found| - 1;
    if i < n {
      DiscoveryFindsInstances(m, found[..n], i);
    }
  }

  lemma {:induction false} InstancesAreFound(m: Manager, found: seq<Discovered>, name: string)
    requires name in Initialized(m, found).instances
    ensures exists i | 0 <= i < |found| :: found[i].name == name && found[i].instance.Some?
  {
    if found != [] {
      var n := |found| - 1;
      if name in Initialized(m, found[..n]).instances {
        InstancesAreFound(m, found[..n], name);
        var i :| 0 <= i < n && found[..n][i].name == name && found[..n][i].instance.Some?;
        assert found[i] == found[..n][i];
      }
    }
  }

  lemma NothingFound(m: Manager)
    ensures Initialized(m, []) == m.(instances := map[], initialized := true)
  {
  }

  lemma OneMoreFound(m: Manager, found: seq<Discovered>, i: nat)
    requires i < |found|
    ensures var d, before := found[i], Initialized(m, found[..i]);
            Initialized(m, found[..i + 1]) ==
            before.(instances := if d.instance.Some? then before.instances[d.name := d.instance.value] else before.instances,
                    entries := RegisteredAll(before.entries, d.name, d.models))
  {
    assert found[..i + 1][..i] == found[..i];
  }

  lemma NoModels(es: seq<Entry>, provider: string)
    ensures RegisteredAll(es, provider, []) == es
  {
  }

  lemma OneMoreModel(es: seq<Entry>, provider: string, models: seq<string>, j: nat)
    requires j < |models|
    ensures RegisteredAll(es, provider, models[..j + 1]) ==
            Registered(RegisteredAll(es, provider, models[..j]), Key(provider, models[j]))
  {
    assert models[..j + 1][..j] == models[..j];
  }

  // ------------------------------------------------------------------
  // The manager object
  // ------------------------------------------------------------------

  ghost function Views(es: seq<ModelEntry>): (r: seq<Entry>)
    reads es
    ensures |r| == |es| && forall i | 0 <= i < |es| :: r[i] == es[i].View()
  {
    seq(|es|, i requires 0 <= i < |es| reads es => es[i].View())
  }

  class ModelManager {
    var entries: seq<ModelEntry>
    var fallbackHistory: seq<Key>
    var instances: map<string, Instance>
    var setting: Setting
    var selected: Option<string>
    var manual: bool
    var initialized: bool

    ghost function Repr(): set<object>
      reads this
    {
      {this as object} + (set e: ModelEntry | e in entries :: e as object)
    }

    ghost predicate Separate()
      reads this
    {
      forall i, j | 0 <= i < j < |entries| :: entries[i] != entries[j]
    }

    ghost function View(): Manager
      reads this, entries
    {
      Manager(Views(entries), fallbackHistory, instances, setting, selected, manual, initialized)
    }

    constructor (setting: Setting)
      ensures Separate() && fresh(Repr())
      ensures View() == Manager([], [], map[], setting, None, false, false)
    {
      entries, fallbackHistory, instances := [], [], map[];
      this.setting, selected, manual, initialized := setting, None, false, false;
    }

    method GetKey(k: Key) returns (e: ModelEntry?, ghost at: Option<nat>)
      requires Separate()
      ensures at == Find(View().entries, k)
      ensures at.None? ==> e == null
      ensures at.Some? ==> at.value < |entries| && e == entries[at.value]
      ensures e == null <==> forall x | x in entries :: x.key != k
      ensures e != null ==> e in entries && e.key == k
    {
      var i := |entries|;
      assert Views(entries)[..i] == Views(entries);
      while i > 0
        invariant 0 <= i <= |entries|
        invariant Find(Views(entries), k) == Find(Views(entries)[..i], k)
      {
        assert Views(entries)[..i][..i - 1] == Views(entries)[..i - 1];
        if entries[i - 1].key == k {
          return entries[i - 1], Some(i - 1);
        }
        i := i - 1;
      }
      e, at := null, None;
    }

    method Register(k: Key)
      requires Separate()
      modifies this`entries
      ensures Separate() && fresh(Repr() - old(Repr()))
      ensures View() == old(View()).(entries := Registered(old(View()).entries, k))
    {
      var e, at := GetKey(k);
      if e == null {
        ghost var before := Views(entries);
        var created := new ModelEntry(k);
        entries := entries + [created];
        assert Views(entries) == before + [created.View()];
      }
    }

    method RecordSuccess(k: Key)
      requires Separate()
      modifies entries
      ensures View() == old(View()).(entries := SuccessAt(old(View()).entries, k))
    {
      var e, at := GetKey(k);
      if e != null {
        e.RecordSuccess();
      }
      assert Views(entries) == SuccessAt(old(Views(entries)), k);
    }

    method RecordFailure(k: Key)
      requires Separate()
      modifies entries
      ensures View() == old(View()).(entries := FailureAt(old(View()).entries, k))
    {
      hide Find;
      var e, at := GetKey(k);
      if e != null {
        e.RecordFailure();
        if e.failureCount >= 5 && 10 * e.successCount < 3 * e.totalRequests {
          e.status := Unreliable;
        }
      }
      assert Views(entries) == FailureAt(old(Views(entries)), k);
    }

    /** One list comprehension over the registry. */
    method Select(p: Entry -> bool) returns (found: seq<ModelEntry>)
      ensures Views(found) == Filter(Views(entries), p)
      ensures forall e | e in found :: e in entries
    {
      found := [];
      for i := 0 to |entries|
        invariant Views(found) == Filter(Views(entries)[..i], p)
        invariant forall e | e in found :: e in entries
      {
        ghost var v := Views(entries);
        assert v[..i + 1][..i] == v[..i];
        var e := entries[i];
        if p(Entry(e.key, e.status, e.successCount, e.failureCount, e.totalRequests)) {
          ghost var before := Views(found);
          found := found + [e];
          assert Views(found) == before + [e.View()];
        }
      }
      assert Views(entries)[..|entries|] == Views(entries);
    }

    method GetCandidates(online: bool, preferVerified: bool) returns (found: seq<ModelEntry>)
      ensures Views(found) == Candidates(Views(entries), online, preferVerified)
      ensures forall e | e in found :: e in entries
    {
      if !online {
        found := Select(IsLocal);
        return;
      }
      if preferVerified {
        found := Select(IsVerified);
        if |found| > 0 {
          return;
        }
      }
      found := Select(IsAvailable);
    }

    /** The loop over the candidates: the first one that qualifies. */
    method FirstQualifying(candidates: seq<ModelEntry>, failed: Key, recent: seq<Key>, blocked: set<string>)
      returns (pick: Option<Key>)
      ensures pick == FirstEligible(Views(candidates), failed, recent, blocked)
    {
      ghost var all := Views(candidates);
      assert all[0..] == all;
      for i := 0 to |candidates|
        invariant FirstEligible(all, failed, recent, blocked) == FirstEligible(all[i..], failed, recent, blocked)
      {
        var e := candidates[i];
        assert all[i..][0] == e.View() && all[i..][1..] == all[i + 1..];
        if e.key == failed || e.key in recent {
          continue;
        }
        if e.key.provider in blocked {
          continue;
        }
        if e.status.Verified? || e.status.Slow? || e.status.Unknown? {
          return Some(e.key);
        }
      }
      pick := None;
    }

    method GetFallbackProvider(failed: Key, blocked: set<string>, online: bool) returns (pick: Option<Key>)
      modifies this`fallbackHistory
      ensures View() == Fallback(old(View()), failed, blocked, online).0
      ensures pick == Fallback(old(View()), failed, blocked, online).1
    {
      fallbackHistory := fallbackHistory + [failed];
      if |fallbackHistory| > MAX_FALLBACK_ATTEMPTS * 10 {
        fallbackHistory := Last(fallbackHistory, 50);
      }
      assert Views(entries) == old(Views(entries));
      assert fallbackHistory == Remembered(old(fallbackHistory), failed);
      var candidates := GetCandidates(online, true);
      pick := FirstQualifying(candidates, failed, Last(fallbackHistory, MAX_FALLBACK_ATTEMPTS), blocked);
    }

    method GetProviderInstance(name: string) returns (r: Option<Instance>)
      ensures r == Resolve(View(), name)
    {
      var wanted := if name != "" then Some(name) else selected;
      if wanted.None? {
        return AutoSelect(setting, instances);
      }
      if wanted.value in instances {
        return Some(instances[wanted.value]);
      }
      if manual {
        return None;
      }
      r := AutoSelect(setting, instances);
    }

    method Initialize(found: seq<Discovered>)
      requires Separate() && !initialized
      modifies this`entries, this`instances, this`initialized
      ensures Separate() && fresh(Repr() - old(Repr()))
      ensures View() == Initialized(old(View()), found)
    {
      hide Initialized, RegisteredAll;
      instances := map[];
      initialized := true;
      ghost var m := old(View());
      NothingFound(m);
      for i := 0 to |found|
        invariant Separate() && fresh(Repr() - old(Repr()))
        invariant View() == Initialized(m, found[..i])
      {
        var d := found[i];
        OneMoreFound(m, found, i);
        if d.instance.Some? {
          instances := instances[d.name := d.instance.value];
        }
        ghost var es := Views(entries);
        ghost var v := View();
        NoModels(es, d.name);
        for j := 0 to |d.models|
          invariant Separate() && fresh(Repr() - old(Repr()))
          invariant View() == v.(entries := RegisteredAll(es, d.name, d.models[..j]))
        {
          OneMoreModel(es, d.name, d.models, j);
          Register(Key(d.name, d.models[j]));
        }
        assert d.models[..|d.models|] == d.models;
      }
      assert found[..|found|] == found;
    }
  }
}
