/** The working set of a request: the files touched last, within a fixed size. */
module ProjectTracking {
  import opened Basics
  import opened Wrappers
  import opened Texts

  datatype Touch = Touch(path: string, size: int)

  // ------------------------------------------------------------------
  // The least recently used order
  // ------------------------------------------------------------------

  predicate Touched(log: seq<Touch>, path: string) {
    exists i :: 0 <= i < |log| && log[i].path == path
  }

  /** The touches of a log that no later touch of the same path follows. */
  function LastTouches(log: seq<Touch>): seq<Touch> {
    if log == [] then []
    else if Touched(log[1..], log[0].path) then LastTouches(log[1..])
    else [log[0]] + LastTouches(log[1..])
  }

  function Removed(files: seq<Touch>, path: string): seq<Touch> {
    if files == [] then []
    else (if files[0].path == path then [] else [files[0]]) + Removed(files[1..], path)
  }

  /** One touch: the path moves to the end, and the oldest entries are evicted. */
  function Note(files: seq<Touch>, t: Touch, maxEntries: nat): seq<Touch> {
    Last(Removed(files, t.path) + [t], maxEntries)
  }

  function NoteAll(files: seq<Touch>, log: seq<Touch>, maxEntries: nat): seq<Touch> {
    if log == [] then files else Note(NoteAll(files, log[..|log| - 1], maxEntries), log[|log| - 1], maxEntries)
  }

  predicate DistinctPaths(files: seq<Touch>) {
    forall i, j | 0 <= i < j < |files| :: files[i].path != files[j].path
  }

  lemma {:induction false} RemovedAbsent(files: seq<Touch>, path: string)
    requires !Touched(files, path)
    ensures Removed(files, path) == files
  {
    if files != [] {
      assert files[0].path != path;
      forall i | 0 <= i < |files| - 1 ensures files[1..][i].path != path {
        assert files[1..][i] == files[i + 1];
      }
      RemovedAbsent(files[1..], path);
    }
  }

  lemma {:induction false} RemovedSum(a: seq<Touch>, b: seq<Touch>, path: string)
    ensures Removed(a + b, path) == Removed(a, path) + Removed(b, path)
  {
    if a == [] {
      assert a + b == b;
    } else {
      assert (a + b)[1..] == a[1..] + b;
      RemovedSum(a[1..], b, path);
    }
  }

  /** Removing a path from distinct entries removes at most one. */
  lemma {:induction false} RemovedLength(files: seq<Touch>, path: string)
    requires DistinctPaths(files)
    ensures |Removed(files, path)| == if Touched(files, path) then |files| - 1 else |files|
  {
    if !Touched(files, path) {
      RemovedAbsent(files, path);
    } else if files[0].path == path {
      forall i | 0 <= i < |files| - 1 ensures files[1..][i].path != path {
        assert files[1..][i] == files[i + 1];
      }
      RemovedAbsent(files[1..], path);
    } else {
      var i :| 0 <= i < |files| && files[i].path == path;
      assert files[1..][i - 1].path == path;
      RemovedLength(files[1..], path);
    }
  }

  /** A touch of a path replaces its last one and becomes the newest. */
  lemma {:induction false} LastTouchesPush(log: seq<Touch>, t: Touch)
    ensures LastTouches(log + [t]) == Removed(LastTouches(log), t.path) + [t]
  {
    if log == [] {
      assert (log + [t])[1..] == [];
    } else {
      var rest := log[1..];
      assert (log + [t])[1..] == rest + [t];
      LastTouchesPush(rest, t);
      TouchedPush(rest, t, log[0].path);
    }
  }

  lemma TouchedPush(log: seq<Touch>, t: Touch, path: string)
    ensures Touched(log + [t], path) <==> Touched(log, path) || t.path == path
  {
    if Touched(log, path) {
      var i :| 0 <= i < |log| && log[i].path == path;
      assert (log + [t])[i].path == path;
    }
    if t.path == path {
      assert (log + [t])[|log|].path == path;
    }
  }

  lemma {:induction false} LastTouchesAreDistinct(log: seq<Touch>)
    ensures DistinctPaths(LastTouches(log))
    ensures forall t | t in LastTouches(log) :: Touched(log, t.path)
  {
    if log != [] {
      LastTouchesAreDistinct(log[1..]);
      forall t | t in LastTouches(log[1..]) ensures Touched(log, t.path) {
        var i :| 0 <= i < |log[1..]| && log[1..][i].path == t.path;
        assert log[i + 1].path == t.path;
      }
      assert Touched(log, log[0].path);
    }
  }

  lemma LastIsTail<T>(a: seq<T>, b: seq<T>, n: nat)
    requires |b| <= n && (a == [] || |b| == n)
    ensures Last(a + b, n) == b
  {
    if a != [] {
      assert (a + b)[|a|..] == b;
    } else {
      assert a + b == b;
    }
  }

  lemma DistinctTail(files: seq<Touch>, k: nat)
    requires DistinctPaths(files) && k <= |files|
    ensures DistinctPaths(files[k..])
  {
  }

  /** Evicting early makes no difference to what is kept after the next touch. */
  lemma EvictionCommutes(all: seq<Touch>, t: Touch, n: nat)
    requires DistinctPaths(all)
    ensures Note(Last(all, n), t, n) == Last(Removed(all, t.path) + [t], n)
  {
    hide Removed, DistinctPaths;
    if |all| > n {
      var k := |all| - n;
      var early, recent := all[..k], all[k..];
      assert all == early + recent && recent == Last(all, n);
      DistinctTail(all, k);
      RemovedSum(early, recent, t.path);
      RemovedLength(recent, t.path);
      var rest := Removed(recent, t.path) + [t];
      assert Removed(all, t.path) + [t] == Removed(early, t.path) + rest;
      if |rest| == n {
        LastIsTail(Removed(early, t.path), rest, n);
      } else {
        assert |rest| == n + 1 && rest == [rest[0]] + rest[1..];
        assert Removed(early, t.path) + rest == (Removed(early, t.path) + [rest[0]]) + rest[1..];
        LastIsTail(Removed(early, t.path) + [rest[0]], rest[1..], n);
      }
    }
  }

  /** After any touches, with eviction at every one, the working set is the given number of
      distinct paths that were touched last, with their last sizes, in the order of those touches. */
  lemma {:induction false} WorkingSetIsMostRecent(log: seq<Touch>, maxEntries: nat)
    ensures NoteAll([], log, maxEntries) == Last(LastTouches(log), maxEntries)
  {
    if log != [] {
      var n := |log| - 1;
      WorkingSetIsMostRecent(log[..n], maxEntries);
      LastTouchesAreDistinct(log[..n]);
      EvictionCommutes(LastTouches(log[..n]), log[n], maxEntries);
      LastTouchesPush(log[..n], log[n]);
      assert log[..n] + [log[n]] == log;
    }
  }

  // ------------------------------------------------------------------
  // Tool results
  // ------------------------------------------------------------------

  datatype TrackedTool = ReadFile | ReadFiles | CreateFile | ModifyFile | AnalyzeProject | OtherTool

  datatype ToolResult = ToolResult(
    error: bool, path: Option<string>, size: Option<int>, sizeAfter: Option<int>,
    files: Option<seq<Touch>>, projectPath: Option<string>)

  function Single(r: ToolResult): seq<Touch> {
    if r.path.None? || r.path.value == "" then []
    else [Touch(r.path.value, if r.size.Some? then r.size.value else if r.sizeAfter.Some? then r.sizeAfter.value else 0)]
  }

  function TouchesOf(tool: TrackedTool, r: ToolResult): seq<Touch> {
    if r.error then []
    else if tool.ReadFile? || tool.CreateFile? || tool.ModifyFile? then Single(r)
    else if tool.ReadFiles? && r.files.Some? then r.files.value
    else []
  }

  function RootOf(root: Option<string>, tool: TrackedTool, r: ToolResult): Option<string> {
    if !r.error && tool.AnalyzeProject? && r.projectPath.Some? && r.projectPath.value != "" then r.projectPath else root
  }

  lemma {:induction false} NoteAllSum(files: seq<Touch>, log: seq<Touch>, more: seq<Touch>, maxEntries: nat)
    ensures NoteAll(files, log + more, maxEntries) == NoteAll(NoteAll(files, log, maxEntries), more, maxEntries)
  {
    if more == [] {
      assert log + more == log;
    } else {
      assert (log + more)[..|log + more| - 1] == log + more[..|more| - 1];
      NoteAllSum(files, log, more[..|more| - 1], maxEntries);
    }
  }

  /** What a result does to a working set: reading, creating or modifying a file makes it the
      newest with its size, or its size afterwards, reading several files makes each of them
      the newest in turn, and errors and other tools leave it. */
  lemma ResultIsNoted(log: seq<Touch>, tool: TrackedTool, r: ToolResult, maxEntries: nat)
    ensures var before, after := NoteAll([], log, maxEntries), NoteAll([], log + TouchesOf(tool, r), maxEntries);
      if r.error then after == before
      else
        match tool
        case ReadFile | CreateFile | ModifyFile =>
          (match r.path
           case None => after == before
           case Some(path) =>
             if path == "" then after == before
             else
               maxEntries > 0 ==>
                 && after != []
                 && after[|after| - 1] == Touch(path, match r.size case Some(n) => n
                                                      case None => match r.sizeAfter case Some(n) => n case None => 0))
        case ReadFiles => after == NoteAll(before, match r.files case Some(files) => files case None => [], maxEntries)
        case AnalyzeProject | OtherTool => after == before
  {
    NoteAllSum([], log, TouchesOf(tool, r), maxEntries);
    var before := NoteAll([], log, maxEntries);
    if |TouchesOf(tool, r)| == 1 {
      assert TouchesOf(tool, r)[..0] == [];
    }
  }

  /** The root is the last project that was analyzed without an error. */
  lemma RootIsAnalyzed(root: Option<string>, tool: TrackedTool, r: ToolResult)
    ensures RootOf(root, tool, r) != root ==> tool.AnalyzeProject? && !r.error && RootOf(root, tool, r) == r.projectPath
    ensures tool.AnalyzeProject? && !r.error && r.projectPath.Some? && r.projectPath.value != "" ==>
              RootOf(root, tool, r) == r.projectPath
  {
  }

  // ------------------------------------------------------------------
  // The description
  // ------------------------------------------------------------------

  const PREFIX := "Project context: "

  function Entry(format: int -> string, t: Touch): string {
    t.path + " (" + format(t.size) + ")"
  }

  /** The characters of a list of parts, each with two for its separator. */
  function PartChars(parts: seq<string>): nat {
    if parts == [] then 0 else PartChars(parts[..|parts| - 1]) + |parts[|parts| - 1]| + 2
  }

  function RootPart(root: Option<string>): seq<string> {
    if root.Some? then ["root=" + root.value] else []
  }

  function Entries(format: int -> string, newest: seq<Touch>): seq<string> {
    if newest == [] then [] else Entries(format, newest[..|newest| - 1]) + [Entry(format, newest[|newest| - 1])]
  }

  method RemovePath(files: seq<Touch>, path: string) returns (kept: seq<Touch>)
    ensures kept == Removed(files, path)
  {
    hide Removed;
    kept := [];
    for i := 0 to |files|
      invariant kept + Removed(files[i..], path) == Removed(files, path)
    {
      RemovedStep(files, path, i);
      if files[i].path != path {
        kept := kept + [files[i]];
      }
    }
    RemovedFromNone(path);
    assert files[|files|..] == [];
  }

  lemma RemovedFromNone(path: string)
    ensures Removed([], path) == []
  {
  }

  lemma RemovedStep(files: seq<Touch>, path: string, i: nat)
    requires i < |files|
    ensures Removed(files[i..], path) == (if files[i].path == path then [] else [files[i]]) + Removed(files[i + 1..], path)
  {
    assert files[i..][1..] == files[i + 1..];
  }

  lemma NoteAllPush(files: seq<Touch>, log: seq<Touch>, t: Touch, maxEntries: nat)
    ensures NoteAll(files, log + [t], maxEntries) == Note(NoteAll(files, log, maxEntries), t, maxEntries)
  {
    assert (log + [t])[..|log|] == log;
  }

  /** The entries appended in order up to the first that does not fit. */
  method AppendFitting(format: int -> string, items: seq<Touch>, first: seq<string>, maxChars: int)
    returns (parts: seq<string>, shown: nat)
    ensures shown <= |items|
    ensures parts == first + Entries(format, items[..shown])
    ensures shown > 0 ==> |PREFIX| + PartChars(parts) <= maxChars
    ensures shown < |items| ==> |PREFIX| + PartChars(first + Entries(format, items[..shown + 1])) > maxChars
  {
    hide Entry;
    parts, shown := first, 0;
    var total := |PREFIX|;
    for i := 0 to |first|
      invariant total == |PREFIX| + PartChars(first[..i])
    {
      assert first[..i + 1][..i] == first[..i];
      total := total + |first[i]| + 2;
    }
    assert first[..|first|] == first && items[..0] == [];
    while shown < |items|
      invariant shown <= |items|
      invariant parts == first + Entries(format, items[..shown])
      invariant total == |PREFIX| + PartChars(parts)
      invariant shown > 0 ==> total <= maxChars
    {
      hide Entries, PartChars;
      var entry := Entry(format, items[shown]);
      EntriesPush(format, items, shown);
      PartCharsPush(parts, entry);
      assert parts + [entry] == first + Entries(format, items[..shown + 1]);
      if total + |entry| + 2 > maxChars {
        return;
      }
      parts := parts + [entry];
      total := total + |entry| + 2;
      shown := shown + 1;
    }
  }

  class ProjectContextTracker {
    var files: seq<Touch>
    var projectPath: Option<string>
    const maxEntries: nat
    const maxChars: int
    /** All touches so far. */
    ghost var log: seq<Touch>

    constructor (maxEntries: nat, maxChars: int)
      ensures Valid() && log == [] && projectPath.None?
      ensures this.maxEntries == maxEntries && this.maxChars == maxChars
    {
      this.maxEntries, this.maxChars := maxEntries, maxChars;
      files, projectPath, log := [], None, [];
    }

    ghost predicate Valid()
      reads this
    {
      && files == NoteAll([], log, maxEntries)
      && (projectPath.Some? ==> projectPath.value != "")
    }

    method Remember(path: string, size: int)
      requires Valid()
      modifies this`files, this`log
      ensures Valid() && log == old(log) + [Touch(path, size)]
    {
      hide NoteAll;
      var kept := RemovePath(files, path);
      files := kept + [Touch(path, size)];
      ghost var all := files;
      while |files| > maxEntries
        invariant log == old(log) && |files| <= |all| && files == all[|all| - |files|..]
        invariant |files| == |all| || |files| >= maxEntries
      {
        files := files[1..];
      }
      NoteAllPush([], log, Touch(path, size), maxEntries);
      log := log + [Touch(path, size)];
    }

    method NoteToolResult(tool: TrackedTool, r: ToolResult)
      requires Valid()
      modifies this
      ensures Valid()
      ensures log == old(log) + TouchesOf(tool, r)
      ensures projectPath == RootOf(old(projectPath), tool, r)
    {
      hide NoteAll;
      if r.error {
        return;
      }
      match tool {
        case AnalyzeProject =>
          if r.projectPath.Some? && |r.projectPath.value| > 0 {
            projectPath := r.projectPath;
          }
        case ReadFiles =>
          if r.files.Some? {
            var touched := r.files.value;
            for i := 0 to |touched|
              invariant Valid() && projectPath == old(projectPath)
              invariant log == old(log) + touched[..i]
            {
              Remember(touched[i].path, touched[i].size);
            }
            assert touched[..|touched|] == touched;
          }
        case OtherTool =>
        case _ =>
          if r.path.Some? && |r.path.value| > 0 {
            Remember(r.path.value, if r.size.Some? then r.size.value else if r.sizeAfter.Some? then r.sizeAfter.value else 0);
          }
      }
    }

    /** The description: the root always, then the newest files up to the first that does
        not fit; nothing at all without root and files. */
    method Describe(format: int -> string) returns (description: Option<string>, ghost shown: nat)
      ensures description.None? <==> files == [] && projectPath.None?
      ensures description.Some? ==>
        && IsDescription(format, files, projectPath, maxChars, shown)
        && description.value == "Project context: " + Join(", ", RootPart(projectPath) + Entries(format, Shown(files, shown)))
    {
      shown := 0;
      if |files| == 0 && projectPath.None? {
        return None, 0;
      }
      var items := Reversed(files);
      ReversedLength(files);
      var parts, k := AppendFitting(format, items, RootPart(projectPath), maxChars);
      shown := k;
      description := Some(PREFIX + Join(", ", parts));
    }
  }

  /** The newest files first. */
  function Shown(files: seq<Touch>, shown: nat): seq<Touch> {
    var newest := Reversed(files);
    if shown <= |newest| then newest[..shown] else newest
  }

  lemma RootChars(root: Option<string>)
    ensures PartChars(RootPart(root)) == if root.Some? then |RootPart(root)[0]| + 2 else 0
  {
    if root.Some? {
      assert RootPart(root)[..0] == [];
    }
  }

  lemma EntriesPush(format: int -> string, items: seq<Touch>, i: nat)
    requires i < |items|
    ensures Entries(format, items[..i + 1]) == Entries(format, items[..i]) + [Entry(format, items[i])]
  {
    assert items[..i + 1][..i] == items[..i];
  }

  lemma PartCharsPush(parts: seq<string>, part: string)
    ensures PartChars(parts + [part]) == PartChars(parts) + |part| + 2
  {
    assert (parts + [part])[..|parts|] == parts;
  }

  /** The number of files shown: they fit within the limit, if there are any, and the next
      would not. */
  predicate IsDescription(format: int -> string, files: seq<Touch>, root: Option<string>, maxChars: int, shown: nat) {
    && shown <= |files|
    && (shown > 0 ==> |PREFIX| + PartChars(RootPart(root) + Entries(format, Shown(files, shown))) <= maxChars)
    && (shown < |files| ==> |PREFIX| + PartChars(RootPart(root) + Entries(format, Shown(files, shown + 1))) > maxChars)
  }

  lemma {:induction false} JoinedParts(parts: seq<string>)
    ensures |Join(", ", parts)| == if parts == [] then 0 else PartChars(parts) - 2
  {
    if |parts| == 1 {
      assert parts[..0] == [];
    } else if |parts| > 1 {
      JoinedParts(parts[..|parts| - 1]);
    }
  }

  lemma {:induction false} EntryAt(format: int -> string, newest: seq<Touch>, i: nat)
    requires i < |newest|
    ensures |Entries(format, newest)| == |newest|
    ensures Entries(format, newest)[i] == newest[i].path + " (" + format(newest[i].size) + ")"
  {
    var n := |newest| - 1;
    if i < n {
      EntryAt(format, newest[..n], i);
    } else if n > 0 {
      EntryAt(format, newest[..n], 0);
    }
  }

  lemma {:induction false} ReversedAt(files: seq<Touch>, i: nat)
    requires i < |files|
    ensures |Reversed(files)| == |files| && Reversed(files)[i] == files[|files| - 1 - i]
  {
    if |files| > 1 {
      ReversedAt(files[1..], if i < |files| - 1 then i else 0);
    }
  }

  /** The parts of a description are the root, if there is one, and then the paths and sizes
      of the files touched last, the newest first. */
  lemma DescriptionReads(format: int -> string, files: seq<Touch>, root: Option<string>, shown: nat, i: nat)
    requires i < shown <= |files|
    ensures var parts := RootPart(root) + Entries(format, Shown(files, shown));
      var first := if root.Some? then 1 else 0;
      var t := files[|files| - 1 - i];
      && |parts| == first + shown
      && (root.Some? ==> parts[0] == "root=" + root.value)
      && parts[first + i] == t.path + " (" + format(t.size) + ")"
  {
    ReversedLength(files);
    ReversedAt(files, i);
    EntryAt(format, Shown(files, shown), i);
    hide Entries, Reversed;
  }

  /** The description is within the limit less two characters, unless the prefix and the
      root alone are longer. */
  lemma DescriptionIsBounded(format: int -> string, files: seq<Touch>, root: Option<string>, maxChars: int, shown: nat)
    requires IsDescription(format, files, root, maxChars, shown)
    ensures |PREFIX + Join(", ", RootPart(root) + Entries(format, Shown(files, shown)))| <=
            Max(maxChars - 2, if root.Some? then 22 + |root.value| else 17)
  {
    hide Entry;
    var parts := RootPart(root) + Entries(format, Shown(files, shown));
    JoinedParts(parts);
    RootChars(root);
    if shown == 0 {
      assert Shown(files, 0) == [];
      assert parts == RootPart(root);
    } else {
      ReversedLength(files);
      EntriesPush(format, Reversed(files), shown - 1);
    }
  }
}
