/** Pruning of tool results: the older ones give way to one-line stubs until the rest fits. */
module ToolResults {
  import opened Basics
  import opened Wrappers
  import opened History

  // ------------------------------------------------------------------
  // Recognizing tool results
  // ------------------------------------------------------------------

  const PREFIX := "Tool '"
  const STUB_SUFFIX := ": [earlier result omitted]"
  const RESULT_MARK := "' result:"

  function IndexOf(text: string, c: char, from: nat): Option<nat>
    requires from <= |text|
    ensures IndexOf(text, c, from).Some? ==>
      && from <= IndexOf(text, c, from).value < |text| && text[IndexOf(text, c, from).value] == c
      && c !in text[from..IndexOf(text, c, from).value]
    ensures IndexOf(text, c, from).None? ==> c !in text[from..]
    decreases |text| - from
  {
    if from == |text| then None
    else if text[from] == c then Some(from)
    else IndexOf(text, c, from + 1)
  }

  predicate Contains(text: string, part: string) {
    part <= text || (text != [] && Contains(text[1..], part))
  }

  predicate IsToolResult(content: string) {
    PREFIX <= content && Contains(content, RESULT_MARK)
  }

  /** What stands between the first two quotes. */
  function ToolName(content: string): string {
    match IndexOf(content, '\'', 0)
    case None => "tool"
    case Some(quote) =>
      match IndexOf(content, '\'', quote + 1)
      case None => "tool"
      case Some(end) => content[quote + 1..end]
  }

  function Stub(content: string): string {
    PREFIX + ToolName(content) + "'" + STUB_SUFFIX
  }

  lemma NameHasNoQuote(content: string)
    ensures '\'' !in ToolName(content)
  {
  }

  /** The stub of a stub is that stub. */
  lemma StubIsStable(content: string)
    ensures Stub(Stub(content)) == Stub(content)
  {
    var name := ToolName(content);
    var stub := Stub(content);
    NameHasNoQuote(content);
    assert stub[..5] == "Tool " && stub[5] == '\'' && stub[6..6 + |name|] == name && stub[6 + |name|] == '\'';
    FirstIndex(stub, '\'', 0, 5);
    FirstIndex(stub, '\'', 6, 6 + |name|);
  }

  lemma {:induction false} FirstIndex(text: string, c: char, from: nat, i: nat)
    requires from <= i < |text| && text[i] == c && c !in text[from..i]
    ensures IndexOf(text, c, from) == Some(i)
    decreases i - from
  {
    if from < i {
      assert text[from] == text[from..i][0];
      FirstIndex(text, c, from + 1, i);
    }
  }

  lemma {:induction false} ContainsIff(text: string, part: string)
    ensures Contains(text, part) <==> exists i: nat :: i <= |text| && part <= text[i..]
  {
    assert text[0..] == text;
    if !(part <= text) && text != [] {
      ContainsIff(text[1..], part);
      if Contains(text[1..], part) {
        var i: nat :| i <= |text[1..]| && part <= text[1..][i..];
        assert text[i + 1..] == text[1..][i..];
      }
      if i: nat :| i <= |text| && part <= text[i..] {
        assert i > 0;
        assert text[i..] == text[1..][i - 1..];
      }
    }
  }

  /** A message is a result if and only if it starts as one and has the mark somewhere. */
  lemma ResultIff(content: string)
    ensures IsToolResult(content) <==>
      "Tool '" <= content && exists i: nat :: i <= |content| && "' result:" <= content[i..]
  {
    ContainsIff(content, RESULT_MARK);
  }

  lemma NameIsQuoted(content: string, name: string, rest: string)
    requires content == "Tool '" + name + "'" + rest && '\'' !in name
    ensures ToolName(content) == name
  {
    hide IndexOf;
    var n := 6 + |name|;
    assert content[..5] == "Tool " && content[5] == '\'' && content[6..n] == name && content[n] == '\'';
    assert content[0..5] == "Tool ";
    FirstIndex(content, '\'', 0, 5);
    FirstIndex(content, '\'', 6, n);
  }

  /** The result of a tool is recognized, and its stub names that tool. */
  lemma StubNamesTool(name: string, rest: string)
    requires '\'' !in name
    ensures var content := "Tool '" + name + "' result:" + rest;
      IsToolResult(content) && Stub(content) == "Tool '" + name + "': [earlier result omitted]"
  {
    hide IsToolResult, ToolName;
    var content := "Tool '" + name + "' result:" + rest;
    assert content == "Tool '" + name + "'" + (" result:" + rest);
    NameIsQuoted(content, name, " result:" + rest);
    assert content[6 + |name|..] == "' result:" + rest;
    ResultIff(content);
  }

  // ------------------------------------------------------------------
  // Which results may be pruned
  // ------------------------------------------------------------------

  function IndicesFrom(messages: seq<ConversationTurn>, i: nat): seq<nat>
    requires i <= |messages|
    decreases |messages| - i
  {
    if i == |messages| then []
    else (if IsToolResult(messages[i].content) then [i] else []) + IndicesFrom(messages, i + 1)
  }

  function Prunable(messages: seq<ConversationTurn>, keepRecent: int): seq<nat> {
    var indices := IndicesFrom(messages, 0);
    if |indices| <= keepRecent then []
    else if keepRecent > 0 then indices[..|indices| - keepRecent]
    else indices
  }

  /** A result that may be pruned: at least `keepRecent` others follow it. */
  predicate IsOld(messages: seq<ConversationTurn>, keepRecent: int, i: nat) {
    i < |messages| && IsToolResult(messages[i].content) && |IndicesFrom(messages, i + 1)| >= keepRecent
  }

  function OldFrom(messages: seq<ConversationTurn>, keepRecent: int, i: nat): seq<nat>
    requires i <= |messages|
    decreases |messages| - i
  {
    if i == |messages| then []
    else (if IsOld(messages, keepRecent, i) then [i] else []) + OldFrom(messages, keepRecent, i + 1)
  }

  lemma {:induction false} AllButRecent(messages: seq<ConversationTurn>, keepRecent: nat, i: nat)
    requires i <= |messages|
    ensures var indices := IndicesFrom(messages, i);
      OldFrom(messages, keepRecent, i) == if |indices| <= keepRecent then [] else indices[..|indices| - keepRecent]
    decreases |messages| - i
  {
    hide IsToolResult;
    if i < |messages| {
      AllButRecent(messages, keepRecent, i + 1);
      var rest := IndicesFrom(messages, i + 1);
      if |rest| >= keepRecent {
        assert ([i] + rest)[..|rest| + 1 - keepRecent] == [i] + rest[..|rest| - keepRecent];
      }
    }
  }

  ghost predicate Sorted(p: seq<nat>) {
    forall j, k | 0 <= j < k < |p| :: p[j] < p[k]
  }

  ghost predicate Within(p: seq<nat>, low: nat, high: nat) {
    forall k | 0 <= k < |p| :: low <= p[k] < high
  }

  lemma {:induction false} OldIsSorted(messages: seq<ConversationTurn>, keepRecent: int, i: nat)
    requires i <= |messages|
    ensures Sorted(OldFrom(messages, keepRecent, i)) && Within(OldFrom(messages, keepRecent, i), i, |messages|)
    decreases |messages| - i
  {
    hide IsOld;
    if i < |messages| {
      OldIsSorted(messages, keepRecent, i + 1);
    }
  }

  lemma {:induction false} OldIsListed(messages: seq<ConversationTurn>, keepRecent: int, i: nat, j: nat)
    requires i <= j < |messages|
    ensures j in OldFrom(messages, keepRecent, i) <==> IsOld(messages, keepRecent, j)
    decreases |messages| - i
  {
    hide IsOld;
    if i < j {
      OldIsListed(messages, keepRecent, i + 1, j);
    } else {
      OldIsSorted(messages, keepRecent, i + 1);
    }
  }

  /** The results that may be pruned are the old ones, in order. */
  lemma PrunableAreOld(messages: seq<ConversationTurn>, keepRecent: int)
    ensures var p := Prunable(messages, keepRecent);
      && Sorted(p) && Within(p, 0, |messages|)
      && (forall i | 0 <= i < |messages| :: i in p <==> IsOld(messages, keepRecent, i))
  {
    PrunableIsOldFrom(messages, keepRecent);
    hide IsOld, Prunable;
    OldIsSorted(messages, keepRecent, 0);
    forall i | 0 <= i < |messages| ensures i in Prunable(messages, keepRecent) <==> IsOld(messages, keepRecent, i) {
      OldIsListed(messages, keepRecent, 0, i);
    }
  }

  lemma PrunableIsOldFrom(messages: seq<ConversationTurn>, keepRecent: int)
    ensures Prunable(messages, keepRecent) == OldFrom(messages, keepRecent, 0)
  {
    hide IsToolResult;
    if keepRecent >= 0 {
      AllButRecent(messages, keepRecent, 0);
      var indices := IndicesFrom(messages, 0);
      assert indices[..|indices|] == indices;
    } else {
      NegativeKeepsNone(messages, keepRecent, 0);
    }
  }

  lemma {:induction false} NegativeKeepsNone(messages: seq<ConversationTurn>, keepRecent: int, i: nat)
    requires i <= |messages| && keepRecent < 0
    ensures OldFrom(messages, keepRecent, i) == IndicesFrom(messages, i)
    decreases |messages| - i
  {
    hide IsToolResult;
    if i < |messages| {
      NegativeKeepsNone(messages, keepRecent, i + 1);
    }
  }

  // ------------------------------------------------------------------
  // Pruning
  // ------------------------------------------------------------------

  /** The messages, how many results were pruned, and how many characters that saved. */
  datatype Outcome = Outcome(messages: seq<ConversationTurn>, prunedCount: nat, charsSaved: nat)

  function Saved(content: string): int {
    |content| - |Stub(content)|
  }

  /** One result is replaced by its stub, if that is shorter. */
  function PruneOne(o: Outcome, i: nat): Outcome
    requires i < |o.messages|
  {
    var original := o.messages[i];
    if Saved(original.content) <= 0 then o
    else
      Outcome(o.messages[i := ConversationTurn(original.role, Stub(original.content))], o.prunedCount + 1,
              o.charsSaved + Saved(original.content))
  }

  ghost function PruneEach(o: Outcome, prunable: seq<nat>, total: int, maxTotalChars: int): Outcome
    requires Within(prunable, 0, |o.messages|)
    decreases |prunable|
  {
    if prunable == [] || total <= maxTotalChars then o
    else
      PruneEach(PruneOne(o, prunable[0]), prunable[1..], total - Max(Saved(o.messages[prunable[0]].content), 0), maxTotalChars)
  }

  function ToolChars(messages: seq<ConversationTurn>): nat {
    if messages == [] then 0
    else
      var n := |messages| - 1;
      ToolChars(messages[..n]) + (if IsToolResult(messages[n].content) then |messages[n].content| else 0)
  }

  ghost function Pruned(messages: seq<ConversationTurn>, maxTotalChars: int, keepRecent: int): Outcome {
    PrunableAreOld(messages, keepRecent);
    PruneEach(Outcome(messages, 0, 0), Prunable(messages, keepRecent), ToolChars(messages), maxTotalChars)
  }

  method FindToolResults(messages: seq<ConversationTurn>) returns (indices: seq<nat>)
    ensures indices == IndicesFrom(messages, 0)
  {
    indices := [];
    for i := 0 to |messages|
      invariant indices + IndicesFrom(messages, i) == IndicesFrom(messages, 0)
    {
      if IsToolResult(messages[i].content) {
        indices := indices + [i];
      }
    }
  }

  method CountToolChars(messages: seq<ConversationTurn>) returns (total: nat)
    ensures total == ToolChars(messages)
  {
    hide IsToolResult;
    total := 0;
    for i := 0 to |messages|
      invariant total == ToolChars(messages[..i])
    {
      assert messages[..i + 1][..i] == messages[..i];
      if IsToolResult(messages[i].content) {
        total := total + |messages[i].content|;
      }
    }
    assert messages[..|messages|] == messages;
  }

  method PruneToolResults(messages: seq<ConversationTurn>, maxTotalChars: int, keepRecent: int) returns (o: Outcome)
    ensures o == Pruned(messages, maxTotalChars, keepRecent)
  {
    hide IsToolResult, Stub, IndicesFrom, ToolChars, PruneEach;
    o := Outcome(messages, 0, 0);
    var indices := FindToolResults(messages);
    PrunableAreOld(messages, keepRecent);
    if |indices| <= keepRecent {
      NothingToPrune(o, ToolChars(messages), maxTotalChars);
      return;
    }
    var prunable := if keepRecent > 0 then indices[..|indices| - keepRecent] else indices;
    var total: int := CountToolChars(messages);
    assert prunable == Prunable(messages, keepRecent) && prunable[0..] == prunable;
    for k := 0 to |prunable|
      invariant |o.messages| == |messages| && Within(prunable[k..], 0, |messages|)
      invariant PruneEach(o, prunable[k..], total, maxTotalChars) == Pruned(messages, maxTotalChars, keepRecent)
    {
      assert prunable[k..][1..] == prunable[k + 1..] && prunable[k..][0] == prunable[k];
      PruneNext(o, prunable[k..], total, maxTotalChars);
      if total <= maxTotalChars {
        return;
      }
      var original := o.messages[prunable[k]];
      var saved := |original.content| - |Stub(original.content)|;
      if saved > 0 {
        o := Outcome(o.messages[prunable[k] := ConversationTurn(original.role, Stub(original.content))],
                     o.prunedCount + 1, o.charsSaved + saved);
        total := total - saved;
      }
    }
    assert prunable[|prunable|..] == [];
    NothingToPrune(o, total, maxTotalChars);
  }

  lemma PruneNext(o: Outcome, rest: seq<nat>, total: int, maxTotalChars: int)
    requires rest != [] && Within(rest, 0, |o.messages|)
    ensures rest[0] < |o.messages| && Within(rest[1..], 0, |o.messages|)
    ensures PruneEach(o, rest, total, maxTotalChars) ==
            if total <= maxTotalChars then o
            else PruneEach(PruneOne(o, rest[0]), rest[1..], total - Max(Saved(o.messages[rest[0]].content), 0), maxTotalChars)
  {
    forall k | 0 <= k < |rest| - 1 ensures 0 <= rest[1..][k] < |o.messages| {
      assert rest[1..][k] == rest[k + 1];
    }
    hide Within, PruneOne, Saved;
  }

  lemma NothingToPrune(o: Outcome, total: int, maxTotalChars: int)
    ensures Within([], 0, |o.messages|) && PruneEach(o, [], total, maxTotalChars) == o
  {
  }

  // ------------------------------------------------------------------
  // What pruning keeps, saves and achieves
  // ------------------------------------------------------------------

  /** A message is as before, or it is the shorter stub of what was there. */
  predicate KeptOrStubbed(before: ConversationTurn, after: ConversationTurn) {
    after == before || (after == ConversationTurn(before.role, Stub(before.content)) && Saved(before.content) > 0)
  }

  lemma {:induction false} SumAfterUpdate(messages: seq<ConversationTurn>, i: nat, m: ConversationTurn)
    requires i < |messages|
    ensures SumOf(messages[i := m]) == SumOf(messages) - |messages[i].content| + |m.content|
  {
    var n := |messages| - 1;
    if i == n {
      assert messages[i := m][..n] == messages[..n];
    } else {
      assert messages[i := m][..n] == messages[..n][i := m];
      SumAfterUpdate(messages[..n], i, m);
    }
  }

  lemma StubNeverShrinks(content: string)
    ensures Saved(Stub(content)) == 0
  {
    StubIsStable(content);
  }

  lemma PruneOneChanges(o: Outcome, i: nat)
    requires i < |o.messages|
    ensures var r := PruneOne(o, i);
      && |r.messages| == |o.messages|
      && (forall j | 0 <= j < |o.messages| && j != i :: r.messages[j] == o.messages[j])
      && KeptOrStubbed(o.messages[i], r.messages[i])
      && Saved(r.messages[i].content) <= 0
      && r.charsSaved - o.charsSaved == Max(Saved(o.messages[i].content), 0)
      && r.charsSaved - o.charsSaved == SumOf(o.messages) - SumOf(r.messages)
      && (r.messages[i] != o.messages[i] <==> Saved(o.messages[i].content) > 0)
  {
    hide Stub, SumOf;
    StubNeverShrinks(o.messages[i].content);
    SumAfterUpdate(o.messages, i, ConversationTurn(o.messages[i].role, Stub(o.messages[i].content)));
  }

  /** Only what may be pruned changes, and the saving is what the messages got shorter. */
  lemma {:induction false} PruneEachChangesLittle(o: Outcome, prunable: seq<nat>, total: int, maxTotalChars: int)
    requires Sorted(prunable) && Within(prunable, 0, |o.messages|)
    ensures var r := PruneEach(o, prunable, total, maxTotalChars);
      && |r.messages| == |o.messages|
      && (forall i | 0 <= i < |o.messages| && i in prunable :: KeptOrStubbed(o.messages[i], r.messages[i]))
      && (forall i | 0 <= i < |o.messages| && i !in prunable :: r.messages[i] == o.messages[i])
      && r.charsSaved - o.charsSaved == SumOf(o.messages) - SumOf(r.messages)
      && o.charsSaved <= r.charsSaved
    decreases |prunable|
  {
    hide PruneOne, SumOf, Saved, Stub;
    if prunable != [] && total > maxTotalChars {
      var i, rest := prunable[0], prunable[1..];
      assert i !in rest && forall j | j in prunable :: j == i || j in rest;
      PruneOneChanges(o, i);
      PruneEachChangesLittle(PruneOne(o, i), rest, total - Max(Saved(o.messages[i].content), 0), maxTotalChars);
    }
  }

  /** Pruning goes on until the total fits or everything that would shrink is a stub. */
  lemma {:induction false} PruneEachFinishes(o: Outcome, prunable: seq<nat>, total: int, maxTotalChars: int)
    requires Sorted(prunable) && Within(prunable, 0, |o.messages|)
    ensures var r := PruneEach(o, prunable, total, maxTotalChars);
      && |r.messages| == |o.messages|
      && (total - (r.charsSaved - o.charsSaved) <= maxTotalChars
          || forall k | 0 <= k < |prunable| :: Saved(r.messages[prunable[k]].content) <= 0)
    decreases |prunable|
  {
    hide PruneOne, SumOf, Saved, Stub;
    if prunable != [] && total > maxTotalChars {
      var i, rest := prunable[0], prunable[1..];
      assert i !in rest && forall k | 0 < k < |prunable| :: prunable[k] == rest[k - 1];
      PruneOneChanges(o, i);
      var left := total - Max(Saved(o.messages[i].content), 0);
      PruneEachFinishes(PruneOne(o, i), rest, left, maxTotalChars);
      PruneEachChangesLittle(PruneOne(o, i), rest, left, maxTotalChars);
    }
  }

  ghost predicate SameAfter(o: Outcome, r: Outcome, prunable: seq<nat>, k: nat)
    requires |r.messages| == |o.messages| && Within(prunable, 0, |o.messages|)
  {
    forall j | k <= j < |prunable| :: r.messages[prunable[j]] == o.messages[prunable[j]]
  }

  lemma UnchangedSavesNothing(o: Outcome, prunable: seq<nat>, total: int, maxTotalChars: int)
    requires Sorted(prunable) && Within(prunable, 0, |o.messages|)
    ensures var r := PruneEach(o, prunable, total, maxTotalChars);
      && |r.messages| == |o.messages|
      && (SameAfter(o, r, prunable, 0) ==> r.charsSaved == o.charsSaved)
  {
    PruneEachChangesLittle(o, prunable, total, maxTotalChars);
    hide PruneEach, SumOf;
    var r := PruneEach(o, prunable, total, maxTotalChars);
    if SameAfter(o, r, prunable, 0) {
      assert r.messages == o.messages;
    }
  }

  /** The oldest go first: a result changes only when no older one can shrink any more,
      and the last one that changes was still needed. */
  lemma {:induction false} PruneEachIsThrifty(o: Outcome, prunable: seq<nat>, total: int, maxTotalChars: int, k: nat)
    requires Sorted(prunable) && Within(prunable, 0, |o.messages|) && k < |prunable|
    requires |PruneEach(o, prunable, total, maxTotalChars).messages| == |o.messages|
    requires PruneEach(o, prunable, total, maxTotalChars).messages[prunable[k]] != o.messages[prunable[k]]
    ensures var r := PruneEach(o, prunable, total, maxTotalChars);
      && total > maxTotalChars
      && (forall j | 0 <= j < k :: Saved(r.messages[prunable[j]].content) <= 0)
      && (SameAfter(o, r, prunable, k + 1) ==>
            total - (r.charsSaved - o.charsSaved) + Saved(o.messages[prunable[k]].content) > maxTotalChars)
    decreases |prunable|
  {
    hide PruneEach, PruneOne, SumOf, Saved, Stub;
    var r := PruneEach(o, prunable, total, maxTotalChars);
    var i, rest := prunable[0], prunable[1..];
    assert i !in rest && forall j | 0 < j < |prunable| :: prunable[j] == rest[j - 1];
    PruneNext(o, prunable, total, maxTotalChars);
    PruneOneChanges(o, i);
    var next := PruneOne(o, i);
    var left := total - Max(Saved(o.messages[i].content), 0);
    PruneEachChangesLittle(next, rest, left, maxTotalChars);
    if k > 0 {
      assert SameAfter(o, r, prunable, k + 1) ==> SameAfter(next, r, rest, k);
      PruneEachIsThrifty(next, rest, left, maxTotalChars, k - 1);
    } else {
      assert SameAfter(o, r, prunable, 1) ==> SameAfter(next, r, rest, 0);
      UnchangedSavesNothing(next, rest, left, maxTotalChars);
    }
  }

  /** The messages that differ. */
  function Changed(before: seq<ConversationTurn>, after: seq<ConversationTurn>): set<nat>
    requires |before| == |after|
  {
    set i: nat | i < |before| && before[i] != after[i]
  }

  lemma PruneOneCounts(o: Outcome, i: nat, r: seq<ConversationTurn>)
    requires i < |o.messages| == |r| && r[i] == PruneOne(o, i).messages[i]
    ensures var next := PruneOne(o, i);
      |next.messages| == |r| && next.prunedCount + |Changed(next.messages, r)| == o.prunedCount + |Changed(o.messages, r)|
  {
    hide Stub, SumOf;
    PruneOneChanges(o, i);
    var next := PruneOne(o, i);
    assert i !in Changed(next.messages, r);
    if next.messages[i] != o.messages[i] {
      assert Changed(o.messages, r) == Changed(next.messages, r) + {i};
    } else {
      assert Changed(o.messages, r) == Changed(next.messages, r);
    }
  }

  lemma {:induction false} PruneEachCounts(o: Outcome, prunable: seq<nat>, total: int, maxTotalChars: int)
    requires Sorted(prunable) && Within(prunable, 0, |o.messages|)
    ensures var r := PruneEach(o, prunable, total, maxTotalChars);
      |r.messages| == |o.messages| && r.prunedCount == o.prunedCount + |Changed(o.messages, r.messages)|
    decreases |prunable|
  {
    hide SumOf, Saved, Stub, PruneOne;
    var r := PruneEach(o, prunable, total, maxTotalChars);
    if prunable != [] && total > maxTotalChars {
      var i, rest := prunable[0], prunable[1..];
      PruneOneChanges(o, i);
      var next, left := PruneOne(o, i), total - Max(Saved(o.messages[i].content), 0);
      PruneEachCounts(next, rest, left, maxTotalChars);
      PruneEachChangesLittle(next, rest, left, maxTotalChars);
      assert i !in rest;
      PruneOneCounts(o, i, r.messages);
    } else {
      assert Changed(o.messages, r.messages) == {};
    }
  }

  /** The reported number is that of the messages that changed. */
  lemma PruningCountsChanges(messages: seq<ConversationTurn>, maxTotalChars: int, keepRecent: int)
    ensures var r := Pruned(messages, maxTotalChars, keepRecent);
      |r.messages| == |messages| && r.prunedCount == |Changed(messages, r.messages)|
  {
    PrunableAreOld(messages, keepRecent);
    PruneEachCounts(Outcome(messages, 0, 0), Prunable(messages, keepRecent), ToolChars(messages), maxTotalChars);
  }

  /** The messages that are results of tools. */
  function ResultsOf(messages: seq<ConversationTurn>): seq<ConversationTurn> {
    if messages == [] then []
    else
      var n := |messages| - 1;
      ResultsOf(messages[..n]) + if IsToolResult(messages[n].content) then [messages[n]] else []
  }

  /** What is measured against the budget is the characters of the results alone. */
  lemma {:induction false} OnlyResultsAreMeasured(messages: seq<ConversationTurn>)
    ensures ToolChars(messages) == SumOf(ResultsOf(messages))
  {
    hide IsToolResult;
    if messages != [] {
      var n := |messages| - 1;
      OnlyResultsAreMeasured(messages[..n]);
      var before := ResultsOf(messages[..n]);
      assert (before + [messages[n]])[..|before|] == before && before + [] == before;
    }
  }

  /** Length, roles, other messages and the newest results stay; a result that changes
      becomes its shorter stub; and the reported saving is exact. */
  lemma PruningKeepsTheRest(messages: seq<ConversationTurn>, maxTotalChars: int, keepRecent: int)
    ensures var r := Pruned(messages, maxTotalChars, keepRecent);
      && |r.messages| == |messages|
      && (forall i | 0 <= i < |messages| :: r.messages[i].role == messages[i].role)
      && (forall i | 0 <= i < |messages| :: KeptOrStubbed(messages[i], r.messages[i]))
      && (forall i | 0 <= i < |messages| && !IsOld(messages, keepRecent, i) :: r.messages[i] == messages[i])
      && r.charsSaved == SumOf(messages) - SumOf(r.messages)
  {
    hide IsOld, SumOf, Prunable, Stub, ToolChars;
    PrunableAreOld(messages, keepRecent);
    PruneEachChangesLittle(Outcome(messages, 0, 0), Prunable(messages, keepRecent), ToolChars(messages), maxTotalChars);
  }

  lemma {:induction false} StubsSaveToolChars(before: seq<ConversationTurn>, after: seq<ConversationTurn>)
    requires |after| == |before| && forall i | 0 <= i < |before| :: KeptOrStubbed(before[i], after[i])
    requires forall i | 0 <= i < |before| && !IsToolResult(before[i].content) :: after[i] == before[i]
    ensures ToolChars(after) <= ToolChars(before) - (SumOf(before) - SumOf(after))
  {
    hide IsToolResult, Stub;
    if before != [] {
      var n := |before| - 1;
      StubsSaveToolChars(before[..n], after[..n]);
    }
  }

  /** Afterwards the tool results fit, or no old one could be any shorter. */
  lemma PruningFitsOrExhausts(messages: seq<ConversationTurn>, maxTotalChars: int, keepRecent: int)
    ensures var r := Pruned(messages, maxTotalChars, keepRecent);
      && |r.messages| == |messages|
      && (ToolChars(r.messages) <= maxTotalChars
          || forall i | 0 <= i < |messages| && IsOld(messages, keepRecent, i) :: Saved(r.messages[i].content) <= 0)
  {
    PruningKeepsTheRest(messages, maxTotalChars, keepRecent);
    var r := Pruned(messages, maxTotalChars, keepRecent);
    assert forall i | 0 <= i < |messages| && !IsToolResult(messages[i].content) :: !IsOld(messages, keepRecent, i);
    hide IsOld, SumOf, Prunable, Stub, IsToolResult, ToolChars;
    PrunableAreOld(messages, keepRecent);
    PruneEachFinishes(Outcome(messages, 0, 0), Prunable(messages, keepRecent), ToolChars(messages), maxTotalChars);
    StubsSaveToolChars(messages, r.messages);
  }

  /** The oldest go first, and no more than needed: when a result changed, none older can
      shrink any more, and if none newer changed, the total did not fit without it. */
  lemma PruningIsThrifty(messages: seq<ConversationTurn>, maxTotalChars: int, keepRecent: int, j: nat)
    requires j < |messages| && |Pruned(messages, maxTotalChars, keepRecent).messages| == |messages|
    requires Pruned(messages, maxTotalChars, keepRecent).messages[j] != messages[j]
    ensures var r := Pruned(messages, maxTotalChars, keepRecent);
      && (forall i | 0 <= i < j && IsOld(messages, keepRecent, i) :: Saved(r.messages[i].content) <= 0)
      && ((forall i | j < i < |messages| :: r.messages[i] == messages[i]) ==>
            ToolChars(messages) - r.charsSaved + Saved(messages[j].content) > maxTotalChars)
  {
    PruningKeepsTheRest(messages, maxTotalChars, keepRecent);
    hide Stub, IsToolResult, ToolChars, Saved, Prunable, PruneEach, IsOld, SumOf;
    PrunableAreOld(messages, keepRecent);
    var prunable := Prunable(messages, keepRecent);
    assert j in prunable;
    var b :| 0 <= b < |prunable| && prunable[b] == j;
    PruneEachIsThrifty(Outcome(messages, 0, 0), prunable, ToolChars(messages), maxTotalChars, b);
    forall i | 0 <= i < j && IsOld(messages, keepRecent, i)
      ensures Saved(Pruned(messages, maxTotalChars, keepRecent).messages[i].content) <= 0
    {
      var a :| 0 <= a < |prunable| && prunable[a] == i;
      assert a < b;
    }
  }

  lemma {:induction false} NothingLeftToPrune(o: Outcome, prunable: seq<nat>, total: int, maxTotalChars: int)
    requires Within(prunable, 0, |o.messages|)
    requires total <= maxTotalChars || forall k | 0 <= k < |prunable| :: Saved(o.messages[prunable[k]].content) <= 0
    ensures PruneEach(o, prunable, total, maxTotalChars) == o
    decreases |prunable|
  {
    hide Stub;
    if prunable != [] {
      NothingLeftToPrune(o, prunable[1..], total, maxTotalChars);
    }
  }

  lemma {:induction false} NotMoreLater(before: seq<ConversationTurn>, after: seq<ConversationTurn>, i: nat)
    requires |after| == |before| && i <= |before|
    requires forall j | 0 <= j < |before| && !IsToolResult(before[j].content) :: after[j] == before[j]
    ensures |IndicesFrom(after, i)| <= |IndicesFrom(before, i)|
    decreases |before| - i
  {
    hide IsToolResult;
    if i < |before| {
      NotMoreLater(before, after, i + 1);
    }
  }

  lemma OldWasOld(before: seq<ConversationTurn>, after: seq<ConversationTurn>, keepRecent: int, i: nat)
    requires |after| == |before|
    requires forall j | 0 <= j < |before| && !IsToolResult(before[j].content) :: after[j] == before[j]
    requires IsOld(after, keepRecent, i)
    ensures IsOld(before, keepRecent, i)
  {
    hide IsToolResult;
    NotMoreLater(before, after, i + 1);
  }

  /** Pruning what was pruned changes nothing, even where a stub still looks like a result. */
  lemma PruningIsIdempotent(messages: seq<ConversationTurn>, maxTotalChars: int, keepRecent: int)
    ensures var r := Pruned(messages, maxTotalChars, keepRecent);
      Pruned(r.messages, maxTotalChars, keepRecent) == Outcome(r.messages, 0, 0)
  {
    PruningKeepsTheRest(messages, maxTotalChars, keepRecent);
    PruningFitsOrExhausts(messages, maxTotalChars, keepRecent);
    var r := Pruned(messages, maxTotalChars, keepRecent);
    assert forall i | 0 <= i < |messages| && !IsToolResult(messages[i].content) :: !IsOld(messages, keepRecent, i);
    hide IsOld, SumOf, Prunable, Stub, IsToolResult, ToolChars;
    PrunableAreOld(r.messages, keepRecent);
    var prunable := Prunable(r.messages, keepRecent);
    forall i | i in prunable ensures IsOld(messages, keepRecent, i) {
      OldWasOld(messages, r.messages, keepRecent, i);
    }
    NothingLeftToPrune(Outcome(r.messages, 0, 0), prunable, ToolChars(r.messages), maxTotalChars);
  }
}
