/** The context assembler: the prompt pieces of one request within a character budget. */
module Assembler {
  import opened Basics
  import opened Wrappers
  import opened History
  import opened Summary

  datatype ContextBudget = ContextBudget(totalChars: int, historyChars: int)

  /** The attached files as their formatter left them. */
  datatype Attached = Attached(totalChars: nat, truncated: bool)

  datatype ContextStats = ContextStats(
    systemPromptChars: nat,
    historyChars: nat,
    toolResultsChars: nat,
    attachedFileChars: nat,
    projectContextChars: nat,
    totalChars: nat,
    droppedTurns: nat,
    droppedChars: nat,
    truncationApplied: bool,
    summaryUsed: bool)

  datatype AssembledContext = AssembledContext(
    systemPrompt: string,
    messages: seq<ConversationTurn>,
    stats: ContextStats)

  datatype Pieces = Pieces(
    systemPrompt: string, history: seq<Stored>, attached: Option<Attached>, projectContext: Option<string>, toolResultsChars: nat)

  function AttachedChars(pieces: Pieces): nat {
    if pieces.attached.Some? then pieces.attached.value.totalChars else 0
  }

  function ProjectChars(pieces: Pieces): nat {
    if pieces.projectContext.Some? then |pieces.projectContext.value| else 0
  }

  /** What must fit besides the history. */
  function Reserved(pieces: Pieces): nat {
    |pieces.systemPrompt| + pieces.toolResultsChars + AttachedChars(pieces) + ProjectChars(pieces)
  }

  const MIN_HEADROOM: nat := 512

  function HistoryBudget(budget: ContextBudget, pieces: Pieces): int {
    Min(Max(budget.historyChars, 0), Max(budget.totalChars - Reserved(pieces), MIN_HEADROOM))
  }

  /** The block that stands for the dropped turns. */
  function SummaryBlock(p: Patterns, h: HistoryBuildResult): Option<string> {
    if h.truncated && h.dropped != [] then Rendered(Summarized(p, h.dropped)) else None
  }

  method CountMessages(messages: seq<ConversationTurn>) returns (n: nat)
    ensures n == SumOf(messages)
  {
    n := 0;
    for i := 0 to |messages|
      invariant n == SumOf(messages[..i])
    {
      assert messages[..i + 1][..i] == messages[..i];
      n := n + |messages[i].content|;
    }
    assert messages[..|messages|] == messages;
  }

  class ContextAssembler {
    const budget: ContextBudget

    constructor (budget: ContextBudget)
      ensures this.budget == budget
    {
      this.budget := budget;
    }

    /** The assembled context; none when the history holds a turn that cannot be sent. */
    method Assemble(p: Patterns, pieces: Pieces) returns (r: Option<AssembledContext>)
      ensures r.None? <==> Built(pieces.history, HistoryBudget(budget, pieces)).None?
      ensures r.Some? ==> IsAssembled(p, budget, pieces, r.value)
    {
      hide Built, Rendered, Summarized, SumOf;
      var finalSystemPrompt := pieces.systemPrompt;
      var reserved := |pieces.systemPrompt| + pieces.toolResultsChars;
      reserved := reserved + AttachedChars(pieces);
      reserved := reserved + ProjectChars(pieces);
      var historyBudget := Max(budget.historyChars, 0);
      var headroom := Max(budget.totalChars - reserved, MIN_HEADROOM);
      var built := BuildHistory(pieces.history, Min(historyBudget, headroom));
      if built.None? {
        return None;
      }
      var history := built.value;
      var summaryUsed := false;
      if history.truncated && |history.dropped| > 0 {
        var summary := BuildSummaryFromTurns(p, history.dropped);
        var rendered := RenderSummary(summary);
        if rendered.Some? && |rendered.value| > 0 {
          finalSystemPrompt := finalSystemPrompt + "\n" + rendered.value;
          summaryUsed := true;
        }
        RenderedIsShort(p, history.dropped);
      }
      var historyChars := CountMessages(history.messages);
      var stats := ContextStats(
        |finalSystemPrompt|, historyChars, pieces.toolResultsChars, AttachedChars(pieces), ProjectChars(pieces),
        |finalSystemPrompt| + historyChars + pieces.toolResultsChars + AttachedChars(pieces) + ProjectChars(pieces),
        |history.dropped|, history.droppedChars,
        history.truncated || (pieces.attached.Some? && pieces.attached.value.truncated), summaryUsed);
      r := Some(AssembledContext(finalSystemPrompt, history.messages, stats));
    }
  }

  /** The context is the built history behind the system prompt and the summary block,
      and the statistics measure it. */
  predicate IsAssembled(p: Patterns, budget: ContextBudget, pieces: Pieces, c: AssembledContext) {
    var built := Built(pieces.history, HistoryBudget(budget, pieces));
    && built.Some?
    && c.messages == built.value.messages
    && c.systemPrompt ==
       (match SummaryBlock(p, built.value)
        case None => pieces.systemPrompt
        case Some(block) => pieces.systemPrompt + "\n" + block)
    && c.stats == ContextStats(
         |c.systemPrompt|, SumOf(c.messages), pieces.toolResultsChars, AttachedChars(pieces), ProjectChars(pieces),
         |c.systemPrompt| + SumOf(c.messages) + pieces.toolResultsChars + AttachedChars(pieces) + ProjectChars(pieces),
         |built.value.dropped|, built.value.droppedChars,
         built.value.truncated || (pieces.attached.Some? && pieces.attached.value.truncated),
         SummaryBlock(p, built.value).Some?)
  }

  /** What a rendered summary can add to the system prompt, with its newline. */
  const MAX_SUMMARY: nat := 1 + MAX_RENDERED

  /** Whatever the history, the files and the patterns: the total is at most the budget, or
      what is reserved and 512, and a constant; the system prompt stays an intact prefix. */
  lemma ContextIsBounded(p: Patterns, budget: ContextBudget, pieces: Pieces, c: AssembledContext)
    requires IsAssembled(p, budget, pieces, c)
    ensures pieces.systemPrompt <= c.systemPrompt
    ensures c.stats.totalChars <= Max(budget.totalChars, Reserved(pieces) + MIN_HEADROOM) + 36 + MAX_SUMMARY
    ensures !c.stats.summaryUsed ==> c.systemPrompt == pieces.systemPrompt
  {
    hide Built, Rendered, Summarized;
    var effective := HistoryBudget(budget, pieces);
    var h := Built(pieces.history, effective).value;
    BuiltIsBounded(pieces.history, effective);
    RenderedIsShort(p, h.dropped);
  }

  /** If every valid turn fits, nothing is added or lost, and the bound is the budget itself. */
  lemma UntruncatedFitsExactly(p: Patterns, budget: ContextBudget, pieces: Pieces, c: AssembledContext)
    requires IsAssembled(p, budget, pieces, c)
    requires 0 < HistoryBudget(budget, pieces) && Chars(Normalized(pieces.history, 0)) <= HistoryBudget(budget, pieces)
    ensures c.systemPrompt == pieces.systemPrompt && !c.stats.summaryUsed
    ensures c.messages == Sent(Normalized(pieces.history, 0))
    ensures c.stats.totalChars == Reserved(pieces) + Chars(Normalized(pieces.history, 0))
    ensures c.stats.totalChars <= Max(budget.totalChars, Reserved(pieces) + MIN_HEADROOM)
  {
    hide Chars, Groups, Cut, Flatten;
    var turns := Normalized(pieces.history, 0);
    var effective := HistoryBudget(budget, pieces);
    EverythingFits(turns, effective);
    SentChars(turns);
  }

  lemma FittingNeverOverflows(turns: seq<Turn>, maxChars: nat)
    requires Chars(turns) <= maxChars
    ensures !NewestOverflows(turns, maxChars)
  {
    hide Chars;
    if turns != [] {
      var n := LastStart(turns);
      assert turns == turns[..n] + turns[n..];
      CharsOfSum(turns[..n], turns[n..]);
    }
  }

  lemma TailFits(groups: seq<seq<Turn>>, k: nat)
    requires k <= |groups|
    ensures Chars(Flatten(groups[k..])) <= Chars(Flatten(groups))
  {
    hide Chars, Flatten;
    assert groups == groups[..k] + groups[k..];
    FlattenSum(groups[..k], groups[k..]);
    CharsOfSum(Flatten(groups[..k]), Flatten(groups[k..]));
  }

  lemma EverythingFits(turns: seq<Turn>, maxChars: nat)
    requires Chars(turns) <= maxChars
    ensures Select(turns, maxChars) == Selection(turns, [])
  {
    hide Chars, Groups, Flatten, Cut, IsGroup, NewestOverflows;
    FittingNeverOverflows(turns, maxChars);
    GroupsFlattenBack(turns);
    var groups := Groups(turns);
    OverflowMeansAllCut(turns, maxChars);
    CutIsLongest(groups, maxChars);
    var k := Cut(groups, maxChars);
    if k > 0 {
      TailFits(groups, k - 1);
    }
    assert groups[0..] == groups && groups[..0] == [];
    EmptyChars();
  }

  /** Nothing is dropped if and only if there are no valid turns, or all of them are within
      the history's share and either short or within what the rest leaves of the budget. */
  lemma NothingDroppedIff(p: Patterns, budget: ContextBudget, pieces: Pieces, c: AssembledContext)
    requires IsAssembled(p, budget, pieces, c)
    ensures var turns := Normalized(pieces.history, 0);
      var rest := |pieces.systemPrompt| + pieces.toolResultsChars
                  + (match pieces.attached case Some(a) => a.totalChars case None => 0)
                  + (match pieces.projectContext case Some(text) => |text| case None => 0);
      c.stats.droppedTurns == 0 <==>
        || turns == []
        || (Chars(turns) <= budget.historyChars && (Chars(turns) <= 512 || rest + Chars(turns) <= budget.totalChars))
  {
    hide Rendered, Summarized, IsSendable, Groups, Flatten, Chars, Select, NewestOverflows;
    var turns := Normalized(pieces.history, 0);
    var effective := HistoryBudget(budget, pieces);
    NormalizedNumbers(pieces.history, 0);
    hide Normalized;
    if turns != [] {
      SomeChars(turns);
    } else {
      NoChars();
    }
    if effective > 0 {
      if Chars(turns) <= effective {
        EverythingFits(turns, effective);
      } else if NewestOverflows(turns, effective) {
        OverflowDrops(turns, effective);
      } else {
        KeepsTheLongestTail(turns, effective);
        var s := Select(turns, effective);
        assert s.dropped == [] ==> s.kept == turns;
      }
    }
  }

  lemma SomeChars(turns: seq<Turn>)
    requires turns != [] && NonEmpty(turns)
    ensures Chars(turns) > 0
  {
    assert turns[|turns| - 1] in turns;
  }

  lemma NoChars()
    ensures Chars([]) == 0
  {
  }

  lemma OverflowDrops(turns: seq<Turn>, maxChars: nat)
    requires NewestOverflows(turns, maxChars)
    ensures Select(turns, maxChars).dropped != []
  {
    SelectOnOverflow(turns, maxChars);
    SqueezeDrops(turns[LastStart(turns)..], maxChars, |turns|);
  }

  lemma {:induction false} SqueezeDrops(group: seq<Turn>, room: nat, id: nat)
    requires Chars(group) > room
    ensures Squeeze(group, room, id).dropped != []
  {
    hide TruncateSingle;
    var n := |group| - 1;
    if |group[n].content| <= room {
      SqueezeDrops(group[..n], room - |group[n].content|, id);
    }
  }

  /** A summary of what was dropped stands behind the prompt if and only if something was
      dropped of which there is anything to say. */
  lemma SummaryStandsForDropped(p: Patterns, budget: ContextBudget, pieces: Pieces, c: AssembledContext)
    requires IsAssembled(p, budget, pieces, c)
    ensures var dropped := Built(pieces.history, HistoryBudget(budget, pieces)).value.dropped;
      var summary := Rendered(Summarized(p, dropped));
      && |dropped| == c.stats.droppedTurns
      && c.stats.summaryUsed == (dropped != [] && summary.Some?)
      && c.systemPrompt ==
         if dropped != [] && summary.Some? then pieces.systemPrompt + "\n" + summary.value else pieces.systemPrompt
  {
    hide Rendered, Summarized, Normalized, Select, Sent, Chars;
    var effective := HistoryBudget(budget, pieces);
    var built := Built(pieces.history, effective).value;
    if effective <= 0 && pieces.history == [] {
      NothingToNormalize();
    }
  }

  lemma NothingToNormalize()
    ensures Normalized([], 0) == []
  {
  }

  /** The statistics add up: of the context, and of what was dropped of the valid turns. */
  lemma StatisticsAddUp(p: Patterns, budget: ContextBudget, pieces: Pieces, c: AssembledContext)
    requires IsAssembled(p, budget, pieces, c)
    ensures var s := c.stats;
      && s.totalChars == s.systemPromptChars + s.historyChars + s.toolResultsChars + s.attachedFileChars + s.projectContextChars
      && s.systemPromptChars == |c.systemPrompt| && s.historyChars == SumOf(c.messages)
      && s.toolResultsChars == pieces.toolResultsChars
      && s.attachedFileChars == (match pieces.attached case Some(a) => a.totalChars case None => 0)
      && s.projectContextChars == (match pieces.projectContext case Some(text) => |text| case None => 0)
      && (s.droppedTurns > 0 ==> s.truncationApplied)
      && (pieces.attached.Some? && pieces.attached.value.truncated ==> s.truncationApplied)
      && (s.truncationApplied ==>
            s.droppedTurns > 0 || pieces.history != [] || (pieces.attached.Some? && pieces.attached.value.truncated))
  {
    hide Rendered, Summarized, Select, Sent, Chars, SumOf;
    if pieces.history == [] {
      NothingToNormalize();
      if HistoryBudget(budget, pieces) > 0 {
        NothingToDrop(HistoryBudget(budget, pieces));
      }
    }
  }

  lemma NothingToDrop(maxChars: int)
    requires maxChars > 0
    ensures Select([], maxChars).dropped == []
  {
  }
}
