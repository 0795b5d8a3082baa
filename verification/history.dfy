/** The conversation history that fits a character budget: the newest turns, with
    question and answer kept together. */
module History {
  import opened Basics
  import opened Wrappers

  // ------------------------------------------------------------------
  // Turns
  // ------------------------------------------------------------------

  /** A stored turn: a dictionary whose entries may be missing or no strings, or not even that. */
  datatype Stored = Dict(role: Option<string>, content: Option<string>) | NoDict

  /** A normalized turn; `id` is the identity of its dictionary. */
  datatype Turn = Turn(id: nat, role: string, content: string)

  const MARKER := "...[earlier conversation truncated]"
  const MARKER_CHARS: nat := 35

  lemma MarkerLength()
    ensures |MARKER| == MARKER_CHARS
  {
  }

  predicate IsValid(t: Stored) {
    t.Dict? && t.role.Some? && t.content.Some? && t.content.value != ""
  }

  /** The valid turns, numbered from `first`. */
  function Normalized(history: seq<Stored>, first: nat): seq<Turn> {
    if history == [] then []
    else if IsValid(history[0])
    then [Turn(first, history[0].role.value, history[0].content.value)] + Normalized(history[1..], first + 1)
    else Normalized(history[1..], first)
  }

  predicate Distinct(turns: seq<Turn>) {
    forall i, j | 0 <= i < j < |turns| :: turns[i].id != turns[j].id
  }

  predicate NonEmpty(turns: seq<Turn>) {
    forall t | t in turns :: t.content != ""
  }

  lemma {:induction false} NormalizedNumbers(history: seq<Stored>, first: nat)
    ensures var n := Normalized(history, first);
      && NonEmpty(n)
      && forall i | 0 <= i < |n| :: n[i].id == first + i
  {
    if history != [] {
      NormalizedNumbers(history[1..], if IsValid(history[0]) then first + 1 else first);
    }
  }

  function Chars(turns: seq<Turn>): nat {
    if turns == [] then 0 else Chars(turns[..|turns| - 1]) + |turns[|turns| - 1].content|
  }

  lemma {:induction false} CharsOfSum(a: seq<Turn>, b: seq<Turn>)
    ensures Chars(a + b) == Chars(a) + Chars(b)
  {
    if b == [] {
      assert a + b == a;
    } else {
      assert (a + b)[..|a + b| - 1] == a + b[..|b| - 1];
      CharsOfSum(a, b[..|b| - 1]);
    }
  }

  // ------------------------------------------------------------------
  // Pairs
  // ------------------------------------------------------------------

  predicate EndsInPair(turns: seq<Turn>) {
    |turns| >= 2 && turns[|turns| - 1].role == "assistant" && turns[|turns| - 2].role == "user"
  }

  /** Where the newest group starts. */
  function LastStart(turns: seq<Turn>): (n: nat)
    requires turns != []
    ensures n < |turns|
  {
    if EndsInPair(turns) then |turns| - 2 else |turns| - 1
  }

  function Groups(turns: seq<Turn>): seq<seq<Turn>> {
    if turns == [] then [] else Groups(turns[..LastStart(turns)]) + [turns[LastStart(turns)..]]
  }

  function Flatten(groups: seq<seq<Turn>>): seq<Turn> {
    if groups == [] then [] else Flatten(groups[..|groups| - 1]) + groups[|groups| - 1]
  }

  lemma {:induction false} FlattenSum(a: seq<seq<Turn>>, b: seq<seq<Turn>>)
    ensures Flatten(a + b) == Flatten(a) + Flatten(b)
  {
    if b == [] {
      assert a + b == a;
    } else {
      assert (a + b)[..|a + b| - 1] == a + b[..|b| - 1];
      FlattenSum(a, b[..|b| - 1]);
    }
  }

  lemma FlattenOne(group: seq<Turn>)
    ensures Flatten([group]) == group
  {
    assert [group][..0] == [];
  }

  predicate IsGroup(group: seq<Turn>) {
    |group| == 1 || (|group| == 2 && group[0].role == "user" && group[1].role == "assistant")
  }

  lemma LastIsGroup(turns: seq<Turn>)
    requires turns != []
    ensures IsGroup(turns[LastStart(turns)..])
  {
  }

  /** Grouping loses and reorders nothing, and makes only pairs and single turns. */
  lemma {:induction false} GroupsFlattenBack(turns: seq<Turn>)
    ensures Flatten(Groups(turns)) == turns
    ensures forall g | g in Groups(turns) :: IsGroup(g)
  {
    hide IsGroup, Flatten;
    if turns == [] {
      EmptyChars();
    } else {
      var n := LastStart(turns);
      GroupsFlattenBack(turns[..n]);
      FlattenPush(Groups(turns[..n]), turns[n..]);
      assert turns[..n] + turns[n..] == turns;
      LastIsGroup(turns);
    }
  }

  lemma FlattenPush(groups: seq<seq<Turn>>, group: seq<Turn>)
    ensures Flatten(groups + [group]) == Flatten(groups) + group
  {
    FlattenSum(groups, [group]);
    FlattenOne(group);
  }

  /** A question directly followed by its answer is never split: no boundary between
      groups lies between them. */
  lemma {:induction false} PairsStayTogether(turns: seq<Turn>, i: nat, k: nat)
    requires i + 1 < |turns| && turns[i].role == "user" && turns[i + 1].role == "assistant"
    requires k <= |Groups(turns)|
    ensures |Flatten(Groups(turns)[..k])| != i + 1
  {
    hide IsGroup, Flatten;
    var n := LastStart(turns);
    var older := Groups(turns[..n]);
    assert Groups(turns) == older + [turns[n..]];
    GroupsFlattenBack(turns);
    if k == |older| + 1 {
      assert Groups(turns)[..k] == Groups(turns);
    } else {
      assert Groups(turns)[..k] == older[..k];
      if i + 1 < n {
        PairsStayTogether(turns[..n], i, k);
      } else {
        GroupsFlattenBack(turns[..n]);
        PrefixIsNoLonger(older, k);
        assert i + 1 != n;
      }
    }
  }

  lemma PrefixIsNoLonger(groups: seq<seq<Turn>>, k: nat)
    requires k <= |groups|
    ensures |Flatten(groups[..k])| <= |Flatten(groups)|
  {
    assert groups == groups[..k] + groups[k..];
    FlattenSum(groups[..k], groups[k..]);
  }

  lemma NextGroup(turns: seq<Turn>, i: nat)
    requires 0 < i <= |turns|
    ensures Groups(turns[..i]) ==
      if turns[i - 1].role == "assistant" && i >= 2 && turns[i - 2].role == "user"
      then Groups(turns[..i - 2]) + [[turns[i - 2], turns[i - 1]]]
      else Groups(turns[..i - 1]) + [[turns[i - 1]]]
  {
    var rest := turns[..i];
    var n := LastStart(rest);
    assert rest[..n] == turns[..n];
    if n == i - 2 {
      assert rest[n..] == [turns[i - 2], turns[i - 1]];
    } else {
      assert rest[n..] == [turns[i - 1]];
    }
  }

  lemma Regroup(all: seq<seq<Turn>>, older: seq<seq<Turn>>, g: seq<Turn>, groups: seq<seq<Turn>>)
    requires all == (older + [g]) + Reversed(groups)
    ensures all == older + Reversed(groups + [g])
  {
    ReversedPush(groups, g);
    assert (older + [g]) + Reversed(groups) == older + ([g] + Reversed(groups));
  }

  method GroupPairs(turns: seq<Turn>) returns (groups: seq<seq<Turn>>)
    ensures groups == Groups(turns)
  {
    groups := [];
    var i := |turns|;
    assert turns[..i] == turns && Reversed(groups) == [] && Groups([]) == [];
    hide Reversed, Groups, LastStart, EndsInPair;
    while i > 0
      invariant 0 <= i <= |turns|
      invariant Groups(turns) == Groups(turns[..i]) + Reversed(groups)
    {
      NextGroup(turns, i);
      if turns[i - 1].role == "assistant" && i >= 2 && turns[i - 2].role == "user" {
        Regroup(Groups(turns), Groups(turns[..i - 2]), [turns[i - 2], turns[i - 1]], groups);
        groups := groups + [[turns[i - 2], turns[i - 1]]];
        i := i - 2;
      } else {
        Regroup(Groups(turns), Groups(turns[..i - 1]), [turns[i - 1]], groups);
        groups := groups + [[turns[i - 1]]];
        i := i - 1;
      }
    }
    assert turns[..0] == [];
    groups := Reversed(groups);
  }

  // ------------------------------------------------------------------
  // What is kept
  // ------------------------------------------------------------------

  /** The end of one text and the marker: the shortest result is a character and the marker. */
  function TruncateSingle(content: string, room: int): string
    requires Max(room - MARKER_CHARS, 1) <= |content|
  {
    content[|content| - Max(room - MARKER_CHARS, 1)..] + MARKER
  }

  /** How many of the oldest groups do not fit: from the newest on, groups are taken as
      long as they fit whole. */
  function Cut(groups: seq<seq<Turn>>, room: int): nat
  {
    if groups == [] then 0
    else
      var n := |groups| - 1;
      if Chars(groups[n]) <= room then Cut(groups[..n], room - Chars(groups[n])) else n + 1
  }

  lemma {:induction false} CutBound(groups: seq<seq<Turn>>, room: int)
    ensures Cut(groups, room) <= |groups|
  {
    if groups != [] && Chars(groups[|groups| - 1]) <= room {
      CutBound(groups[..|groups| - 1], room - Chars(groups[|groups| - 1]));
    }
  }

  /** The cut keeps the longest run of newest groups that fits. */
  lemma {:induction false} CutIsLongest(groups: seq<seq<Turn>>, room: int)
    requires 0 <= room
    ensures var k := Cut(groups, room);
      && k <= |groups|
      && Chars(Flatten(groups[k..])) <= room
      && (k > 0 ==> Chars(Flatten(groups[k - 1..])) > room)
  {
    hide Chars, Flatten;
    EmptyChars();
    CutBound(groups, room);
    var k := Cut(groups, room);
    if groups == [] {
      assert groups[k..] == [];
    } else {
      var n := |groups| - 1;
      if Chars(groups[n]) <= room {
        CutIsLongest(groups[..n], room - Chars(groups[n]));
        FlattenTail(groups, k);
        if k > 0 {
          FlattenTail(groups, k - 1);
        }
      } else {
        assert groups[n + 1..] == [];
        FlattenTail(groups, n);
      }
    }
  }

  lemma EmptyChars()
    ensures Chars([]) == 0 && Flatten([]) == []
  {
  }

  lemma FlattenTail(groups: seq<seq<Turn>>, k: nat)
    requires k < |groups|
    ensures var n := |groups| - 1;
      && Flatten(groups[k..]) == Flatten(groups[..n][k..]) + groups[n]
      && Chars(Flatten(groups[k..])) == Chars(Flatten(groups[..n][k..])) + Chars(groups[n])
  {
    var n := |groups| - 1;
    assert groups[k..][..n - k] == groups[..n][k..];
    CharsOfSum(Flatten(groups[..n][k..]), groups[n]);
  }

  // ------------------------------------------------------------------
  // The result
  // ------------------------------------------------------------------

  datatype ConversationTurn = ConversationTurn(role: string, content: string)

  /** What the turns sent to a provider must look like. */
  predicate IsSendable(t: Turn) {
    1 <= |t.role| <= 16 && 1 <= |t.content| <= 20000
  }

  predicate AllSendable(turns: seq<Turn>) {
    forall t | t in turns :: IsSendable(t)
  }

  datatype HistoryBuildResult = HistoryBuildResult(
    messages: seq<ConversationTurn>, dropped: seq<Turn>, droppedChars: nat, truncated: bool)

  function Sent(turns: seq<Turn>): seq<ConversationTurn> {
    if turns == [] then []
    else Sent(turns[..|turns| - 1]) + [ConversationTurn(turns[|turns| - 1].role, turns[|turns| - 1].content)]
  }

  datatype Selection = Selection(kept: seq<Turn>, dropped: seq<Turn>)

  /** A newest group that does not fit alone: as many of its last turns as fit, and the
      end of the one before them; its original counts as dropped. */
  function Squeeze(group: seq<Turn>, room: nat, id: nat): Selection {
    if group == [] then Selection([], [])
    else
      var n := |group| - 1;
      if |group[n].content| <= room then
        var older := Squeeze(group[..n], room - |group[n].content|, id);
        older.(kept := older.kept + [group[n]])
      else Selection([Turn(id, group[n].role, TruncateSingle(group[n].content, room))], group)
  }

  function Select(turns: seq<Turn>, maxChars: nat): Selection {
    var groups := Groups(turns);
    var k := Cut(groups, maxChars);
    CutBound(groups, maxChars);
    if 0 < k == |groups| then
      var newest := Squeeze(groups[k - 1], maxChars, |turns|);
      newest.(dropped := Flatten(groups[..k - 1]) + newest.dropped)
    else Selection(Flatten(groups[k..]), Flatten(groups[..k]))
  }

  /** The history built for a budget; none if a kept turn cannot be sent. */
  function Built(history: seq<Stored>, maxChars: int): Option<HistoryBuildResult> {
    var turns := Normalized(history, 0);
    if maxChars <= 0 then Some(HistoryBuildResult([], turns, Chars(turns), history != []))
    else
      var s := Select(turns, maxChars);
      if AllSendable(s.kept) then Some(HistoryBuildResult(Sent(s.kept), s.dropped, Chars(s.dropped), s.dropped != []))
      else None
  }

  // ------------------------------------------------------------------
  // The theorems
  // ------------------------------------------------------------------

  predicate NewestOverflows(turns: seq<Turn>, maxChars: nat) {
    turns != [] && Chars(turns[LastStart(turns)..]) > maxChars
  }

  lemma OverflowMeansAllCut(turns: seq<Turn>, maxChars: nat)
    ensures NewestOverflows(turns, maxChars) <==> 0 < Cut(Groups(turns), maxChars) == |Groups(turns)|
  {
    var groups := Groups(turns);
    if turns != [] {
      var n := |groups| - 1;
      assert groups[n] == turns[LastStart(turns)..];
      if Chars(groups[n]) <= maxChars {
        CutBound(groups[..n], maxChars - Chars(groups[n]));
      }
    }
  }

  /** Unless the newest group alone overflows, nothing is lost or cut: dropped and kept
      turns together are the valid history, split between two groups, and the kept part is
      the longest such one within the budget. */
  lemma KeepsTheLongestTail(turns: seq<Turn>, maxChars: nat)
    requires !NewestOverflows(turns, maxChars)
    ensures var s := Select(turns, maxChars);
      && s.dropped + s.kept == turns
      && Chars(s.kept) <= maxChars
      && exists k | 0 <= k <= |Groups(turns)| ::
           && s.dropped == Flatten(Groups(turns)[..k]) && s.kept == Flatten(Groups(turns)[k..])
           && (k > 0 ==> Chars(Flatten(Groups(turns)[k - 1..])) > maxChars)
  {
    hide Chars, Groups, Flatten;
    var groups := Groups(turns);
    OverflowMeansAllCut(turns, maxChars);
    CutIsLongest(groups, maxChars);
    var k := Cut(groups, maxChars);
    GroupsFlattenBack(turns);
    assert groups[..k] + groups[k..] == groups;
    FlattenSum(groups[..k], groups[k..]);
  }

  /** How many characters the squeezed newest group takes: the budget, unless fewer than
      36 are left for the turn that is cut, which then takes 36. */
  lemma {:induction false} SqueezedChars(group: seq<Turn>, room: nat, id: nat)
    requires IsGroup(group) && Chars(group) > room && NonEmpty(group)
    ensures var s := Squeeze(group, room, id);
      && |s.kept| > 0
      && Chars(s.kept) ==
           (if |group| == 2 && |group[1].content| <= room then Max(room, |group[1].content| + MARKER_CHARS + 1)
            else Max(room, MARKER_CHARS + 1))
  {
    CharsOfOne(group[0]);
    MarkerLength();
    if |group| == 2 {
      CharsOfTwo(group[0], group[1]);
      assert group == [group[0], group[1]] && group[..1] == [group[0]];
    } else {
      assert group == [group[0]] && group[..0] == [];
    }
    var s := Squeeze(group, room, id);
    if |group| == 2 && |group[1].content| <= room {
      var cut := Turn(id, group[0].role, TruncateSingle(group[0].content, room - |group[1].content|));
      assert s.kept == [cut, group[1]];
      CharsOfTwo(cut, group[1]);
    } else {
      var n := |group| - 1;
      var cut := Turn(id, group[n].role, TruncateSingle(group[n].content, room));
      assert s.kept == [cut];
      CharsOfOne(cut);
    }
  }

  lemma CharsOfOne(t: Turn)
    ensures Chars([t]) == |t.content|
  {
    assert [t][..0] == [];
  }

  lemma CharsOfTwo(t: Turn, u: Turn)
    ensures Chars([t, u]) == |t.content| + |u.content|
  {
    assert [t, u][..1] == [t];
    CharsOfOne(t);
  }

  /** In the overflow case something is always kept, the total is at most the budget and
      36 characters, exactly that only if the answer alone fills the budget, and within the
      budget exactly when at least 36 characters remained for the turn that is cut. */
  lemma OverflowIsBounded(turns: seq<Turn>, maxChars: nat)
    requires NewestOverflows(turns, maxChars) && NonEmpty(turns)
    ensures var s := Select(turns, maxChars);
      var group := turns[LastStart(turns)..];
      var whole := if |group| == 2 && |group[1].content| <= maxChars then |group[1].content| else 0;
      && s.kept != []
      && Chars(s.kept) == Max(maxChars, whole + MARKER_CHARS + 1)
      && Chars(s.kept) <= maxChars + 36
      && (Chars(s.kept) <= maxChars <==> maxChars - whole >= 36)
      && (Chars(s.kept) == maxChars + 36 <==> maxChars == whole)
  {
    hide Chars, Squeeze;
    OverflowMeansAllCut(turns, maxChars);
    GroupsFlattenBack(turns);
    var groups := Groups(turns);
    assert groups[|groups| - 1] == turns[LastStart(turns)..];
    SqueezedChars(turns[LastStart(turns)..], maxChars, |turns|);
  }

  lemma {:induction false} SentChars(turns: seq<Turn>)
    ensures SumOf(Sent(turns)) == Chars(turns) && |Sent(turns)| == |turns|
  {
    if turns != [] {
      SentChars(turns[..|turns| - 1]);
      assert Sent(turns)[..|turns| - 1] == Sent(turns[..|turns| - 1]);
    }
  }

  function SumOf(messages: seq<ConversationTurn>): nat {
    if messages == [] then 0 else SumOf(messages[..|messages| - 1]) + |messages[|messages| - 1].content|
  }

  /** Whatever the history holds, what is sent stays within the budget and 36 characters,
      and is empty only if there is no room or no valid turn. */
  lemma BuiltIsBounded(history: seq<Stored>, maxChars: int)
    ensures Built(history, maxChars).Some? ==>
      var r := Built(history, maxChars).value;
      && SumOf(r.messages) <= Max(maxChars, 0) + 36
      && (maxChars <= 0 ==> r.messages == [])
      && (0 < maxChars && !NewestOverflows(Normalized(history, 0), maxChars) ==> SumOf(r.messages) <= maxChars)
      && (r.messages == [] <==> maxChars <= 0 || Normalized(history, 0) == [])
      && (!r.truncated ==> r.dropped == [])
  {
    hide Select, Chars, NewestOverflows, SumOf;
    assert SumOf([]) == 0 by { NothingSent(); }
    var turns := Normalized(history, 0);
    NormalizedNumbers(history, 0);
    if maxChars > 0 {
      var s := Select(turns, maxChars);
      SentChars(s.kept);
      if NewestOverflows(turns, maxChars) {
        OverflowIsBounded(turns, maxChars);
        OverflowNeedsTurns(turns, maxChars);
      } else {
        KeepsTheLongestTail(turns, maxChars);
        if turns != [] {
          KeepsSome(turns, maxChars);
        }
      }
    }
  }

  lemma NothingSent()
    ensures SumOf([]) == 0
  {
  }

  lemma OverflowNeedsTurns(turns: seq<Turn>, maxChars: nat)
    requires NewestOverflows(turns, maxChars)
    ensures turns != []
  {
  }

  lemma KeepsSome(turns: seq<Turn>, maxChars: nat)
    requires !NewestOverflows(turns, maxChars) && turns != []
    ensures Select(turns, maxChars).kept != []
  {
    hide Chars, Flatten;
    OverflowMeansAllCut(turns, maxChars);
    var groups := Groups(turns);
    var k := Cut(groups, maxChars);
    CutBound(groups, maxChars);
    FlattenTail(groups, k);
    assert groups[|groups| - 1] != [];
  }

  // ------------------------------------------------------------------
  // Which text is sent
  // ------------------------------------------------------------------

  lemma {:induction false} SentAt(turns: seq<Turn>, i: nat)
    requires i < |turns|
    ensures |Sent(turns)| == |turns|
    ensures Sent(turns)[i] == ConversationTurn(turns[i].role, turns[i].content)
  {
    var n := |turns| - 1;
    if i < n {
      SentAt(turns[..n], i);
    } else if n > 0 {
      SentAt(turns[..n], 0);
    }
  }

  lemma SentIs(turns: seq<Turn>)
    ensures |Sent(turns)| == |turns|
    ensures forall i | 0 <= i < |turns| :: Says(Sent(turns)[i], turns[i])
  {
    if turns != [] {
      SentAt(turns, 0);
      hide Sent;
      forall i | 0 <= i < |turns| ensures Says(Sent(turns)[i], turns[i]) {
        SentAt(turns, i);
      }
    }
  }

  /** Message `m` says what turn `t` says. */
  predicate Says(m: ConversationTurn, t: Turn) {
    m.role == t.role && m.content == t.content
  }

  /** Message `m` is the end of turn `t`, of a given length, and then the marker. */
  predicate SaysEndOf(m: ConversationTurn, t: Turn, chars: nat) {
    && m.role == t.role
    && chars <= |t.content|
    && m.content == t.content[|t.content| - chars..] + "...[earlier conversation truncated]"
  }

  lemma SqueezedText(group: seq<Turn>, room: nat, id: nat)
    requires IsGroup(group) && Chars(group) > room && NonEmpty(group)
    ensures var kept := Squeeze(group, room, id).kept;
      if |group| == 2 && |group[1].content| <= room then
        && |kept| == 2 && kept[1] == group[1]
        && SaysEndOf(ConversationTurn(kept[0].role, kept[0].content), group[0], Max(room - |group[1].content| - 35, 1))
      else
        && |kept| == 1
        && SaysEndOf(ConversationTurn(kept[0].role, kept[0].content), group[|group| - 1], Max(room - 35, 1))
  {
    CharsOfOne(group[0]);
    if |group| == 2 {
      CharsOfTwo(group[0], group[1]);
      assert group == [group[0], group[1]] && group[..1] == [group[0]] && [group[0]][..0] == [];
    } else {
      assert group == [group[0]] && group[..0] == [];
    }
  }

  /** The newest turn, and whether it answers the one before. */
  predicate AnswersLast(turns: seq<Turn>) {
    |turns| >= 2 && turns[|turns| - 1].role == "assistant" && turns[|turns| - 2].role == "user"
  }

  lemma NewestTurns(turns: seq<Turn>)
    requires turns != []
    ensures var group := turns[LastStart(turns)..];
      if AnswersLast(turns) then group == [turns[|turns| - 2], turns[|turns| - 1]] else group == [turns[|turns| - 1]]
  {
  }

  /** What is sent of the newest turns when they overflow: those that fit as they are, and
      before them, with its role, the end of the next turn that does not: as many of its last
      characters as the remaining room less 35, but at least one, and the marker. */
  predicate SaysNewestEnd(messages: seq<ConversationTurn>, turns: seq<Turn>, maxChars: nat)
    requires turns != []
  {
    var last := turns[|turns| - 1];
    if AnswersLast(turns) && |last.content| <= maxChars then
      && |messages| == 2 && Says(messages[1], last)
      && SaysEndOf(messages[0], turns[|turns| - 2], Max(maxChars - |last.content| - 35, 1))
    else
      && |messages| == 1 && SaysEndOf(messages[0], last, Max(maxChars - 35, 1))
  }

  lemma OverflowSays(turns: seq<Turn>, maxChars: nat)
    requires NewestOverflows(turns, maxChars) && NonEmpty(turns)
    ensures turns != [] && SaysNewestEnd(Sent(Select(turns, maxChars).kept), turns, maxChars)
  {
    OverflowNeedsTurns(turns, maxChars);
    SelectOnOverflow(turns, maxChars);
    var group := turns[LastStart(turns)..];
    SqueezedText(group, maxChars, |turns|);
    NewestTurns(turns);
    SentIs(Select(turns, maxChars).kept);
    hide Squeeze, Chars, Sent, SaysEndOf, Select, NewestOverflows, NonEmpty, IsGroup, LastStart, AnswersLast, Max;
  }

  /** If the newest group alone overflows, the newest text is sent. */
  lemma OverflowKeepsNewestText(history: seq<Stored>, maxChars: nat)
    requires maxChars > 0 && NewestOverflows(Normalized(history, 0), maxChars) && Built(history, maxChars).Some?
    ensures Normalized(history, 0) != []
    ensures SaysNewestEnd(Built(history, maxChars).value.messages, Normalized(history, 0), maxChars)
  {
    NormalizedNumbers(history, 0);
    OverflowSays(Normalized(history, 0), maxChars);
    hide Select, Sent, Normalized, NewestOverflows, NonEmpty, AllSendable, SaysNewestEnd;
  }

  /** Otherwise what is sent is, word for word and in order, a newest part of the valid
      turns, and the characters of what was dropped are what is missing. */
  lemma OtherwiseVerbatim(history: seq<Stored>, maxChars: nat)
    requires maxChars > 0 && !NewestOverflows(Normalized(history, 0), maxChars) && Built(history, maxChars).Some?
    ensures var turns := Normalized(history, 0);
      var r := Built(history, maxChars).value;
      && |r.messages| + |r.dropped| == |turns|
      && r.dropped == turns[..|r.dropped|]
      && (forall i | 0 <= i < |r.messages| :: Says(r.messages[i], turns[|r.dropped| + i]))
      && r.droppedChars + SumOf(r.messages) == Chars(turns)
      && (r.truncated <==> r.dropped != [])
  {
    hide Select, Chars, Sent, SumOf, NewestOverflows, Normalized, AllSendable, Says, Groups, Flatten;
    var turns := Normalized(history, 0);
    KeepsTheLongestTail(turns, maxChars);
    var s := Select(turns, maxChars);
    SentIs(s.kept);
    SentChars(s.kept);
    CharsOfSum(s.dropped, s.kept);
    assert turns[..|s.dropped|] == s.dropped && turns[|s.dropped|..] == s.kept;
  }

  /** Without room nothing is sent and all is dropped. */
  lemma NoRoomNothingSent(history: seq<Stored>, maxChars: int)
    requires maxChars <= 0
    ensures var turns := Normalized(history, 0);
      Built(history, maxChars) == Some(HistoryBuildResult([], turns, Chars(turns), |history| > 0))
  {
  }

  /** How many of the first stored turns are dictionaries with a role and some content. */
  function ValidBefore(history: seq<Stored>, i: nat): nat
    requires i <= |history|
  {
    if i == 0 then 0
    else
      ValidBefore(history, i - 1) +
      match history[i - 1]
      case Dict(Some(_), Some(content)) => if content == "" then 0 else 1
      case _ => 0
  }

  lemma {:induction false} NormalizedPush(history: seq<Stored>, t: Stored, first: nat)
    ensures var n := Normalized(history, first);
      Normalized(history + [t], first) ==
        n + (if IsValid(t) then [Turn(first + |n|, t.role.value, t.content.value)] else [])
  {
    if history == [] {
      assert (history + [t])[1..] == [];
    } else {
      assert (history + [t])[1..] == history[1..] + [t];
      NormalizedPush(history[1..], t, if IsValid(history[0]) then first + 1 else first);
    }
  }

  /** If a stored turn is valid, the turn with its number says what it says. */
  predicate Stands(turns: seq<Turn>, history: seq<Stored>, i: nat)
    requires i < |history|
  {
    var k := ValidBefore(history, i);
    ValidBefore(history, i + 1) > k ==>
      k < |turns| && history[i] == Dict(Some(turns[k].role), Some(turns[k].content))
  }

  lemma StillStands(turns: seq<Turn>, more: seq<Turn>, history: seq<Stored>, i: nat)
    requires i < |history| && turns <= more && Stands(turns, history, i)
    ensures Stands(more, history, i)
  {
    hide ValidBefore;
  }

  /** Exactly the valid turns are considered, in their order, each as it was stored. */
  lemma {:induction false} NormalizedIsTheValid(history: seq<Stored>, n: nat)
    requires n <= |history|
    ensures var turns := Normalized(history[..n], 0);
      |turns| == ValidBefore(history, n) && forall i | 0 <= i < n :: Stands(turns, history, i)
  {
    if n > 0 {
      NormalizedIsTheValid(history, n - 1);
      assert history[..n] == history[..n - 1] + [history[n - 1]];
      NormalizedPush(history[..n - 1], history[n - 1], 0);
      var before, turns := Normalized(history[..n - 1], 0), Normalized(history[..n], 0);
      assert Stands(turns, history, n - 1);
      hide Normalized, Stands;
      forall i | 0 <= i < n - 1 ensures Stands(turns, history, i) {
        StillStands(before, turns, history, i);
      }
    }
  }

  // ------------------------------------------------------------------
  // When the history cannot be built
  // ------------------------------------------------------------------

  /** Where the group of a turn starts: an answer directly behind a question belongs to it. */
  function GroupStart(turns: seq<Turn>, i: nat): nat
    requires i < |turns|
  {
    if i > 0 && turns[i].role == "assistant" && turns[i - 1].role == "user" then i - 1 else i
  }

  predicate RoleFits(t: Turn) {
    1 <= |t.role| <= 16
  }

  /** A turn that cannot be sent, in a group that fits together with all newer ones. */
  predicate IsObstacle(turns: seq<Turn>, maxChars: nat, i: nat)
    requires i < |turns|
  {
    !IsSendable(turns[i]) && Chars(turns[GroupStart(turns, i)..]) <= maxChars
  }

  /** The newest group overflows, and its answer, or what a turn is cut to, cannot be sent. */
  predicate OverflowObstructs(turns: seq<Turn>, maxChars: nat)
    requires turns != []
  {
    var group := turns[LastStart(turns)..];
    var last := group[|group| - 1];
    if |group| == 2 && |last.content| <= maxChars
    then !IsSendable(last) || !RoleFits(group[0]) || Max(maxChars - |last.content|, MARKER_CHARS + 1) > 20000
    else !RoleFits(last) || Max(maxChars, MARKER_CHARS + 1) > 20000
  }

  lemma CutTurnLength(t: Turn, id: nat, room: nat)
    requires |t.content| > room
    ensures |TruncateSingle(t.content, room)| == Max(room, MARKER_CHARS + 1)
    ensures IsSendable(Turn(id, t.role, TruncateSingle(t.content, room))) <==>
            RoleFits(t) && Max(room, MARKER_CHARS + 1) <= 20000
  {
    MarkerLength();
  }

  lemma SqueezedSendable(group: seq<Turn>, room: nat, id: nat)
    requires IsGroup(group) && Chars(group) > room
    ensures var last := group[|group| - 1];
      AllSendable(Squeeze(group, room, id).kept) <==>
        if |group| == 2 && |last.content| <= room
        then IsSendable(last) && RoleFits(group[0]) && Max(room - |last.content|, MARKER_CHARS + 1) <= 20000
        else RoleFits(last) && Max(room, MARKER_CHARS + 1) <= 20000
  {
    hide IsSendable, TruncateSingle, RoleFits;
    CharsOfOne(group[0]);
    var n := |group| - 1;
    if |group| == 2 {
      CharsOfTwo(group[0], group[1]);
      assert group == [group[0], group[1]] && group[..1] == [group[0]] && [group[0]][..0] == [];
    } else {
      assert group == [group[0]] && group[..0] == [];
    }
    var kept := Squeeze(group, room, id).kept;
    if |group| == 2 && |group[1].content| <= room {
      var rest := room - |group[1].content|;
      CutTurnLength(group[0], id, rest);
      assert Squeeze([group[0]], rest, id).kept == [Turn(id, group[0].role, TruncateSingle(group[0].content, rest))];
      assert kept == [Turn(id, group[0].role, TruncateSingle(group[0].content, rest)), group[1]];
      SendableTwo(kept[0], kept[1]);
    } else {
      CutTurnLength(group[n], id, room);
      assert kept == [Turn(id, group[n].role, TruncateSingle(group[n].content, room))];
      SendableOne(kept[0]);
    }
  }

  lemma SendableOne(t: Turn)
    ensures AllSendable([t]) <==> IsSendable(t)
  {
    assert t in [t];
  }

  lemma SendableTwo(t: Turn, u: Turn)
    ensures AllSendable([t, u]) <==> IsSendable(t) && IsSendable(u)
  {
    assert t in [t, u] && u in [t, u];
  }

  lemma TailChars(turns: seq<Turn>, i: nat, j: nat)
    requires i <= j <= |turns|
    ensures Chars(turns[j..]) <= Chars(turns[i..])
  {
    assert turns[i..] == turns[i..j] + turns[j..];
    CharsOfSum(turns[i..j], turns[j..]);
  }

  /** Without an overflow a turn is kept exactly if its group and all newer turns fit. */
  lemma KeptIffTailFits(turns: seq<Turn>, maxChars: nat, i: nat)
    requires !NewestOverflows(turns, maxChars) && i < |turns|
    ensures var s := Select(turns, maxChars);
      && |s.dropped| <= |turns| && s.kept == turns[|s.dropped|..]
      && (|s.dropped| <= i <==> Chars(turns[GroupStart(turns, i)..]) <= maxChars)
  {
    hide IsGroup;
    KeepsTheLongestTail(turns, maxChars);
    hide NewestOverflows, Select, Chars, Groups, Flatten;
    var s := Select(turns, maxChars);
    assert s.dropped + s.kept == turns;
    var cut := |s.dropped|;
    assert s.kept == turns[cut..];
    var start := GroupStart(turns, i);
    var groups := Groups(turns);
    var k :| 0 <= k <= |groups| && s.dropped == Flatten(groups[..k]) && s.kept == Flatten(groups[k..])
      && (k > 0 ==> Chars(Flatten(groups[k - 1..])) > maxChars);
    if cut <= i {
      if start < i {
        PairsStayTogether(turns, start, k);
      }
      TailChars(turns, cut, start);
    } else {
      BoundaryBefore(turns, k, i);
      var earlier := |Flatten(groups[..k - 1])|;
      TailChars(turns, start, earlier);
    }
  }

  /** The group before a boundary, between older and newer turns. */
  lemma GroupAt(turns: seq<Turn>, k: nat) returns (older: seq<Turn>, group: seq<Turn>, newer: seq<Turn>)
    requires 0 < k <= |Groups(turns)|
    ensures turns == older + group + newer && IsGroup(group)
    ensures Flatten(Groups(turns)[..k - 1]) == older
    ensures Flatten(Groups(turns)[..k]) == older + group
    ensures Flatten(Groups(turns)[k - 1..]) == group + newer
  {
    var groups := Groups(turns);
    GroupsFlattenBack(turns);
    hide Groups, Flatten, IsGroup;
    group := groups[k - 1];
    older, newer := Flatten(groups[..k - 1]), Flatten(groups[k..]);
    assert group in groups;
    FlattenStep(groups, k - 1);
    assert groups == groups[..k] + groups[k..];
    FlattenSum(groups[..k], groups[k..]);
    assert groups[k - 1..] == [group] + groups[k..];
    FlattenSum([group], groups[k..]);
    FlattenOne(group);
  }

  lemma StartsInGroup(older: seq<Turn>, group: seq<Turn>, newer: seq<Turn>, i: nat)
    requires IsGroup(group) && i < |older| + |group|
    ensures GroupStart(older + group + newer, i) <= |older|
  {
    var turns := older + group + newer;
    if |group| == 2 {
      assert turns[|older|] == group[0] && turns[|older| + 1] == group[1];
    }
  }

  lemma BoundaryBefore(turns: seq<Turn>, k: nat, i: nat)
    requires k <= |Groups(turns)| && i < |Flatten(Groups(turns)[..k])| && i < |turns|
    ensures k > 0
    ensures var earlier := |Flatten(Groups(turns)[..k - 1])|;
      earlier <= |turns| && Flatten(Groups(turns)[k - 1..]) == turns[earlier..]
    ensures GroupStart(turns, i) <= |Flatten(Groups(turns)[..k - 1])|
  {
    EmptyChars();
    assert Groups(turns)[..0] == [];
    hide Groups, Flatten, IsGroup;
    var older, group, newer := GroupAt(turns, k);
    StartsInGroup(older, group, newer, i);
    assert turns == older + (group + newer);
  }

  /** The history cannot be built exactly in these cases, which the lengths and roles of the
      turns tell beforehand: the newest group overflows and what would be sent of it cannot
      be, or it does not, and some group that fits with all newer turns holds an obstacle. */
  lemma UnsendableIsRefused(history: seq<Stored>, maxChars: int)
    ensures var turns := Normalized(history, 0);
      Built(history, maxChars).None? <==>
        && maxChars > 0 && turns != []
        && if NewestOverflows(turns, maxChars) then OverflowObstructs(turns, maxChars)
           else exists i | 0 <= i < |turns| :: IsObstacle(turns, maxChars, i)
  {
    var turns := Normalized(history, 0);
    if maxChars > 0 {
      hide Normalized, Chars, Groups, IsSendable;
      if turns == [] {
        NothingSelected(maxChars);
      } else if NewestOverflows(turns, maxChars) {
        hide Select;
        SelectOnOverflow(turns, maxChars);
        SqueezedSendable(turns[LastStart(turns)..], maxChars, |turns|);
      } else {
        hide Select, NewestOverflows;
        SendableTail(turns, maxChars);
      }
    }
  }

  lemma NothingSelected(maxChars: nat)
    ensures Select([], maxChars).kept == []
  {
  }

  lemma SendableTail(turns: seq<Turn>, maxChars: nat)
    requires !NewestOverflows(turns, maxChars) && turns != []
    ensures AllSendable(Select(turns, maxChars).kept) <==>
            !exists i | 0 <= i < |turns| :: IsObstacle(turns, maxChars, i)
  {
    hide Select, NewestOverflows, Chars, IsSendable;
    var s := Select(turns, maxChars);
    KeptIffTailFits(turns, maxChars, 0);
    forall i | 0 <= i < |turns| && IsObstacle(turns, maxChars, i) ensures !AllSendable(s.kept) {
      KeptIffTailFits(turns, maxChars, i);
      assert s.kept[i - |s.dropped|] == turns[i];
    }
    if !AllSendable(s.kept) {
      var t :| t in s.kept && !IsSendable(t);
      var j :| 0 <= j < |s.kept| && s.kept[j] == t;
      KeptIffTailFits(turns, maxChars, |s.dropped| + j);
      assert IsObstacle(turns, maxChars, |s.dropped| + j);
    }
  }

  predicate RolesFit(turns: seq<Turn>) {
    forall i | 0 <= i < |turns| :: RoleFits(turns[i])
  }

  lemma NoObstacle(turns: seq<Turn>, maxChars: nat, i: nat)
    requires i < |turns| && RoleFits(turns[i]) && turns[i].content != "" && maxChars <= 20000
    ensures !IsObstacle(turns, maxChars, i)
  {
    hide Chars;
    var start := GroupStart(turns, i);
    assert turns[start..][i - start] == turns[i];
    LongestTurn(turns[start..], i - start);
  }

  lemma NoOverflowObstacle(turns: seq<Turn>, maxChars: nat)
    requires turns != [] && RolesFit(turns) && NonEmpty(turns) && maxChars <= 20000
    ensures !OverflowObstructs(turns, maxChars)
  {
    var start := LastStart(turns);
    var group := turns[start..];
    var last := group[|group| - 1];
    assert last == turns[|turns| - 1] && last in turns;
    assert group[0] == turns[start];
  }

  /** With roles of 1 to 16 characters and a budget up to 20000 there is no obstacle: the
      history is always built. */
  lemma OrdinaryHistoryIsBuilt(history: seq<Stored>, maxChars: int)
    requires RolesFit(Normalized(history, 0)) && maxChars <= 20000
    ensures Built(history, maxChars).Some?
  {
    UnsendableIsRefused(history, maxChars);
    NormalizedNumbers(history, 0);
    var turns := Normalized(history, 0);
    hide Built, Normalized, NewestOverflows, IsObstacle, OverflowObstructs, RoleFits;
    if maxChars > 0 && turns != [] {
      NoOverflowObstacle(turns, maxChars);
      forall i | 0 <= i < |turns| ensures !IsObstacle(turns, maxChars, i) {
        assert turns[i] in turns;
        NoObstacle(turns, maxChars, i);
      }
    }
  }

  lemma {:induction false} LongestTurn(turns: seq<Turn>, i: nat)
    requires i < |turns|
    ensures |turns[i].content| <= Chars(turns)
  {
    if i < |turns| - 1 {
      LongestTurn(turns[..|turns| - 1], i);
    }
  }

  // ------------------------------------------------------------------
  // The algorithm
  // ------------------------------------------------------------------

  /** The turns whose identity is not among the given ones. */
  function Without(turns: seq<Turn>, ids: set<nat>): seq<Turn> {
    if turns == [] then []
    else
      var n := |turns| - 1;
      Without(turns[..n], ids) + (if turns[n].id in ids then [] else [turns[n]])
  }

  lemma {:induction false} WithoutSum(a: seq<Turn>, b: seq<Turn>, ids: set<nat>)
    ensures Without(a + b, ids) == Without(a, ids) + Without(b, ids)
  {
    if b == [] {
      assert a + b == a;
    } else {
      assert (a + b)[..|a + b| - 1] == a + b[..|b| - 1];
      WithoutSum(a, b[..|b| - 1], ids);
    }
  }

  predicate AllAmong(turns: seq<Turn>, ids: set<nat>) {
    forall i | 0 <= i < |turns| :: turns[i].id in ids
  }

  predicate NoneAmong(turns: seq<Turn>, ids: set<nat>) {
    forall i | 0 <= i < |turns| :: turns[i].id !in ids
  }

  lemma AmongPrefix(turns: seq<Turn>, ids: set<nat>)
    requires turns != []
    ensures AllAmong(turns, ids) ==> AllAmong(turns[..|turns| - 1], ids) && turns[|turns| - 1].id in ids
    ensures NoneAmong(turns, ids) ==> NoneAmong(turns[..|turns| - 1], ids) && turns[|turns| - 1].id !in ids
    ensures turns[..|turns| - 1] + [turns[|turns| - 1]] == turns
  {
  }

  lemma {:induction false} WithoutAll(turns: seq<Turn>, ids: set<nat>)
    requires AllAmong(turns, ids)
    ensures Without(turns, ids) == []
  {
    hide AllAmong, NoneAmong;
    if turns != [] {
      AmongPrefix(turns, ids);
      WithoutAll(turns[..|turns| - 1], ids);
    }
  }

  lemma {:induction false} WithoutNone(turns: seq<Turn>, ids: set<nat>)
    requires NoneAmong(turns, ids)
    ensures Without(turns, ids) == turns
  {
    hide AllAmong, NoneAmong;
    if turns != [] {
      AmongPrefix(turns, ids);
      WithoutNone(turns[..|turns| - 1], ids);
    }
  }

  function Ids(turns: seq<Turn>): set<nat> {
    set t | t in turns :: t.id
  }

  method Normalize(history: seq<Stored>) returns (turns: seq<Turn>)
    ensures turns == Normalized(history, 0)
  {
    turns := [];
    for i := 0 to |history|
      invariant turns + Normalized(history[i..], |turns|) == Normalized(history, 0)
    {
      assert history[i..][1..] == history[i + 1..];
      if IsValid(history[i]) {
        turns := turns + [Turn(|turns|, history[i].role.value, history[i].content.value)];
      }
    }
    assert history[|history|..] == [];
  }

  method CountChars(turns: seq<Turn>) returns (n: nat)
    ensures n == Chars(turns)
  {
    n := 0;
    for i := 0 to |turns|
      invariant n == Chars(turns[..i])
    {
      assert turns[..i + 1][..i] == turns[..i];
      n := n + |turns[i].content|;
    }
    assert turns[..|turns|] == turns;
  }

  method Append(messages: seq<ConversationTurn>, group: seq<Turn>) returns (more: seq<ConversationTurn>, ok: bool)
    ensures ok <==> AllSendable(group)
    ensures ok ==> more == messages + Sent(group)
  {
    more := messages;
    for i := 0 to |group|
      invariant AllSendable(group[..i]) && more == messages + Sent(group[..i])
    {
      assert group[..i + 1][..i] == group[..i] && group[i] in group;
      if !IsSendable(group[i]) {
        return more, false;
      }
      more := more + [ConversationTurn(group[i].role, group[i].content)];
    }
    assert group[..|group|] == group;
    ok := true;
  }

  method AppendMissing(dropped: seq<Turn>, group: seq<Turn>, ids: set<nat>) returns (more: seq<Turn>)
    ensures more == dropped + Without(group, ids)
  {
    more := dropped;
    for i := 0 to |group|
      invariant more == dropped + Without(group[..i], ids)
    {
      assert group[..i + 1][..i] == group[..i];
      if group[i].id !in ids {
        more := more + [group[i]];
      }
    }
    assert group[..|group|] == group;
  }

  /** The newest group does not fit: its last turns that fit, and the end of the next. */
  method SqueezeGroup(group: seq<Turn>, maxChars: nat, id: nat) returns (selected: seq<seq<Turn>>)
    ensures Flatten(Reversed(selected)) == Squeeze(group, maxChars, id).kept
  {
    selected := [];
    var remaining := maxChars;
    var j := |group|;
    assert group[..j] == group;
    while j > 0
      invariant 0 <= j <= |group| && 0 <= remaining
      invariant Squeeze(group, maxChars, id).kept == Squeeze(group[..j], remaining, id).kept + Flatten(Reversed(selected))
    {
      var msg := group[j - 1];
      assert group[..j][..j - 1] == group[..j - 1];
      if |msg.content| <= remaining {
        PushSelected(selected, msg);
        selected := selected + [[msg]];
        remaining := remaining - |msg.content|;
        j := j - 1;
      } else {
        var cut := Turn(id, msg.role, TruncateSingle(msg.content, remaining));
        PushSelected(selected, cut);
        selected := selected + [[cut]];
        return;
      }
    }
    assert group[..0] == [];
  }

  lemma PushSelected(selected: seq<seq<Turn>>, t: Turn)
    ensures Flatten(Reversed(selected + [[t]])) == [t] + Flatten(Reversed(selected))
  {
    ReversedPush(selected, [t]);
    FlattenSum([[t]], Reversed(selected));
    FlattenOne([t]);
  }

  method SelectGroups(groups: seq<seq<Turn>>, maxChars: nat, id: nat) returns (selected: seq<seq<Turn>>)
    ensures Cut(groups, maxChars) <= |groups|
    ensures Flatten(Reversed(selected)) ==
            if 0 < Cut(groups, maxChars) == |groups| then Squeeze(groups[|groups| - 1], maxChars, id).kept
            else Flatten(groups[Cut(groups, maxChars)..])
  {
    hide Chars, Squeeze, Flatten;
    CutBound(groups, maxChars);
    selected := [];
    var used := 0;
    var g := |groups|;
    assert groups[..g] == groups && groups[g..] == [];
    while g > 0
      invariant 0 <= g <= |groups|
      invariant Reversed(selected) == groups[g..]
      invariant Cut(groups, maxChars) == Cut(groups[..g], maxChars - used)
      invariant g < |groups| ==> Cut(groups, maxChars) < |groups|
    {
      var group := groups[g - 1];
      var groupChars := CountChars(group);
      assert groups[..g][..g - 1] == groups[..g - 1];
      CutBound(groups[..g - 1], maxChars - used - groupChars);
      if used + groupChars <= maxChars {
        ReversedPush(selected, group);
        selected := selected + [group];
        used := used + groupChars;
        g := g - 1;
      } else {
        assert Cut(groups, maxChars) == g;
        if selected == [] {
          assert groups[g..] == [];
          selected := SqueezeGroup(group, maxChars, id);
        }
        return;
      }
    }
    assert groups[..0] == [];
  }

  /** The selected groups, oldest first, as messages; none if one cannot be sent. */
  method Emit(groups: seq<seq<Turn>>) returns (messages: seq<ConversationTurn>, ok: bool)
    ensures ok <==> AllSendable(Flatten(groups))
    ensures ok ==> messages == Sent(Flatten(groups))
  {
    assert groups[..0] == [] && Flatten([]) == [] && Sent([]) == [] && AllSendable([]);
    hide Flatten, Sent, AllSendable;
    messages, ok := [], true;
    for i := 0 to |groups|
      invariant ok && AllSendable(Flatten(groups[..i])) && messages == Sent(Flatten(groups[..i]))
    {
      FlattenStep(groups, i);
      SentSum(Flatten(groups[..i]), groups[i]);
      messages, ok := Append(messages, groups[i]);
      if !ok {
        UnsendablePart(groups, i);
        return;
      }
    }
    assert groups[..|groups|] == groups;
  }

  /** The turns of all groups that were not kept. */
  method CollectDropped(groups: seq<seq<Turn>>, ids: set<nat>) returns (dropped: seq<Turn>)
    ensures dropped == Without(Flatten(groups), ids)
  {
    assert groups[..0] == [] && Flatten([]) == [] && Without([], ids) == [];
    hide Flatten, Without;
    dropped := [];
    for i := 0 to |groups|
      invariant dropped == Without(Flatten(groups[..i]), ids)
    {
      FlattenStep(groups, i);
      WithoutSum(Flatten(groups[..i]), groups[i], ids);
      dropped := AppendMissing(dropped, groups[i], ids);
    }
    assert groups[..|groups|] == groups;
  }

  method BuildHistory(history: seq<Stored>, maxChars: int) returns (result: Option<HistoryBuildResult>)
    ensures result == Built(history, maxChars)
  {
    hide Groups, Flatten, Chars, Sent, AllSendable, Cut, Squeeze, Reversed, Without, Ids, Normalized, AllIds;
    var normalized := Normalize(history);
    if maxChars <= 0 {
      var chars := CountChars(normalized);
      return Some(HistoryBuildResult([], normalized, chars, |history| > 0));
    }
    var groups := GroupPairs(normalized);
    var selected := SelectGroups(groups, maxChars, |normalized|);
    assert Flatten(Reversed(selected)) == Select(normalized, maxChars).kept;
    var messages, ok := Emit(Reversed(selected));
    if !ok {
      return None;
    }
    KeptIds(selected);
    var dropped := CollectDropped(groups, AllIds(selected));
    GroupsFlattenBack(normalized);
    DroppedIsTheRest(history, maxChars);
    var droppedChars := CountChars(dropped);
    result := Some(HistoryBuildResult(messages, dropped, droppedChars, |dropped| > 0));
  }

  lemma FlattenStep(groups: seq<seq<Turn>>, i: nat)
    requires i < |groups|
    ensures Flatten(groups[..i + 1]) == Flatten(groups[..i]) + groups[i]
  {
    assert groups[..i + 1][..i] == groups[..i];
  }

  lemma {:induction false} SentSum(a: seq<Turn>, b: seq<Turn>)
    ensures Sent(a + b) == Sent(a) + Sent(b)
    ensures AllSendable(a + b) <==> AllSendable(a) && AllSendable(b)
  {
    if b == [] {
      assert a + b == a;
    } else {
      assert (a + b)[..|a + b| - 1] == a + b[..|b| - 1];
      SentSum(a, b[..|b| - 1]);
    }
    assert forall t :: t in a + b <==> t in a || t in b;
  }

  lemma UnsendablePart(groups: seq<seq<Turn>>, i: nat)
    requires i < |groups| && !AllSendable(groups[i])
    ensures !AllSendable(Flatten(groups))
  {
    assert groups == groups[..i + 1] + groups[i + 1..];
    FlattenSum(groups[..i + 1], groups[i + 1..]);
    FlattenStep(groups, i);
    var t :| t in groups[i] && !IsSendable(t);
    assert t in Flatten(groups);
  }

  /** The identities the algorithm collects are those of the kept turns. */
  lemma {:induction false} KeptIds(selected: seq<seq<Turn>>)
    ensures AllIds(selected) == Ids(Flatten(Reversed(selected)))
  {
    if selected != [] {
      var last := |selected| - 1;
      KeptIds(selected[..last]);
      assert selected == selected[..last] + [selected[last]];
      ReversedPush(selected[..last], selected[last]);
      FlattenSum([selected[last]], Reversed(selected[..last]));
      FlattenOne(selected[last]);
      IdsOfSum(selected[last], Flatten(Reversed(selected[..last])));
      MoreIds(selected[..last], selected[last]);
    }
  }

  function AllIds(selected: seq<seq<Turn>>): set<nat> {
    set g, t | g in selected && t in g :: t.id
  }

  lemma IdsOfSum(a: seq<Turn>, b: seq<Turn>)
    ensures Ids(a + b) == Ids(a) + Ids(b)
  {
    assert forall t :: t in a + b <==> t in a || t in b;
  }

  lemma MoreIds(selected: seq<seq<Turn>>, group: seq<Turn>)
    ensures AllIds(selected + [group]) == Ids(group) + AllIds(selected)
  {
    assert forall g :: g in selected + [group] <==> g in selected || g == group;
  }

  /** Dropping by identity drops exactly what the selection did not keep. */
  lemma DroppedIsTheRest(history: seq<Stored>, maxChars: nat)
    ensures var turns := Normalized(history, 0);
      var s := Select(turns, maxChars);
      Without(turns, Ids(s.kept)) == s.dropped
  {
    hide Select, NewestOverflows, Groups, Flatten, Chars, Without, Ids;
    var turns := Normalized(history, 0);
    var s := Select(turns, maxChars);
    NormalizedNumbers(history, 0);
    if NewestOverflows(turns, maxChars) {
      DroppedOnOverflow(turns, maxChars);
    } else {
      KeepsTheLongestTail(turns, maxChars);
      assert Distinct(turns);
      DistinctParts(s.dropped, s.kept);
    }
  }

  predicate Numbered(turns: seq<Turn>) {
    forall i | 0 <= i < |turns| :: turns[i].id == i
  }

  lemma NumberedPrefix(turns: seq<Turn>)
    requires turns != [] && Numbered(turns)
    ensures Numbered(turns[..|turns| - 1]) && turns[|turns| - 1].id == |turns| - 1
  {
  }

  lemma WithoutLater(turns: seq<Turn>, ids: set<nat>)
    requires Numbered(turns) && forall j | j in ids :: |turns| <= j
    ensures Without(turns, ids) == turns
  {
    assert NoneAmong(turns, ids);
    WithoutNone(turns, ids);
  }

  lemma DroppedButLast(turns: seq<Turn>)
    requires turns != [] && Numbered(turns)
    ensures Without(turns, {|turns|, turns[|turns| - 1].id}) == turns[..|turns| - 1]
    ensures Without(turns, {|turns|}) == turns
  {
    NumberedPrefix(turns);
    hide Numbered;
    WithoutLater(turns[..|turns| - 1], {|turns|, turns[|turns| - 1].id});
    WithoutLater(turns, {|turns|});
  }

  lemma SelectOnOverflow(turns: seq<Turn>, maxChars: nat)
    requires NewestOverflows(turns, maxChars)
    ensures turns != [] && IsGroup(turns[LastStart(turns)..]) && Chars(turns[LastStart(turns)..]) > maxChars
    ensures var newest := Squeeze(turns[LastStart(turns)..], maxChars, |turns|);
      Select(turns, maxChars) == newest.(dropped := turns[..LastStart(turns)] + newest.dropped)
  {
    OverflowNeedsTurns(turns, maxChars);
    OverflowMeansAllCut(turns, maxChars);
    NewestGroup(turns);
  }

  lemma DroppedOnOverflow(turns: seq<Turn>, maxChars: nat)
    requires NewestOverflows(turns, maxChars) && Numbered(turns)
    ensures Without(turns, Ids(Select(turns, maxChars).kept)) == Select(turns, maxChars).dropped
  {
    hide NewestOverflows, Select, Squeeze, Without, Ids, Chars;
    SelectOnOverflow(turns, maxChars);
    var n := LastStart(turns);
    var group := turns[n..];
    SqueezeKeepsIds(group, maxChars, |turns|);
    DroppedButLast(turns);
    if |group| == 2 && |group[1].content| <= maxChars {
      assert turns[..|turns| - 1] == turns[..n] + [group[0]];
    } else {
      assert turns == turns[..n] + group;
    }
  }

  lemma NewestGroup(turns: seq<Turn>)
    requires turns != []
    ensures var groups := Groups(turns);
      && |groups| > 0
      && groups[|groups| - 1] == turns[LastStart(turns)..]
      && Flatten(groups[..|groups| - 1]) == turns[..LastStart(turns)]
      && IsGroup(turns[LastStart(turns)..])
  {
    GroupsFlattenBack(turns[..LastStart(turns)]);
  }

  /** The cut turn has a new identity, so its original counts as dropped. */
  lemma SqueezeKeepsIds(group: seq<Turn>, room: nat, id: nat)
    requires (|group| == 1 || |group| == 2) && Chars(group) > room
    requires forall t | t in group :: t.id != id
    ensures var s := Squeeze(group, room, id);
      if |group| == 2 && |group[1].content| <= room
      then Ids(s.kept) == {id, group[1].id} && s.dropped == [group[0]]
      else Ids(s.kept) == {id} && s.dropped == group
  {
    CharsOfOne(group[0]);
    if |group| == 2 {
      CharsOfTwo(group[0], group[1]);
      assert group == [group[0], group[1]] && group[..1] == [group[0]];
    } else {
      assert group == [group[0]] && group[..0] == [];
    }
  }

  lemma DistinctParts(a: seq<Turn>, b: seq<Turn>)
    requires Distinct(a + b)
    ensures Without(a + b, Ids(b)) == a
  {
    forall i | 0 <= i < |a| ensures a[i].id !in Ids(b) {
      forall u | u in b ensures a[i].id != u.id {
        var j :| 0 <= j < |b| && b[j] == u;
        assert (a + b)[i] == a[i] && (a + b)[|a| + j] == u;
      }
    }
    forall j | 0 <= j < |b| ensures b[j].id in Ids(b) {
      assert b[j] in b;
    }
    hide Ids, Distinct, Without;
    WithoutSum(a, b, Ids(b));
    WithoutNone(a, Ids(b));
    WithoutAll(b, Ids(b));
  }
}
