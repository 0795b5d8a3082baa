/** The extractive summary of the turns that did not fit: at most four short, distinct
    items in each of six sections. */
module Summary {
  import opened Basics
  import opened Wrappers
  import opened History
  import opened Texts

  const MAX_ITEMS: nat := 4
  const MAX_ITEM_CHARS: nat := 160

  // ------------------------------------------------------------------
  // Items
  // ------------------------------------------------------------------

  /** The words of a text with single spaces between them. */
  function Collapse(text: string): (r: string)
    ensures |r| <= |text|
    decreases |text|
  {
    if text == [] then []
    else if IsSpace(text[0]) then Collapse(LStrip(text[1..]))
    else if |text| > 1 && IsSpace(text[1]) then
      var rest := Collapse(LStrip(text[1..]));
      [text[0]] + (if rest == [] then [] else [' '] + rest)
    else [text[0]] + Collapse(text[1..])
  }

  function Clip(text: string): (r: string)
    ensures |r| <= 160
    ensures |Collapse(text)| <= 160 ==> r == Collapse(text)
  {
    var cleaned := Collapse(text);
    if |cleaned| <= MAX_ITEM_CHARS then cleaned else RStrip(cleaned[..MAX_ITEM_CHARS - 3]) + "..."
  }

  function AddUnique(bucket: seq<string>, item: string): seq<string> {
    var clipped := Clip(item);
    if clipped != "" && clipped !in bucket && |bucket| < MAX_ITEMS then bucket + [clipped] else bucket
  }

  function AddAll(bucket: seq<string>, items: seq<string>): seq<string> {
    if items == [] then bucket else AddUnique(AddAll(bucket, items[..|items| - 1]), items[|items| - 1])
  }

  /** The words of a text: its longest parts without white space. */
  function Words(text: string): seq<string>
    decreases |text|
  {
    if text == [] then []
    else if IsSpace(text[0]) then Words(text[1..])
    else [text[..WordChars(text)]] + Words(text[WordChars(text)..])
  }

  function WordChars(text: string): (n: nat)
    ensures n <= |text|
    ensures text != [] && !IsSpace(text[0]) ==> n > 0
  {
    if text == [] || IsSpace(text[0]) then 0 else 1 + WordChars(text[1..])
  }

  lemma {:induction false} WordsOfStripped(text: string)
    ensures Words(LStrip(text)) == Words(text)
  {
    hide IsSpace;
    if text != [] && IsSpace(text[0]) {
      WordsOfStripped(text[1..]);
    }
  }

  /** A word ends before white space, and otherwise goes on. */
  lemma WordsStep(text: string)
    requires text != [] && !IsSpace(text[0])
    ensures var rest := text[1..];
      if rest == [] || IsSpace(rest[0]) then Words(text) == [[text[0]]] + Words(rest)
      else Words(rest) != [] && Words(text) == [[text[0]] + Words(rest)[0]] + Words(rest)[1..]
  {
    hide IsSpace;
    var rest := text[1..];
    var n := WordChars(rest);
    assert WordChars(text) == n + 1 && text[..n + 1] == [text[0]] + rest[..n] && text[n + 1..] == rest[n..];
    if rest == [] || IsSpace(rest[0]) {
      assert n == 0 && rest[0..] == rest && rest[..0] == [] && [text[0]] + [] == [text[0]];
      assert Words(text) == [text[..1]] + Words(text[1..]);
    }
  }

  lemma CollapseStep(text: string)
    requires text != []
    ensures var rest := text[1..];
      Collapse(text) ==
      if IsSpace(text[0]) then Collapse(LStrip(rest))
      else if rest != [] && IsSpace(rest[0]) then
        [text[0]] + (if Collapse(LStrip(rest)) == [] then [] else [' '] + Collapse(LStrip(rest)))
      else [text[0]] + Collapse(rest)
  {
    hide IsSpace, LStrip;
  }

  lemma NoWords()
    ensures Join(" ", []) == "" && Words("") == [] && Collapse("") == ""
  {
  }

  lemma SkippedSpace(text: string)
    requires text != [] && IsSpace(text[0])
    ensures Words(text) == Words(text[1..])
  {
    hide IsSpace;
  }

  /** A collapsed text is its words with single blanks between them. */
  lemma {:induction false} CollapsedIsJoined(text: string)
    ensures Collapse(text) == Join(" ", Words(text))
    decreases |text|
  {
    hide IsSpace, Join, Collapse, Words, LStrip;
    NoWords();
    if text != [] {
      var rest := text[1..];
      CollapseStep(text);
      if IsSpace(text[0]) {
        CollapsedIsJoined(LStrip(rest));
        WordsOfStripped(rest);
        SkippedSpace(text);
      } else {
        WordsStep(text);
        var words := Words(rest);
        if rest == [] || IsSpace(rest[0]) {
          CollapsedIsJoined(LStrip(rest));
          CollapsedIsJoined(rest);
          WordsOfStripped(rest);
          WordsAreSome(words, rest);
          JoinCons(" ", [text[0]], words);
        } else {
          CollapsedIsJoined(rest);
          assert words == [words[0]] + words[1..];
          JoinCons(" ", words[0], words[1..]);
          JoinCons(" ", [text[0]] + words[0], words[1..]);
        }
      }
    }
  }

  lemma {:induction false} WordsAreSome(words: seq<string>, text: string)
    requires words == Words(text)
    ensures forall word | word in words :: word != ""
    ensures Join(" ", words) == "" <==> words == []
    decreases |text|
  {
    hide IsSpace;
    if text != [] {
      if IsSpace(text[0]) {
        WordsAreSome(words, text[1..]);
      } else {
        WordsAreSome(words[1..], text[WordChars(text)..]);
        assert words == [words[0]] + words[1..];
        JoinCons(" ", words[0], words[1..]);
      }
    }
  }

  /** An item is the collapsed text if that has at most 160 characters, and otherwise its
      first 157 without the white space at their end, and three dots. */
  lemma ClipIsStart(text: string)
    ensures var words := Join(" ", Words(text));
      if |words| <= 160 then Clip(text) == words
      else
        exists n: nat :: n <= 157 && Clip(text) == words[..n] + "..." && AllSpace(words[n..157])
                         && (n > 0 ==> !IsSpace(words[n - 1]))
  {
    CollapsedIsJoined(text);
    var words := Join(" ", Words(text));
    hide Collapse, Join, Words, IsSpace;
    if |words| > 160 {
      RStripIsExact(words[..157]);
      var n := |RStrip(words[..157])|;
      assert words[..157][n..] == words[n..157] && words[..n] == RStrip(words[..157]);
      assert Clip(text) == words[..n] + "..." && AllSpace(words[n..157]);
    }
  }

  // ------------------------------------------------------------------
  // Classifying sentences
  // ------------------------------------------------------------------

  datatype Kind = Decision | Preference | Pending | Task | Generic

  /** The pattern matching: how a content falls into sentences, the files a sentence
      names, and what kind of sentence it is. */
  datatype Patterns = Patterns(sentences: string -> seq<string>, files: string -> seq<string>, kind: string -> Kind)

  datatype ConversationSummary = ConversationSummary(
    facts: seq<string>,
    decisions: seq<string>,
    preferences: seq<string>,
    taskState: seq<string>,
    relevantFiles: seq<string>,
    pendingWork: seq<string>)

  const NO_SUMMARY := ConversationSummary([], [], [], [], [], [])

  datatype Gathered = Gathered(summary: ConversationSummary, seen: set<string>)

  function Head(text: string): string {
    if |text| <= 60 then text else text[..60]
  }

  function AddSentence(p: Patterns, g: Gathered, role: string, sentence: string): Gathered {
    var text := LStrip(RStrip(sentence));
    if |text| < 8 then g
    else
      var s := g.summary.(relevantFiles := AddAll(g.summary.relevantFiles, p.files(text)));
      match p.kind(text)
      case Decision =>
        g.(summary := s.(decisions := AddUnique(s.decisions, if role == "user" then role + ": " + text else text)))
      case Preference => g.(summary := s.(preferences := AddUnique(s.preferences, text)))
      case Pending => g.(summary := s.(pendingWork := AddUnique(s.pendingWork, text)))
      case Task => g.(summary := s.(taskState := AddUnique(s.taskState, text)))
      case Generic =>
        if |text| >= 25 && Head(text) !in g.seen
        then Gathered(s.(facts := AddUnique(s.facts, text)), g.seen + {Head(text)})
        else g.(summary := s)
  }

  function AddSentences(p: Patterns, g: Gathered, role: string, sentences: seq<string>): Gathered {
    if sentences == [] then g
    else AddSentence(p, AddSentences(p, g, role, sentences[..|sentences| - 1]), role, sentences[|sentences| - 1])
  }

  function AddTurns(p: Patterns, g: Gathered, turns: seq<Turn>): Gathered {
    if turns == [] then g
    else
      var n := |turns| - 1;
      var before := AddTurns(p, g, turns[..n]);
      if turns[n].content == "" then before
      else AddSentences(p, before, turns[n].role, p.sentences(turns[n].content))
  }

  function Summarized(p: Patterns, turns: seq<Turn>): ConversationSummary {
    AddTurns(p, Gathered(NO_SUMMARY, {}), turns).summary
  }

  method AddItem(bucket: seq<string>, item: string) returns (more: seq<string>)
    ensures more == AddUnique(bucket, item)
  {
    more := bucket;
    var clipped := Clip(item);
    if |clipped| > 0 && clipped !in bucket && |bucket| < MAX_ITEMS {
      more := more + [clipped];
    }
  }

  method AddFiles(bucket: seq<string>, files: seq<string>) returns (more: seq<string>)
    ensures more == AddAll(bucket, files)
  {
    more := bucket;
    for i := 0 to |files|
      invariant more == AddAll(bucket, files[..i])
    {
      assert files[..i + 1][..i] == files[..i];
      more := AddItem(more, files[i]);
    }
    assert files[..|files|] == files;
  }

  method AddTurn(p: Patterns, gathered: Gathered, role: string, content: string) returns (g: Gathered)
    ensures g == AddSentences(p, gathered, role, p.sentences(content))
  {
    g := gathered;
    var sentences := p.sentences(content);
    for i := 0 to |sentences|
      invariant g == AddSentences(p, gathered, role, sentences[..i])
    {
      assert sentences[..i + 1][..i] == sentences[..i];
      var text := LStrip(RStrip(sentences[i]));
      if |text| < 8 {
        continue;
      }
      var s := g.summary;
      var files := AddFiles(s.relevantFiles, p.files(text));
      s := s.(relevantFiles := files);
      match p.kind(text) {
        case Decision =>
          var items := AddItem(s.decisions, if role == "user" then role + ": " + text else text);
          g := g.(summary := s.(decisions := items));
        case Preference =>
          var items := AddItem(s.preferences, text);
          g := g.(summary := s.(preferences := items));
        case Pending =>
          var items := AddItem(s.pendingWork, text);
          g := g.(summary := s.(pendingWork := items));
        case Task =>
          var items := AddItem(s.taskState, text);
          g := g.(summary := s.(taskState := items));
        case Generic =>
          if |text| >= 25 && Head(text) !in g.seen {
            var items := AddItem(s.facts, text);
            g := Gathered(s.(facts := items), g.seen + {Head(text)});
          } else {
            g := g.(summary := s);
          }
      }
    }
    assert sentences[..|sentences|] == sentences;
  }

  method BuildSummaryFromTurns(p: Patterns, dropped: seq<Turn>) returns (summary: ConversationSummary)
    ensures summary == Summarized(p, dropped)
  {
    var g := Gathered(NO_SUMMARY, {});
    for i := 0 to |dropped|
      invariant g == AddTurns(p, Gathered(NO_SUMMARY, {}), dropped[..i])
    {
      assert dropped[..i + 1][..i] == dropped[..i];
      if dropped[i].content != "" {
        g := AddTurn(p, g, dropped[i].role, dropped[i].content);
      }
    }
    assert dropped[..|dropped|] == dropped;
    summary := g.summary;
  }

  // ------------------------------------------------------------------
  // What a section holds
  // ------------------------------------------------------------------

  predicate IsSection(bucket: seq<string>) {
    && |bucket| <= 4
    && (forall x | x in bucket :: 0 < |x| <= 160)
    && (forall i, j | 0 <= i < j < |bucket| :: bucket[i] != bucket[j])
  }

  predicate IsCompact(s: ConversationSummary) {
    && IsSection(s.facts) && IsSection(s.decisions) && IsSection(s.preferences)
    && IsSection(s.taskState) && IsSection(s.relevantFiles) && IsSection(s.pendingWork)
  }

  lemma AddUniqueKeepsSection(bucket: seq<string>, item: string)
    requires IsSection(bucket)
    ensures IsSection(AddUnique(bucket, item))
  {
  }

  lemma {:induction false} AddAllKeepsSection(bucket: seq<string>, items: seq<string>)
    requires IsSection(bucket)
    ensures IsSection(AddAll(bucket, items))
  {
    hide IsSection, AddUnique;
    if items != [] {
      AddAllKeepsSection(bucket, items[..|items| - 1]);
      AddUniqueKeepsSection(AddAll(bucket, items[..|items| - 1]), items[|items| - 1]);
    }
  }

  predicate Offered(items: seq<string>, x: string) {
    exists i :: 0 <= i < |items| && x == Clip(items[i])
  }

  predicate Missed(bucket: seq<string>, item: string) {
    Clip(item) != "" && Clip(item) !in bucket
  }

  lemma AddUniqueAdds(bucket: seq<string>, item: string)
    ensures var more := AddUnique(bucket, item);
      && bucket <= more
      && (more == bucket || more == bucket + [Clip(item)])
      && (|more| < 4 ==> !Missed(more, item))
  {
  }

  lemma StillNotMissed(bucket: seq<string>, more: seq<string>, item: string)
    requires bucket <= more && !Missed(bucket, item)
    ensures !Missed(more, item)
  {
  }

  lemma {:induction false} NothingInvented(items: seq<string>)
    ensures forall x | x in AddAll([], items) :: Offered(items, x)
  {
    hide Clip, AddUnique;
    if items != [] {
      var n := |items| - 1;
      NothingInvented(items[..n]);
      AddUniqueAdds(AddAll([], items[..n]), items[n]);
      forall x | x in AddAll([], items[..n]) ensures Offered(items, x) {
        var i :| 0 <= i < n && x == Clip(items[..n][i]);
        assert items[i] == items[..n][i];
      }
    }
  }

  lemma {:induction false} NothingMissed(items: seq<string>, i: nat)
    requires i < |items| && |AddAll([], items)| < 4
    ensures !Missed(AddAll([], items), items[i])
  {
    hide Missed, AddUnique;
    var n := |items| - 1;
    var before := AddAll([], items[..n]);
    AddUniqueAdds(before, items[n]);
    if i < n {
      NothingMissed(items[..n], i);
      StillNotMissed(before, AddAll([], items), items[i]);
    }
  }

  /** A section is the first four distinct items offered to it: nothing is invented, and an
      item is missing only if the section is full. */
  lemma SectionIsFirstItems(items: seq<string>)
    ensures var bucket := AddAll([], items);
      && IsSection(bucket)
      && (forall x | x in bucket :: Offered(items, x))
      && (|bucket| < 4 ==> forall i | 0 <= i < |items| :: !Missed(bucket, items[i]))
  {
    hide Missed, Offered, AddAll;
    AddAllKeepsSection([], items);
    NothingInvented(items);
    if |AddAll([], items)| < 4 {
      forall i | 0 <= i < |items| ensures !Missed(AddAll([], items), items[i]) {
        NothingMissed(items, i);
      }
    }
  }

  lemma AddSentenceKeepsCompact(p: Patterns, g: Gathered, role: string, sentence: string)
    requires IsCompact(g.summary)
    ensures IsCompact(AddSentence(p, g, role, sentence).summary)
  {
    hide IsSpace, Clip, IsSection, AddUnique;
    var text := LStrip(RStrip(sentence));
    AddAllKeepsSection(g.summary.relevantFiles, p.files(text));
    AddUniqueKeepsSection(g.summary.decisions, role + ": " + text);
    AddUniqueKeepsSection(g.summary.decisions, text);
    AddUniqueKeepsSection(g.summary.preferences, text);
    AddUniqueKeepsSection(g.summary.pendingWork, text);
    AddUniqueKeepsSection(g.summary.taskState, text);
    AddUniqueKeepsSection(g.summary.facts, text);
  }

  lemma {:induction false} AddSentencesKeepsCompact(p: Patterns, g: Gathered, role: string, sentences: seq<string>)
    requires IsCompact(g.summary)
    ensures IsCompact(AddSentences(p, g, role, sentences).summary)
  {
    hide IsCompact, AddSentence;
    if sentences != [] {
      var n := |sentences| - 1;
      AddSentencesKeepsCompact(p, g, role, sentences[..n]);
      AddSentenceKeepsCompact(p, AddSentences(p, g, role, sentences[..n]), role, sentences[n]);
    }
  }

  lemma {:induction false} AddTurnsKeepsCompact(p: Patterns, g: Gathered, turns: seq<Turn>)
    requires IsCompact(g.summary)
    ensures IsCompact(AddTurns(p, g, turns).summary)
  {
    hide IsCompact, AddSentences;
    if turns != [] {
      var n := |turns| - 1;
      AddTurnsKeepsCompact(p, g, turns[..n]);
      AddSentencesKeepsCompact(p, AddTurns(p, g, turns[..n]), turns[n].role, p.sentences(turns[n].content));
    }
  }

  /** Whatever the patterns match, a summary has at most four distinct items of at most
      160 characters in each section. */
  lemma SummaryIsCompact(p: Patterns, turns: seq<Turn>)
    ensures IsCompact(Summarized(p, turns))
  {
    AddTurnsKeepsCompact(p, Gathered(NO_SUMMARY, {}), turns);
  }

  // ------------------------------------------------------------------
  // Which sentences a section is made of
  // ------------------------------------------------------------------

  datatype Title = Facts | Decisions | Preferences | TaskState | Files | PendingWork

  function InSection(s: ConversationSummary, title: Title): seq<string> {
    match title
    case Facts => s.facts
    case Decisions => s.decisions
    case Preferences => s.preferences
    case TaskState => s.taskState
    case Files => s.relevantFiles
    case PendingWork => s.pendingWork
  }

  /** What one sentence offers to a section: the files it names always, itself to one. */
  function Offers(p: Patterns, role: string, sentence: string, title: Title): seq<string> {
    var text := LStrip(RStrip(sentence));
    if |text| < 8 then []
    else
      match title
      case Files => p.files(text)
      case Facts => if p.kind(text) == Generic && |text| >= 25 then [text] else []
      case Decisions =>
        if p.kind(text) != Decision then [] else [if role == "user" then role + ": " + text else text]
      case Preferences => if p.kind(text) == Preference then [text] else []
      case PendingWork => if p.kind(text) == Pending then [text] else []
      case TaskState => if p.kind(text) == Task then [text] else []
  }

  function OffersOfAll(p: Patterns, role: string, sentences: seq<string>, title: Title): seq<string> {
    if sentences == [] then []
    else OffersOfAll(p, role, sentences[..|sentences| - 1], title) + Offers(p, role, sentences[|sentences| - 1], title)
  }

  function OffersOfTurns(p: Patterns, turns: seq<Turn>, title: Title): seq<string> {
    if turns == [] then []
    else
      var n := |turns| - 1;
      OffersOfTurns(p, turns[..n], title) +
      (if turns[n].content == "" then [] else OffersOfAll(p, turns[n].role, p.sentences(turns[n].content), title))
  }

  lemma {:induction false} AddAllSum(bucket: seq<string>, a: seq<string>, b: seq<string>)
    ensures AddAll(bucket, a + b) == AddAll(AddAll(bucket, a), b)
  {
    if b == [] {
      assert a + b == a;
    } else {
      assert (a + b)[..|a + b| - 1] == a + b[..|b| - 1];
      AddAllSum(bucket, a, b[..|b| - 1]);
    }
  }

  lemma SentenceFillsSection(p: Patterns, g: Gathered, role: string, sentence: string, title: Title)
    requires !title.Facts?
    ensures InSection(AddSentence(p, g, role, sentence).summary, title) ==
            AddAll(InSection(g.summary, title), Offers(p, role, sentence, title))
  {
    hide AddUnique, LStrip, RStrip;
    AddOne(InSection(g.summary, title), LStrip(RStrip(sentence)));
    AddOne(InSection(g.summary, title), role + ": " + LStrip(RStrip(sentence)));
  }

  lemma AddOne(bucket: seq<string>, item: string)
    ensures AddAll(bucket, [item]) == AddUnique(bucket, item)
  {
    assert [item][..0] == [];
  }

  lemma {:induction false} SentencesFillSection(p: Patterns, g: Gathered, role: string, sentences: seq<string>, title: Title)
    requires !title.Facts?
    ensures InSection(AddSentences(p, g, role, sentences).summary, title) ==
            AddAll(InSection(g.summary, title), OffersOfAll(p, role, sentences, title))
  {
    hide AddSentence, Offers, InSection;
    if sentences != [] {
      var n := |sentences| - 1;
      SentencesFillSection(p, g, role, sentences[..n], title);
      SentenceFillsSection(p, AddSentences(p, g, role, sentences[..n]), role, sentences[n], title);
      AddAllSum(InSection(g.summary, title), OffersOfAll(p, role, sentences[..n], title), Offers(p, role, sentences[n], title));
    }
  }

  lemma {:induction false} TurnsFillSection(p: Patterns, g: Gathered, turns: seq<Turn>, title: Title)
    requires !title.Facts?
    ensures InSection(AddTurns(p, g, turns).summary, title) ==
            AddAll(InSection(g.summary, title), OffersOfTurns(p, turns, title))
  {
    hide AddSentences, OffersOfAll, InSection;
    if turns != [] {
      var n := |turns| - 1;
      TurnsFillSection(p, g, turns[..n], title);
      if turns[n].content == "" {
        assert OffersOfTurns(p, turns[..n], title) + [] == OffersOfTurns(p, turns[..n], title);
      } else {
        var sentences := p.sentences(turns[n].content);
        SentencesFillSection(p, AddTurns(p, g, turns[..n]), turns[n].role, sentences, title);
        var before, offers := OffersOfTurns(p, turns[..n], title), OffersOfAll(p, turns[n].role, sentences, title);
        AddAllSum(InSection(g.summary, title), before, offers);
      }
    }
  }

  /** Two texts that the first 60 characters do not tell apart. */
  predicate SameStart(a: string, b: string) {
    Min(|a|, 60) == Min(|b|, 60) && forall k | 0 <= k < Min(|a|, 60) && k < |b| :: a[k] == b[k]
  }

  lemma HeadsTellStarts(a: string, b: string)
    ensures Head(a) == Head(b) <==> SameStart(a, b)
  {
    assert |Head(a)| == Min(|a|, 60) && |Head(b)| == Min(|b|, 60);
    assert forall k | 0 <= k < |Head(a)| :: Head(a)[k] == a[k];
    assert forall k | 0 <= k < |Head(b)| :: Head(b)[k] == b[k];
    hide Head;
  }

  predicate HeadOccurs(texts: seq<string>, head: string) {
    exists i :: 0 <= i < |texts| && Head(texts[i]) == head
  }

  /** Of texts with the same first 60 characters only the first. */
  function FirstOfHeads(texts: seq<string>): seq<string> {
    if texts == [] then []
    else
      var n := |texts| - 1;
      FirstOfHeads(texts[..n]) + (if HeadOccurs(texts[..n], Head(texts[n])) then [] else [texts[n]])
  }

  /** The heads seen and the facts kept are those of the texts offered so far. */
  ghost predicate FactsFrom(g: Gathered, offered: seq<string>) {
    && (forall head :: head in g.seen <==> HeadOccurs(offered, head))
    && g.summary.facts == AddAll([], FirstOfHeads(offered))
  }

  lemma FactOffered(g: Gathered, offered: seq<string>, text: string, after: Gathered)
    requires FactsFrom(g, offered)
    requires after.seen == g.seen + {Head(text)}
    requires after.summary.facts ==
             if Head(text) in g.seen then g.summary.facts else AddUnique(g.summary.facts, text)
    ensures FactsFrom(after, offered + [text])
  {
    hide Head, AddUnique;
    var more := offered + [text];
    assert more[..|offered|] == offered;
    forall head ensures HeadOccurs(more, head) <==> HeadOccurs(offered, head) || head == Head(text) {
      if HeadOccurs(offered, head) {
        var i :| 0 <= i < |offered| && Head(offered[i]) == head;
        assert Head(more[i]) == head;
      }
      assert more[|offered|] == text;
    }
    if Head(text) in g.seen {
      assert FirstOfHeads(more) == FirstOfHeads(offered);
    } else {
      AddAllSum([], FirstOfHeads(offered), [text]);
      AddOne(AddAll([], FirstOfHeads(offered)), text);
    }
  }

  lemma SentenceOffersFact(p: Patterns, g: Gathered, role: string, sentence: string, offered: seq<string>)
    requires FactsFrom(g, offered)
    ensures FactsFrom(AddSentence(p, g, role, sentence), offered + Offers(p, role, sentence, Facts))
  {
    hide HeadOccurs, FirstOfHeads, AddUnique, AddAll, Head, LStrip, RStrip;
    var text := LStrip(RStrip(sentence));
    var after := AddSentence(p, g, role, sentence);
    if |text| >= 25 && p.kind(text) == Generic {
      FactOffered(g, offered, text, after);
    } else {
      assert offered + [] == offered;
    }
  }

  lemma {:induction false} SentencesOfferFacts(
    p: Patterns, g: Gathered, role: string, sentences: seq<string>, offered: seq<string>)
    requires FactsFrom(g, offered)
    ensures FactsFrom(AddSentences(p, g, role, sentences), offered + OffersOfAll(p, role, sentences, Facts))
  {
    hide FactsFrom, AddSentence, Offers;
    if sentences == [] {
      assert offered + [] == offered;
    } else {
      var n := |sentences| - 1;
      SentencesOfferFacts(p, g, role, sentences[..n], offered);
      var before, last := OffersOfAll(p, role, sentences[..n], Facts), Offers(p, role, sentences[n], Facts);
      SentenceOffersFact(p, AddSentences(p, g, role, sentences[..n]), role, sentences[n], offered + before);
      assert offered + before + last == offered + (before + last);
    }
  }

  lemma {:induction false} TurnsOfferFacts(p: Patterns, turns: seq<Turn>)
    ensures FactsFrom(AddTurns(p, Gathered(NO_SUMMARY, {}), turns), OffersOfTurns(p, turns, Facts))
  {
    hide AddSentences, OffersOfAll;
    if turns != [] {
      hide FactsFrom;
      var n := |turns| - 1;
      TurnsOfferFacts(p, turns[..n]);
      var before := OffersOfTurns(p, turns[..n], Facts);
      if turns[n].content == "" {
        assert before + [] == before;
      } else {
        var g := AddTurns(p, Gathered(NO_SUMMARY, {}), turns[..n]);
        SentencesOfferFacts(p, g, turns[n].role, p.sentences(turns[n].content), before);
      }
    }
  }

  /** Each section holds the first four distinct items that the dropped turns offer it, in
      order, whatever the other sections hold; and of facts that begin alike only the first
      is an offer. */
  lemma SectionsAreIndependent(p: Patterns, turns: seq<Turn>, title: Title)
    ensures var offers := OffersOfTurns(p, turns, title);
      InSection(Summarized(p, turns), title) == AddAll([], if title.Facts? then FirstOfHeads(offers) else offers)
  {
    if title.Facts? {
      TurnsOfferFacts(p, turns);
    } else {
      TurnsFillSection(p, Gathered(NO_SUMMARY, {}), turns, title);
    }
  }

  // ------------------------------------------------------------------
  // Rendering
  // ------------------------------------------------------------------

  datatype Section = Section(title: string, items: seq<string>)

  function Sections(s: ConversationSummary): seq<Section> {
    [Section("Facts", s.facts), Section("Decisions", s.decisions), Section("Preferences", s.preferences),
     Section("Task state", s.taskState), Section("Files", s.relevantFiles), Section("Pending", s.pendingWork)]
  }

  predicate IsEmpty(s: ConversationSummary) {
    s == NO_SUMMARY
  }

  function Lines(lines: seq<string>, sections: seq<Section>): seq<string> {
    if sections == [] then lines
    else
      var n := |sections| - 1;
      var before := Lines(lines, sections[..n]);
      if sections[n].items == [] then before else before + [sections[n].title + ": " + Join("; ", sections[n].items)]
  }

  function Rendered(s: ConversationSummary): Option<string> {
    if IsEmpty(s) then None else Some(Join("\n", Lines(["## Earlier conversation summary"], Sections(s))))
  }

  /** The line of a section, if it has any items. */
  function LineOf(title: string, items: seq<string>): seq<string> {
    if items == [] then [] else [title + ": " + Join("; ", items)]
  }

  lemma LinesPush(lines: seq<string>, sections: seq<Section>, last: Section)
    ensures Lines(lines, sections + [last]) == Lines(lines, sections) + LineOf(last.title, last.items)
  {
    assert (sections + [last])[..|sections|] == sections;
    assert Lines(lines, sections) + [] == Lines(lines, sections);
  }

  /** The block has a line for each section that is not empty, under the title of what it
      holds, in this order. */
  lemma RenderedByTitle(s: ConversationSummary)
    ensures Rendered(s) ==
      if s == ConversationSummary([], [], [], [], [], []) then None
      else
        Some(Join("\n",
          ["## Earlier conversation summary"]
          + LineOf("Facts", s.facts) + LineOf("Decisions", s.decisions) + LineOf("Preferences", s.preferences)
          + LineOf("Task state", s.taskState) + LineOf("Files", s.relevantFiles) + LineOf("Pending", s.pendingWork)))
  {
    hide LineOf, Join;
    var header := ["## Earlier conversation summary"];
    SixLines(header, Section("Facts", s.facts), Section("Decisions", s.decisions), Section("Preferences", s.preferences),
             Section("Task state", s.taskState), Section("Files", s.relevantFiles), Section("Pending", s.pendingWork));
    hide Lines;
  }

  lemma SixLines(header: seq<string>, a: Section, b: Section, c: Section, d: Section, e: Section, f: Section)
    ensures Lines(header, [a, b, c, d, e, f]) ==
            header + LineOf(a.title, a.items) + LineOf(b.title, b.items) + LineOf(c.title, c.items)
                   + LineOf(d.title, d.items) + LineOf(e.title, e.items) + LineOf(f.title, f.items)
  {
    hide LineOf;
    assert Lines(header, []) == header;
    hide Lines;
    LinesPush(header, [], a);
    LinesPush(header, [a], b);
    LinesPush(header, [a, b], c);
    LinesPush(header, [a, b, c], d);
    LinesPush(header, [a, b, c, d], e);
    LinesPush(header, [a, b, c, d, e], f);
    assert [] + [a] == [a] && [a] + [b] == [a, b] && [a, b] + [c] == [a, b, c] && [a, b, c] + [d] == [a, b, c, d];
    assert [a, b, c, d] + [e] == [a, b, c, d, e] && [a, b, c, d, e] + [f] == [a, b, c, d, e, f];
  }

  method RenderSummary(s: ConversationSummary) returns (r: Option<string>)
    ensures r == Rendered(s)
  {
    if |s.facts| == 0 && |s.decisions| == 0 && |s.preferences| == 0 && |s.taskState| == 0
       && |s.relevantFiles| == 0 && |s.pendingWork| == 0 {
      return None;
    }
    var sections := Sections(s);
    var lines := ["## Earlier conversation summary"];
    for i := 0 to |sections|
      invariant lines == Lines(["## Earlier conversation summary"], sections[..i])
    {
      assert sections[..i + 1][..i] == sections[..i];
      if |sections[i].items| > 0 {
        lines := lines + [sections[i].title + ": " + Join("; ", sections[i].items)];
      }
    }
    assert sections[..|sections|] == sections;
    r := Some(Join("\n", lines));
  }

  const ITEMS_CHARS: nat := MAX_ITEMS * MAX_ITEM_CHARS + 2 * (MAX_ITEMS - 1)
  const MAX_RENDERED: nat := 3972

  lemma {:induction false} JoinedItems(items: seq<string>, k: nat)
    requires 0 < |items| <= k && forall x | x in items :: |x| <= MAX_ITEM_CHARS
    ensures |Join("; ", items)| <= |items| * MAX_ITEM_CHARS + 2 * (|items| - 1)
  {
    if |items| > 1 {
      JoinedItems(items[..|items| - 1], k);
    }
  }

  lemma SectionLine(section: Section)
    requires IsSection(section.items) && section.items != []
    ensures |section.title + ": " + Join("; ", section.items)| <= |section.title| + 2 + ITEMS_CHARS
  {
    JoinedItems(section.items, MAX_ITEMS);
  }

  function TitleChars(sections: seq<Section>): nat {
    if sections == [] then 0 else TitleChars(sections[..|sections| - 1]) + |sections[|sections| - 1].title|
  }

  lemma {:induction false} RenderedLines(header: string, sections: seq<Section>)
    requires forall s | s in sections :: IsSection(s.items)
    ensures Lines([header], sections) != []
    ensures |Join("\n", Lines([header], sections))| <=
            |header| + |sections| * (3 + ITEMS_CHARS) + TitleChars(sections)
  {
    hide IsSection;
    if sections != [] {
      var n := |sections| - 1;
      RenderedLines(header, sections[..n]);
      if sections[n].items != [] {
        SectionLine(sections[n]);
        var before := Lines([header], sections[..n]);
        assert Lines([header], sections)[..|before|] == before;
      }
    }
  }

  /** The rendered summary is never longer than 3972 characters. */
  lemma RenderedIsShort(p: Patterns, turns: seq<Turn>)
    ensures Rendered(Summarized(p, turns)).Some? ==> 0 < |Rendered(Summarized(p, turns)).value| <= MAX_RENDERED
  {
    hide Summarized, Join, Lines;
    var s := Summarized(p, turns);
    SummaryIsCompact(p, turns);
    var sections := Sections(s);
    RenderedLines("## Earlier conversation summary", sections);
    SixTitles(s);
    if !IsEmpty(s) {
      RenderedIsNotEmpty(sections);
    }
  }

  lemma NextTitle(sections: seq<Section>, i: nat)
    requires i < |sections|
    ensures TitleChars(sections[..i + 1]) == TitleChars(sections[..i]) + |sections[i].title|
  {
    assert sections[..i + 1][..i] == sections[..i];
  }

  lemma SixTitles(s: ConversationSummary)
    ensures TitleChars(Sections(s)) == 47 && |Sections(s)| == 6
  {
    var x := Sections(s);
    assert x[..0] == [] && x[..6] == x;
    NextTitle(x, 0);
    NextTitle(x, 1);
    NextTitle(x, 2);
    NextTitle(x, 3);
    NextTitle(x, 4);
    NextTitle(x, 5);
  }

  lemma {:induction false} RenderedIsNotEmpty(sections: seq<Section>)
    ensures |Join("\n", Lines(["## Earlier conversation summary"], sections))| >= 31
  {
    if sections != [] {
      var n := |sections| - 1;
      RenderedIsNotEmpty(sections[..n]);
      var before := Lines(["## Earlier conversation summary"], sections[..n]);
      if sections[n].items != [] && before != [] {
        assert Lines(["## Earlier conversation summary"], sections)[..|before|] == before;
      }
    }
  }
}
