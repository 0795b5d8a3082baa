/** Attached files under a character budget: whole, cut, or by name only. */
module AttachedFiles {
  import opened Basics
  import opened Texts

  const SMALL_FILE_CHARS: nat := 1000
  const MEDIUM_FILE_CHARS: nat := 5000
  const TRUNCATION_SUFFIX := "\n... [file truncated]"
  const SEPARATOR := "\n\n"

  datatype File = File(name: string, content: string, size: int)

  /** How names and numbers are written: the extension of a name, and decimals. */
  datatype Writing = Writing(extension: string -> string, decimal: int -> string)

  function SizeOf(f: File): int {
    if f.size == 0 then |f.content| else f.size
  }

  function MetadataLine(w: Writing, f: File): string {
    "[Attached file: " + f.name + " (" + w.extension(f.name) + ", " + w.decimal(SizeOf(f)) + " bytes)]"
  }

  function Note(w: Writing, f: File): string {
    MetadataLine(w, f) + "\n(content omitted due to size; use read_file if needed)"
  }

  function Block(w: Writing, f: File, body: string): string {
    MetadataLine(w, f) + "\n```\n" + body + "\n```"
  }

  function CutBody(content: string, bodyBudget: nat): string {
    RStrip(if bodyBudget <= |content| then content[..bodyBudget] else content) + TRUNCATION_SUFFIX
  }

  /** What becomes of one file, and the part of the text it gets. */
  datatype Fate = Complete(part: string) | Truncated(part: string) | NameOnly(part: string) | LeftOut

  function FateOf(w: Writing, f: File, maxTotalChars: int, used: int): Fate {
    var metadata := MetadataLine(w, f);
    var room := maxTotalChars - used;
    var available := room - (|metadata| + 8);
    if available <= 0 then LeftOut
    else if f.content == "" then NameOnly(metadata)
    else if |f.content| > MEDIUM_FILE_CHARS then
      if |Note(w, f)| + 2 <= room then NameOnly(Note(w, f)) else LeftOut
    else if |Block(w, f, f.content)| + 2 <= room then Complete(Block(w, f, f.content))
    else if available - |TRUNCATION_SUFFIX| >= SMALL_FILE_CHARS / 2 then
      Truncated(Block(w, f, CutBody(f.content, available - |TRUNCATION_SUFFIX|)))
    else LeftOut
  }

  datatype Formatting = Formatting(
    parts: seq<string>, used: int, complete: seq<string>, truncated: seq<string>, omitted: seq<string>)

  const NOTHING := Formatting([], 0, [], [], [])

  function WithPart(g: Formatting, part: string): Formatting {
    g.(parts := g.parts + [part], used := g.used + |part| + 2)
  }

  function Step(w: Writing, g: Formatting, f: File, maxTotalChars: int): Formatting {
    match FateOf(w, f, maxTotalChars, g.used)
    case Complete(part) => WithPart(g, part).(complete := g.complete + [f.name])
    case Truncated(part) => WithPart(g, part).(truncated := g.truncated + [f.name])
    case NameOnly(part) => WithPart(g, part).(omitted := g.omitted + [f.name])
    case LeftOut => g.(omitted := g.omitted + [f.name])
  }

  function Formatted(w: Writing, files: seq<File>, maxTotalChars: int): Formatting {
    if files == [] then NOTHING
    else Step(w, Formatted(w, files[..|files| - 1], maxTotalChars), files[|files| - 1], maxTotalChars)
  }

  function Text(g: Formatting): string {
    Join(SEPARATOR, g.parts)
  }

  datatype AttachedFilesContext = AttachedFilesContext(
    text: string, totalChars: nat, complete: seq<string>, truncated: seq<string>, omitted: seq<string>)

  method FormatAttachedFiles(w: Writing, files: seq<File>, maxTotalChars: int) returns (r: AttachedFilesContext)
    ensures var g := Formatted(w, files, maxTotalChars);
      r == AttachedFilesContext(Text(g), |Text(g)|, g.complete, g.truncated, g.omitted)
  {
    hide Note, Block, CutBody, MetadataLine;
    var parts, used, complete, truncated, omitted := [], 0, [], [], [];
    for i := 0 to |files|
      invariant Formatting(parts, used, complete, truncated, omitted) == Formatted(w, files[..i], maxTotalChars)
    {
      assert files[..i + 1][..i] == files[..i];
      var f := files[i];
      var metadata := MetadataLine(w, f);
      var overhead := |metadata| + 8;
      var available := maxTotalChars - used - overhead;
      if available <= 0 {
        omitted := omitted + [f.name];
        continue;
      }
      if |f.content| == 0 {
        parts, used := parts + [metadata], used + |metadata| + 2;
        omitted := omitted + [f.name];
        continue;
      }
      if |f.content| > MEDIUM_FILE_CHARS {
        var note := Note(w, f);
        if |note| + 2 <= maxTotalChars - used {
          parts, used := parts + [note], used + |note| + 2;
        }
        omitted := omitted + [f.name];
        continue;
      }
      var block := Block(w, f, f.content);
      if |block| + 2 <= maxTotalChars - used {
        parts, used := parts + [block], used + |block| + 2;
        complete := complete + [f.name];
        continue;
      }
      var bodyBudget := available - |TRUNCATION_SUFFIX|;
      if bodyBudget >= SMALL_FILE_CHARS / 2 {
        block := Block(w, f, CutBody(f.content, bodyBudget));
        parts, used := parts + [block], used + |block| + 2;
        truncated := truncated + [f.name];
        continue;
      }
      omitted := omitted + [f.name];
    }
    assert files[..|files|] == files;
    var text := Join(SEPARATOR, parts);
    r := AttachedFilesContext(text, |text|, complete, truncated, omitted);
  }

  // ------------------------------------------------------------------
  // Every file is accounted for
  // ------------------------------------------------------------------

  function Names(files: seq<File>): seq<string> {
    if files == [] then [] else Names(files[..|files| - 1]) + [files[|files| - 1].name]
  }

  function Accounted(g: Formatting): multiset<string> {
    multiset(g.complete) + multiset(g.truncated) + multiset(g.omitted)
  }

  lemma StepAccounts(w: Writing, g: Formatting, f: File, maxTotalChars: int)
    ensures Accounted(Step(w, g, f, maxTotalChars)) == Accounted(g) + multiset{f.name}
  {
    hide FateOf;
  }

  /** Every file is in exactly one of the three lists. */
  lemma {:induction false} FilesArePartitioned(w: Writing, files: seq<File>, maxTotalChars: int)
    ensures Accounted(Formatted(w, files, maxTotalChars)) == multiset(Names(files))
  {
    hide Step;
    if files != [] {
      var n := |files| - 1;
      FilesArePartitioned(w, files[..n], maxTotalChars);
      StepAccounts(w, Formatted(w, files[..n], maxTotalChars), files[n], maxTotalChars);
    }
  }

  lemma CompleteIsBlock(w: Writing, f: File, maxTotalChars: int, used: int)
    requires FateOf(w, f, maxTotalChars, used).Complete?
    ensures FateOf(w, f, maxTotalChars, used).part == Block(w, f, f.content)
  {
  }

  /** A file that fits whole when its turn comes is in the text, word for word. */
  lemma {:induction false} CompleteFilesAreIntact(w: Writing, files: seq<File>, maxTotalChars: int, i: nat)
    requires i < |files| && FateOf(w, files[i], maxTotalChars, Formatted(w, files[..i], maxTotalChars).used).Complete?
    ensures var g := Formatted(w, files, maxTotalChars);
      Block(w, files[i], files[i].content) in g.parts && files[i].name in g.complete
  {
    hide Block, MetadataLine, FateOf;
    var n := |files| - 1;
    if i < n {
      assert files[..n][..i] == files[..i];
      CompleteFilesAreIntact(w, files[..n], maxTotalChars, i);
    } else {
      CompleteIsBlock(w, files[i], maxTotalChars, Formatted(w, files[..i], maxTotalChars).used);
    }
  }

  // ------------------------------------------------------------------
  // The budget
  // ------------------------------------------------------------------

  /** The length of the text: two separators' worth of characters are counted too many. */
  function TextChars(g: Formatting): int {
    if g.parts == [] then 0 else g.used - 2
  }

  lemma JoinPush(parts: seq<string>, part: string)
    requires parts != []
    ensures Join(SEPARATOR, parts + [part]) == Join(SEPARATOR, parts) + SEPARATOR + part
  {
    assert (parts + [part])[..|parts|] == parts;
  }

  lemma {:induction false} TextLength(w: Writing, files: seq<File>, maxTotalChars: int)
    ensures var g := Formatted(w, files, maxTotalChars);
      |Text(g)| == TextChars(g) && (g.parts == [] ==> g.used == 0) && 0 <= g.used
  {
    hide FateOf;
    if files != [] {
      var n := |files| - 1;
      TextLength(w, files[..n], maxTotalChars);
      var before := Formatted(w, files[..n], maxTotalChars);
      match FateOf(w, files[n], maxTotalChars, before.used) {
        case LeftOut =>
        case Complete(part) => WithPartLength(before, part);
        case Truncated(part) => WithPartLength(before, part);
        case NameOnly(part) => WithPartLength(before, part);
      }
    }
  }

  lemma WithPartLength(g: Formatting, part: string)
    requires |Text(g)| == TextChars(g) && (g.parts == [] ==> g.used == 0)
    ensures |Text(WithPart(g, part))| == TextChars(WithPart(g, part))
  {
    if g.parts == [] {
      assert g.parts + [part] == [part];
    } else {
      JoinPush(g.parts, part);
    }
  }

  lemma CutBodyLength(content: string, bodyBudget: nat)
    ensures |CutBody(content, bodyBudget)| <= bodyBudget + |TRUNCATION_SUFFIX|
  {
  }

  /** One file never takes the text beyond the budget and one character, and it goes
      beyond the budget only if it is cut. */
  lemma PartFits(w: Writing, f: File, maxTotalChars: int, used: int)
    ensures var fate := FateOf(w, f, maxTotalChars, used);
      && (fate.Complete? || fate.NameOnly? ==> used + |fate.part| <= maxTotalChars)
      && (fate.Truncated? ==> used + |fate.part| <= maxTotalChars + 1)
      && (!fate.LeftOut? ==> used < maxTotalChars)
  {
    hide MetadataLine, CutBody;
    var available := maxTotalChars - used - (|MetadataLine(w, f)| + 8);
    if available - |TRUNCATION_SUFFIX| >= 0 {
      CutBodyLength(f.content, available - |TRUNCATION_SUFFIX|);
    }
  }

  lemma StepFits(w: Writing, g: Formatting, f: File, maxTotalChars: int)
    requires g.parts == [] ==> g.used == 0
    requires TextChars(g) <= Max(0, maxTotalChars + 1)
    ensures var t := Step(w, g, f, maxTotalChars);
      && TextChars(t) <= Max(0, maxTotalChars + 1)
      && (TextChars(g) == maxTotalChars + 1 && g.parts != [] ==> t == g.(omitted := g.omitted + [f.name]))
      && (TextChars(t) > Max(0, maxTotalChars) && TextChars(g) <= Max(0, maxTotalChars) ==> t.truncated == g.truncated + [f.name])
  {
    hide FateOf;
    PartFits(w, f, maxTotalChars, g.used);
  }

  /** The text is at most one character longer than the budget. */
  lemma {:induction false} TextIsBounded(w: Writing, files: seq<File>, maxTotalChars: int)
    ensures |Text(Formatted(w, files, maxTotalChars))| <= Max(0, maxTotalChars + 1)
    ensures TextChars(Formatted(w, files, maxTotalChars)) <= Max(0, maxTotalChars + 1)
  {
    hide Step, Text, TextChars;
    TextLength(w, files, maxTotalChars);
    if files == [] {
      NothingIsEmpty();
    } else {
      var n := |files| - 1;
      TextIsBounded(w, files[..n], maxTotalChars);
      TextLength(w, files[..n], maxTotalChars);
      StepFits(w, Formatted(w, files[..n], maxTotalChars), files[n], maxTotalChars);
    }
  }

  lemma NothingIsEmpty()
    ensures TextChars(NOTHING) == 0
  {
  }

  /** The extra character comes from a cut file, and ends the text: all later files are
      left out. */
  lemma {:induction false} OverrunIsFinal(w: Writing, files: seq<File>, maxTotalChars: nat) returns (k: nat)
    requires |Text(Formatted(w, files, maxTotalChars))| == maxTotalChars + 1
    ensures k < |files|
    ensures FateOf(w, files[k], maxTotalChars, Formatted(w, files[..k], maxTotalChars).used).Truncated?
    ensures |Text(Formatted(w, files[..k], maxTotalChars))| <= maxTotalChars
    ensures var cut := Formatted(w, files[..k + 1], maxTotalChars);
      Formatted(w, files, maxTotalChars) == cut.(omitted := cut.omitted + Names(files[k + 1..]))
  {
    hide FateOf, Text, Step, TextChars;
    TextLength(w, files, maxTotalChars);
    NothingIsEmpty();
    var n := |files| - 1;
    var before := Formatted(w, files[..n], maxTotalChars);
    TextLength(w, files[..n], maxTotalChars);
    TextIsBounded(w, files[..n], maxTotalChars);
    StepFits(w, before, files[n], maxTotalChars);
    if |Text(before)| == maxTotalChars + 1 {
      k := OverrunIsFinal(w, files[..n], maxTotalChars);
      assert files[..n][..k] == files[..k] && files[..n][..k + 1] == files[..k + 1] && files[..n][k] == files[k];
      BeyondIsNotEmpty(before, maxTotalChars);
      NamesPush(files, k + 1);
      var cut := Formatted(w, files[..k + 1], maxTotalChars);
      assert cut.omitted + Names(files[k + 1..]) == cut.omitted + Names(files[..n][k + 1..]) + [files[n].name];
    } else {
      k := n;
      assert files[..n + 1] == files && files[n + 1..] == [];
      assert Formatted(w, files, maxTotalChars).omitted + [] == Formatted(w, files, maxTotalChars).omitted;
      OverrunIsCut(w, before, files[n], maxTotalChars);
    }
  }

  lemma NamesPush(files: seq<File>, k: nat)
    requires k < |files|
    ensures Names(files[k..]) == Names(files[..|files| - 1][k..]) + [files[|files| - 1].name]
  {
    var n := |files| - 1;
    assert files[k..][..n - k] == files[..n][k..];
  }

  lemma BeyondIsNotEmpty(g: Formatting, maxTotalChars: nat)
    requires TextChars(g) == maxTotalChars + 1
    ensures g.parts != []
  {
  }

  lemma OverrunIsCut(w: Writing, g: Formatting, f: File, maxTotalChars: nat)
    requires g.parts == [] ==> g.used == 0
    requires TextChars(g) <= maxTotalChars < TextChars(Step(w, g, f, maxTotalChars))
    ensures FateOf(w, f, maxTotalChars, g.used).Truncated?
  {
    hide FateOf;
    PartFits(w, f, maxTotalChars, g.used);
  }

  // ------------------------------------------------------------------
  // When the budget is overrun, and when a cut ends the text
  // ------------------------------------------------------------------

  /** The room a list of files leaves. */
  function Room(w: Writing, files: seq<File>, maxTotalChars: int): int {
    maxTotalChars - Formatted(w, files, maxTotalChars).used
  }

  predicate IsCut(w: Writing, files: seq<File>, maxTotalChars: int, k: nat)
    requires k < |files|
  {
    FateOf(w, files[k], maxTotalChars, Formatted(w, files[..k], maxTotalChars).used).Truncated?
  }

  /** How many characters of a file are taken before stripping when it is cut to a room. */
  function CutChars(w: Writing, f: File, room: int): int {
    room - (|MetadataLine(w, f)| + 8) - |TRUNCATION_SUFFIX|
  }

  /** Whether a file gets a part of the text in a room, by its lengths alone: beside the
      metadata line, nothing, the note, the whole content, or 500 characters of it must fit. */
  predicate GetsPart(w: Writing, f: File, room: int) {
    && |MetadataLine(w, f)| + 8 < room
    && (|f.content| > MEDIUM_FILE_CHARS ==> |Note(w, f)| + 2 <= room)
    && (0 < |f.content| <= MEDIUM_FILE_CHARS ==>
          |MetadataLine(w, f)| + |f.content| + 11 <= room || CutChars(w, f, room) >= SMALL_FILE_CHARS / 2)
  }

  lemma PartByRoom(w: Writing, f: File, maxTotalChars: int, used: int)
    ensures FateOf(w, f, maxTotalChars, used).LeftOut? <==> !GetsPart(w, f, maxTotalChars - used)
  {
    hide MetadataLine;
  }

  /** What stripping removes from the cut content. */
  function Stripped(w: Writing, f: File, room: int): int
    requires 0 <= CutChars(w, f, room) <= |f.content|
  {
    CutChars(w, f, room) - |RStrip(f.content[..CutChars(w, f, room)])|
  }

  /** A cut takes the text one character beyond the budget, less what is stripped. */
  lemma CutIsExact(w: Writing, g: Formatting, f: File, maxTotalChars: int)
    requires FateOf(w, f, maxTotalChars, g.used).Truncated?
    ensures 0 < CutChars(w, f, maxTotalChars - g.used) < |f.content|
    ensures TextChars(Step(w, g, f, maxTotalChars)) == maxTotalChars + 1 - Stripped(w, f, maxTotalChars - g.used)
  {
    hide MetadataLine, RStrip;
  }

  lemma StripsNothingIffSolid(text: string)
    requires text != ""
    ensures |RStrip(text)| == |text| <==> !IsSpace(text[|text| - 1])
  {
    hide IsSpace;
  }

  /** A file that is cut behind a character that is no white space. */
  predicate IsSolidCut(w: Writing, files: seq<File>, maxTotalChars: int, k: nat)
    requires k < |files|
  {
    && IsCut(w, files, maxTotalChars, k)
    && var n := CutChars(w, files[k], Room(w, files[..k], maxTotalChars));
       0 < n <= |files[k].content| && !IsSpace(files[k].content[n - 1])
  }

  lemma CutIsExactAt(w: Writing, files: seq<File>, maxTotalChars: int, k: nat)
    requires k < |files| && IsCut(w, files, maxTotalChars, k)
    ensures var room := Room(w, files[..k], maxTotalChars);
      && 0 < CutChars(w, files[k], room) < |files[k].content|
      && TextChars(Formatted(w, files[..k + 1], maxTotalChars)) == maxTotalChars + 1 - Stripped(w, files[k], room)
      && Room(w, files[..k + 1], maxTotalChars) == Stripped(w, files[k], room) - 3
      && (Stripped(w, files[k], room) == 0 <==> IsSolidCut(w, files, maxTotalChars, k))
  {
    hide Formatted, Step, Block, MetadataLine, CutBody, FateOf, RStrip;
    assert files[..k + 1] == files[..k] + [files[k]];
    FormatPush(w, files[..k], files[k], maxTotalChars);
    var g := Formatted(w, files[..k], maxTotalChars);
    CutIsExact(w, g, files[k], maxTotalChars);
    var n := CutChars(w, files[k], maxTotalChars - g.used);
    StripsNothingIffSolid(files[k].content[..n]);
    CutHasPart(w, g, files[k], maxTotalChars);
  }

  lemma CutHasPart(w: Writing, g: Formatting, f: File, maxTotalChars: int)
    requires FateOf(w, f, maxTotalChars, g.used).Truncated?
    ensures Step(w, g, f, maxTotalChars).parts != []
  {
  }

  lemma {:induction false} OverrunStays(w: Writing, files: seq<File>, maxTotalChars: nat, k: nat)
    requires k <= |files| && TextChars(Formatted(w, files[..k], maxTotalChars)) == maxTotalChars + 1
    ensures TextChars(Formatted(w, files, maxTotalChars)) == maxTotalChars + 1
    decreases |files|
  {
    hide Step, TextChars;
    if k == |files| {
      assert files[..k] == files;
    } else {
      var n := |files| - 1;
      assert files[..n][..k] == files[..k];
      OverrunStays(w, files[..n], maxTotalChars, k);
      var before := Formatted(w, files[..n], maxTotalChars);
      TextLength(w, files[..n], maxTotalChars);
      BeyondIsNotEmpty(before, maxTotalChars);
      StepFits(w, before, files[n], maxTotalChars);
      SameTextChars(before, files[n].name);
    }
  }

  lemma SameTextChars(g: Formatting, name: string)
    ensures TextChars(g.(omitted := g.omitted + [name])) == TextChars(g)
  {
  }

  /** Whatever the files, the text is longer than the budget if and only if some file is
      cut behind a character that is no white space; and then by one character. */
  lemma OverrunIffSolidCut(w: Writing, files: seq<File>, maxTotalChars: nat)
    ensures |Text(Formatted(w, files, maxTotalChars))| > maxTotalChars <==>
            exists k | 0 <= k < |files| :: IsSolidCut(w, files, maxTotalChars, k)
  {
    hide FateOf, Text, TextChars, CutChars, Step, IsSolidCut, Stripped;
    TextLength(w, files, maxTotalChars);
    TextIsBounded(w, files, maxTotalChars);
    if |Text(Formatted(w, files, maxTotalChars))| > maxTotalChars {
      var k := OverrunIsFinal(w, files, maxTotalChars);
      CutIsExactAt(w, files, maxTotalChars, k);
      var cut := Formatted(w, files[..k + 1], maxTotalChars);
      SameTextCharsAll(cut, Names(files[k + 1..]));
      assert IsSolidCut(w, files, maxTotalChars, k);
    }
    forall k | 0 <= k < |files| && IsSolidCut(w, files, maxTotalChars, k)
      ensures |Text(Formatted(w, files, maxTotalChars))| == maxTotalChars + 1
    {
      SolidCutIsCut(w, files, maxTotalChars, k);
      CutIsExactAt(w, files, maxTotalChars, k);
      OverrunStays(w, files, maxTotalChars, k + 1);
    }
  }

  lemma SolidCutIsCut(w: Writing, files: seq<File>, maxTotalChars: int, k: nat)
    requires k < |files| && IsSolidCut(w, files, maxTotalChars, k)
    ensures IsCut(w, files, maxTotalChars, k)
  {
  }

  lemma SameTextCharsAll(g: Formatting, names: seq<string>)
    ensures TextChars(g.(omitted := g.omitted + names)) == TextChars(g)
  {
  }

  lemma StepParts(w: Writing, g: Formatting, f: File, maxTotalChars: int)
    ensures var t := Step(w, g, f, maxTotalChars);
      && g.parts <= t.parts
      && (t.parts == g.parts <==> !GetsPart(w, f, maxTotalChars - g.used))
      && (t.parts == g.parts ==> t.used == g.used)
  {
    PartByRoom(w, f, maxTotalChars, g.used);
    hide FateOf, GetsPart;
  }

  /** From any point on, the text does not grow any more exactly if no later file gets a
      part of the room that is left there. */
  lemma {:induction false} TextEndsIffNoneFits(w: Writing, files: seq<File>, maxTotalChars: int, k: nat)
    requires k <= |files|
    ensures var base, all := Formatted(w, files[..k], maxTotalChars), Formatted(w, files, maxTotalChars);
      && base.parts <= all.parts
      && (all.parts == base.parts <==>
            forall j | k <= j < |files| :: !GetsPart(w, files[j], Room(w, files[..k], maxTotalChars)))
      && (all.parts == base.parts ==> all.used == base.used)
    decreases |files|
  {
    hide Step, GetsPart;
    if k == |files| {
      assert files[..k] == files;
    } else {
      var n := |files| - 1;
      assert files[..n][..k] == files[..k];
      TextEndsIffNoneFits(w, files[..n], maxTotalChars, k);
      StepParts(w, Formatted(w, files[..n], maxTotalChars), files[n], maxTotalChars);
      assert forall j | 0 <= j < n :: files[..n][j] == files[j];
    }
  }

  /** A cut leaves what it strips, less three characters, as room; it ends the text if and
      only if no later file gets a part of that. */
  lemma CutEndsTextIff(w: Writing, files: seq<File>, maxTotalChars: int, k: nat)
    requires k < |files| && IsCut(w, files, maxTotalChars, k)
    ensures 0 <= CutChars(w, files[k], Room(w, files[..k], maxTotalChars)) <= |files[k].content|
    ensures var stripped := Stripped(w, files[k], Room(w, files[..k], maxTotalChars));
      Formatted(w, files, maxTotalChars).parts == Formatted(w, files[..k + 1], maxTotalChars).parts <==>
      forall j | k < j < |files| :: !GetsPart(w, files[j], stripped - 3)
  {
    hide Stripped, CutChars, IsCut, GetsPart, IsSolidCut, TextChars;
    CutIsExactAt(w, files, maxTotalChars, k);
    TextEndsIffNoneFits(w, files, maxTotalChars, k + 1);
  }

  predicate IsBlank(text: string) {
    forall i | 0 <= i < |text| :: text[i] == ' '
  }

  lemma {:induction false} AllStripped(text: string)
    requires IsBlank(text)
    ensures RStrip(text) == ""
  {
    if text != [] {
      AllStripped(text[..|text| - 1]);
    }
  }

  lemma BlankIsCut(w: Writing, blank: File)
    requires |blank.content| == 2000 && IsBlank(blank.content) && |MetadataLine(w, blank)| <= 100
    ensures FateOf(w, blank, 1500, 0) == Truncated(Block(w, blank, TRUNCATION_SUFFIX))
  {
    hide MetadataLine, RStrip, IsBlank;
    var budget := 1500 - |MetadataLine(w, blank)| - 8 - |TRUNCATION_SUFFIX|;
    BlankPrefix(blank.content, budget);
    AllStripped(blank.content[..budget]);
  }

  lemma BlankPrefix(text: string, n: nat)
    requires IsBlank(text) && n <= |text|
    ensures IsBlank(text[..n])
  {
  }

  lemma SmallFits(w: Writing, small: File, used: nat)
    requires |MetadataLine(w, small)| <= 100 && small.content == "x" && used <= 200
    ensures FateOf(w, small, 1500, used).Complete?
  {
    hide MetadataLine;
  }

  lemma FormatPush(w: Writing, files: seq<File>, f: File, maxTotalChars: int)
    ensures Formatted(w, files + [f], maxTotalChars) == Step(w, Formatted(w, files, maxTotalChars), f, maxTotalChars)
  {
    assert (files + [f])[..|files|] == files;
  }

  /** A cut file need not be the last one: when the cut text ends in white space, which is
      stripped, there may be room for another file whole. */
  lemma CutNeedNotBeLast(w: Writing, blank: File, small: File)
    requires |blank.content| == 2000 && IsBlank(blank.content) && small.content == "x"
    requires |MetadataLine(w, blank)| <= 100 && |MetadataLine(w, small)| <= 100
    ensures var g := Formatted(w, [blank, small], 1500);
      g.truncated == [blank.name] && g.complete == [small.name]
  {
    BlankIsCut(w, blank);
    hide FateOf, MetadataLine, IsBlank;
    var one := Step(w, NOTHING, blank, 1500);
    assert Formatted(w, [], 1500) == NOTHING && [] + [blank] == [blank] && [blank] + [small] == [blank, small];
    FormatPush(w, [], blank, 1500);
    FormatPush(w, [blank], small, 1500);
    assert Formatted(w, [blank], 1500) == one && one.used == |Block(w, blank, TRUNCATION_SUFFIX)| + 2;
    SmallFits(w, small, one.used);
  }

  predicate IsSolid(text: string) {
    forall i | 0 <= i < |text| :: !IsSpace(text[i])
  }

  /** A file without white space that is cut takes the text beyond the budget. */
  lemma SolidFileOverruns(w: Writing, solid: File)
    requires |solid.content| == 2000 && IsSolid(solid.content) && |MetadataLine(w, solid)| <= 100
    ensures |Text(Formatted(w, [solid], 1500))| == 1501
  {
    hide MetadataLine, RStrip;
    assert [solid][..0] == [];
    assert Formatted(w, [], 1500) == NOTHING;
    assert FateOf(w, solid, 1500, 0).Truncated?;
    CutIsExactAt(w, [solid], 1500, 0);
    assert IsSolidCut(w, [solid], 1500, 0);
    OverrunIffSolidCut(w, [solid], 1500);
    TextIsBounded(w, [solid], 1500);
  }

  // ------------------------------------------------------------------
  // What each file gets
  // ------------------------------------------------------------------

  /** A formatting with one more part of the text, two characters apart. */
  predicate Shows(g: Formatting, t: Formatting, part: string) {
    t.parts == g.parts + [part] && t.used == g.used + |part| + 2
  }

  predicate ShowsNothing(g: Formatting, t: Formatting) {
    t.parts == g.parts && t.used == g.used
  }

  /** The start of a content, up to some white space that is cut off. */
  predicate IsStartOf(body: string, content: string, n: int) {
    && 0 <= n <= |content|
    && body <= content[..n] && AllSpace(content[|body|..n]) && (body != "" ==> !IsSpace(body[|body| - 1]))
  }

  /** What a file gets when its turn comes, by its content and the room that is left: beside
      a line with its name, nothing if it is empty, a note if it is longer than 5000
      characters, all of it if it fits, its start if 500 characters of it do; and in which
      list it is. */
  predicate GetsItsPart(w: Writing, g: Formatting, t: Formatting, f: File, room: int) {
    var c := |f.content|;
    var line := "[Attached file: " + f.name + " (" + w.extension(f.name) + ", "
                + w.decimal(if f.size == 0 then c else f.size) + " bytes)]";
    var note := line + "\n(content omitted due to size; use read_file if needed)";
    if room <= |line| + 8 then ShowsNothing(g, t) && IsOmitted(g, t, f)
    else if c == 0 then Shows(g, t, line) && IsOmitted(g, t, f)
    else if c > 5000 then (if |note| + 2 <= room then Shows(g, t, note) else ShowsNothing(g, t)) && IsOmitted(g, t, f)
    else if |line| + c + 11 <= room then Shows(g, t, line + "\n```\n" + f.content + "\n```") && IsComplete(g, t, f)
    else if room - |line| - 29 >= 500 then ShowsStart(g, t, line, f.content, room - |line| - 29) && IsTruncated(g, t, f)
    else ShowsNothing(g, t) && IsOmitted(g, t, f)
  }

  predicate ShowsStart(g: Formatting, t: Formatting, line: string, content: string, n: int) {
    && 0 <= n <= |content|
    && var body := RStrip(content[..n]);
       IsStartOf(body, content, n) && Shows(g, t, line + "\n```\n" + body + "\n... [file truncated]" + "\n```")
  }

  predicate IsOmitted(g: Formatting, t: Formatting, f: File) {
    t.omitted == g.omitted + [f.name] && t.complete == g.complete && t.truncated == g.truncated
  }

  predicate IsComplete(g: Formatting, t: Formatting, f: File) {
    t.complete == g.complete + [f.name] && t.omitted == g.omitted && t.truncated == g.truncated
  }

  predicate IsTruncated(g: Formatting, t: Formatting, f: File) {
    t.truncated == g.truncated + [f.name] && t.omitted == g.omitted && t.complete == g.complete
  }

  lemma StartIsCut(w: Writing, f: File, n: int)
    requires 0 <= n <= |f.content|
    ensures var body := RStrip(f.content[..n]);
      && IsStartOf(body, f.content, n)
      && Block(w, f, CutBody(f.content, n)) ==
         MetadataLine(w, f) + "\n```\n" + body + "\n... [file truncated]" + "\n```"
  {
    hide MetadataLine;
    RStripIsExact(f.content[..n]);
    hide RStrip, IsSpace, AllSpace;
    var body := RStrip(f.content[..n]);
    assert f.content[..n][|body|..] == f.content[|body|..n];
  }

  lemma StepGivesPart(w: Writing, g: Formatting, f: File, maxTotalChars: int)
    ensures GetsItsPart(w, g, Step(w, g, f, maxTotalChars), f, maxTotalChars - g.used)
  {
    hide RStrip, IsStartOf, CutBody;
    var line := MetadataLine(w, f);
    assert |TRUNCATION_SUFFIX| == 21;
    var n := CutChars(w, f, maxTotalChars - g.used);
    if 0 <= n <= |f.content| {
      StartIsCut(w, f, n);
    }
    hide Block;
    assert Block(w, f, f.content) == line + "\n```\n" + f.content + "\n```" by {
      WholeBlock(w, f);
    }
  }

  lemma WholeBlock(w: Writing, f: File)
    ensures Block(w, f, f.content) == MetadataLine(w, f) + "\n```\n" + f.content + "\n```"
  {
  }

  /** Every file gets its part of the text when its turn comes, and the text is the parts
      with an empty line between them. */
  lemma EveryFileGetsItsPart(w: Writing, files: seq<File>, maxTotalChars: int, k: nat)
    requires k < |files|
    ensures GetsItsPart(w, Formatted(w, files[..k], maxTotalChars), Formatted(w, files[..k + 1], maxTotalChars), files[k],
                        Room(w, files[..k], maxTotalChars))
    ensures Text(Formatted(w, files, maxTotalChars)) == Join("\n\n", Formatted(w, files, maxTotalChars).parts)
  {
    hide Step, GetsItsPart;
    assert files[..k + 1] == files[..k] + [files[k]];
    FormatPush(w, files[..k], files[k], maxTotalChars);
    StepGivesPart(w, Formatted(w, files[..k], maxTotalChars), files[k], maxTotalChars);
  }

  // ------------------------------------------------------------------
  // The composed message
  // ------------------------------------------------------------------

  method BuildMessageWithAttachments(w: Writing, userInput: string, files: seq<File>, maxTotalChars: int)
    returns (message: string)
    ensures message == Message(w, userInput, files, maxTotalChars)
  {
    var reserved := |userInput| + (if |files| > 0 then |SEPARATOR| else 0);
    var availableForFiles := maxTotalChars - reserved;
    if |files| > 0 && availableForFiles > 0 {
      var formatted := FormatAttachedFiles(w, files, availableForFiles);
      if |formatted.text| > 0 {
        return formatted.text + SEPARATOR + userInput;
      }
    }
    message := userInput;
  }

  function Message(w: Writing, userInput: string, files: seq<File>, maxTotalChars: int): string {
    var available := maxTotalChars - |userInput| - 2;
    var text := if files != [] && available > 0 then Text(Formatted(w, files, available)) else "";
    if text == "" then userInput else text + SEPARATOR + userInput
  }

  /** The user's input is always the intact end of the message, and the message exceeds
      the limit by at most one character beyond what the input itself takes. */
  lemma InputIsIntact(w: Writing, userInput: string, files: seq<File>, maxTotalChars: int)
    ensures var message := Message(w, userInput, files, maxTotalChars);
      && |message| >= |userInput|
      && message[|message| - |userInput|..] == userInput
      && |message| <= Max(|userInput|, maxTotalChars + 1)
  {
    hide Text;
    TextIsBounded(w, files, maxTotalChars - |userInput| - 2);
  }

  /** The files come before the input if and only if one of them gets a part of the room that
      the input leaves; otherwise the message is the input. */
  lemma FilesComeFirst(w: Writing, userInput: string, files: seq<File>, maxTotalChars: int)
    ensures var message := Message(w, userInput, files, maxTotalChars);
      var room := maxTotalChars - |userInput| - 2;
      if exists j | 0 <= j < |files| :: GetsPart(w, files[j], room)
      then message == Join("\n\n", Formatted(w, files, room).parts) + "\n\n" + userInput
           && Formatted(w, files, room).parts != []
      else message == userInput
  {
    hide GetsPart, Step, Join;
    var room := maxTotalChars - |userInput| - 2;
    TextEndsIffNoneFits(w, files, room, 0);
    assert files[..0] == [] && Formatted(w, [], room) == NOTHING;
    var g := Formatted(w, files, room);
    NoPartNoText();
    if g.parts != [] {
      PartsAreTexts(w, files, room);
    }
    forall j | 0 <= j < |files| && GetsPart(w, files[j], room) ensures room > 0 {
      PartNeedsRoom(w, files[j], room);
    }
  }

  lemma NoPartNoText()
    ensures Join("\n\n", []) == ""
  {
  }

  lemma PartNeedsRoom(w: Writing, f: File, room: int)
    requires GetsPart(w, f, room)
    ensures room > 0
  {
  }

  lemma {:induction false} PartsAreTexts(w: Writing, files: seq<File>, maxTotalChars: int)
    ensures var g := Formatted(w, files, maxTotalChars); g.parts != [] ==> Text(g) != ""
  {
    TextLength(w, files, maxTotalChars);
    UsedIsMore(w, files, maxTotalChars);
    hide Formatted, Text;
  }

  lemma {:induction false} UsedIsMore(w: Writing, files: seq<File>, maxTotalChars: int)
    ensures var g := Formatted(w, files, maxTotalChars); 0 <= g.used && (g.parts != [] ==> g.used > 2)
  {
    hide Step;
    if files != [] {
      var n := |files| - 1;
      UsedIsMore(w, files[..n], maxTotalChars);
      StepUsesMore(w, Formatted(w, files[..n], maxTotalChars), files[n], maxTotalChars);
    }
  }

  lemma StepUsesMore(w: Writing, g: Formatting, f: File, maxTotalChars: int)
    requires 0 <= g.used && (g.parts != [] ==> g.used > 2)
    ensures var t := Step(w, g, f, maxTotalChars); 0 <= t.used && (t.parts != [] ==> t.used > 2)
  {
    hide RStrip;
  }
}
