/** The scanner that cuts a JSON object out of a model's prose by counting braces. */
module JsonScanner {
  import opened Wrappers

  // ------------------------------------------------------------------
  // Quoting and depth
  // ------------------------------------------------------------------

  /** What the scanner knows of its position: inside a string, after a backslash. */
  datatype Quoting = Quoting(inString: bool, escape: bool)

  const OUTSIDE: Quoting := Quoting(false, false)

  function ReadChar(q: Quoting, c: char): Quoting {
    if q.escape then q.(escape := false)
    else if c == '\\' then q.(escape := true)
    else if c == '"' then q.(inString := !q.inString)
    else q
  }

  function After(q: Quoting, text: string): Quoting {
    if text == [] then q else ReadChar(After(q, text[..|text| - 1]), text[|text| - 1])
  }

  /** What a character adds to the brace depth. */
  function Change(q: Quoting, c: char): int {
    if q.escape || q.inString then 0 else if c == '{' then 1 else if c == '}' then -1 else 0
  }

  /** The unquoted opening braces of a text less its unquoted closing ones. */
  function Delta(q: Quoting, text: string): int {
    if text == [] then 0
    else Delta(q, text[..|text| - 1]) + Change(After(q, text[..|text| - 1]), text[|text| - 1])
  }

  lemma {:induction false} ReadSum(q: Quoting, a: string, b: string)
    ensures After(q, a + b) == After(After(q, a), b)
    ensures Delta(q, a + b) == Delta(q, a) + Delta(After(q, a), b)
  {
    if b == [] {
      assert a + b == a;
    } else {
      assert (a + b)[..|a + b| - 1] == a + b[..|b| - 1];
      ReadSum(q, a, b[..|b| - 1]);
    }
  }

  lemma ReadOne(q: Quoting, c: char)
    ensures After(q, [c]) == ReadChar(q, c) && Delta(q, [c]) == Change(q, c)
  {
    assert [c][..0] == [];
  }

  // ------------------------------------------------------------------
  // The scanner
  // ------------------------------------------------------------------

  /** The depth is back at zero. */
  predicate Closes(text: string) {
    text != [] && Delta(OUTSIDE, text) == 0
  }

  function FirstClosed(text: string, start: nat, end: nat): Option<string>
    requires start <= |text| && start <= end
    decreases |text| - end
  {
    if end > |text| then None
    else if Closes(text[start..end]) then Some(text[start..end])
    else FirstClosed(text, start, end + 1)
  }

  function Extracted(text: string, start: nat): Option<string> {
    if start >= |text| || text[start] != '{' then None else FirstClosed(text, start, start + 1)
  }

  lemma {:induction false} FirstClosedIsShortest(text: string, start: nat, end: nat)
    requires start <= |text| && start <= end
    ensures var r := FirstClosed(text, start, end);
      && (r.None? <==> forall k | end <= k <= |text| :: !Closes(text[start..k]))
      && (r.Some? ==> exists k | end <= k <= |text| ::
            && r.value == text[start..k] && Closes(text[start..k])
            && forall j | end <= j < k :: !Closes(text[start..j]))
    decreases |text| - end
  {
    if end <= |text| && !Closes(text[start..end]) {
      FirstClosedIsShortest(text, start, end + 1);
    }
  }

  // ------------------------------------------------------------------
  // What is extracted
  // ------------------------------------------------------------------

  /** The backslashes at the very end of a text: what follows an odd number is escaped. */
  function Backslashes(text: string): nat {
    if text == [] || text[|text| - 1] != '\\' then 0 else Backslashes(text[..|text| - 1]) + 1
  }

  /** The quotation marks that are not escaped: what follows an odd number is quoted. */
  function Quotes(text: string): nat {
    if text == [] then 0
    else
      var before := text[..|text| - 1];
      Quotes(before) + if text[|text| - 1] == '"' && Backslashes(before) % 2 == 0 then 1 else 0
  }

  /** The occurrences of a brace that are neither escaped nor quoted. */
  function Braces(text: string, brace: char): nat {
    if text == [] then 0
    else
      var before := text[..|text| - 1];
      Braces(before, brace)
      + if text[|text| - 1] == brace && Backslashes(before) % 2 == 0 && Quotes(before) % 2 == 0 then 1 else 0
  }

  predicate Balanced(text: string) {
    text != [] && Braces(text, '{') == Braces(text, '}')
  }

  /** The flags are the parities and the depth is the difference. */
  lemma {:induction false} ReadingIsCounting(text: string)
    ensures After(OUTSIDE, text) == Quoting(Quotes(text) % 2 == 1, Backslashes(text) % 2 == 1)
    ensures Delta(OUTSIDE, text) == Braces(text, '{') - Braces(text, '}')
    ensures Closes(text) <==> Balanced(text)
  {
    if text != [] {
      ReadingIsCounting(text[..|text| - 1]);
    }
  }

  /** At an opening brace the scanner returns the shortest text from there in which as many
      opening as closing braces are neither escaped nor quoted, and nothing exactly if there
      is none; anywhere else it returns nothing. */
  lemma ExtractedIsShortest(text: string, start: nat)
    ensures var r := Extracted(text, start);
      && (r.Some? <==> start < |text| && text[start] == '{' && exists k | start < k <= |text| :: Balanced(text[start..k]))
      && (r.Some? ==> exists k | start < k <= |text| ::
            && r.value == text[start..k] && Balanced(text[start..k])
            && forall j | start < j < k :: !Balanced(text[start..j]))
  {
    if start < |text| {
      forall k | start < k <= |text| ensures Closes(text[start..k]) <==> Balanced(text[start..k]) {
        ReadingIsCounting(text[start..k]);
      }
      FirstClosedIsShortest(text, start, start + 1);
      hide Closes, Balanced, FirstClosed;
    }
  }

  method ExtractBalancedJson(text: string, start: nat) returns (r: Option<string>)
    ensures r == Extracted(text, start)
  {
    if start >= |text| || text[start] != '{' {
      return None;
    }
    var depth := 0;
    var inString, escape := false, false;
    for i := start to |text|
      invariant Quoting(inString, escape) == After(OUTSIDE, text[start..i])
      invariant depth == Delta(OUTSIDE, text[start..i])
      invariant i > start ==> depth >= 1
      invariant Extracted(text, start) == FirstClosed(text, start, if i > start then i else start + 1)
    {
      var ch := text[i];
      assert text[start..i + 1][..i - start] == text[start..i];
      if escape {
        escape := false;
        continue;
      }
      if ch == '\\' {
        escape := true;
        continue;
      }
      if ch == '"' {
        inString := !inString;
        continue;
      }
      if inString {
        continue;
      }
      if ch == '{' {
        depth := depth + 1;
      } else if ch == '}' {
        depth := depth - 1;
        if depth == 0 {
          return Some(text[start..i + 1]);
        }
      }
    }
    r := None;
  }

  // ------------------------------------------------------------------
  // JSON texts (RFC 8259)
  // ------------------------------------------------------------------

  /** A character of a string: plain, behind a backslash, or as four hexadecimal digits. */
  datatype Item = Plain(c: char) | Escape(c: char) | Unicode(a: char, b: char, c: char, d: char)

  /** JSON texts with their white space; a scalar is a number or a literal name. */
  datatype Json =
    | Scalar(text: string)
    | Text(items: seq<Item>)
    | Array(space: string, elements: Elements)
    | Object(space: string, members: Members)
  datatype Elements = NoElement | Element(before: string, value: Json, after: string, rest: Elements)
  datatype Members =
    | NoMember
    | Member(before: string, name: seq<Item>, afterName: string, beforeValue: string, value: Json, after: string, rest: Members)

  predicate IsWhiteSpace(text: string) {
    forall i | 0 <= i < |text| :: text[i] == ' ' || text[i] == '\t' || text[i] == '\n' || text[i] == '\r'
  }

  predicate IsHex(c: char) {
    '0' <= c <= '9' || 'a' <= c <= 'f' || 'A' <= c <= 'F'
  }

  /** Section 7: quotation marks, backslashes and control characters are escaped. */
  predicate IsItem(i: Item) {
    match i
    case Plain(c) => c != '"' && c != '\\' && ' ' <= c
    case Escape(c) => c in "\"\\/bfnrt"
    case Unicode(a, b, c, d) => IsHex(a) && IsHex(b) && IsHex(c) && IsHex(d)
  }

  predicate IsString(items: seq<Item>) {
    forall i | i in items :: IsItem(i)
  }

  /** Neither numbers nor literal names contain any of these. */
  predicate IsHarmless(text: string) {
    forall i | 0 <= i < |text| :: text[i] != '"' && text[i] != '\\' && text[i] != '{' && text[i] != '}'
  }

  predicate IsJson(j: Json) {
    match j
    case Scalar(text) => IsHarmless(text)
    case Text(items) => IsString(items)
    case Array(space, elements) => IsWhiteSpace(space) && AreElements(elements)
    case Object(space, members) => IsWhiteSpace(space) && AreMembers(members)
  }

  predicate AreElements(e: Elements) {
    e.NoElement? || (IsWhiteSpace(e.before) && IsJson(e.value) && IsWhiteSpace(e.after) && AreElements(e.rest))
  }

  predicate AreMembers(m: Members) {
    m.NoMember?
    || (IsWhiteSpace(m.before) && IsString(m.name) && IsWhiteSpace(m.afterName) && IsWhiteSpace(m.beforeValue)
        && IsJson(m.value) && IsWhiteSpace(m.after) && AreMembers(m.rest))
  }

  function PrintItem(i: Item): string {
    match i
    case Plain(c) => [c]
    case Escape(c) => ['\\', c]
    case Unicode(a, b, c, d) => ['\\', 'u', a, b, c, d]
  }

  function PrintItems(items: seq<Item>): string {
    if items == [] then "" else PrintItems(items[..|items| - 1]) + PrintItem(items[|items| - 1])
  }

  function PrintString(items: seq<Item>): string {
    ['"'] + PrintItems(items) + ['"']
  }

  function Print(j: Json): string {
    match j
    case Scalar(text) => text
    case Text(items) => PrintString(items)
    case Array(space, elements) => ['['] + (space + PrintElements(elements)) + [']']
    case Object(space, members) => ['{'] + (space + PrintMembers(members)) + ['}']
  }

  function PrintElements(e: Elements): string {
    if e.NoElement? then ""
    else e.before + Print(e.value) + e.after + (if e.rest.NoElement? then "" else ",") + PrintElements(e.rest)
  }

  function PrintMembers(m: Members): string {
    if m.NoMember? then ""
    else
      m.before + PrintString(m.name) + m.afterName + ":" + m.beforeValue + Print(m.value) + m.after
      + (if m.rest.NoMember? then "" else ",") + PrintMembers(m.rest)
  }

  // ------------------------------------------------------------------
  // Scanning JSON texts
  // ------------------------------------------------------------------

  /** Read outside of strings, the text ends outside of strings at the depth where it
      began, and never goes below that. */
  ghost predicate Neutral(text: string) {
    && After(OUTSIDE, text) == OUTSIDE
    && Delta(OUTSIDE, text) == 0
    && forall k | 0 <= k <= |text| :: Delta(OUTSIDE, text[..k]) >= 0
  }

  lemma NeutralSum(a: string, b: string)
    requires Neutral(a) && Neutral(b)
    ensures Neutral(a + b)
  {
    ReadSum(OUTSIDE, a, b);
    forall k | 0 <= k <= |a + b| ensures Delta(OUTSIDE, (a + b)[..k]) >= 0 {
      if k <= |a| {
        assert (a + b)[..k] == a[..k];
      } else {
        assert (a + b)[..k] == a + b[..k - |a|];
        ReadSum(OUTSIDE, a, b[..k - |a|]);
      }
    }
  }

  lemma {:induction false} HarmlessReads(text: string)
    requires IsHarmless(text)
    ensures After(OUTSIDE, text) == OUTSIDE && Delta(OUTSIDE, text) == 0
  {
    if text != [] {
      HarmlessReads(text[..|text| - 1]);
    }
  }

  lemma HarmlessIsNeutral(text: string)
    requires IsHarmless(text)
    ensures Neutral(text)
  {
    HarmlessReads(text);
    forall k | 0 <= k <= |text| ensures Delta(OUTSIDE, text[..k]) >= 0 {
      HarmlessReads(text[..k]);
    }
  }

  const INSIDE: Quoting := Quoting(true, false)

  /** Inside a string, an item leaves the scanner inside the string all the way. */
  lemma ItemReads(i: Item)
    requires IsItem(i)
    ensures After(INSIDE, PrintItem(i)) == INSIDE && Delta(INSIDE, PrintItem(i)) == 0
    ensures forall k | 0 <= k <= |PrintItem(i)| :: Delta(INSIDE, PrintItem(i)[..k]) == 0
  {
    match i {
      case Plain(c) => ReadOne(INSIDE, c);
      case Escape(c) => EscapedReads(c);
      case Unicode(a, b, c, d) =>
        EscapedReads('u');
        HexReads([a, b, c, d]);
        assert PrintItem(i) == ['\\', 'u'] + [a, b, c, d];
        ReadSum(INSIDE, ['\\', 'u'], [a, b, c, d]);
        forall k | 0 <= k <= |PrintItem(i)| ensures Delta(INSIDE, PrintItem(i)[..k]) == 0 {
          if k <= 2 {
            assert PrintItem(i)[..k] == ['\\', 'u'][..k];
          } else {
            assert PrintItem(i)[..k] == ['\\', 'u'] + [a, b, c, d][..k - 2];
            ReadSum(INSIDE, ['\\', 'u'], [a, b, c, d][..k - 2]);
            HexReads([a, b, c, d][..k - 2]);
          }
        }
    }
  }

  lemma EscapedReads(c: char)
    ensures After(INSIDE, ['\\', c]) == INSIDE
    ensures forall k | 0 <= k <= 2 :: Delta(INSIDE, ['\\', c][..k]) == 0
  {
    ReadOne(INSIDE, '\\');
    ReadOne(Quoting(true, true), c);
    assert ['\\', c] == ['\\'] + [c];
    ReadSum(INSIDE, ['\\'], [c]);
    forall k | 0 <= k <= 2 ensures Delta(INSIDE, ['\\', c][..k]) == 0 {
      if k == 0 {
        assert ['\\', c][..k] == [];
      } else if k == 1 {
        assert ['\\', c][..k] == ['\\'];
      } else {
        assert ['\\', c][..k] == ['\\', c];
      }
    }
  }

  lemma {:induction false} HexReads(text: string)
    requires forall i | 0 <= i < |text| :: IsHex(text[i])
    ensures After(INSIDE, text) == INSIDE && Delta(INSIDE, text) == 0
  {
    if text != [] {
      HexReads(text[..|text| - 1]);
    }
  }

  lemma {:induction false} ItemsRead(items: seq<Item>)
    requires IsString(items)
    ensures var text := PrintItems(items);
      && After(INSIDE, text) == INSIDE
      && forall k | 0 <= k <= |text| :: Delta(INSIDE, text[..k]) == 0
  {
    if items != [] {
      var n := |items| - 1;
      ItemsRead(items[..n]);
      ItemReads(items[n]);
      var a, b := PrintItems(items[..n]), PrintItem(items[n]);
      ReadSum(INSIDE, a, b);
      assert a[..|a|] == a;
      forall k | 0 <= k <= |a + b| ensures Delta(INSIDE, (a + b)[..k]) == 0 {
        if k <= |a| {
          assert (a + b)[..k] == a[..k];
        } else {
          assert (a + b)[..k] == a + b[..k - |a|];
          ReadSum(INSIDE, a, b[..k - |a|]);
        }
      }
    }
  }

  lemma StringIsNeutral(items: seq<Item>)
    requires IsString(items)
    ensures Neutral(PrintString(items))
  {
    var body := PrintItems(items);
    ItemsRead(items);
    ReadOne(OUTSIDE, '"');
    ReadOne(INSIDE, '"');
    ReadSum(OUTSIDE, ['"'], body);
    ReadSum(OUTSIDE, ['"'] + body, ['"']);
    assert body[..|body|] == body;
    forall k | 0 <= k <= |PrintString(items)| ensures Delta(OUTSIDE, PrintString(items)[..k]) >= 0 {
      if k == 0 {
        assert PrintString(items)[..k] == [];
      } else if k <= |body| + 1 {
        assert PrintString(items)[..k] == ['"'] + body[..k - 1];
        ReadSum(OUTSIDE, ['"'], body[..k - 1]);
      } else {
        assert PrintString(items)[..k] == PrintString(items);
      }
    }
  }

  lemma HarmlessChar(c: char)
    requires c != '"' && c != '\\' && c != '{' && c != '}'
    ensures Neutral([c])
  {
    HarmlessIsNeutral([c]);
  }

  /** Braces around a neutral text: deeper everywhere inside, and closed at the end. */
  lemma BracesAround(body: string)
    requires Neutral(body)
    ensures var text := ['{'] + body + ['}'];
      && Neutral(text)
      && forall k | 0 < k < |text| :: Delta(OUTSIDE, text[..k]) >= 1
  {
    var text := ['{'] + body + ['}'];
    ReadOne(OUTSIDE, '{');
    ReadOne(OUTSIDE, '}');
    ReadSum(OUTSIDE, ['{'], body);
    ReadSum(OUTSIDE, ['{'] + body, ['}']);
    forall k | 0 <= k <= |text| ensures Delta(OUTSIDE, text[..k]) >= if 0 < k < |text| then 1 else 0 {
      if k == 0 {
        assert text[..k] == [];
      } else if k < |text| {
        assert text[..k] == ['{'] + body[..k - 1];
        ReadSum(OUTSIDE, ['{'], body[..k - 1]);
      } else {
        assert text[..k] == text;
      }
    }
  }

  lemma {:induction false} JsonIsNeutral(j: Json)
    requires IsJson(j)
    ensures Neutral(Print(j))
    decreases j
  {
    hide Neutral;
    match j {
      case Scalar(text) => HarmlessIsNeutral(text);
      case Text(items) => StringIsNeutral(items);
      case Array(space, elements) =>
        HarmlessIsNeutral(space);
        ElementsAreNeutral(elements);
        NeutralSum(space, PrintElements(elements));
        HarmlessChar('[');
        HarmlessChar(']');
        NeutralSum(['['], space + PrintElements(elements));
        NeutralSum(['['] + (space + PrintElements(elements)), [']']);
      case Object(space, members) =>
        HarmlessIsNeutral(space);
        MembersAreNeutral(members);
        NeutralSum(space, PrintMembers(members));
        BracesAround(space + PrintMembers(members));
    }
  }

  lemma {:induction false} ElementsAreNeutral(e: Elements)
    requires AreElements(e)
    ensures Neutral(PrintElements(e))
    decreases e
  {
    hide Neutral;
    HarmlessIsNeutral("");
    if e.Element? {
      var comma := if e.rest.NoElement? then "" else ",";
      HarmlessIsNeutral(comma);
      HarmlessIsNeutral(e.before);
      HarmlessIsNeutral(e.after);
      JsonIsNeutral(e.value);
      ElementsAreNeutral(e.rest);
      NeutralSum(e.before, Print(e.value));
      NeutralSum(e.before + Print(e.value), e.after);
      NeutralSum(e.before + Print(e.value) + e.after, comma);
      NeutralSum(e.before + Print(e.value) + e.after + comma, PrintElements(e.rest));
    }
  }

  lemma {:induction false} MembersAreNeutral(m: Members)
    requires AreMembers(m)
    ensures Neutral(PrintMembers(m))
    decreases m
  {
    hide Neutral;
    HarmlessIsNeutral("");
    if m.Member? {
      var comma := if m.rest.NoMember? then "" else ",";
      HarmlessIsNeutral(comma);
      HarmlessIsNeutral(":");
      HarmlessIsNeutral(m.before);
      HarmlessIsNeutral(m.afterName);
      HarmlessIsNeutral(m.beforeValue);
      HarmlessIsNeutral(m.after);
      StringIsNeutral(m.name);
      JsonIsNeutral(m.value);
      MembersAreNeutral(m.rest);
      var name := m.before + PrintString(m.name);
      NeutralSum(m.before, PrintString(m.name));
      NeutralSum(name, m.afterName);
      NeutralSum(name + m.afterName, ":");
      NeutralSum(name + m.afterName + ":", m.beforeValue);
      NeutralSum(name + m.afterName + ":" + m.beforeValue, Print(m.value));
      NeutralSum(name + m.afterName + ":" + m.beforeValue + Print(m.value), m.after);
      NeutralSum(name + m.afterName + ":" + m.beforeValue + Print(m.value) + m.after, comma);
      NeutralSum(name + m.afterName + ":" + m.beforeValue + Print(m.value) + m.after + comma, PrintMembers(m.rest));
    }
  }

  /** Whatever surrounds it, a JSON object is cut out exactly: the scanner started at its
      brace returns its text, however deep it nests and whatever its strings contain. */
  lemma ObjectIsExtracted(before: string, j: Json, after: string)
    requires IsJson(j) && j.Object?
    ensures Extracted(before + Print(j) + after, |before|) == Some(Print(j))
  {
    hide Neutral, IsWhiteSpace, AreMembers;
    var body := j.space + PrintMembers(j.members);
    HarmlessSpace(j.space);
    HarmlessIsNeutral(j.space);
    MembersAreNeutral(j.members);
    NeutralSum(j.space, PrintMembers(j.members));
    BracesAround(body);
    var text := Print(j);
    var all := before + text + after;
    assert all[|before|] == '{';
    forall k | |before| < k < |before| + |text| ensures !Closes(all[|before|..k]) {
      assert all[|before|..k] == text[..k - |before|];
    }
    assert all[|before|..|before| + |text|] == text;
    NeutralEndsLevel(text);
    FirstClosedAt(all, |before|, |before| + 1, |before| + |text|);
  }

  lemma HarmlessSpace(space: string)
    requires IsWhiteSpace(space)
    ensures IsHarmless(space)
  {
  }

  lemma NeutralEndsLevel(text: string)
    requires Neutral(text)
    ensures Delta(OUTSIDE, text) == 0
  {
  }

  lemma {:induction false} FirstClosedAt(text: string, start: nat, end: nat, k: nat)
    requires start < end <= k <= |text| && Closes(text[start..k])
    requires forall j | end <= j < k :: !Closes(text[start..j])
    ensures FirstClosed(text, start, end) == Some(text[start..k])
    decreases k - end
  {
    hide Closes;
    if end < k {
      FirstClosedAt(text, start, end + 1, k);
    }
  }
}
