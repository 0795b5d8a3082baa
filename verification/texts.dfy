/** Text operations: white space and joining. */
module Texts {
  predicate IsSpace(c: char) {
    || '\t' <= c <= '\r' || '\U{1c}' <= c <= ' ' || c == '\U{85}' || c == '\U{a0}' || c == '\U{1680}'
    || '\U{2000}' <= c <= '\U{200a}' || c == '\U{2028}' || c == '\U{2029}' || c == '\U{202f}' || c == '\U{205f}'
    || c == '\U{3000}'
  }

  function RStrip(text: string): (r: string)
    ensures r <= text
  {
    if text != [] && IsSpace(text[|text| - 1]) then RStrip(text[..|text| - 1]) else text
  }

  function LStrip(text: string): (r: string)
    ensures |r| <= |text|
  {
    if text != [] && IsSpace(text[0]) then LStrip(text[1..]) else text
  }

  function Join(separator: string, parts: seq<string>): string {
    if parts == [] then ""
    else if |parts| == 1 then parts[0]
    else Join(separator, parts[..|parts| - 1]) + separator + parts[|parts| - 1]
  }

  predicate AllSpace(text: string) {
    forall i | 0 <= i < |text| :: IsSpace(text[i])
  }

  /** Stripping cuts off exactly the white space at the end, or at the start. */
  lemma {:induction false} RStripIsExact(text: string)
    ensures var r := RStrip(text);
      && r <= text && AllSpace(text[|r|..])
      && (r != "" ==> !IsSpace(r[|r| - 1]))
  {
    hide IsSpace;
    if text != [] && IsSpace(text[|text| - 1]) {
      var init := text[..|text| - 1];
      RStripIsExact(init);
      var n := |RStrip(init)|;
      assert text[n..] == init[n..] + [text[|text| - 1]];
    }
  }

  lemma {:induction false} LStripIsExact(text: string)
    ensures var r := LStrip(text);
      && r == text[|text| - |r|..] && AllSpace(text[..|text| - |r|])
      && (r != "" ==> !IsSpace(r[0]))
  {
    hide IsSpace;
    if text != [] && IsSpace(text[0]) {
      LStripIsExact(text[1..]);
      var n := |text| - |LStrip(text)|;
      assert text[..n] == [text[0]] + text[1..][..n - 1];
    }
  }

  lemma {:induction false} JoinCons(separator: string, first: string, rest: seq<string>)
    ensures Join(separator, [first] + rest) == if rest == [] then first else first + separator + Join(separator, rest)
  {
    if |rest| > 0 {
      assert ([first] + rest)[..|rest|] == [first] + rest[..|rest| - 1];
      JoinCons(separator, first, rest[..|rest| - 1]);
    }
  }
}
