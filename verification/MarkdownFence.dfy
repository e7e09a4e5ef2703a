/** The body of the first Markdown code fence in a text, as one regular
    expression finds it for both the parser and the analyzer. */
module MarkdownFence {
  import opened Common
  import opened PyText

  const TICKS := "```"

  predicate TicksAt(text: string, i: int) {
    0 <= i && i + 3 <= |text| && text[i..i + 3] == TICKS
  }

  /** First three backticks in a row from `from` on. */
  function FindTicks(text: string, from: nat): (r: Option<nat>)
    requires from <= |text|
    ensures r.Some? ==> from <= r.value && TicksAt(text, r.value) && forall i | from <= i < r.value :: !TicksAt(text, i)
    ensures r.None? ==> forall i | from <= i :: !TicksAt(text, i)
    decreases |text| - from
  {
    if TicksAt(text, from) then Some(from)
    else if from == |text| then None
    else FindTicks(text, from + 1)
  }

  /** `(?:json)?`, ignoring case: the long s counts as an s there. */
  predicate HasTag(s: string) {
    |s| >= 4 && s[0] in "jJ" && s[1] in "sS\U{17F}" && s[2] in "oO" && s[3] in "nN"
  }

  function Untagged(s: string): string { if HasTag(s) then s[4..] else s }

  /** `re.search` for an opening fence, an optional tag, and the shortest body up
      to a closing fence; the body comes stripped. */
  function Fence(text: string): Option<string> {
    match FindTicks(text, 0)
    case None => None
    case Some(open) =>
      match FindTicks(text, open + 3)
      case None => None
      case Some(close) => Some(Strip(Untagged(text[open + 3..close])))
  }

  /** No fence starts in `s`, not even one completed by what follows it. */
  predicate Tickless(s: string) {
    FindTicks(s + "``", 0).None?
  }

  lemma FindsAfter(s: string, from: nat, rest: string, text: string)
    requires from <= |s| && text == s + TICKS + rest && (forall i | from <= i :: !TicksAt(s + "``", i))
    ensures FindTicks(text, from) == Some(|s|)
  {
    assert text[|s|..|s| + 3] == TICKS;
    forall i | from <= i < |s| ensures !TicksAt(text, i) {
      assert !TicksAt(s + "``", i);
      assert text[i..i + 3] == (s + "``")[i..i + 3];
    }
    assert TicksAt(text, |s|);
  }

  lemma ShiftTicks(a: string, s: string, i: int)
    requires i >= |a|
    ensures TicksAt(a + s, i) <==> TicksAt(s, i - |a|)
  {
    if i + 3 <= |a + s| { assert (a + s)[i..i + 3] == s[i - |a|..i - |a| + 3]; }
  }

  /** What is written in a fence is what is read back. */
  lemma FenceOf(before: string, body: string, after: string)
    requires Tickless(before) && Tickless(body)
    ensures Fence(before + TICKS + body + TICKS + after) == Some(Strip(Untagged(body)))
  {
    hide TicksAt, FindTicks, Strip, Untagged;
    var text := before + TICKS + body + TICKS + after;
    var head := before + TICKS;
    assert text == before + TICKS + (body + TICKS + after) && text == (head + body) + TICKS + after;
    TicklessMeans(before);
    FindsAfter(before, 0, body + TICKS + after, text);
    TicklessBehind(head, body);
    FindsAfter(head + body, |head|, after, text);
    assert text[|head|..|head + body|] == body;
  }

  /** The tag is the word json in any mixture of cases; whatever else comes first in
      the body belongs to it. */
  lemma TagIsJson(a: char, b: char, c: char, d: char, rest: string)
    ensures var tagged := (a == 'j' || a == 'J') && (b == 's' || b == 'S' || b == '\U{17F}')
                          && (c == 'o' || c == 'O') && (d == 'n' || d == 'N');
            Untagged([a, b, c, d] + rest) == if tagged then rest else [a, b, c, d] + rest
    ensures |rest| < 4 ==> Untagged(rest) == rest
  {
  }

  lemma TicklessMeans(s: string)
    requires Tickless(s)
    ensures forall i | 0 <= i :: !TicksAt(s + "``", i)
  {
  }

  lemma TicklessBehind(head: string, s: string)
    requires Tickless(s)
    ensures forall i | |head| <= i :: !TicksAt((head + s) + "``", i)
  {
    hide TicksAt, FindTicks;
    TicklessMeans(s);
    assert (head + s) + "``" == head + (s + "``");
    forall i | |head| <= i ensures !TicksAt((head + s) + "``", i) {
      ShiftTicks(head, s + "``", i);
    }
  }

  /** There is a fence exactly when backticks follow the first backticks. */
  lemma NoFence(text: string)
    ensures Fence(text).None? <==> forall i, j | TicksAt(text, i) && i + 3 <= j :: !TicksAt(text, j)
  {
    var open := FindTicks(text, 0);
    if open.Some? {
      assert TicksAt(text, open.value);
      forall i, j | TicksAt(text, i) && i + 3 <= j && Fence(text).None? ensures !TicksAt(text, j) {
        assert open.value <= i;
      }
    }
  }
}
