/** Context limits: the router's size check and the manager's right-to-left
    trimming of messages. */
module Truncation {
  import opened Common

  /** A message's role and text; `tag` stands for everything else it carries. */
  datatype Message = Message(role: string, content: string, tag: int)

  datatype Limits = Limits(chars: Option<nat>, tokens: Option<nat>)

  function Total(messages: seq<Message>): nat {
    if messages == [] then 0 else |messages[0].content| + Total(messages[1..])
  }

  function Concat(messages: seq<Message>): string {
    if messages == [] then "" else messages[0].content + Concat(messages[1..])
  }

  /** Four characters to a token, rounded up. */
  function Tokens(chars: nat): nat { (chars + 3) / 4 }

  datatype SizeCheck = Fits | TooLong | TruncationRequested

  predicate Exceeds(limits: Limits, chars: nat) {
    (limits.chars.Some? && chars > limits.chars.value) || (limits.tokens.Some? && Tokens(chars) > limits.tokens.value)
  }

  /** The context part of `ModelRouter.resolve`. */
  function CheckSize(limits: Limits, chars: nat, allowTruncation: bool): SizeCheck {
    if !Exceeds(limits, chars) then Fits else if allowTruncation then TruncationRequested else TooLong
  }

  /** The character budget trimming works to; None leaves the messages alone. */
  function Budget(limits: Limits): Option<nat> {
    var b := if limits.chars.Some? then limits.chars
             else if limits.tokens.Some? then Some(limits.tokens.value * 4) else None;
    if b.Some? && b.value > 0 then b else None
  }

  /** What a trimming to `budget` characters keeps: whole messages from `first`
      on, of which the first loses its head. */
  predicate KeepsTail(messages: seq<Message>, budget: nat, first: nat, kept: seq<Message>) {
    && first < |messages|
    && |kept| == |messages| - first
    && Total(messages[first + 1..]) < budget <= Total(messages[first..])
    && kept[1..] == messages[first + 1..]
    && var m := messages[first];
       var room := budget - Total(messages[first + 1..]);
       kept[0] == m.(content := m.content[|m.content| - room..])
  }

  /** `ModelCallOptions.to_messages`: a call without messages is its prompt. */
  function ToMessages(prompt: string, given: seq<Message>): seq<Message> {
    if given != [] then given else [Message("user", prompt, 0)]
  }

  predicate Trims(limits: Limits, check: SizeCheck, chars: nat) {
    check.TruncationRequested? && Budget(limits).Some? && chars > Budget(limits).value
  }

  /** Messages are trimmed as messages; a bare prompt is replaced by its tail. */
  method ApplyTruncation(prompt: string, given: seq<Message>, limits: Limits, check: SizeCheck)
    returns (callPrompt: string, kept: Option<seq<Message>>, dropped: nat, ghost first: nat)
    ensures var messages := if given != [] then given else [Message("user", prompt, 0)];
            var chars := Total(messages);
            var budget := if limits.chars.Some? then limits.chars.value
                          else if limits.tokens.Some? then 4 * limits.tokens.value else 0;
            if check != TruncationRequested || budget == 0 || chars <= budget then
              callPrompt == prompt && kept == None && dropped == 0
            else
              && dropped == chars - budget
              && (given != [] ==> callPrompt == prompt && kept.Some? && KeepsTail(messages, budget, first, kept.value))
              && (given == [] ==> callPrompt == LastChars(prompt, budget) && kept == None)
  {
    first := 0;
    var budget := Budget(limits);
    if !check.TruncationRequested? || budget.None? {
      return prompt, None, 0, 0;
    }
    var messages := ToMessages(prompt, given);
    var originalChars := Total(messages);
    if originalChars <= budget.value {
      return prompt, None, 0, 0;
    }
    var tail: seq<Message>;
    tail, dropped, first := TrimTail(messages, budget.value);
    if given != [] {
      return prompt, Some(tail), dropped, first;
    }
    assert first == 0 && messages[1..] == [];
    callPrompt := tail[|tail| - 1].content;
    kept := None;
  }

  /** Where the budget runs out the trimming begins. */
  lemma CutsHere(messages: seq<Message>, budget: nat, i: nat)
    requires i < |messages| && Total(messages[i + 1..]) < budget <= |messages[i].content| + Total(messages[i + 1..])
    ensures var m := messages[i];
            var room := budget - Total(messages[i + 1..]);
            KeepsTail(messages, budget, i, [m.(content := m.content[|m.content| - room..])] + messages[i + 1..])
  {
    assert messages[i..] == [messages[i]] + messages[i + 1..];
  }

  /** The right-to-left loop. */
  method TrimTail(messages: seq<Message>, budget: nat) returns (kept: seq<Message>, dropped: nat, ghost first: nat)
    requires 0 < budget < Total(messages)
    ensures KeepsTail(messages, budget, first, kept) && dropped == Total(messages) - budget
  {
    hide KeepsTail;
    first := 0;
    dropped := 0;
    var remaining: int := budget;
    kept := [];
    var i := |messages|;
    first := i;
    while i > 0
      invariant 0 <= i <= |messages|
      invariant dropped + (budget - remaining) == Total(messages[i..])
      invariant remaining >= 0
      invariant remaining > 0 ==> kept == messages[i..] && dropped == 0 && first == i
      invariant remaining == 0 ==> KeepsTail(messages, budget, first, kept)
    {
      i := i - 1;
      assert messages[i..] == [messages[i]] + messages[i + 1..];
      var content := messages[i].content;
      if remaining <= 0 {
        dropped := dropped + |content|;
      } else {
        first := i;
        if |content| >= remaining { CutsHere(messages, budget, i); }
        if |content| > remaining {
          dropped := dropped + |content| - remaining;
          content := content[|content| - remaining..];
        }
        remaining := remaining - |content|;
        kept := [messages[i].(content := content)] + kept;
      }
    }
    assert messages[0..] == messages;
  }

  // ---------- What trimming means ----------

  lemma {:induction false} TotalIsLength(messages: seq<Message>)
    ensures |Concat(messages)| == Total(messages)
  {
    if messages != [] { TotalIsLength(messages[1..]); }
  }

  lemma {:induction false} ConcatSplit(messages: seq<Message>, i: nat)
    requires i <= |messages|
    ensures Concat(messages) == Concat(messages[..i]) + Concat(messages[i..])
  {
    if i > 0 {
      ConcatSplit(messages[1..], i - 1);
      assert messages[1..][..i - 1] == messages[..i][1..] && messages[1..][i - 1..] == messages[i..];
    }
  }

  function LastChars(s: string, n: nat): string { if n <= |s| then s[|s| - n..] else s }

  lemma SuffixOf(lost: string, rest: string)
    ensures LastChars(lost + rest, |rest|) == rest
  {
  }

  /** The kept text is exactly the last `budget` characters of the whole. */
  lemma KeepsExactlyASuffix(messages: seq<Message>, budget: nat, first: nat, kept: seq<Message>)
    requires KeepsTail(messages, budget, first, kept)
    ensures Total(kept) == budget <= Total(messages)
    ensures Concat(kept) == LastChars(Concat(messages), budget)
  {
    var (m, tail) := (messages[first], messages[first + 1..]);
    var cut := |m.content| - (budget - Total(tail));
    assert messages[first..] == [m] + tail && kept == [kept[0]] + tail;
    assert Concat(messages[first..]) == m.content + Concat(tail) && Concat(kept) == m.content[cut..] + Concat(tail);
    ConcatSplit(messages, first);
    var lost := Concat(messages[..first]) + m.content[..cut];
    Regroup(Concat(messages[..first]), m.content, cut, Concat(tail));
    TotalIsLength(messages);
    TotalIsLength(kept);
    SuffixOf(lost, Concat(kept));
    assert Total(kept) == |kept[0].content| + Total(tail);
  }

  lemma Regroup(a: string, m: string, cut: nat, t: string)
    requires cut <= |m|
    ensures a + (m + t) == (a + m[..cut]) + (m[cut..] + t)
  {
  }

  /** Roles and everything but the text ride along, in order. */
  lemma KeepsOrder(messages: seq<Message>, budget: nat, first: nat, kept: seq<Message>, j: nat)
    requires KeepsTail(messages, budget, first, kept) && j < |kept|
    ensures kept[j].(content := "") == messages[first + j].(content := "")
    ensures j > 0 ==> kept[j] == messages[first + j]
  {
    if j > 0 { assert kept[j] == kept[1..][j - 1] == messages[first + 1..][j - 1]; }
  }

  /** Two trimmings to the same budget agree. */
  lemma TailIsUnique(messages: seq<Message>, budget: nat, a: nat, ka: seq<Message>, b: nat, kb: seq<Message>)
    requires KeepsTail(messages, budget, a, ka) && KeepsTail(messages, budget, b, kb)
    ensures a == b && ka == kb
  {
    if a < b { TotalShrinks(messages, a + 1, b); }
    if b < a { TotalShrinks(messages, b + 1, a); }
    assert ka == [ka[0]] + ka[1..] && kb == [kb[0]] + kb[1..];
  }

  lemma {:induction false} TotalShrinks(messages: seq<Message>, i: nat, j: nat)
    requires i <= j <= |messages|
    ensures Total(messages[j..]) <= Total(messages[i..])
    decreases j - i
  {
    if i < j {
      TotalShrinks(messages, i + 1, j);
      assert messages[i..][1..] == messages[i + 1..];
    }
  }

  /** The tail of a bare prompt is the trimming of its one message. */
  lemma PromptTail(prompt: string, budget: nat)
    requires 0 < budget < |prompt|
    ensures KeepsTail([Message("user", prompt, 0)], budget, 0, [Message("user", LastChars(prompt, budget), 0)])
  {
    var one := [Message("user", prompt, 0)];
    assert one[1..] == [] && one[0..] == one;
  }

  // ---------- Check and trimming together ----------

  /** The number of characters sent on when the call goes ahead. */
  function Sent(limits: Limits, chars: nat): nat {
    if Exceeds(limits, chars) && Budget(limits).Some? && chars > Budget(limits).value then Budget(limits).value
    else chars
  }

  /** A character limit comes first, four characters to a token otherwise; zero is none. */
  lemma SentIs(limits: Limits, chars: nat)
    ensures var budget := if limits.chars.Some? then limits.chars.value
                          else if limits.tokens.Some? then 4 * limits.tokens.value else 0;
            Sent(limits, chars) == if 0 < budget < chars then budget else chars
  {
    if limits.tokens.Some? { TokensWithin(chars, limits.tokens.value); }
  }

  /** A positive character limit is always met. The token limit is met exactly
      when the characters sent fit into it: always without a character limit,
      but not when a larger character limit takes its place. */
  lemma LimitsMet(limits: Limits, chars: nat)
    requires limits.chars.Some? ==> limits.chars.value > 0
    requires limits.tokens.Some? ==> limits.tokens.value > 0
    ensures var sent := Sent(limits, chars);
            && (limits.chars.Some? ==> sent <= limits.chars.value)
            && (limits.tokens.Some? && limits.chars.None? ==> Tokens(sent) <= limits.tokens.value)
            && (limits.tokens.Some? && limits.chars.Some? ==>
                  (Tokens(sent) <= limits.tokens.value
                   <==> chars <= 4 * limits.tokens.value || limits.chars.value <= 4 * limits.tokens.value))
  {
    if limits.tokens.Some? {
      var (sent, t) := (Sent(limits, chars), limits.tokens.value);
      TokensWithin(sent, t);
      TokensWithin(chars, t);
    }
  }

  /** With both limits set the token limit can be missed: only the character
      limit is trimmed to. */
  lemma TokenLimitMissed()
    ensures Tokens(Sent(Limits(Some(100), Some(10)), 50)) == 13
  {
    assert Exceeds(Limits(Some(100), Some(10)), 50);
    assert Budget(Limits(Some(100), Some(10))) == Some(100);
  }

  lemma TokensWithin(chars: nat, tokens: nat)
    ensures Tokens(chars) <= tokens <==> chars <= 4 * tokens
  {
  }

  /** A call is within every limit, or is trimmed if it allows that, or refused. */
  lemma RefusedUnlessFits(limits: Limits, chars: nat, allowTruncation: bool)
    ensures CheckSize(limits, chars, allowTruncation)
         == if (limits.chars.Some? ==> chars <= limits.chars.value)
               && (limits.tokens.Some? ==> chars <= 4 * limits.tokens.value) then Fits
            else if allowTruncation then TruncationRequested else TooLong
  {
    if limits.tokens.Some? { TokensWithin(chars, limits.tokens.value); }
  }
}
