/** The two JSON bracket scanners: the stack matcher of the structured-output
    parser and the depth counter of the complexity analyzer. */
module JsonScanner {
  import opened Common

  // ---------- The stack matcher as a machine over characters ----------

  datatype Mode = Outside | InString | Escaped

  /** The closers still owed, innermost first. */
  datatype Stack = Bottom | Owe(closer: char, below: Stack)

  datatype Scan = Active(stack: Stack, mode: Mode) | Matched | Mismatch

  predicate IsOpener(c: char) { c == '{' || c == '[' }

  predicate IsCloser(c: char) { c == '}' || c == ']' }

  function CloserOf(opener: char): char { if opener == '{' then '}' else ']' }

  function NextMode(mode: Mode, c: char): Mode {
    match mode
    case Escaped => InString
    case InString => if c == '\\' then Escaped else if c == '"' then Outside else InString
    case Outside => if c == '"' then InString else Outside
  }

  function Step(s: Scan, c: char): Scan {
    if !s.Active? then s
    else if s.mode != Outside || !(IsOpener(c) || IsCloser(c)) then s.(mode := NextMode(s.mode, c))
    else if IsOpener(c) then Active(Owe(CloserOf(c), s.stack), Outside)
    else if s.stack.Bottom? || s.stack.closer != c then Mismatch
    else if s.stack.below.Bottom? then Matched
    else Active(s.stack.below, Outside)
  }

  function Run(s: Scan, text: string): Scan {
    if text == "" then s else Step(Run(s, text[..|text| - 1]), text[|text| - 1])
  }

  const START := Active(Bottom, Outside)

  datatype Verdict = Closed(end: nat) | Broken(at: nat) | Unfinished

  /** What the matcher concludes about `text` read from position `i` in state `s`. */
  function VerdictFrom(s: Scan, text: string, i: nat): Verdict
    requires i <= |text|
    decreases |text| - i
  {
    if i == |text| then Unfinished
    else
      match Step(s, text[i])
      case Matched => Closed(i)
      case Mismatch => Broken(i)
      case Active(_, _) => VerdictFrom(Step(s, text[i]), text, i + 1)
  }

  function MatchEnd(text: string, start: nat): Option<nat>
    requires start <= |text|
  {
    match VerdictFrom(START, text, start)
    case Closed(e) => Some(e)
    case _ => None
  }

  method MatchingJsonEnd(text: string, start: nat) returns (end: Option<nat>)
    requires start <= |text|
    ensures end == MatchEnd(text, start)
  {
    var stack: seq<char> := [];
    var inString := false;
    var escape := false;
    var index := start;
    while index < |text|
      invariant start <= index <= |text|
      invariant escape ==> inString
      invariant VerdictFrom(START, text, start)
             == VerdictFrom(Active(StackOf(stack), ModeOf(inString, escape)), text, index)
    {
      var ch := text[index];
      if inString {
        if escape {
          escape := false;
        } else if ch == '\\' {
          escape := true;
        } else if ch == '"' {
          inString := false;
        }
      } else if ch == '"' {
        inString := true;
      } else if ch == '{' || ch == '[' {
        stack := stack + [CloserOf(ch)];
        assert stack[..|stack| - 1] + [CloserOf(ch)] == stack;
      } else if ch == '}' || ch == ']' {
        if stack == [] || stack[|stack| - 1] != ch {
          return None;
        }
        stack := stack[..|stack| - 1];
        if stack == [] {
          return Some(index);
        }
      }
      index := index + 1;
    }
    return None;
  }

  /** The Python list, whose last element is the innermost closer. */
  function StackOf(stack: seq<char>): Stack {
    if stack == [] then Bottom else Owe(stack[|stack| - 1], StackOf(stack[..|stack| - 1]))
  }

  function ModeOf(inString: bool, escape: bool): Mode {
    if !inString then Outside else if escape then Escaped else InString
  }

  lemma {:induction false} RunAppend(s: Scan, a: string, b: string)
    ensures Run(s, a + b) == Run(Run(s, a), b)
  {
    if b == "" {
      assert a + b == a;
    } else {
      var b' := b[..|b| - 1];
      RunAppend(s, a, b');
      assert (a + b)[..|a + b| - 1] == a + b';
    }
  }

  lemma {:induction false} RunSettled(s: Scan, text: string)
    requires !s.Active?
    ensures Run(s, text) == s
  {
    if text != "" {
      RunSettled(s, text[..|text| - 1]);
    }
  }

  lemma RunOne(s: Scan, c: char)
    ensures Run(s, [c]) == Step(s, c)
  {
    assert [c][..0] == "";
  }

  /** The state reached on `text[start..k]`. */
  function At(text: string, start: nat, k: nat): Scan
    requires start <= k <= |text|
  {
    Run(START, text[start..k])
  }

  ghost predicate ActiveUpTo(text: string, start: nat, k: nat)
    requires start <= k <= |text|
  {
    forall j | start <= j <= k :: At(text, start, j).Active?
  }

  lemma AtNext(text: string, start: nat, k: nat)
    requires start <= k < |text|
    ensures At(text, start, k + 1) == Step(At(text, start, k), text[k])
  {
    assert text[start..k + 1][..k - start] == text[start..k];
  }

  /** Once settled, always settled. */
  lemma {:induction false} AtSettled(text: string, start: nat, k: nat, e: nat)
    requires start <= k <= e <= |text| && !At(text, start, k).Active?
    ensures At(text, start, e) == At(text, start, k)
  {
    if k < e {
      AtSettled(text, start, k, e - 1);
      AtNext(text, start, e - 1);
    }
  }

  ghost predicate VerdictHolds(v: Verdict, text: string, start: nat)
    requires start <= |text|
  {
    match v
    case Closed(e) => start <= e < |text| && ActiveUpTo(text, start, e) && At(text, start, e + 1) == Matched
    case Broken(e) => start <= e < |text| && ActiveUpTo(text, start, e) && At(text, start, e + 1) == Mismatch
    case Unfinished => ActiveUpTo(text, start, |text|)
  }

  /** The verdict names the first position at which the machine settles. */
  lemma {:induction false} VerdictIsFirstSettled(text: string, start: nat, i: nat)
    requires start <= i <= |text| && ActiveUpTo(text, start, i)
    ensures VerdictHolds(VerdictFrom(At(text, start, i), text, i), text, start)
    decreases |text| - i
  {
    if i < |text| {
      AtNext(text, start, i);
      if At(text, start, i + 1).Active? {
        VerdictIsFirstSettled(text, start, i + 1);
      }
    }
  }

  lemma VerdictFromStart(text: string, start: nat)
    requires start <= |text|
    ensures VerdictHolds(VerdictFrom(START, text, start), text, start)
  {
    assert At(text, start, start) == START;
    VerdictIsFirstSettled(text, start, start);
  }

  // ---------- What the matcher recognises ----------

  /** The brackets of `text` that lie outside string literals. */
  function ModeAfter(text: string): Mode {
    if text == "" then Outside else NextMode(ModeAfter(text[..|text| - 1]), text[|text| - 1])
  }

  function Brackets(text: string): seq<char> {
    if text == "" then []
    else
      var (rest, c) := (text[..|text| - 1], text[|text| - 1]);
      Brackets(rest) + if ModeAfter(rest) == Outside && (IsOpener(c) || IsCloser(c)) then [c] else []
  }

  /** Properly nested bracket words, by their derivation trees. */
  datatype Forest = Empty | Nest(opener: char, inner: Forest, rest: Forest)

  function Word(f: Forest): seq<char> {
    match f
    case Empty => []
    case Nest(o, inner, rest) => [o] + Word(inner) + [CloserOf(o)] + Word(rest)
  }

  predicate OpenersOnly(f: Forest) {
    f.Nest? ==> IsOpener(f.opener) && OpenersOnly(f.inner) && OpenersOnly(f.rest)
  }

  ghost predicate Balanced(word: seq<char>) {
    exists f :: OpenersOnly(f) && Word(f) == word
  }

  /** One outermost bracket pair around a balanced word. */
  ghost predicate SinglePair(word: seq<char>) {
    && |word| >= 2
    && IsOpener(word[0])
    && word[|word| - 1] == CloserOf(word[0])
    && Balanced(word[1..|word| - 1])
  }

  lemma {:induction false} OnlyBracketsMatter(text: string)
    ensures var (r, b) := (Run(START, text), Run(START, Brackets(text)));
            if r.Active? then b == Active(r.stack, Outside) && r.mode == ModeAfter(text) else b == r
  {
    if text != "" {
      var (rest, c) := (text[..|text| - 1], text[|text| - 1]);
      OnlyBracketsMatter(rest);
      if ModeAfter(rest) == Outside && (IsOpener(c) || IsCloser(c)) {
        assert Brackets(text)[..|Brackets(text)| - 1] == Brackets(rest);
      } else {
        assert Brackets(text) == Brackets(rest);
      }
    }
  }

  lemma RunCons(s: Scan, c: char, rest: string)
    ensures Run(s, [c] + rest) == Run(Step(s, c), rest)
  {
    RunAppend(s, [c], rest);
    assert [c][..0] == "";
  }

  lemma {:induction false} BalancedKeepsStack(f: Forest, stack: Stack)
    requires OpenersOnly(f) && stack.Owe?
    ensures Run(Active(stack, Outside), Word(f)) == Active(stack, Outside)
  {
    if f.Nest? {
      var (s, c) := (Active(stack, Outside), CloserOf(f.opener));
      PairKeepsStack(f.opener, f.inner, stack);
      RunAppend(s, [f.opener] + Word(f.inner) + [c], Word(f.rest));
      BalancedKeepsStack(f.rest, stack);
    }
  }

  /** A nested pair leaves a nonempty stack as it was, and matches on an empty one. */
  lemma {:induction false} PairKeepsStack(o: char, inner: Forest, stack: Stack)
    requires IsOpener(o) && OpenersOnly(inner)
    ensures var s := Active(stack, Outside);
            && Run(s, [o] + Word(inner)) == Active(Owe(CloserOf(o), stack), Outside)
            && Run(s, [o] + Word(inner) + [CloserOf(o)]) == if stack.Bottom? then Matched else s
    decreases inner
  {
    var s := Active(stack, Outside);
    RunCons(s, o, Word(inner));
    BalancedKeepsStack(inner, Owe(CloserOf(o), stack));
    RunAppend(s, [o] + Word(inner), [CloserOf(o)]);
    RunOne(Active(Owe(CloserOf(o), stack), Outside), CloserOf(o));
  }

  /** From `stack`, the machine settles as a match at the last bracket of `word`. */
  ghost predicate EndsMatch(stack: Stack, word: seq<char>) {
    && word != []
    && Run(Active(stack, Outside), word[..|word| - 1]).Active?
    && Run(Active(stack, Outside), word) == Matched
  }

  lemma EndsMatchCons(stack: Stack, c: char, w: seq<char>)
    ensures var next := Step(Active(stack, Outside), c);
            && (next.Active? && next.mode == Outside ==> (EndsMatch(stack, [c] + w) <==> EndsMatch(next.stack, w)))
            && (!next.Active? ==> (EndsMatch(stack, [c] + w) <==> next == Matched && w == []))
  {
    var (s, word) := (Active(stack, Outside), [c] + w);
    RunCons(s, c, w);
    if w == [] {
      assert word[..|word| - 1] == [];
    } else {
      assert word[..|word| - 1] == [c] + w[..|w| - 1];
      RunCons(s, c, w[..|w| - 1]);
      if !Step(s, c).Active? { RunSettled(Step(s, c), w[..|w| - 1]); }
    }
    if !Step(s, c).Active? { RunSettled(Step(s, c), w); }
  }

  predicate AllBrackets(word: seq<char>) {
    forall c | c in word :: IsOpener(c) || IsCloser(c)
  }

  /** Reading back a nesting derivation from a run that closes the innermost
      open bracket of `stack` and goes on to a match. */
  lemma {:induction false} ParseNesting(stack: Stack, word: seq<char>)
    returns (f: Forest, rest: seq<char>)
    requires stack.Owe? && AllBrackets(word) && EndsMatch(stack, word)
    ensures OpenersOnly(f) && word == Word(f) + [stack.closer] + rest
    ensures if stack.below.Bottom? then rest == [] else EndsMatch(stack.below, rest)
    decreases |word|
  {
    var (c, w) := (word[0], word[1..]);
    assert c in word && word == [c] + w;
    EndsMatchCons(stack, c, w);
    if IsOpener(c) {
      var inner, w1 := ParseNesting(Owe(CloserOf(c), stack), w);
      var after, w2 := ParseNesting(stack, w1);
      f, rest := Nest(c, inner, after), w2;
      NestWord(c, inner, after, stack.closer, rest);
    } else {
      f, rest := Empty, w;
    }
  }

  lemma NestWord(c: char, inner: Forest, after: Forest, closer: char, rest: seq<char>)
    ensures [c] + (Word(inner) + [CloserOf(c)] + (Word(after) + [closer] + rest))
         == Word(Nest(c, inner, after)) + [closer] + rest
  {
  }

  lemma {:induction false} BracketsAreBrackets(text: string)
    ensures AllBrackets(Brackets(text))
  {
    if text != "" { BracketsAreBrackets(text[..|text| - 1]); }
  }

  lemma PairIsSingle(o: char, f: Forest)
    requires IsOpener(o) && OpenersOnly(f)
    ensures SinglePair([o] + Word(f) + [CloserOf(o)])
  {
    var word := [o] + Word(f) + [CloserOf(o)];
    assert word[1..|word| - 1] == Word(f);
  }

  /** A bracket word is a single pair exactly when the machine first settles,
      as a match, at its last bracket. */
  lemma MatchesSinglePairs(word: seq<char>)
    requires AllBrackets(word)
    ensures SinglePair(word) <==> EndsMatch(Bottom, word)
  {
    if EndsMatch(Bottom, word) {
      var (o, w) := (word[0], word[1..]);
      assert o in word && word == [o] + w;
      EndsMatchCons(Bottom, o, w);
      var f, rest := ParseNesting(Owe(CloserOf(o), Bottom), w);
      PairIsSingle(o, f);
      assert word == [o] + Word(f) + [CloserOf(o)];
    }
    if SinglePair(word) {
      var body := word[1..|word| - 1];
      var f :| OpenersOnly(f) && Word(f) == body;
      PairMatches(word[0], f);
      assert word == [word[0]] + body + [CloserOf(word[0])];
    }
  }

  lemma PairMatches(o: char, f: Forest)
    requires IsOpener(o) && OpenersOnly(f)
    ensures EndsMatch(Bottom, [o] + Word(f) + [CloserOf(o)])
  {
    var word := [o] + Word(f) + [CloserOf(o)];
    PairKeepsStack(o, f, Bottom);
    assert word[..|word| - 1] == [o] + Word(f);
  }

  /** The brackets of `text[start..k]` outside strings form one complete pair. */
  ghost predicate PairUpTo(text: string, start: nat, k: nat)
    requires start <= k <= |text|
  {
    SinglePair(Brackets(text[start..k]))
  }

  lemma PairIffMatched(text: string, start: nat, k: nat)
    requires start <= k <= |text|
    ensures PairUpTo(text, start, k) ==> At(text, start, k) == Matched
    ensures start < k && At(text, start, k) == Matched && At(text, start, k - 1).Active? ==> PairUpTo(text, start, k)
  {
    var t := text[start..k];
    OnlyBracketsMatter(t);
    BracketsAreBrackets(t);
    MatchesSinglePairs(Brackets(t));
    if start < k && At(text, start, k) == Matched && At(text, start, k - 1).Active? {
      var t' := text[start..k - 1];
      assert t[..|t| - 1] == t';
      OnlyBracketsMatter(t');
      assert Brackets(t) != Brackets(t');
      assert Brackets(t)[..|Brackets(t)| - 1] == Brackets(t');
    }
  }

  /** The matcher stops at `e` exactly when `e` is the first position up to
      which the brackets outside strings form one complete pair. */
  lemma MatchEndIsFirstPair(text: string, start: nat, e: nat)
    requires start <= |text|
    ensures MatchEnd(text, start) == Some(e) <==>
              && start <= e < |text|
              && PairUpTo(text, start, e + 1)
              && (forall k | start <= k <= e :: !PairUpTo(text, start, k))
  {
    VerdictFromStart(text, start);
    var v := VerdictFrom(START, text, start);
    if MatchEnd(text, start) == Some(e) {
      PairIffMatched(text, start, e + 1);
      forall k | start <= k <= e ensures !PairUpTo(text, start, k) {
        PairIffMatched(text, start, k);
      }
    }
    if start <= e < |text| && PairUpTo(text, start, e + 1)
       && (forall k | start <= k <= e :: !PairUpTo(text, start, k)) {
      FirstPairIsClosed(text, start, e, v);
    }
  }

  lemma FirstPairIsClosed(text: string, start: nat, e: nat, v: Verdict)
    requires start <= e < |text| && VerdictHolds(v, text, start)
    requires PairUpTo(text, start, e + 1) && (forall k | start <= k <= e :: !PairUpTo(text, start, k))
    ensures v == Closed(e)
  {
    hide PairUpTo, At;
    PairIffMatched(text, start, e + 1);
    assert !v.Unfinished?;
    var at := if v.Closed? then v.end else v.at;
    assert At(text, start, at).Active?;
    assert at <= e;
    AtSettled(text, start, at + 1, e + 1);
    PairIffMatched(text, start, at + 1);
  }

  /** No shorter stretch from the same start is already balanced. */
  lemma MatchHasNoShorterBalance(text: string, start: nat, e: nat, k: nat)
    requires start <= k <= e < |text| && MatchEnd(text, start) == Some(e)
    requires Balanced(Brackets(text[start..k]))
    ensures Brackets(text[start..k]) == []
  {
    VerdictFromStart(text, start);
    assert At(text, start, k).Active?;
    OnlyBracketsMatter(text[start..k]);
    var f :| OpenersOnly(f) && Word(f) == Brackets(text[start..k]);
    if f.Nest? {
      PairMatches(f.opener, f.inner);
      RunAppend(START, [f.opener] + Word(f.inner) + [CloserOf(f.opener)], Word(f.rest));
      RunSettled(Matched, Word(f.rest));
      assert false;
    }
  }

  // ---------- The analyzer's depth counter ----------

  function DepthFrom(depth: int, mode: Mode, text: string, i: nat, opener: char): Option<nat>
    requires i <= |text|
    decreases |text| - i
  {
    if i == |text| then None
    else
      var c := text[i];
      if mode != Outside || c == '"' then DepthFrom(depth, NextMode(mode, c), text, i + 1, opener)
      else if c == opener then DepthFrom(depth + 1, mode, text, i + 1, opener)
      else if c == CloserOf(opener) then
        if depth - 1 == 0 then Some(i) else DepthFrom(depth - 1, mode, text, i + 1, opener)
      else DepthFrom(depth, mode, text, i + 1, opener)
  }

  function DepthEnd(text: string, start: nat, opener: char): Option<nat>
    requires start <= |text|
  {
    DepthFrom(0, Outside, text, start, opener)
  }

  method CountingJsonEnd(text: string, start: nat, opener: char, closer: char) returns (end: Option<nat>)
    requires start <= |text| && IsOpener(opener) && closer == CloserOf(opener)
    ensures end == DepthEnd(text, start, opener)
  {
    var depth := 0;
    var inString := false;
    var escape := false;
    var index := start;
    while index < |text|
      invariant start <= index <= |text|
      invariant escape ==> inString
      invariant DepthEnd(text, start, opener)
             == DepthFrom(depth, ModeOf(inString, escape), text, index, opener)
    {
      var ch := text[index];
      if inString {
        if escape {
          escape := false;
        } else if ch == '\\' {
          escape := true;
        } else if ch == '"' {
          inString := false;
        }
      } else if ch == '"' {
        inString := true;
      } else if ch == opener {
        depth := depth + 1;
      } else if ch == closer {
        depth := depth - 1;
        if depth == 0 {
          return Some(index);
        }
      }
      index := index + 1;
    }
    return None;
  }

  function Occurrences(word: seq<char>, c: char): int {
    if word == [] then 0
    else Occurrences(word[..|word| - 1], c) + if word[|word| - 1] == c then 1 else 0
  }

  /** Openers of one kind less closers of that kind, outside strings. */
  function Surplus(text: string, opener: char): int {
    Occurrences(Brackets(text), opener) - Occurrences(Brackets(text), CloserOf(opener))
  }

  /** What one character adds to it. */
  function Change(mode: Mode, c: char, opener: char): int {
    if mode != Outside then 0 else if c == opener then 1 else if c == CloserOf(opener) then -1 else 0
  }

  lemma OccurrencesSnoc(word: seq<char>, c: char, o: char)
    ensures Occurrences(word + [c], o) == Occurrences(word, o) + if c == o then 1 else 0
  {
    assert (word + [c])[..|word|] == word;
  }

  lemma SurplusSnoc(t: string, c: char, opener: char)
    requires IsOpener(opener)
    ensures Surplus(t + [c], opener) == Surplus(t, opener) + Change(ModeAfter(t), c, opener)
  {
    hide Occurrences, ModeAfter;
    assert (t + [c])[..|t|] == t;
    assert Brackets(t) + [] == Brackets(t);
    OccurrencesSnoc(Brackets(t), c, opener);
    OccurrencesSnoc(Brackets(t), c, CloserOf(opener));
  }

  lemma SurplusNext(text: string, start: nat, k: nat, opener: char)
    requires start <= k < |text| && IsOpener(opener)
    ensures var (t, c) := (text[start..k], text[k]);
            && ModeAfter(text[start..k + 1]) == NextMode(ModeAfter(t), c)
            && Surplus(text[start..k + 1], opener) == Surplus(t, opener) + Change(ModeAfter(t), c, opener)
  {
    hide Surplus, Change, NextMode;
    var (t, c) := (text[start..k], text[k]);
    assert text[start..k + 1] == t + [c] && (t + [c])[..|t|] == t;
    SurplusSnoc(t, c, opener);
  }

  lemma CounterStep(depth: int, mode: Mode, text: string, i: nat, opener: char)
    requires i < |text| && depth >= 1 && IsOpener(opener)
    ensures DepthFrom(depth, mode, text, i, opener)
         == var next := depth + Change(mode, text[i], opener);
            if next == 0 then Some(i) else DepthFrom(next, NextMode(mode, text[i]), text, i + 1, opener)
  {
  }

  /** Only the empty stretch is even. */
  predicate OddUpTo(text: string, start: nat, k: nat, opener: char)
    requires start <= k <= |text|
  {
    forall j | start < j <= k :: Surplus(text[start..j], opener) != 0
  }

  /** The first even stretch ends with position `e`. */
  predicate FirstEvenAt(text: string, start: nat, e: nat, opener: char) {
    start < e < |text| && Surplus(text[start..e + 1], opener) == 0 && OddUpTo(text, start, e, opener)
  }

  lemma OddNext(text: string, start: nat, k: nat, opener: char)
    requires start <= k < |text| && OddUpTo(text, start, k, opener) && Surplus(text[start..k + 1], opener) != 0
    ensures OddUpTo(text, start, k + 1, opener)
  {
    hide Surplus;
  }

  lemma {:induction false} CounterRuns(text: string, start: nat, i: nat, opener: char)
    requires start < i <= |text| && IsOpener(opener)
    requires Surplus(text[start..i], opener) >= 1 && OddUpTo(text, start, i, opener)
    ensures var d := DepthFrom(Surplus(text[start..i], opener), ModeAfter(text[start..i]), text, i, opener);
            if d.Some? then FirstEvenAt(text, start, d.value, opener) else OddUpTo(text, start, |text|, opener)
    decreases |text| - i
  {
    if i < |text| {
      hide Surplus, ModeAfter, OddUpTo, DepthFrom, NextMode;
      var depth := Surplus(text[start..i], opener);
      SurplusNext(text, start, i, opener);
      CounterStep(depth, ModeAfter(text[start..i]), text, i, opener);
      if Surplus(text[start..i + 1], opener) != 0 {
        OddNext(text, start, i, opener);
        CounterRuns(text, start, i + 1, opener);
      }
    }
  }

  /** The counter stops at `e` exactly when `e` is the first position after its
      opener up to which openers and closers of that one kind outside strings are
      equal in number, however the brackets nest. */
  lemma CounterEndIsFirstBalance(text: string, start: nat, e: nat)
    requires start < |text| && IsOpener(text[start])
    ensures DepthEnd(text, start, text[start]) == Some(e) <==> FirstEvenAt(text, start, e, text[start])
  {
    hide Surplus, ModeAfter, DepthFrom;
    CounterStarts(text, start);
    CounterRuns(text, start, start + 1, text[start]);
    var d := DepthEnd(text, start, text[start]);
    if d.Some? && FirstEvenAt(text, start, e, text[start]) {
      FirstEvenIsUnique(text, start, e, d.value, text[start]);
    }
  }

  lemma FirstEvenIsUnique(text: string, start: nat, e: nat, f: nat, opener: char)
    requires FirstEvenAt(text, start, e, opener) && FirstEvenAt(text, start, f, opener)
    ensures e == f
  {
    hide Surplus;
    assert !(e < f) && !(f < e);
  }

  lemma CounterStarts(text: string, start: nat)
    requires start < |text| && IsOpener(text[start])
    ensures var (o, t) := (text[start], text[start..start + 1]);
            && Surplus(t, o) == 1 && ModeAfter(t) == Outside && OddUpTo(text, start, start + 1, o)
            && DepthEnd(text, start, o) == DepthFrom(1, Outside, text, start + 1, o)
  {
    assert text[start..start] == "";
    SurplusNext(text, start, start, text[start]);
  }

  /** So it stops at all exactly when they are ever equal in number. */
  lemma CounterEndsIff(text: string, start: nat)
    requires start < |text| && IsOpener(text[start])
    ensures DepthEnd(text, start, text[start]).Some? <==> !OddUpTo(text, start, |text|, text[start])
  {
    hide Surplus, ModeAfter, DepthFrom;
    CounterStarts(text, start);
    CounterRuns(text, start, start + 1, text[start]);
    if DepthEnd(text, start, text[start]).Some? {
      var e := DepthEnd(text, start, text[start]).value;
      assert Surplus(text[start..e + 1], text[start]) == 0;
    }
  }

  function Count(stack: Stack, c: char): nat {
    if stack.Bottom? then 0 else Count(stack.below, c) + if stack.closer == c then 1 else 0
  }

  /** The first closer pushed, still owed at the bottom. */
  predicate RestsOn(stack: Stack, c: char) {
    stack.Owe? && if stack.below.Bottom? then stack.closer == c else RestsOn(stack.below, c)
  }

  lemma {:induction false} CountKeepsBottom(stack: Stack, c: char)
    requires RestsOn(stack, c)
    ensures Count(stack, c) >= 1
  {
    if !stack.below.Bottom? { CountKeepsBottom(stack.below, c); }
  }

  /** Lockstep: while the matcher is alive the counter's depth is the number of
      closers of its own kind on the stack. */
  lemma {:induction false} Lockstep(stack: Stack, mode: Mode, text: string, i: nat, opener: char)
    requires i <= |text| && IsOpener(opener) && RestsOn(stack, CloserOf(opener))
    ensures var d := DepthFrom(Count(stack, CloserOf(opener)), mode, text, i, opener);
            match VerdictFrom(Active(stack, mode), text, i)
            case Closed(e) => d == Some(e)
            case Unfinished => d == None
            case Broken(at) => d.Some? ==> d.value >= at
    decreases |text| - i
  {
    if i < |text| {
      var next := Step(Active(stack, mode), text[i]);
      if next.Active? {
        CountKeepsBottom(next.stack, CloserOf(opener));
        Lockstep(next.stack, next.mode, text, i + 1, opener);
      } else if next == Mismatch {
        DepthNotBefore(Count(stack, CloserOf(opener)), mode, text, i, opener);
      }
    }
  }

  lemma {:induction false} DepthNotBefore(depth: int, mode: Mode, text: string, i: nat, opener: char)
    requires i <= |text|
    ensures var d := DepthFrom(depth, mode, text, i, opener); d.Some? ==> d.value >= i
    decreases |text| - i
  {
    if i < |text| {
      var c := text[i];
      var depth' := if mode != Outside || c == '"' then depth
                    else if c == opener then depth + 1
                    else if c == CloserOf(opener) then depth - 1 else depth;
      DepthNotBefore(depth', NextMode(mode, c), text, i + 1, opener);
    }
  }

  /** The two scanners return the same end, except exactly when the counter
      finds one and the matcher had met a closer of the wrong kind. */
  lemma ScannersAgree(text: string, start: nat)
    requires start < |text| && IsOpener(text[start])
    ensures var (m, d) := (MatchEnd(text, start), DepthEnd(text, start, text[start]));
            && (m.Some? ==> d == m)
            && (m == d <==> d.None? || !VerdictFrom(START, text, start).Broken?)
  {
    Lockstep(Owe(CloserOf(text[start]), Bottom), Outside, text, start + 1, text[start]);
  }

  /** Mixed-up closers are where they part. */
  lemma ScannersCanDiffer()
    ensures MatchEnd("{[}]", 0) == None && DepthEnd("{[}]", 0, '{') == Some(2)
  {
    var t := "{[}]";
    assert Step(START, t[0]) == Active(Owe('}', Bottom), Outside);
    assert Step(Active(Owe('}', Bottom), Outside), t[1]) == Active(Owe(']', Owe('}', Bottom)), Outside);
    assert VerdictFrom(Active(Owe(']', Owe('}', Bottom)), Outside), t, 2) == Broken(2);
    assert VerdictFrom(Active(Owe('}', Bottom), Outside), t, 1) == Broken(2);
    assert DepthFrom(1, Outside, t, 2, '{') == Some(2);
    assert DepthFrom(1, Outside, t, 1, '{') == Some(2);
  }
}
