/** Finding JSON in model output: the structured-output extractor, the
    analyzer's own extractor, and the parse that tries candidate texts. */
module StructuredOutput {
  import opened Common
  import opened PyText
  import opened JsonScanner
  import opened JsonGrammar
  import opened MarkdownFence
  import S = SchemaValidation

  // ---------- First embedded JSON text ----------

  /** First occurrences of the two openers, nearest first. */
  function OpenerPositions(text: string): (r: seq<(nat, char)>)
    ensures forall p | p in r :: p.0 < |text| && IsOpener(p.1) && text[p.0] == p.1
  {
    match (Find(text, '{'), Find(text, '['))
    case (Some(a), Some(b)) => if a < b then [(a, '{'), (b, '[')] else [(b, '['), (a, '{')]
    case (Some(a), None) => [(a, '{')]
    case (None, Some(b)) => [(b, '[')]
    case (None, None) => []
  }

  function FirstMatch(text: string, positions: seq<(nat, char)>): Option<string>
    requires forall p | p in positions :: p.0 < |text|
  {
    if positions == [] then None
    else
      match MatchEnd(text, positions[0].0)
      case Some(e) => if positions[0].0 <= e < |text| then Some(text[positions[0].0..e + 1]) else None
      case None => FirstMatch(text, positions[1..])
  }

  function FirstJson(text: string): Option<string> {
    FirstMatch(text, OpenerPositions(text))
  }

  method FirstJsonText(text: string) returns (r: Option<string>)
    ensures r == FirstJson(text)
  {
    var positions := OpenerPositions(text);
    for k := 0 to |positions|
      invariant FirstMatch(text, positions) == FirstMatch(text, positions[k..])
    {
      var (start, opener) := positions[k];
      assert positions[k] in positions;
      VerdictFromStart(text, start);
      var end := MatchingJsonEnd(text, start);
      if end.Some? {
        return Some(text[start..end.value + 1]);
      }
    }
    return None;
  }

  /** The analyzer's order: braces anywhere come before brackets anywhere. */
  function PayloadFrom(text: string, opener: char): Option<string>
    requires IsOpener(opener)
  {
    match Find(text, opener)
    case None => None
    case Some(start) =>
      match DepthEnd(text, start, opener)
      case Some(e) => if start <= e < |text| then Some(text[start..e + 1]) else None
      case None => None
  }

  /** What the analyzer finds in the text it searches. */
  function PayloadIn(text: string): Option<string> {
    var braced := PayloadFrom(text, '{');
    if braced.Some? then braced else PayloadFrom(text, '[')
  }

  /** The analyzer searches the body of a fence only, if there is one. */
  function Searched(text: string): string {
    var fenced := Fence(text);
    if fenced.Some? then fenced.value else text
  }

  function Payload(text: string): Option<string> { PayloadIn(Searched(text)) }

  method ExtractJsonPayload(raw: string) returns (r: Option<string>)
    ensures r == Payload(raw)
  {
    var text := raw;
    var fenced := Fence(raw);
    if fenced.Some? {
      text := fenced.value;
    }
    var openers := ['{', '['];
    for k := 0 to 2
      invariant k >= 1 ==> PayloadFrom(text, '{').None?
      invariant k >= 2 ==> PayloadFrom(text, '[').None?
    {
      var opener := openers[k];
      var start := Find(text, opener);
      if start.Some? {
        var end := CountingJsonEnd(text, start.value, opener, CloserOf(opener));
        DepthEndInRange(text, start.value, opener);
        if end.Some? {
          return Some(text[start.value..end.value + 1]);
        }
      }
    }
    return None;
  }

  lemma DepthEndInRange(text: string, start: nat, opener: char)
    requires start <= |text|
    ensures var d := DepthEnd(text, start, opener); d.Some? ==> start <= d.value < |text|
  {
    DepthInRange(0, Outside, text, start, opener);
  }

  lemma {:induction false} DepthInRange(depth: int, mode: Mode, text: string, i: nat, opener: char)
    requires i <= |text|
    ensures var d := DepthFrom(depth, mode, text, i, opener); d.Some? ==> i <= d.value < |text|
    decreases |text| - i
  {
    if i < |text| {
      var c := text[i];
      var depth' := if mode != Outside || c == '"' then depth
                    else if c == opener then depth + 1
                    else if c == CloserOf(opener) then depth - 1 else depth;
      DepthInRange(depth', NextMode(mode, c), text, i + 1, opener);
    }
  }

  predicate NoOpener(text: string) { '{' !in text && '[' !in text }

  lemma {:induction false} FindFirst(text: string, c: char, from: nat, k: nat)
    requires from <= k < |text| && text[k] == c && c !in text[from..k]
    ensures Find(text, c, from) == Some(k)
    decreases k - from
  {
    if from < k {
      assert text[from] in text[from..k];
      assert forall x | x in text[from + 1..k] :: x in text[from..k];
      FindFirst(text, c, from + 1, k);
    }
  }

  lemma NotFoundIn(text: string, c: char, k: nat)
    requires k <= |text| && c !in text[..k]
    ensures var f := Find(text, c); f.Some? ==> f.value >= k
  {
    forall i | 0 <= i < k ensures text[i] != c {
      assert text[i] in text[..k];
    }
  }

  /** Where the two searches for an opener land when a container follows a
      prefix without its own opener. */
  lemma FirstOpener(prefix: string, v: Json, suffix: string, text: string)
    requires IsContainer(v) && OpenerOf(v) !in prefix && text == prefix + Print(v) + suffix
    ensures Find(text, OpenerOf(v)) == Some(|prefix|)
  {
    assert text[0..|prefix|] == prefix;
    assert text[|prefix|] == Print(v)[0];
    FindFirst(text, OpenerOf(v), 0, |prefix|);
  }

  /** The extractor undoes the printer: any container, any printing choices,
      any bracket-free text before it, any text after it. */
  lemma ExtractorUndoesPrinter(prefix: string, v: Json, suffix: string)
    requires NoOpener(prefix) && WellFormed(v) && IsContainer(v)
    ensures FirstJson(prefix + Print(v) + suffix) == Some(Print(v))
  {
    var text := prefix + Print(v) + suffix;
    FirstOpener(prefix, v, suffix, text);
    assert text[..|prefix|] == prefix;
    NotFoundIn(text, '{', |prefix|);
    NotFoundIn(text, '[', |prefix|);
    MatcherSpansPrinted(prefix, v, suffix);
    assert OpenerPositions(text)[0].0 == |prefix|;
    assert text[|prefix|..|prefix| + |Print(v)|] == Print(v);
  }

  // ---------- The analyzer's extractor ----------

  /** From the first brace on, the two kinds of braces outside strings are at some
      position equal in number. */
  predicate BraceCloses(text: string) {
    Find(text, '{').Some? && !OddUpTo(text, Find(text, '{').value, |text|, '{')
  }

  /** `v` stands printed at the first opener of its kind; an array moreover in a
      text whose braces are never even. */
  predicate StandsFirst(text: string, prefix: string, v: Json, suffix: string) {
    IsContainer(v) && text == prefix + Print(v) + suffix && OpenerOf(v) !in prefix && (v.Array? ==> !BraceCloses(text))
  }

  lemma PayloadFromStarts(text: string, opener: char)
    requires IsOpener(opener)
    ensures var r := PayloadFrom(text, opener);
            r.Some? ==> Find(text, opener).Some?
                        && exists suffix :: r.value != "" && r.value[0] == opener
                             && text == text[..Find(text, opener).value] + r.value + suffix
    ensures opener == '{' ==> (PayloadFrom(text, opener).Some? <==> BraceCloses(text))
  {
    if Find(text, opener).Some? {
      var start := Find(text, opener).value;
      DepthEndInRange(text, start, opener);
      CounterEndsIff(text, start);
      hide OddUpTo;
      var r := PayloadFrom(text, opener);
      if r.Some? {
        var e := DepthEnd(text, start, opener).value;
        assert text == text[..start] + r.value + text[e + 1..];
      }
    }
  }

  lemma PayloadOfPrinted(text: string, prefix: string, v: Json, suffix: string)
    requires WellFormed(v) && StandsFirst(text, prefix, v, suffix)
    ensures PayloadIn(text) == Some(Print(v))
  {
    FirstOpener(prefix, v, suffix, text);
    MatcherSpansPrinted(prefix, v, suffix);
    ScannersAgree(text, |prefix|);
    assert text[|prefix|..|prefix| + |Print(v)|] == Print(v);
    if v.Array? { PayloadFromStarts(text, '{'); }
  }

  lemma FoundIsFirst(text: string, v: Json)
    requires IsContainer(v) && PayloadFrom(text, OpenerOf(v)) == Some(Print(v)) && (v.Array? ==> !BraceCloses(text))
    ensures exists prefix, suffix :: StandsFirst(text, prefix, v, suffix)
  {
    PayloadFromStarts(text, OpenerOf(v));
    var prefix := text[..Find(text, OpenerOf(v)).value];
    var suffix :| text == prefix + Print(v) + suffix;
    assert text[0..|prefix|] == prefix;
    assert StandsFirst(text, prefix, v, suffix);
  }

  /** The analyzer returns a given printed container exactly when that stands
      first in the text it searches, which is the fence's body if there is one. */
  lemma AnalyzerFinds(text: string, v: Json)
    requires WellFormed(v) && IsContainer(v)
    ensures Payload(text) == Some(Print(v))
       <==> exists prefix, suffix :: StandsFirst(Searched(text), prefix, v, suffix)
  {
    var t := Searched(text);
    if prefix, suffix :| StandsFirst(t, prefix, v, suffix) {
      PayloadOfPrinted(t, prefix, v, suffix);
    }
    if PayloadIn(t) == Some(Print(v)) {
      ContainerRun(v, Bottom);
      PayloadFromStarts(t, '{');
      PayloadFromStarts(t, '[');
      FoundIsFirst(t, v);
    }
  }

  /** Printed objects are found behind any brace-free text without a fence. */
  lemma AnalyzerUndoesObjects(prefix: string, v: Json, suffix: string)
    requires '{' !in prefix && WellFormed(v) && v.Object? && Fence(prefix + Print(v) + suffix).None?
    ensures Payload(prefix + Print(v) + suffix) == Some(Print(v))
  {
    PayloadOfPrinted(prefix + Print(v) + suffix, prefix, v, suffix);
  }

  /** Without a fence, printed arrays are found exactly when the braces after the
      first one in the whole text are never even. */
  lemma AnalyzerOnArrays(prefix: string, v: Json, suffix: string)
    requires NoOpener(prefix) && WellFormed(v) && v.Array? && Fence(prefix + Print(v) + suffix).None?
    ensures Payload(prefix + Print(v) + suffix) == Some(Print(v)) <==> !BraceCloses(prefix + Print(v) + suffix)
  {
    var text := prefix + Print(v) + suffix;
    if BraceCloses(text) {
      PayloadFromStarts(text, '{');
      ContainerRun(v, Bottom);
    } else {
      PayloadOfPrinted(text, prefix, v, suffix);
    }
  }

  /** An array that starts with an object is lost: its object is returned instead. */
  lemma ArrayOfObjectsLost(prefix: string, v: Json, suffix: string)
    requires '{' !in prefix && WellFormed(v) && Fence(prefix + Print(v) + suffix).None?
    requires v.Array? && v.items != [] && v.items[0].value.Object?
    ensures Payload(prefix + Print(v) + suffix) == Some(Print(v.items[0].value))
  {
    hide Fence, Payload, Print, WellFormed;
    var item := v.items[0];
    var rest := StartsWithItem(v);
    var head := ['['] + v.lead + item.before;
    Regroup(prefix, head, Print(item.value), rest, suffix);
    AnalyzerUndoesObjects(prefix + head, item.value, rest + suffix);
  }

  lemma StartsWithItem(v: Json) returns (rest: string)
    requires WellFormed(v) && v.Array? && v.items != []
    ensures WellFormed(v.items[0].value) && '{' !in ['['] + v.lead + v.items[0].before
    ensures Print(v) == (['['] + v.lead + v.items[0].before) + Print(v.items[0].value) + rest
  {
    var item := v.items[0];
    var comma := if |v.items| == 1 then "" else ",";
    var tail := PrintItems(v.items[1..]);
    rest := item.after + comma + tail + [']'];
    var inner := Print(item.value);
    assert PrintItems(v.items) == item.before + inner + item.after + comma + tail;
    Flatten(['['], v.lead, item.before, inner, item.after + comma + tail, [']']);
    assert item.before + inner + item.after + comma + tail == item.before + inner + (item.after + comma + tail);
    hide Print, PrintItems, WellFormed, WellFormedItems;
  }

  lemma Flatten(a: string, b: string, c: string, d: string, e: string, f: string)
    ensures a + (b + (c + d + e)) + f == (a + b + c) + d + (e + f)
  {
  }

  lemma Regroup(a: string, b: string, c: string, d: string, e: string)
    ensures a + (b + c + d) + e == (a + b) + c + (d + e)
  {
  }

  lemma MemberPrints() returns (m: Member)
    ensures PrintMembers([m]) == "\"a\":1" && WellFormedMembers([m])
  {
    m := Member("", [Plain('a')], "", "", Scalar("1"), "");
    assert m.key[1..] == [] && PrintUnits(m.key) == "a" && PrintText(m.key) == "\"a\"";
    assert [m][1..] == [] && PrintMembers([]) == "" && WellFormedMembers([]);
  }

  lemma ArrayOfObjectPrints() returns (v: Json)
    ensures WellFormed(v) && v.Array? && |v.items| == 1 && v.items[0].value.Object?
    ensures Print(v) == "[{\"a\":1}]" && Print(v.items[0].value) == "{\"a\":1}"
  {
    hide PrintMembers, WellFormedMembers;
    var m := MemberPrints();
    var item := Item("", Object("", [m]), "");
    v := Array("", [item]);
    assert [item][1..] == [] && PrintItems([]) == "" && WellFormedItems([]);
    assert WellFormed(item.value) && WellFormedItems([item]);
    assert Print(item.value) == "{\"a\":1}" && PrintItems([item]) == "{\"a\":1}";
  }

  /** A text on which the extractors differ: the parser's takes the array, the
      analyzer's the object in it. */
  lemma ExtractorsCanDiffer()
    ensures FirstJson("[{\"a\":1}]") == Some("[{\"a\":1}]") && Payload("[{\"a\":1}]") == Some("{\"a\":1}")
  {
    hide Print, WellFormed, Fence, Payload, FirstJson;
    var text := "[{\"a\":1}]";
    var v := ArrayOfObjectPrints();
    NoTicksNoFence(text);
    assert "" + Print(v) + "" == text;
    ExtractorUndoesPrinter("", v, "");
    ArrayOfObjectsLost("", v, "");
  }

  lemma NoTicksNoFence(text: string)
    requires '`' !in text
    ensures Fence(text).None?
  {
    NoFence(text);
    forall i ensures !TicksAt(text, i) {
      if 0 <= i && i + 3 <= |text| { assert text[i..i + 3][0] == text[i] && text[i] in text; }
    }
  }

  /** A container is found whatever surrounds its fence. */
  lemma AnalyzerReadsFence(before: string, body: string, after: string, prefix: string, v: Json, suffix: string)
    requires Tickless(before) && Tickless(body) && WellFormed(v)
    requires StandsFirst(Strip(Untagged(body)), prefix, v, suffix)
    ensures Payload(before + TICKS + body + TICKS + after) == Some(Print(v))
  {
    FenceOf(before, body, after);
    PayloadOfPrinted(Strip(Untagged(body)), prefix, v, suffix);
  }

  /** A fence hides everything outside it: nothing is found when its body has no
      opener, even if a printed container stands first in the whole text. */
  lemma FenceHides(before: string, body: string, after: string)
    requires Tickless(before) && Tickless(body) && NoOpener(Strip(Untagged(body)))
    ensures Payload(before + TICKS + body + TICKS + after) == None
  {
    FenceOf(before, body, after);
  }

  /** An array followed by a fenced remark, and an object with a fence in one of
      its strings: both are lost. */
  lemma FenceHidesExamples()
    ensures Payload("[1]" + TICKS + "x" + TICKS + "") == None
    ensures Payload("{\"a\":\"" + TICKS + "x" + TICKS + "\"}") == None
  {
    ShortTickless("[1]");
    ShortTickless("{\"a\":\"");
    ShortTickless("x");
    assert Untagged("x") == "x" && Strip("x") == "x";
    FenceHides("[1]", "x", "");
    FenceHides("{\"a\":\"", "x", "\"}");
  }

  lemma ShortTickless(s: string)
    requires '`' !in s
    ensures Tickless(s)
  {
    forall i | 0 <= i < |s| ensures !TicksAt(s + "``", i) {
      assert (s + "``")[i..i + 3][0] == s[i] && s[i] in s;
    }
  }

  // ---------- When the two extractors agree ----------

  /** The ends both scanners find from the first opener of a kind. */
  function Matched(text: string, opener: char): Option<nat> {
    match Find(text, opener) case None => None case Some(start) => MatchEnd(text, start)
  }

  function Counted(text: string, opener: char): Option<nat> {
    match Find(text, opener) case None => None case Some(start) => DepthEnd(text, start, opener)
  }

  predicate BraceNearest(text: string) {
    Find(text, '{').Some? && (Find(text, '[').Some? ==> Find(text, '{').value < Find(text, '[').value)
  }

  /** With the brace nearest: the matcher closes it, or neither closes it and they
      agree on the bracket. Otherwise: the bracket is matched and no brace is
      counted, or it is not matched, they agree on the brace, and without one
      no bracket is counted either. */
  predicate ScansCoincide(text: string) {
    var (mb, cb, ma, ca) := (Matched(text, '{'), Counted(text, '{'), Matched(text, '['), Counted(text, '['));
    if BraceNearest(text) then mb.Some? || (cb.None? && ma == ca)
    else if ma.Some? then cb.None?
    else mb == cb && (cb.Some? || ca.None?)
  }

  lemma ScannedFrom(text: string, opener: char)
    requires IsOpener(opener)
    ensures Matched(text, opener).Some? ==> Counted(text, opener) == Matched(text, opener)
    ensures Counted(text, opener).Some? ==>
              PayloadFrom(text, opener).Some? && PayloadFrom(text, opener).value != ""
              && PayloadFrom(text, opener).value[0] == opener
    ensures Counted(text, opener).None? ==> PayloadFrom(text, opener).None?
    ensures FirstFrom(text, opener)
         == if Matched(text, opener).Some? then PayloadFrom(text, opener) else None
  {
    if Find(text, opener).Some? {
      var start := Find(text, opener).value;
      ScannersAgree(text, start);
      DepthEndInRange(text, start, opener);
      VerdictFromStart(text, start);
      var one := [(start, opener)];
      assert one[1..] == [] && one[0] == (start, opener);
      assert FirstMatch(text, one[1..]) == None;
      assert FirstMatch(text, one) == FirstFrom(text, opener);
    }
  }

  /** What the extractor makes of the first opener of a kind. */
  function FirstFrom(text: string, opener: char): Option<string>
    requires IsOpener(opener)
  {
    match Find(text, opener) case None => None case Some(start) => FirstMatch(text, [(start, opener)])
  }

  lemma FirstJsonIs(text: string)
    ensures FirstJson(text)
         == (var (near, far) := if BraceNearest(text) then ('{', '[') else ('[', '{');
             if FirstFrom(text, near).Some? then FirstFrom(text, near) else FirstFrom(text, far))
  {
    var positions := OpenerPositions(text);
    if positions != [] {
      VerdictFromStart(text, positions[0].0);
      FirstMatchSteps(text, positions);
    }
  }

  lemma FirstMatchSteps(text: string, positions: seq<(nat, char)>)
    requires (forall p | p in positions :: p.0 < |text|) && 1 <= |positions| <= 2
    requires MatchEnd(text, positions[0].0).Some? ==> positions[0].0 <= MatchEnd(text, positions[0].0).value < |text|
    ensures FirstMatch(text, positions)
         == if FirstMatch(text, positions[..1]).Some? || |positions| == 1 then FirstMatch(text, positions[..1])
            else FirstMatch(text, positions[1..])
  {
    hide MatchEnd;
    assert positions[..1][1..] == [];
    if |positions| == 1 { assert positions[..1] == positions; }
  }

  /** On the text the analyzer searches, the two extractors return the same
      exactly when their scans coincide. */
  lemma ExtractorsAgree(text: string)
    ensures FirstJson(Searched(text)) == Payload(text) <==> ScansCoincide(Searched(text))
  {
    var t := Searched(text);
    hide Matched, Counted, FirstFrom, PayloadFrom, BraceNearest, FirstJson, Searched;
    FirstJsonIs(t);
    ScannedFrom(t, '{');
    ScannedFrom(t, '[');
  }

  /** On a printed container behind bracket-free text, and without a fence, they
      agree exactly on objects and on arrays in a text whose braces are never even. */
  lemma ExtractorsAgreeOnPrinted(prefix: string, v: Json, suffix: string)
    requires NoOpener(prefix) && WellFormed(v) && IsContainer(v) && Fence(prefix + Print(v) + suffix).None?
    ensures var text := prefix + Print(v) + suffix;
            FirstJson(text) == Payload(text) <==> v.Object? || !BraceCloses(text)
  {
    hide Payload, FirstJson, BraceCloses, Fence, Print, WellFormed;
    ExtractorUndoesPrinter(prefix, v, suffix);
    if v.Object? { AnalyzerUndoesObjects(prefix, v, suffix); } else { AnalyzerOnArrays(prefix, v, suffix); }
  }

  // ---------- Parsing ----------

  datatype Source = Strict | Direct | Fenced | Embedded

  datatype ParseMode = StrictMode | LenientMode | UnsupportedMode

  /** What a model hands back: Python data, text, or anything else. */
  datatype Content = Data(value: S.Value) | Raw(text: string) | Other

  datatype Complaint = NotJson(source: Source) | NotContainer(source: Source)

  datatype Parse =
    | Parsed(data: S.Value, raw: Option<string>, source: Option<Source>)
    | NotText | EmptyText | BadMode
    | NoCandidate(complaints: seq<Complaint>)

  /** `json.loads`, with None for a decode error. */
  type Loader = string -> Option<S.Value>

  type Candidate = (string, Source)

  predicate TopLevel(v: S.Value) { v.Dict? || v.List? }

  function CandidateTexts(text: string, mode: ParseMode): seq<Candidate> {
    if mode.StrictMode? then [(text, Strict)]
    else
      [(text, Direct)]
      + (match Fence(text) case Some(body) => [(body, Fenced)] case None => [])
      + (match FirstJson(text) case Some(body) => [(body, Embedded)] case None => [])
  }

  predicate Offers(candidates: seq<Candidate>, text: string) {
    exists c | c in candidates :: c.0 == text
  }

  /** Each text once, at its first place. */
  function Distinct(candidates: seq<Candidate>): seq<Candidate> {
    if candidates == [] then []
    else
      var (rest, c) := (candidates[..|candidates| - 1], candidates[|candidates| - 1]);
      Distinct(rest) + if Offers(rest, c.0) then [] else [c]
  }

  method DedupeCandidates(candidates: seq<Candidate>) returns (result: seq<Candidate>)
    ensures result == Distinct(candidates)
  {
    var seen: set<string> := {};
    result := [];
    for k := 0 to |candidates|
      invariant result == Distinct(candidates[..k])
      invariant forall t :: t in seen <==> Offers(candidates[..k], t)
    {
      assert candidates[..k + 1] == candidates[..k] + [candidates[k]];
      var c := candidates[k];
      if c.0 !in seen {
        seen := seen + {c.0};
        result := result + [c];
      }
    }
    assert candidates[..|candidates|] == candidates;
  }

  predicate Loads(c: Candidate, loads: Loader) {
    loads(c.0).Some? && TopLevel(loads(c.0).value)
  }

  /** Index of the first candidate that loads as an object or array. */
  function FirstLoading(candidates: seq<Candidate>, loads: Loader): (r: Option<nat>)
    ensures r.Some? ==> r.value < |candidates| && Loads(candidates[r.value], loads)
                        && forall i | 0 <= i < r.value :: !Loads(candidates[i], loads)
    ensures r.None? ==> forall c | c in candidates :: !Loads(c, loads)
  {
    if candidates == [] then None
    else
      var (rest, c) := (candidates[..|candidates| - 1], candidates[|candidates| - 1]);
      var r := FirstLoading(rest, loads);
      assert candidates == rest + [c];
      if r.Some? then r else if Loads(c, loads) then Some(|candidates| - 1) else None
  }

  /** What each candidate is rejected for. */
  function Complaints(candidates: seq<Candidate>, loads: Loader): seq<Complaint> {
    if candidates == [] then []
    else
      var (rest, c) := (candidates[..|candidates| - 1], candidates[|candidates| - 1]);
      Complaints(rest, loads) + [if loads(c.0).None? then NotJson(c.1) else NotContainer(c.1)]
  }

  function ParseCandidates(candidates: seq<Candidate>, loads: Loader): Parse {
    match FirstLoading(candidates, loads)
    case Some(i) => Parsed(loads(candidates[i].0).value, Some(candidates[i].0), Some(candidates[i].1))
    case None => NoCandidate(Complaints(candidates, loads))
  }

  function ParseOf(content: Content, mode: ParseMode, loads: Loader): Parse {
    match content
    case Data(v) => if TopLevel(v) then Parsed(v, None, None) else NotText
    case Other => NotText
    case Raw(raw) =>
      var text := Strip(raw);
      if text == "" then EmptyText
      else if mode.UnsupportedMode? then BadMode
      else ParseCandidates(Distinct(CandidateTexts(text, mode)), loads)
  }

  method ParseJsonOutput(content: Content, mode: ParseMode, loads: Loader) returns (r: Parse)
    ensures r == ParseOf(content, mode, loads)
  {
    if content.Data? && TopLevel(content.value) {
      return Parsed(content.value, None, None);
    }
    if !content.Raw? {
      return NotText;
    }
    var text := Strip(content.text);
    if text == "" {
      return EmptyText;
    }
    if mode.UnsupportedMode? {
      return BadMode;
    }
    var candidates := DedupeCandidates(CandidateTexts(text, mode));
    r := LoadFirst(candidates, loads);
  }

  method LoadFirst(candidates: seq<Candidate>, loads: Loader) returns (r: Parse)
    ensures r == ParseCandidates(candidates, loads)
  {
    var errors: seq<Complaint> := [];
    for k := 0 to |candidates|
      invariant forall i | 0 <= i < k :: !Loads(candidates[i], loads)
      invariant errors == Complaints(candidates[..k], loads)
    {
      assert candidates[..k + 1] == candidates[..k] + [candidates[k]];
      var (candidate, source) := candidates[k];
      assert candidates[k] in candidates;
      var data := loads(candidate);
      if data.None? {
        errors := errors + [NotJson(source)];
      } else if TopLevel(data.value) {
        return Parsed(data.value, Some(candidate), Some(source));
      } else {
        errors := errors + [NotContainer(source)];
      }
    }
    assert candidates[..|candidates|] == candidates;
    return NoCandidate(errors);
  }

  /** Dropping repeated texts never changes which candidate is accepted. */
  lemma {:induction false} DistinctKeepsFirst(candidates: seq<Candidate>, loads: Loader)
    ensures match FirstLoading(candidates, loads)
            case None => FirstLoading(Distinct(candidates), loads).None?
            case Some(i) => var j := FirstLoading(Distinct(candidates), loads);
                            j.Some? && Distinct(candidates)[j.value] == candidates[i]
  {
    if candidates != [] {
      var (rest, c) := (candidates[..|candidates| - 1], candidates[|candidates| - 1]);
      DistinctKeepsFirst(rest, loads);
      var d := Distinct(candidates);
      if Offers(rest, c.0) {
        var r :| r in rest && r.0 == c.0;
        assert Loads(c, loads) == Loads(r, loads);
        assert d == Distinct(rest);
      } else {
        assert d[..|d| - 1] == Distinct(rest);
      }
    }
  }

  /** The text loads as an object or an array. */
  predicate LoadsAsContainer(text: string, loads: Loader) {
    match loads(text)
    case Some(v) => v.Dict? || v.List?
    case None => false
  }

  /** Strict parsing takes the whole text, stripped, or nothing. */
  lemma StrictParse(raw: string, loads: Loader)
    ensures ParseOf(Raw(raw), StrictMode, loads)
         == var text := Strip(raw);
            if text == "" then EmptyText
            else if LoadsAsContainer(text, loads) then Parsed(loads(text).value, Some(text), Some(Strict))
            else NoCandidate([if loads(text).None? then NotJson(Strict) else NotContainer(Strict)])
  {
    hide Strip, Fence, FirstJson, Distinct, FirstLoading, Complaints;
    OneCandidate((Strip(raw), Strict), loads);
  }

  lemma OneCandidate(c: Candidate, loads: Loader)
    ensures Distinct([c]) == [c]
    ensures FirstLoading([c], loads) == if LoadsAsContainer(c.0, loads) then Some(0) else None
    ensures Complaints([c], loads) == [if loads(c.0).None? then NotJson(c.1) else NotContainer(c.1)]
  {
    assert [c][..0] == [];
    assert Distinct([]) == [] && FirstLoading([], loads).None? && Complaints([], loads) == [];
  }

  /** Python data is taken as it is if it is a container; anything else is no text. */
  lemma DataParse(v: S.Value, mode: ParseMode, loads: Loader)
    ensures ParseOf(Data(v), mode, loads) == if v.Dict? || v.List? then Parsed(v, None, None) else NotText
    ensures ParseOf(Other, mode, loads) == NotText
  {
  }

  /** Lenient parsing takes the first of these that loads as a container: the whole
      text, the body of its fence, the first JSON text in it. */
  lemma LenientParse(raw: string, loads: Loader)
    requires Strip(raw) != ""
    ensures var text := Strip(raw);
            var p := ParseOf(Raw(raw), LenientMode, loads);
            var (fence, inner) := (Fence(text), FirstJson(text));
            if LoadsAsContainer(text, loads) then p == Parsed(loads(text).value, Some(text), Some(Direct))
            else if fence.Some? && LoadsAsContainer(fence.value, loads)
            then p == Parsed(loads(fence.value).value, fence, Some(Fenced))
            else if inner.Some? && LoadsAsContainer(inner.value, loads)
            then p == Parsed(loads(inner.value).value, inner, Some(Embedded))
            else p.NoCandidate?
  {
    hide Strip, Fence, FirstJson, ParseCandidates, Distinct, FirstLoading;
    var text := Strip(raw);
    var all := CandidateTexts(text, LenientMode);
    AcceptedIs(all, loads);
    FirstOfThree(all, loads);
    var (fence, inner) := (Fence(text), FirstJson(text));
    assert all == [(text, Direct)] + (if fence.Some? then [(fence.value, Fenced)] else [])
                  + (if inner.Some? then [(inner.value, Embedded)] else []);
    var first := FirstLoading(all, loads);
    assert all[0] == (text, Direct) && (fence.Some? ==> all[1] == (fence.value, Fenced));
    if LoadsAsContainer(text, loads) {
      assert first == Some(0);
    } else if fence.Some? && LoadsAsContainer(fence.value, loads) {
      assert first == Some(1);
    } else if inner.Some? && LoadsAsContainer(inner.value, loads) {
      assert all[|all| - 1] == (inner.value, Embedded) && first == Some(|all| - 1);
    }
  }

  lemma AcceptedIs(all: seq<Candidate>, loads: Loader)
    ensures match FirstLoading(all, loads)
            case Some(i) => ParseCandidates(Distinct(all), loads)
                            == Parsed(loads(all[i].0).value, Some(all[i].0), Some(all[i].1))
            case None => ParseCandidates(Distinct(all), loads).NoCandidate?
  {
    hide FirstLoading, Distinct;
    DistinctKeepsFirst(all, loads);
  }

  lemma FirstOfThree(all: seq<Candidate>, loads: Loader)
    requires 1 <= |all| <= 3
    ensures match FirstLoading(all, loads)
            case Some(i) => i < |all| && LoadsAsContainer(all[i].0, loads)
                            && forall j | 0 <= j < i :: !LoadsAsContainer(all[j].0, loads)
            case None => forall j | 0 <= j < |all| :: !LoadsAsContainer(all[j].0, loads)
  {
    hide FirstLoading;
    assert forall c | c in all :: Loads(c, loads) <==> LoadsAsContainer(c.0, loads);
  }

  /** Model chatter around a JSON container is parsed to what that container
      loads as, when neither the whole text nor a fence loads. */
  lemma LenientParseFindsEmbedded(raw: string, prefix: string, v: Json, suffix: string, loads: Loader)
    requires Strip(raw) == prefix + Print(v) + suffix
    requires NoOpener(prefix) && WellFormed(v) && IsContainer(v)
    requires !Loads((Strip(raw), Direct), loads)
    requires Fence(Strip(raw)).Some? ==> !Loads((Fence(Strip(raw)).value, Fenced), loads)
    requires Loads((Print(v), Embedded), loads)
    ensures ParseOf(Raw(raw), LenientMode, loads)
         == Parsed(loads(Print(v)).value, Some(Print(v)), Some(Embedded))
  {
    hide Strip, Fence, FirstJson, WellFormed, Print, Distinct, FirstLoading, Loads, CandidateTexts, NoOpener, Body, Run;
    var text := Strip(raw);
    ExtractorUndoesPrinter(prefix, v, suffix);
    ContainerRun(v, Bottom);
    LenientCandidates(text, Print(v));
    var all := CandidateTexts(text, LenientMode);
    LastLoads(all, loads);
    DistinctKeepsFirst(all, loads);
  }

  lemma LenientCandidates(text: string, found: string)
    requires FirstJson(text) == Some(found)
    ensures CandidateTexts(text, LenientMode)
         == [(text, Direct)]
            + (if Fence(text).Some? then [(Fence(text).value, Fenced)] else [])
            + [(found, Embedded)]
  {
    hide Fence, FirstJson;
  }

  lemma LastLoads(all: seq<Candidate>, loads: Loader)
    requires all != [] && Loads(all[|all| - 1], loads)
    requires forall i | 0 <= i < |all| - 1 :: !Loads(all[i], loads)
    ensures FirstLoading(all, loads) == Some(|all| - 1)
  {
    assert all[|all| - 1] in all;
  }
}
