/** JSON texts by the grammar of RFC 8259 (sections 2 to 7), kept with every
    choice a printer has: whitespace, escape forms, number spelling. */
module JsonGrammar {
  import opened Common
  import opened JsonScanner

  /** One unit of a string literal: a plain character, a two-character escape
      or a four-digit Unicode escape. */
  datatype StringUnit = Plain(c: char) | Short(c: char) | Unicode(digits: string)

  datatype Json =
    | Scalar(token: string)
    | Text(units: seq<StringUnit>)
    | Array(lead: string, items: seq<Item>)
    | Object(lead: string, members: seq<Member>)

  datatype Item = Item(before: string, value: Json, after: string)

  datatype Member = Member(before: string, key: seq<StringUnit>, preColon: string, postColon: string,
                           value: Json, after: string)

  predicate IsContainer(v: Json) { v.Array? || v.Object? }

  // ---------- Well-formedness ----------

  predicate Blank(ws: string) {
    forall c | c in ws :: c in " \t\r\n"
  }

  predicate WellFormedUnit(u: StringUnit) {
    match u
    case Plain(c) => c != '"' && c != '\\' && c >= ' '
    case Short(c) => c in "\"\\/bfnrt"
    case Unicode(d) => |d| == 4 && forall c | c in d :: c in "0123456789abcdefABCDEF"
  }

  /** `true`, `false`, `null`, or a word over the characters of numbers. */
  predicate WellFormedToken(t: string) {
    t == "true" || t == "false" || t == "null" || (t != "" && forall c | c in t :: c in "0123456789+-.eE")
  }

  predicate WellFormedText(units: seq<StringUnit>) {
    forall u | u in units :: WellFormedUnit(u)
  }

  predicate WellFormed(v: Json)
    decreases v, 1
  {
    match v
    case Scalar(t) => WellFormedToken(t)
    case Text(units) => WellFormedText(units)
    case Array(lead, items) => Blank(lead) && WellFormedItems(items)
    case Object(lead, members) => Blank(lead) && WellFormedMembers(members)
  }

  predicate WellFormedItems(items: seq<Item>)
    decreases items, 0
  {
    items == [] ||
    (Blank(items[0].before) && WellFormed(items[0].value) && Blank(items[0].after) && WellFormedItems(items[1..]))
  }

  predicate WellFormedMembers(members: seq<Member>)
    decreases members, 0
  {
    members == [] ||
    (var m := members[0];
     Blank(m.before) && WellFormedText(m.key) && Blank(m.preColon) && Blank(m.postColon)
     && WellFormed(m.value) && Blank(m.after) && WellFormedMembers(members[1..]))
  }

  // ---------- Printing ----------

  function PrintUnit(u: StringUnit): string {
    match u
    case Plain(c) => [c]
    case Short(c) => ['\\', c]
    case Unicode(d) => ['\\', 'u'] + d
  }

  function PrintUnits(units: seq<StringUnit>): string {
    if units == [] then "" else PrintUnit(units[0]) + PrintUnits(units[1..])
  }

  function PrintText(units: seq<StringUnit>): string {
    ['"'] + PrintUnits(units) + ['"']
  }

  function Print(v: Json): string
    decreases v, 1
  {
    match v
    case Scalar(t) => t
    case Text(units) => PrintText(units)
    case Array(lead, items) => ['['] + (lead + PrintItems(items)) + [']']
    case Object(lead, members) => ['{'] + (lead + PrintMembers(members)) + ['}']
  }

  function PrintItems(items: seq<Item>): string
    decreases items, 0
  {
    if items == [] then ""
    else
      items[0].before + Print(items[0].value) + items[0].after
      + (if |items| == 1 then "" else ",") + PrintItems(items[1..])
  }

  function Colon(m: Member): string {
    m.preColon + [':'] + m.postColon
  }

  function PrintMembers(members: seq<Member>): string
    decreases members, 0
  {
    if members == [] then ""
    else
      members[0].before + PrintText(members[0].key) + Colon(members[0]) + Print(members[0].value) + members[0].after
      + (if |members| == 1 then "" else ",") + PrintMembers(members[1..])
  }

  // ---------- Every printed value leaves the scanner's stack as it was ----------

  /** Reading `text` outside strings over the stack `stack` changes nothing. */
  ghost predicate Neutral(stack: Stack, text: string) {
    Run(Active(stack, Outside), text) == Active(stack, Outside)
  }

  lemma NeutralAppend(stack: Stack, a: string, b: string)
    requires Neutral(stack, a) && Neutral(stack, b)
    ensures Neutral(stack, a + b)
  {
    RunAppend(Active(stack, Outside), a, b);
  }

  lemma {:induction false} InertIsNeutral(stack: Stack, text: string)
    requires forall c | c in text :: c != '"' && !IsOpener(c) && !IsCloser(c)
    ensures Neutral(stack, text)
  {
    if text != "" {
      var rest := text[..|text| - 1];
      assert text[|text| - 1] in text && forall c | c in rest :: c in text;
      InertIsNeutral(stack, rest);
    }
  }

  lemma TokenIsNeutral(stack: Stack, token: string)
    requires WellFormedToken(token)
    ensures Neutral(stack, token)
  {
    InertIsNeutral(stack, token);
  }

  lemma {:induction false} InsideString(stack: Stack, text: string)
    requires forall c | c in text :: c != '"' && c != '\\'
    ensures Run(Active(stack, InString), text) == Active(stack, InString)
  {
    if text != "" {
      var rest := text[..|text| - 1];
      assert text[|text| - 1] in text && forall c | c in rest :: c in text;
      InsideString(stack, rest);
    }
  }

  lemma EscapedPair(stack: Stack, c: char)
    ensures Run(Active(stack, InString), ['\\', c]) == Active(stack, InString)
  {
    RunCons(Active(stack, InString), '\\', [c]);
    RunOne(Active(stack, Escaped), c);
  }

  lemma UnitStaysInside(stack: Stack, u: StringUnit)
    requires WellFormedUnit(u)
    ensures Run(Active(stack, InString), PrintUnit(u)) == Active(stack, InString)
  {
    hide Run;
    match u
    case Plain(c) => RunOne(Active(stack, InString), c);
    case Short(c) => EscapedPair(stack, c);
    case Unicode(d) =>
      HexIsPlain(d);
      CodeStaysInside(stack, d);
  }

  lemma HexIsPlain(d: string)
    requires forall c | c in d :: c in "0123456789abcdefABCDEF"
    ensures forall c | c in d :: c != '"' && c != '\\'
  {
  }

  lemma CodeStaysInside(stack: Stack, d: string)
    requires forall c | c in d :: c != '"' && c != '\\'
    ensures Run(Active(stack, InString), ['\\', 'u'] + d) == Active(stack, InString)
  {
    hide Run;
    EscapedPair(stack, 'u');
    RunAppend(Active(stack, InString), ['\\', 'u'], d);
    InsideString(stack, d);
  }

  lemma {:induction false} UnitsStayInside(stack: Stack, units: seq<StringUnit>)
    requires WellFormedText(units)
    ensures Run(Active(stack, InString), PrintUnits(units)) == Active(stack, InString)
  {
    if units != [] {
      UnitStaysInside(stack, units[0]);
      UnitsStayInside(stack, units[1..]);
      RunAppend(Active(stack, InString), PrintUnit(units[0]), PrintUnits(units[1..]));
    }
  }

  lemma TextIsNeutral(stack: Stack, units: seq<StringUnit>)
    requires WellFormedText(units)
    ensures Neutral(stack, PrintText(units))
  {
    RunCons(Active(stack, Outside), '"', PrintUnits(units));
    UnitsStayInside(stack, units);
    RunAppend(Active(stack, Outside), ['"'] + PrintUnits(units), ['"']);
    RunOne(Active(stack, InString), '"');
  }

  lemma {:induction false} PrintedIsNeutral(v: Json, stack: Stack)
    requires WellFormed(v) && stack.Owe?
    ensures Neutral(stack, Print(v))
    decreases v, 1
  {
    match v
    case Scalar(t) => TokenIsNeutral(stack, t);
    case Text(units) => TextIsNeutral(stack, units);
    case Array(_, _) => ContainerRun(v, stack);
    case Object(_, _) => ContainerRun(v, stack);
  }

  function Body(v: Json): string
    requires IsContainer(v)
  {
    if v.Array? then v.lead + PrintItems(v.items) else v.lead + PrintMembers(v.members)
  }

  function OpenerOf(v: Json): char
    requires IsContainer(v)
  {
    if v.Array? then '[' else '{'
  }

  /** A printed container opens its pair, keeps it through the body, and closes it. */
  lemma {:induction false} ContainerRun(v: Json, stack: Stack)
    requires WellFormed(v) && IsContainer(v)
    ensures Print(v) == [OpenerOf(v)] + Body(v) + [CloserOf(OpenerOf(v))]
    ensures var s := Active(stack, Outside);
            && Run(s, [OpenerOf(v)] + Body(v)) == Active(Owe(CloserOf(OpenerOf(v)), stack), Outside)
            && Run(s, Print(v)) == if stack.Bottom? then Matched else s
    decreases v, 0
  {
    hide Run, WellFormedItems, WellFormedMembers, PrintItems, PrintMembers;
    var (s, c) := (Active(stack, Outside), CloserOf(OpenerOf(v)));
    var inside := Owe(c, stack);
    InertIsNeutral(inside, v.lead);
    if v.Array? {
      ItemsAreNeutral(v.items, inside);
      NeutralAppend(inside, v.lead, PrintItems(v.items));
    } else {
      MembersAreNeutral(v.members, inside);
      NeutralAppend(inside, v.lead, PrintMembers(v.members));
    }
    RunCons(s, OpenerOf(v), Body(v));
    RunAppend(s, [OpenerOf(v)] + Body(v), [c]);
    RunOne(Active(inside, Outside), c);
  }

  lemma {:induction false} ItemsAreNeutral(items: seq<Item>, stack: Stack)
    requires WellFormedItems(items) && stack.Owe?
    ensures Neutral(stack, PrintItems(items))
    decreases items, 0
  {
    if items != [] {
      var i := items[0];
      InertIsNeutral(stack, i.before);
      PrintedIsNeutral(i.value, stack);
      InertIsNeutral(stack, i.after);
      var sep := if |items| == 1 then "" else ",";
      InertIsNeutral(stack, sep);
      ItemsAreNeutral(items[1..], stack);
      NeutralAppend(stack, i.before, Print(i.value));
      NeutralAppend(stack, i.before + Print(i.value), i.after);
      NeutralAppend(stack, i.before + Print(i.value) + i.after, sep);
      NeutralAppend(stack, i.before + Print(i.value) + i.after + sep, PrintItems(items[1..]));
    }
  }

  lemma {:induction false} MembersAreNeutral(members: seq<Member>, stack: Stack)
    requires WellFormedMembers(members) && stack.Owe?
    ensures Neutral(stack, PrintMembers(members))
    decreases members, 0
  {
    if members != [] {
      hide Neutral, Print, PrintText, WellFormed, WellFormedText;
      var m := members[0];
      InertIsNeutral(stack, m.before);
      TextIsNeutral(stack, m.key);
      InertIsNeutral(stack, Colon(m));
      PrintedIsNeutral(m.value, stack);
      InertIsNeutral(stack, m.after);
      var sep := if |members| == 1 then "" else ",";
      InertIsNeutral(stack, sep);
      MembersAreNeutral(members[1..], stack);
      var a := m.before + PrintText(m.key);
      NeutralAppend(stack, m.before, PrintText(m.key));
      NeutralAppend(stack, a, Colon(m));
      NeutralAppend(stack, a + Colon(m), Print(m.value));
      NeutralAppend(stack, a + Colon(m) + Print(m.value), m.after);
      NeutralAppend(stack, a + Colon(m) + Print(m.value) + m.after, sep);
      NeutralAppend(stack, a + Colon(m) + Print(m.value) + m.after + sep, PrintMembers(members[1..]));
    }
  }

  /** Wherever a printed container stands, the matcher started on its first
      character stops on its last. */
  lemma MatcherSpansPrinted(prefix: string, v: Json, suffix: string)
    requires WellFormed(v) && IsContainer(v)
    ensures MatchEnd(prefix + Print(v) + suffix, |prefix|) == Some(|prefix| + |Print(v)| - 1)
  {
    hide Run, Print, WellFormed, Body;
    var text := prefix + Print(v) + suffix;
    var (start, e) := (|prefix|, |prefix| + |Print(v)| - 1);
    ContainerRun(v, Bottom);
    assert text[start..e + 1] == Print(v);
    assert text[start..e] == [OpenerOf(v)] + Body(v);
    assert At(text, start, e + 1) == Matched && At(text, start, e).Active?;
    VerdictFromStart(text, start);
    SettlesOnce(text, start, e, VerdictFrom(START, text, start));
  }

  lemma SettlesOnce(text: string, start: nat, e: nat, v: Verdict)
    requires start <= e < |text| && VerdictHolds(v, text, start)
    requires At(text, start, e).Active? && At(text, start, e + 1) == Matched
    ensures v == Closed(e)
  {
    assert !v.Unfinished?;
    var at := if v.Closed? then v.end else v.at;
    assert at <= e;
    if at < e { AtSettled(text, start, at + 1, e); }
  }
}
