/** The rolling summary: which messages a summary is made of, and that over time
    each is summarised exactly once. */
module Summaries {
  import opened Common
  import opened TimelineStore
  import opened TimelineInvariants
  import opened TimelineOrder
  import opened RowSlices

  datatype Config = Config(maxRecent: nat, trigger: nat, batch: nat)

  /** `_build_candidate`. */
  function Candidates(st: Store, session: Id, cfg: Config): seq<Row> {
    var chat := Chat(st, session);
    var recent := Recent(chat, cfg.maxRecent);
    if recent == [] then []
    else
      var before := LoadBefore(chat, recent[0].at);
      var current := CurrentSummary(st, session);
      if current.Some? then KeepAfter(before, current.value.to) else before
  }

  /** `ConversationSummarizer.summarize`. `compressed` is what the model made of
      the candidates, None when compression failed. */
  function Summarize(
    st: Store, session: Id, cfg: Config, model: bool, compressed: Option<string>, id: Id): Result<Store, DbError>
  {
    if session !in st.sessions then Err(NoSession)
    else if |Chat(st, session)| <= cfg.trigger || !model then Ok(st)
    else
      var candidates := Candidates(st, session, cfg);
      if |candidates| < cfg.batch || candidates == [] || compressed.None? then Ok(st)
      else UpdateSummary(st, session, id, candidates[|candidates| - 1].at, compressed.value, Ids(candidates))
  }

  /** The messages already behind a summary, and those in the recent window. */
  function Covered(st: Store, session: Id): seq<Row> {
    Between(Chat(st, session), 1, CoveredTo(st, session))
  }

  function Window(st: Store, session: Id, cfg: Config): seq<Row> {
    Recent(Chat(st, session), cfg.maxRecent)
  }

  /** No summary reaches into the recent window. */
  predicate WindowKept(st: Store, session: Id, cfg: Config) {
    var window := Window(st, session, cfg);
    window == [] || CoveredTo(st, session) < window[0].at
  }

  /** Ids handed to the compressor so far, in order. */
  function AllSources(chain: seq<Summary>): seq<Id> {
    if chain == [] then [] else AllSources(chain[..|chain| - 1]) + chain[|chain| - 1].sources
  }

  /** The summaries were made of exactly the messages they cover. */
  predicate SourcesMatch(st: Store, session: Id) {
    AllSources(Chain(st, session)) == Ids(Covered(st, session))
  }

  // ---------- Chat rows ----------

  lemma ChatRowsSnoc(rows: seq<Row>, r: Row, session: Id)
    ensures ChatRows(rows + [r], session)
         == if IsChat(r, session) then ChatRows(rows, session) + [r] else ChatRows(rows, session)
  {
    assert (rows + [r])[..|rows|] == rows;
  }

  lemma {:induction false} ChatRowsIn(rows: seq<Row>, session: Id)
    ensures forall x :: x in ChatRows(rows, session) <==> x in rows && IsChat(x, session)
  {
    if rows != [] {
      hide IsChat;
      var rest, r := Unsnoc(rows);
      ChatRowsIn(rest, session);
      ChatRowsSnoc(rest, r, session);
    }
  }

  lemma {:induction false} ChatRowsDistinct(rows: seq<Row>, session: Id)
    requires DistinctSlots(rows)
    ensures DistinctAts(ChatRows(rows, session))
  {
    if rows != [] {
      var (rest, r) := (rows[..|rows| - 1], rows[|rows| - 1]);
      assert forall i, j | 0 <= i < j < |rest| && rest[i].session == rest[j].session ::
          rest[i] == rows[i] && rest[j] == rows[j];
      ChatRowsDistinct(rest, session);
      ChatRowsIn(rest, session);
      forall x | x in ChatRows(rest, session) && r.session == session ensures x.at != r.at {
        var i :| 0 <= i < |rest| && rest[i] == x;
        assert rows[i] == x && rows[|rest|] == r;
      }
      DistinctAtsSnoc(ChatRows(rest, session), r);
    }
  }

  predicate AllWithin(rows: seq<Row>, top: int) {
    forall x | x in rows :: 1 <= x.at <= top
  }

  /** The completed chat messages come in strictly increasing seq, all counted. */
  lemma ChatOk(st: Store, session: Id)
    requires Valid(st) && session in st.sessions
    ensures var chat := Chat(st, session);
            && Ascending(chat)
            && (forall x :: x in chat <==> x in st.messages && IsChat(x, session))
            && AllWithin(chat, st.sessions[session].next - 1)
  {
    ChatRowsIn(st.messages, session);
    ChatRowsDistinct(st.messages, session);
    OrderedSorts(ChatRows(st.messages, session));
    OrderedIn(ChatRows(st.messages, session));
    hide ChatRows, Ordered, DistinctSlots, DistinctIds, SummariesOk, Ascending, DistinctAts, EventsOk;
  }

  // ---------- Covered, candidate, recent ----------

  lemma ChainEnd(chain: seq<Summary>, s: Session)
    requires ChainOk(chain, s) && s.next >= 1
    ensures chain != [] ==> 1 <= chain[|chain| - 1].to < s.next
  {
    if chain != [] { ChainStarts(chain, s, |chain| - 1); }
  }

  lemma {:induction false} ChainStarts(chain: seq<Summary>, s: Session, i: nat)
    requires ChainOk(chain, s) && i < |chain|
    ensures 1 <= chain[i].from <= chain[i].to < s.next && (i == 0 ==> chain[i].from == 1)
  {
    if i > 0 {
      ChainStarts(chain, s, i - 1);
      assert chain[i].from == chain[i - 1].to + 1;
    }
  }

  lemma CoveredInRange(st: Store, session: Id)
    requires Valid(st) && session in st.sessions
    ensures 0 <= CoveredTo(st, session) < st.sessions[session].next
  {
    hide Valid, SummariesOf, CurrentSummary, CoveredTo, ChainOk;
    ChainOfSession(st, session);
    CoveredToIsChainEnd(st, session);
    ChainEnd(Chain(st, session), st.sessions[session]);
  }

  lemma ChainOfSession(st: Store, session: Id)
    requires Valid(st) && session in st.sessions
    ensures st.sessions[session].next >= 1 && ChainOk(Chain(st, session), st.sessions[session])
    ensures SummariesOk(st.summaries, st.sessions)
  {
    hide MessagesOk, EventsOk, RunsOk, DistinctSummaries, SummariesOf, ChainOk;
  }

  predicate Covers(z: Summary, n: int) { z.from <= n <= z.to }

  lemma {:induction false} ChainCovers(chain: seq<Summary>, s: Session, n: int)
    requires ChainOk(chain, s) && chain != [] && 1 <= n <= chain[|chain| - 1].to
    ensures exists i :: 0 <= i < |chain| && Covers(chain[i], n)
  {
    var last := chain[|chain| - 1];
    ChainStarts(chain, s, 0);
    if last.from <= n || |chain| == 1 {
      assert Covers(last, n);
    } else {
      var rest := chain[..|chain| - 1];
      assert last.from == chain[|chain| - 2].to + 1;
      ChainCovers(rest, s.(current := Some(rest[|rest| - 1].id)), n);
      var i :| 0 <= i < |rest| && Covers(rest[i], n);
      assert rest[i] == chain[i];
    }
  }

  lemma {:induction false} LinksAscend(chain: seq<Summary>, s: Session, i: nat, j: nat)
    requires ChainOk(chain, s) && i < j < |chain|
    ensures chain[i].to < chain[j].from
  {
    assert chain[j].from == chain[j - 1].to + 1;
    if i < j - 1 { LinksAscend(chain, s, i, j - 1); }
  }

  /** The summaries of a session partition the seqs from 1 to its covered end,
      which lies below the counter. */
  lemma CoveredOnce(st: Store, session: Id, n: int)
    requires Valid(st) && session in st.sessions
    ensures var chain := Chain(st, session);
            && ((exists i :: 0 <= i < |chain| && Covers(chain[i], n)) <==> 1 <= n <= CoveredTo(st, session))
            && (forall i, j | 0 <= i < j < |chain| && Covers(chain[i], n) :: !Covers(chain[j], n))
            && CoveredTo(st, session) < st.sessions[session].next
  {
    hide Valid, SummariesOf, CurrentSummary, CoveredTo, ChainOk;
    ChainOfSession(st, session);
    CoveredToIsChainEnd(st, session);
    CoveredInRange(st, session);
    var (chain, s) := (Chain(st, session), st.sessions[session]);
    if chain != [] && 1 <= n <= CoveredTo(st, session) { ChainCovers(chain, s, n); }
    forall i, j | 0 <= i < j < |chain| ensures chain[i].to < chain[j].from { LinksAscend(chain, s, i, j); }
    forall i | 0 <= i < |chain| && Covers(chain[i], n) ensures 1 <= n <= CoveredTo(st, session) {
      ChainStarts(chain, s, i);
      ChainStarts(chain, s, |chain| - 1);
      if i < |chain| - 1 { LinksAscend(chain, s, i, |chain| - 1); }
    }
  }

  /** Candidates are the chat rows after the covered prefix and before the window. */
  lemma CandidatesAre(st: Store, session: Id, cfg: Config)
    requires Valid(st) && session in st.sessions && Window(st, session, cfg) != []
    ensures Candidates(st, session, cfg)
         == Between(Chat(st, session), CoveredTo(st, session) + 1, Window(st, session, cfg)[0].at - 1)
  {
    hide Valid, Ascending, Recent, Between, KeepAfter, Chat, CurrentSummary;
    var (chat, covered, start) := (Chat(st, session), CoveredTo(st, session), Window(st, session, cfg)[0].at);
    ChatOk(st, session);
    CoveredInRange(st, session);
    if start <= 1 {
      BetweenNone(chat, covered + 1, start - 1);
      KeepAfterNone(covered);
    } else {
      KeepAfterBetween(chat, 1, start - 1, covered);
      if CurrentSummary(st, session).None? { assert covered == 0; }
    }
  }

  lemma KeepAfterNone(covered: int)
    ensures KeepAfter([], covered) == []
  {
  }

  /** Prefix, middle and window of a list make the list unless prefix and window overlap. */
  lemma Partition(chat: seq<Row>, covered: int, limit: nat, top: int)
    requires Ascending(chat) && AllWithin(chat, top) && 0 <= covered <= top && limit > 0 && chat != []
    ensures var window := Recent(chat, limit);
            && window != []
            && (covered < window[0].at <==>
                  chat == Between(chat, 1, covered) + Between(chat, covered + 1, window[0].at - 1) + window)
  {
    hide Between, Ascending, Recent;
    RecentIsRange(chat, limit, top);
    var window := Recent(chat, limit);
    if covered < window[0].at {
      SplitAt(chat, 1, covered, top);
      SplitAt(chat, covered + 1, window[0].at - 1, top);
      BetweenAll(chat, 1, top);
      Regroup(Between(chat, 1, covered), Between(chat, covered + 1, window[0].at - 1), window);
    } else {
      Overlap(chat, covered, limit);
    }
  }

  lemma Regroup(a: seq<Row>, b: seq<Row>, c: seq<Row>)
    ensures a + (b + c) == a + b + c
  {
  }

  /** A prefix that reaches the window shares a row with it. */
  lemma Overlap(chat: seq<Row>, covered: int, limit: nat)
    requires Ascending(chat) && limit > 0 && chat != [] && (forall x | x in chat :: x.at >= 1)
    requires Recent(chat, limit)[0].at <= covered
    ensures |Between(chat, 1, covered)| + |Recent(chat, limit)| > |chat|
  {
    var k := |chat| - |Recent(chat, limit)|;
    var (low, high) := (chat[..k + 1], chat[k + 1..]);
    assert chat == low + high && chat[k] == Recent(chat, limit)[0];
    LowRows(chat, k, covered);
    hide Between, Ascending;
    BetweenAppend(low, high, 1, covered);
    BetweenAll(low, 1, covered);
  }

  lemma LowRows(chat: seq<Row>, k: nat, covered: int)
    requires Ascending(chat) && k < |chat| && chat[k].at <= covered
    ensures forall x | x in chat[..k + 1] :: x in chat && x.at <= covered
  {
  }

  /** The covered prefix, the candidates and the recent window, in this order, are
      the session's whole chat, each message once, exactly when no summary
      reaches into the window. */
  lemma ChatIsPartitioned(st: Store, session: Id, cfg: Config)
    requires Valid(st) && session in st.sessions && cfg.maxRecent > 0
    ensures WindowKept(st, session, cfg)
       <==> Chat(st, session) == Covered(st, session) + Candidates(st, session, cfg) + Window(st, session, cfg)
  {
    hide Valid, Ascending, Recent, Between, Candidates, Chat, CoveredTo, AllWithin, Window;
    ChatOk(st, session);
    CoveredInRange(st, session);
    WindowWhen(st, session, cfg);
    if Chat(st, session) != [] {
      Partition(Chat(st, session), CoveredTo(st, session), cfg.maxRecent, st.sessions[session].next - 1);
      CandidatesAre(st, session, cfg);
    } else {
      NothingYet(st, session, cfg);
    }
  }

  lemma WindowWhen(st: Store, session: Id, cfg: Config)
    requires cfg.maxRecent > 0
    ensures Window(st, session, cfg) == [] <==> Chat(st, session) == []
    ensures Window(st, session, cfg) == Recent(Chat(st, session), cfg.maxRecent)
  {
  }

  lemma NothingYet(st: Store, session: Id, cfg: Config)
    requires Chat(st, session) == []
    ensures Covered(st, session) == [] && Candidates(st, session, cfg) == [] && Window(st, session, cfg) == []
  {
    hide Chat, CoveredTo, CurrentSummary;
  }

  // ---------- Each message once ----------

  lemma ChatIdsDistinct(st: Store, session: Id)
    requires Valid(st) && session in st.sessions
    ensures NoRepeats(Ids(Chat(st, session)))
  {
    hide Chat, EventsOk, SummariesOk, DistinctSlots, Counted, Ids;
    var chat := Chat(st, session);
    ChatOk(st, session);
    IdsAt(chat);
    forall i, j | 0 <= i < j < |chat| ensures chat[i].id != chat[j].id {
      assert chat[i] in chat && chat[j] in chat && chat[i].at < chat[j].at;
    }
  }

  lemma AllSourcesSnoc(chain: seq<Summary>, z: Summary)
    ensures AllSources(chain + [z]) == AllSources(chain) + z.sources
  {
    assert (chain + [z])[..|chain|] == chain;
  }

  lemma PartsOfDistinct(a: seq<Id>, b: seq<Id>)
    requires NoRepeats(a + b)
    ensures NoRepeats(a) && NoRepeats(b) && forall x | x in a :: x !in b
  {
    var all := a + b;
    assert forall i | 0 <= i < |a| :: all[i] == a[i];
    assert forall j | 0 <= j < |b| :: all[|a| + j] == b[j];
  }

  lemma {:induction false} SourcesOf(chain: seq<Summary>, i: nat)
    requires i < |chain|
    ensures forall id | id in chain[i].sources :: id in AllSources(chain)
  {
    var rest := chain[..|chain| - 1];
    if i < |rest| { SourcesOf(rest, i); }
  }

  lemma {:induction false} LinksDisjoint(chain: seq<Summary>, i: nat, j: nat)
    requires NoRepeats(AllSources(chain)) && i < j < |chain|
    ensures forall id | id in chain[i].sources :: id !in chain[j].sources
  {
    hide NoRepeats;
    var rest := chain[..|chain| - 1];
    PartsOfDistinct(AllSources(rest), chain[|rest|].sources);
    if j < |rest| { LinksDisjoint(rest, i, j); } else { SourcesOf(rest, i); }
  }

  /** `rows` are the completed messages of the session by user and assistant, each
      once, in the order of their seqs. */
  predicate AreTheTalk(rows: seq<Row>, messages: seq<Row>, session: Id) {
    && Ascending(rows)
    && (forall r | r in rows :: r in messages)
    && forall r | r in messages ::
         r in rows <==>
           && r.session == session && r.body.MessageBody? && r.body.status == Completed
           && (r.body.role == User || r.body.role == Assistant)
  }

  /** Covered prefix, candidates and window together are these messages; the window
      is the last of them, as many as configured. */
  lemma AccountIsComplete(st: Store, session: Id, cfg: Config)
    requires Valid(st) && session in st.sessions && cfg.maxRecent > 0 && WindowKept(st, session, cfg)
    ensures var (window, rows) := (Window(st, session, cfg),
                                   Covered(st, session) + Candidates(st, session, cfg) + Window(st, session, cfg));
            AreTheTalk(rows, st.messages, session)
            && |window| == if |rows| < cfg.maxRecent then |rows| else cfg.maxRecent
  {
    hide Valid, Candidates, Covered, Chat, WindowKept, Ascending, Recent;
    ChatIsPartitioned(st, session, cfg);
    ChatOk(st, session);
    WindowSize(st, session, cfg);
  }

  predicate Settled(st: Store, session: Id, cfg: Config) {
    SourcesMatch(st, session) && WindowKept(st, session, cfg)
  }

  /** What went into summaries so far, then the candidates, then the recent window:
      the completed messages of user and assistant in order, every one once. No
      message went into two summaries. */
  lemma ExactlyOnce(st: Store, session: Id, cfg: Config)
    requires Valid(st) && session in st.sessions && cfg.maxRecent > 0 && Settled(st, session, cfg)
    ensures var (chain, covered) := (Chain(st, session), Covered(st, session));
            var rows := covered + Candidates(st, session, cfg) + Window(st, session, cfg);
            && AreTheTalk(rows, st.messages, session) && NoRepeats(Ids(rows))
            && AllSources(chain) + Ids(Candidates(st, session, cfg)) + Ids(Window(st, session, cfg)) == Ids(rows)
            && forall i, j, id | 0 <= i < j < |chain| && id in chain[i].sources :: id !in chain[j].sources
  {
    var (a, b, c) := (Covered(st, session), Candidates(st, session, cfg), Window(st, session, cfg));
    assert AllSources(Chain(st, session)) == Ids(a);
    hide Valid, Candidates, Window, Covered, Chat, Ids, AllSources, NoRepeats, SourcesMatch, Chain, WindowKept;
    hide AreTheTalk;
    AccountIsComplete(st, session, cfg);
    ChatIsPartitioned(st, session, cfg);
    ChatIdsDistinct(st, session);
    IdsAppend(a + b, c);
    IdsAppend(a, b);
    var chain := Chain(st, session);
    PartsOfDistinct(AllSources(chain) + Ids(b), Ids(c));
    PartsOfDistinct(AllSources(chain), Ids(b));
    forall i, j, id | 0 <= i < j < |chain| && id in chain[i].sources ensures id !in chain[j].sources {
      LinksDisjoint(chain, i, j);
    }
  }

  // ---------- A new summary ----------

  lemma UpdateCommits(st: Store, session: Id, id: Id, coveredTo: int, content: string, sources: seq<Id>)
    requires UpdateSummary(st, session, id, coveredTo, content, sources).Ok? && !HasSummary(st.summaries, id)
    ensures var z := Summary(id, session, CoveredTo(st, session) + 1, coveredTo, content, sources);
            var after := UpdateSummary(st, session, id, coveredTo, content, sources).value;
            && session in st.sessions && session in after.sessions
            && after.messages == st.messages && after.summaries == st.summaries + [z]
            && CoveredTo(st, session) < coveredTo < st.sessions[session].next
  {
    hide CoveredTo, HasSummary;
  }

  lemma UpdateShape(st: Store, session: Id, id: Id, coveredTo: int, content: string, sources: seq<Id>)
    requires Valid(st)
    requires UpdateSummary(st, session, id, coveredTo, content, sources).Ok? && !HasSummary(st.summaries, id)
    ensures var z := Summary(id, session, CoveredTo(st, session) + 1, coveredTo, content, sources);
            var after := UpdateSummary(st, session, id, coveredTo, content, sources).value;
            && Valid(after) && after.messages == st.messages
            && Chain(after, session) == Chain(st, session) + [z] && CoveredTo(after, session) == coveredTo
            && CoveredTo(st, session) < coveredTo < st.sessions[session].next
  {
    hide Valid, CoveredTo, SummariesOf, HasSummary, UpdateSummary, SummariesOk;
    var z := Summary(id, session, CoveredTo(st, session) + 1, coveredTo, content, sources);
    var after := UpdateSummary(st, session, id, coveredTo, content, sources).value;
    UpdateCommits(st, session, id, coveredTo, content, sources);
    KeepsUpdateSummary(st, session, id, coveredTo, content, sources);
    SummariesOfAppend(st.summaries, z, session);
    ChainsOfValid(after);
    CoveredToIsChainEnd(after, session);
  }

  lemma ChainsOfValid(st: Store)
    requires Valid(st)
    ensures SummariesOk(st.summaries, st.sessions)
  {
  }

  lemma SamePrefix(a: seq<Id>, b: seq<Id>, c: seq<Id>)
    ensures a + b == a + c <==> b == c
  {
    assert (a + b)[|a|..] == b && (a + c)[|a|..] == c;
  }

  lemma BoundaryMoves(chat: seq<Row>, covered: int, coveredTo: int, past: seq<Id>, sources: seq<Id>)
    requires Ascending(chat) && 0 <= covered < coveredTo && past == Ids(Between(chat, 1, covered))
    ensures past + sources == Ids(Between(chat, 1, coveredTo))
       <==> sources == Ids(Between(chat, covered + 1, coveredTo))
  {
    hide Between, Ascending, Ids;
    SplitAt(chat, 1, covered, coveredTo);
    IdsAppend(Between(chat, 1, covered), Between(chat, covered + 1, coveredTo));
    SamePrefix(past, sources, Ids(Between(chat, covered + 1, coveredTo)));
  }

  /** A summary keeps the account straight exactly when it was made of the chat
      rows between the old and the new boundary. */
  lemma UpdateKeepsSources(st: Store, session: Id, id: Id, coveredTo: int, content: string, sources: seq<Id>)
    requires Valid(st) && SourcesMatch(st, session)
    requires UpdateSummary(st, session, id, coveredTo, content, sources).Ok? && !HasSummary(st.summaries, id)
    ensures SourcesMatch(UpdateSummary(st, session, id, coveredTo, content, sources).value, session)
       <==> sources == Ids(Between(Chat(st, session), CoveredTo(st, session) + 1, coveredTo))
  {
    hide Valid, CoveredTo, Between, Chain, UpdateSummary, Ids, Chat, AllSources, HasSummary, Ascending;
    UpdateShape(st, session, id, coveredTo, content, sources);
    KeepsSession(st, session, id, coveredTo, content, sources);
    CoveredInRange(st, session);
    ChatOk(st, session);
    SameMessagesSameChat(st, UpdateSummary(st, session, id, coveredTo, content, sources).value, session);
    AllSourcesSnoc(Chain(st, session), Summary(id, session, CoveredTo(st, session) + 1, coveredTo, content, sources));
    BoundaryMoves(Chat(st, session), CoveredTo(st, session), coveredTo, AllSources(Chain(st, session)), sources);
  }

  lemma SameMessagesSameChat(st: Store, after: Store, session: Id)
    requires st.messages == after.messages
    ensures Chat(st, session) == Chat(after, session)
  {
  }

  lemma SameLast(x: seq<Row>, y: seq<Row>)
    ensures y != [] ==> (x + y)[|x + y| - 1] == y[|y| - 1] && y[|y| - 1] in y
  {
  }

  /** A range of an ascending list ends at its last row. */
  lemma BetweenLast(rows: seq<Row>, a: int, b: int)
    requires Ascending(rows) && Between(rows, a, b) != []
    ensures var part := Between(rows, a, b);
            var last := part[|part| - 1];
            && a <= last.at <= b && last in rows
            && part == Between(rows, a, last.at)
            && Between(rows, last.at + 1, b) == []
  {
    var part := Between(rows, a, b);
    var last := part[|part| - 1];
    hide *;
    BetweenEnd(rows, a, b);
    SplitAt(rows, a, last.at, b);
    var late := Between(rows, last.at + 1, b);
    if late != [] { BetweenEnd(rows, last.at + 1, b); }
    NothingLate(part, Between(rows, a, last.at), late);
  }

  lemma NothingLate(part: seq<Row>, x: seq<Row>, late: seq<Row>)
    requires part != [] && part == x + late
    requires late != [] ==> late[|late| - 1].at > part[|part| - 1].at
    ensures late == [] && part == x
  {
    SameLast(x, late);
  }

  lemma BetweenEnd(rows: seq<Row>, a: int, b: int)
    requires Between(rows, a, b) != []
    ensures var part := Between(rows, a, b); part[|part| - 1] in rows && a <= part[|part| - 1].at <= b
  {
    var part := Between(rows, a, b);
    BetweenIn(rows, a, b);
    hide Between;
    assert part[|part| - 1] in part;
  }

  // ---------- One round of the summarizer ----------

  /** The round reaches the compressor and gets a text back. */
  predicate Compresses(st: Store, session: Id, cfg: Config, model: bool, compressed: Option<string>) {
    var n := |Candidates(st, session, cfg)|;
    |Chat(st, session)| > cfg.trigger && model && compressed.Some? && n >= cfg.batch && n > 0
  }

  lemma {:induction false} BetweenSize(rows: seq<Row>, a: int, b: int)
    ensures |Between(rows, a, b)| <= |rows|
  {
    if rows != [] { BetweenSize(rows[..|rows| - 1], a, b); }
  }

  lemma CandidatesNeedWindow(st: Store, session: Id, cfg: Config)
    ensures Candidates(st, session, cfg) != [] ==> Window(st, session, cfg) != []
  {
    hide Chat, LoadBefore, KeepAfter, CurrentSummary, Recent;
  }

  /** Candidates end past the covered prefix and before the window, and are all
      of the chat in between. */
  lemma CandidatesEnd(st: Store, session: Id, cfg: Config)
    requires Valid(st) && session in st.sessions && Candidates(st, session, cfg) != []
    ensures var candidates := Candidates(st, session, cfg);
            var last := candidates[|candidates| - 1].at;
            var window := Window(st, session, cfg);
            && window != []
            && CoveredTo(st, session) < last < st.sessions[session].next && last < window[0].at
            && candidates == Between(Chat(st, session), CoveredTo(st, session) + 1, last)
            && Between(Chat(st, session), last + 1, window[0].at - 1) == []
  {
    hide Valid, Candidates, Window, Between, Ascending, Chat, CoveredTo;
    CandidatesNeedWindow(st, session, cfg);
    CandidatesAre(st, session, cfg);
    ChatOk(st, session);
    BetweenLast(Chat(st, session), CoveredTo(st, session) + 1, Window(st, session, cfg)[0].at - 1);
  }

  /** A round that compresses cannot be refused by the repository, and covers
      exactly up to its last candidate. */
  lemma SummarizeShape(st: Store, session: Id, cfg: Config, model: bool, compressed: Option<string>, id: Id)
    requires Valid(st) && session in st.sessions && Compresses(st, session, cfg, model, compressed)
    ensures var candidates := Candidates(st, session, cfg);
            var last := candidates[|candidates| - 1].at;
            var r := UpdateSummary(st, session, id, last, compressed.value, Ids(candidates));
            && Summarize(st, session, cfg, model, compressed, id) == r && r.Ok?
            && Ids(candidates) == Ids(Between(Chat(st, session), CoveredTo(st, session) + 1, last))
  {
    hide Valid, Candidates, Window, Between, Ids, Chat, CoveredTo, UpdateSummary, Compresses, Summarize;
    Compressing(st, session, cfg, model, compressed, id);
    CandidatesEnd(st, session, cfg);
    var candidates := Candidates(st, session, cfg);
    InReach(st, session, id, candidates[|candidates| - 1].at, compressed.value, Ids(candidates));
  }

  lemma Compressing(st: Store, session: Id, cfg: Config, model: bool, compressed: Option<string>, id: Id)
    requires session in st.sessions && Compresses(st, session, cfg, model, compressed)
    ensures var candidates := Candidates(st, session, cfg);
            && candidates != [] && compressed.Some?
            && Summarize(st, session, cfg, model, compressed, id)
               == UpdateSummary(st, session, id, candidates[|candidates| - 1].at, compressed.value, Ids(candidates))
  {
    hide Candidates, Ids, Chat, UpdateSummary;
  }

  lemma InReach(st: Store, session: Id, id: Id, coveredTo: int, content: string, sources: seq<Id>)
    requires session in st.sessions && CoveredTo(st, session) < coveredTo < st.sessions[session].next
    ensures UpdateSummary(st, session, id, coveredTo, content, sources).Ok?
  {
    hide CoveredTo, HasSummary;
  }

  /** Every round succeeds and keeps the account straight. */
  lemma SummarizeKeepsSettled(st: Store, session: Id, cfg: Config, model: bool, compressed: Option<string>, id: Id)
    requires Valid(st) && session in st.sessions && Settled(st, session, cfg)
    ensures var r := Summarize(st, session, cfg, model, compressed, id);
            r.Ok? && Valid(r.value) && Settled(r.value, session, cfg)
  {
    hide Valid, Candidates, Window, Between, Ids, Chat, CoveredTo, HasSummary, SourcesMatch, UpdateSummary;
    if Compresses(st, session, cfg, model, compressed) {
      SummarizeShape(st, session, cfg, model, compressed, id);
      var candidates := Candidates(st, session, cfg);
      var last := candidates[|candidates| - 1].at;
      var after := UpdateSummary(st, session, id, last, compressed.value, Ids(candidates)).value;
      if HasSummary(st.summaries, id) {
        KnownSummary(st, session, id, last, compressed.value, Ids(candidates));
      } else {
        UpdateShape(st, session, id, last, compressed.value, Ids(candidates));
        UpdateKeepsSources(st, session, id, last, compressed.value, Ids(candidates));
        CandidatesEnd(st, session, cfg);
        SameMessagesSameWindow(st, after, session, cfg);
      }
    } else {
      IdleRound(st, session, cfg, model, compressed, id);
    }
  }

  lemma IdleRound(st: Store, session: Id, cfg: Config, model: bool, compressed: Option<string>, id: Id)
    requires session in st.sessions && !Compresses(st, session, cfg, model, compressed)
    ensures Summarize(st, session, cfg, model, compressed, id) == Ok(st)
  {
    hide Candidates, Chat;
  }

  lemma KnownSummary(st: Store, session: Id, id: Id, coveredTo: int, content: string, sources: seq<Id>)
    requires HasSummary(st.summaries, id) && UpdateSummary(st, session, id, coveredTo, content, sources).Ok?
    ensures UpdateSummary(st, session, id, coveredTo, content, sources) == Ok(st)
  {
    hide HasSummary, CoveredTo;
  }

  lemma SameMessagesSameWindow(st: Store, after: Store, session: Id, cfg: Config)
    requires st.messages == after.messages
    ensures Window(st, session, cfg) == Window(after, session, cfg)
    ensures Chat(st, session) == Chat(after, session)
  {
  }

  lemma CandidatesFit(st: Store, session: Id, cfg: Config)
    requires Valid(st) && session in st.sessions && cfg.maxRecent > 0
    ensures |Candidates(st, session, cfg)| + |Window(st, session, cfg)| <= |Chat(st, session)|
  {
    var (chat, window, covered) := (Chat(st, session), Window(st, session, cfg), CoveredTo(st, session));
    hide Valid, Candidates, Window, Between, Chat, CoveredTo, AllWithin, Ascending, Recent;
    WindowWhen(st, session, cfg);
    if window == [] {
      NothingYet(st, session, cfg);
    } else {
      CandidatesAre(st, session, cfg);
      ChatOk(st, session);
      var top := st.sessions[session].next - 1;
      TailOfChat(chat, cfg.maxRecent, covered, top);
    }
  }

  lemma TailOfChat(chat: seq<Row>, limit: nat, covered: int, top: int)
    requires Ascending(chat) && AllWithin(chat, top) && limit > 0 && chat != []
    ensures var window := Recent(chat, limit);
            window != [] && |Between(chat, covered + 1, window[0].at - 1)| + |window| <= |chat|
  {
    hide Between, Ascending, Recent;
    RecentIsRange(chat, limit, top);
    var window := Recent(chat, limit);
    if covered + 1 <= window[0].at {
      SplitAt(chat, covered + 1, window[0].at - 1, top);
      BetweenSize(chat, covered + 1, top);
    } else {
      BetweenNone(chat, covered + 1, window[0].at - 1);
      BetweenSize(chat, window[0].at, top);
    }
  }

  function Max(a: int, b: int): int { if a >= b then a else b }

  /** After a round with a working model, at most this many messages are neither
      summarised nor in the recent window. */
  lemma GapBound(st: Store, session: Id, cfg: Config, compressed: Option<string>, id: Id)
    requires Valid(st) && session in st.sessions && cfg.maxRecent > 0
    requires compressed.Some? && !HasSummary(st.summaries, id)
    ensures var r := Summarize(st, session, cfg, true, compressed, id);
            r.Ok? && |Candidates(r.value, session, cfg)| <= Max(0, Max(cfg.batch - 1, cfg.trigger - cfg.maxRecent))
  {
    hide Valid, Candidates, Window, Between, Ids, Chat, CoveredTo, HasSummary, UpdateSummary, Recent, Summarize;
    var candidates := Candidates(st, session, cfg);
    if Compresses(st, session, cfg, true, compressed) {
      SummarizeShape(st, session, cfg, true, compressed, id);
      var last := candidates[|candidates| - 1].at;
      var after := UpdateSummary(st, session, id, last, compressed.value, Ids(candidates)).value;
      UpdateShape(st, session, id, last, compressed.value, Ids(candidates));
      CandidatesEnd(st, session, cfg);
      SameMessagesSameWindow(st, after, session, cfg);
      KeepsSession(st, session, id, last, compressed.value, Ids(candidates));
      CandidatesAre(after, session, cfg);
    } else {
      IdleRound(st, session, cfg, true, compressed, id);
      CandidatesFit(st, session, cfg);
      WindowSize(st, session, cfg);
    }
  }

  lemma KeepsSession(st: Store, session: Id, id: Id, coveredTo: int, content: string, sources: seq<Id>)
    requires UpdateSummary(st, session, id, coveredTo, content, sources).Ok?
    ensures session in st.sessions
    ensures UpdateSummary(st, session, id, coveredTo, content, sources).value.sessions.Keys == st.sessions.Keys
  {
    hide CoveredTo, HasSummary;
  }

  lemma WindowSize(st: Store, session: Id, cfg: Config)
    ensures |Window(st, session, cfg)|
         == if |Chat(st, session)| < cfg.maxRecent then |Chat(st, session)| else cfg.maxRecent
  {
    hide Chat;
  }
}
