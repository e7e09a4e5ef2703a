/** Over whole runs each chat message is summarised exactly once. */
module SummaryRuns {
  import opened Common
  import opened TimelineStore
  import opened TimelineInvariants
  import opened TimelineOrder
  import opened RowSlices
  import opened Summaries
  import opened TimelineRuns

  /** The account depends on the session's chat and chain alone. */
  lemma SettledFrame(st: Store, after: Store, k: Id, cfg: Config)
    requires Valid(st) && Valid(after) && k in st.sessions && k in after.sessions
    requires Chat(st, k) == Chat(after, k) && Chain(st, k) == Chain(after, k) && Settled(st, k, cfg)
    ensures Settled(after, k, cfg)
  {
    hide Valid, Chat, Chain, CoveredTo, Between, Ids, AllSources, Recent;
    SameCovered(st, after, k);
  }

  lemma SameCovered(st: Store, after: Store, k: Id)
    requires Valid(st) && Valid(after) && k in st.sessions && k in after.sessions && Chain(st, k) == Chain(after, k)
    ensures CoveredTo(st, k) == CoveredTo(after, k)
  {
    hide Valid, Chain, CoveredTo, SummariesOk, ChainOk;
    ChainOfSession(st, k);
    ChainOfSession(after, k);
    CoveredToIsChainEnd(st, k);
    CoveredToIsChainEnd(after, k);
  }

  lemma {:induction false} NoChatRows(rows: seq<Row>, session: Id)
    requires forall m | m in rows :: !IsChat(m, session)
    ensures ChatRows(rows, session) == []
  {
    hide IsChat;
    if rows != [] { NoChatRows(rows[..|rows| - 1], session); }
  }

  lemma NewSessionSettled(st: Store, k: Id, cfg: Config)
    requires Valid(st) && k !in st.sessions
    ensures Settled(EnsureSession(st, k), k, cfg)
  {
    var after := EnsureSession(st, k);
    NoChatRows(st.messages, k);
    NoSummariesOf(st.summaries, k);
    assert Chat(after, k) == [] && Chain(after, k) == [];
    hide Valid, Chat, Chain, CoveredTo;
  }

  // ---------- Insertion ----------

  lemma ChatAfterInsert(st: Store, m: Row, k: Id)
    requires InsertMessage(st, m).Ok? && !HasId(st.messages, m.id) && m.session in st.sessions
    ensures var m' := m.(at := SlotFor(st.sessions[m.session], m.at));
            Chat(InsertMessage(st, m).value, k) == if IsChat(m', k) then InsertOrdered(Chat(st, k), m') else Chat(st, k)
  {
    hide HasId, HasSeq, IsChat, InsertOrdered;
    var m' := m.(at := SlotFor(st.sessions[m.session], m.at));
    ChatRowsSnoc(st.messages, m', k);
    assert (ChatRows(st.messages, k) + [m'])[..|ChatRows(st.messages, k)|] == ChatRows(st.messages, k);
  }

  lemma WindowKeptCounts(chat: seq<Row>, limit: nat, covered: int)
    requires Ascending(chat) && limit > 0
    ensures (Recent(chat, limit) == [] || covered < Recent(chat, limit)[0].at)
       <==> |KeepAfter(chat, covered)| >= if |chat| < limit then |chat| else limit
  {
    hide KeepAfter, Ascending;
    KeepAfterIsTail(chat, covered);
  }

  predicate StaysOut(m: Row, session: Id, at: int, covered: int) {
    IsChat(m.(at := at), session) ==> at > covered
  }

  /** A new message keeps its session's account straight exactly when it is not
      a completed chat message or lies after the covered prefix. */
  lemma InsertKeepsSources(st: Store, m: Row)
    requires Valid(st) && m.body.MessageBody? && m.session in st.sessions && SourcesMatch(st, m.session)
    requires InsertMessage(st, m).Ok? && !HasId(st.messages, m.id)
    ensures SourcesMatch(InsertMessage(st, m).value, m.session)
       <==> StaysOut(m, m.session, SlotFor(st.sessions[m.session], m.at), CoveredTo(st, m.session))
  {
    var after := InsertMessage(st, m).value;
    var k := m.session;
    var m' := m.(at := SlotFor(st.sessions[k], m.at));
    InsertFrame(st, m);
    hide Valid, Chat, Chain, CoveredTo, InsertMessage, InsertOrdered, Between, Ids, IsChat, HasId, AllSources;
    SlotIsFresh(st, k, m.at);
    ChatAfterInsert(st, m, k);
    BetweenInsert(Chat(st, k), m', 1, CoveredTo(st, k));
    IdsAt(Covered(st, k));
    IdsAt(Covered(after, k));
  }

  /** Beside the chat, insertion leaves chain and covered prefix alone. */
  lemma InsertFrame(st: Store, m: Row)
    requires Valid(st) && m.body.MessageBody?
    requires InsertMessage(st, m).Ok? && !HasId(st.messages, m.id)
    ensures m.session in st.sessions && Valid(InsertMessage(st, m).value)
    ensures InsertMessage(st, m).value.sessions.Keys == st.sessions.Keys
    ensures forall k | k in st.sessions ::
              && Chain(InsertMessage(st, m).value, k) == Chain(st, k)
              && CoveredTo(InsertMessage(st, m).value, k) == CoveredTo(st, k)
  {
    hide Valid, HasId, HasSeq, SummariesOf, FindSummary;
    KeepsInsertMessage(st, m);
  }

  lemma InsertKeepsWindow(st: Store, m: Row, cfg: Config)
    requires Valid(st) && m.body.MessageBody? && cfg.maxRecent > 0
    requires InsertMessage(st, m).Ok? && !HasId(st.messages, m.id) && m.session in st.sessions
    requires WindowKept(st, m.session, cfg)
    requires StaysOut(m, m.session, SlotFor(st.sessions[m.session], m.at), CoveredTo(st, m.session))
    ensures WindowKept(InsertMessage(st, m).value, m.session, cfg)
  {
    var after := InsertMessage(st, m).value;
    var k := m.session;
    var m' := m.(at := SlotFor(st.sessions[k], m.at));
    InsertFrame(st, m);
    hide Valid, Chat, Chain, CoveredTo, InsertMessage, InsertOrdered, KeepAfter, IsChat, HasId, Recent, Ascending;
    ChatAfterInsert(st, m, k);
    ChatOk(st, k);
    ChatOk(after, k);
    KeepAfterInsert(Chat(st, k), m', CoveredTo(st, k));
    WindowKeptCounts(Chat(st, k), cfg.maxRecent, CoveredTo(st, k));
    WindowKeptCounts(Chat(after, k), cfg.maxRecent, CoveredTo(st, k));
  }

  // ---------- All sessions ----------

  predicate AllSettled(st: Store, cfg: Config) {
    forall k | k in st.sessions :: Settled(st, k, cfg)
  }

  lemma InsertKeepsSettled(st: Store, m: Row, cfg: Config)
    requires Valid(st) && m.body.MessageBody? && m.at <= 0 && cfg.maxRecent > 0 && AllSettled(st, cfg)
    ensures InsertMessage(st, m).Ok? ==> AllSettled(InsertMessage(st, m).value, cfg)
  {
    hide Valid, HasId, Settled, InsertMessage, Chat, Chain, CoveredTo, IsChat;
    if InsertMessage(st, m).Ok? {
      if HasId(st.messages, m.id) {
        KnownMessage(st, m);
      } else {
        var after := InsertMessage(st, m).value;
        InsertFrame(st, m);
        forall k | k in after.sessions ensures Settled(after, k, cfg) {
          assert Settled(st, k, cfg);
          if k == m.session {
            AllocatedSettles(st, m, cfg);
          } else {
            ChatAfterInsert(st, m, k);
            OtherSession(m, k, SlotFor(st.sessions[m.session], m.at));
            SettledFrame(st, after, k, cfg);
          }
        }
      }
    }
  }

  lemma KnownMessage(st: Store, m: Row)
    requires HasId(st.messages, m.id)
    ensures InsertMessage(st, m) == Ok(st)
  {
  }

  lemma OtherSession(m: Row, k: Id, at: int)
    requires m.session != k
    ensures !IsChat(m.(at := at), k)
  {
  }

  lemma AllocatedSettles(st: Store, m: Row, cfg: Config)
    requires Valid(st) && m.body.MessageBody? && m.at <= 0 && cfg.maxRecent > 0
    requires InsertMessage(st, m).Ok? && !HasId(st.messages, m.id) && m.session in st.sessions
    requires Settled(st, m.session, cfg)
    ensures Settled(InsertMessage(st, m).value, m.session, cfg)
  {
    hide Valid, HasId, InsertMessage, CoveredTo, IsChat, SourcesMatch, WindowKept;
    CoveredInRange(st, m.session);
    InsertKeepsSources(st, m);
    InsertKeepsWindow(st, m, cfg);
  }

  /** Nothing that the accounts depend on has changed. */
  predicate SameAccounts(st: Store, after: Store) {
    after.messages == st.messages && after.summaries == st.summaries && after.sessions.Keys == st.sessions.Keys
  }

  lemma SameAccountsSettled(st: Store, after: Store, cfg: Config)
    requires Valid(st) && Valid(after) && SameAccounts(st, after) && AllSettled(st, cfg)
    ensures AllSettled(after, cfg)
  {
    hide Valid, Settled, ChatRows, Ordered, SummariesOf;
    forall k | k in after.sessions ensures Settled(after, k, cfg) {
      assert k in st.sessions.Keys;
      SettledFrame(st, after, k, cfg);
    }
  }

  lemma EnsureKeepsSettled(st: Store, session: Id, cfg: Config)
    requires Valid(st) && AllSettled(st, cfg)
    ensures AllSettled(EnsureSession(st, session), cfg)
  {
    hide Valid, Settled, ChatRows, Ordered, SummariesOf;
    var after := EnsureSession(st, session);
    KeepsEnsureSession(st, session);
    forall k | k in after.sessions ensures Settled(after, k, cfg) {
      if k in st.sessions { SettledFrame(st, after, k, cfg); } else { NewSessionSettled(st, k, cfg); }
    }
  }

  lemma UserTurnKeepsSettled(st: Store, session: Id, message: Id, run: Id, content: string, cfg: Config)
    requires Valid(st) && AllSettled(st, cfg) && cfg.maxRecent > 0
    ensures var r := CreateUserTurn(st, session, message, run, content); r.Ok? ==> AllSettled(r.value, cfg)
  {
    hide Valid, AllSettled, InsertMessage, HasId;
    var r := CreateUserTurn(st, session, message, run, content);
    if r.Ok? {
      var st1 := EnsureSession(st, session);
      EnsureKeepsSettled(st, session, cfg);
      KeepsEnsureSession(st, session);
      var m := Row(message, session, 0, true, Some(run), MessageBody(User, Completed, content));
      InsertKeepsSettled(st1, m, cfg);
      KeepsInsertMessage(st1, m);
      KeepsCreateUserTurn(st, session, message, run, content);
      SameAccountsSettled(InsertMessage(st1, m).value, r.value, cfg);
    }
  }

  lemma SummarizeKeepsAllSettled(
    st: Store, session: Id, cfg: Config, model: bool, compressed: Option<string>, id: Id)
    requires Valid(st) && AllSettled(st, cfg)
    ensures var r := Summarize(st, session, cfg, model, compressed, id); r.Ok? ==> AllSettled(r.value, cfg)
  {
    hide Valid, Settled, Summarize, Chat, Chain;
    var r := Summarize(st, session, cfg, model, compressed, id);
    if r.Ok? {
      KeepsSummarize(st, session, cfg, model, compressed, id);
      SummarizeFrame(st, session, cfg, model, compressed, id);
      forall k | k in r.value.sessions ensures Settled(r.value, k, cfg) {
        if k == session {
          SummarizeKeepsSettled(st, session, cfg, model, compressed, id);
        } else {
          SameMessagesSameChat(st, r.value, k);
          SettledFrame(st, r.value, k, cfg);
        }
      }
    }
  }

  lemma SummarizeFrame(st: Store, session: Id, cfg: Config, model: bool, compressed: Option<string>, id: Id)
    requires Summarize(st, session, cfg, model, compressed, id).Ok?
    ensures var after := Summarize(st, session, cfg, model, compressed, id).value;
            && session in st.sessions
            && after.messages == st.messages && after.sessions.Keys == st.sessions.Keys
            && forall k | k != session :: Chain(after, k) == Chain(st, k)
  {
    hide Candidates, Chat, CoveredTo, HasSummary, Ids, SummariesOf;
    var after := Summarize(st, session, cfg, model, compressed, id).value;
    if after.summaries != st.summaries {
      var z := after.summaries[|st.summaries|];
      forall k | k != session ensures Chain(after, k) == Chain(st, k) {
        SummariesOfAppend(st.summaries, z, k);
        assert SummariesOf(st.summaries, k) + [] == SummariesOf(st.summaries, k);
      }
    }
  }

  // ---------- Deletion ----------

  lemma RowsWithoutSnoc(rows: seq<Row>, r: Row, session: Id, runs: map<Id, Run>)
    ensures RowsWithout(rows + [r], session, runs)
         == if Survives(r, session, runs) then RowsWithout(rows, session, runs) + [r]
            else RowsWithout(rows, session, runs)
  {
    assert (rows + [r])[..|rows|] == rows;
  }

  lemma {:induction false} ChatSurvives(rows: seq<Row>, session: Id, runs: map<Id, Run>, k: Id)
    requires k != session
    ensures ChatRows(RowsWithout(rows, session, runs), k) == ChatRows(rows, k)
  {
    if rows != [] {
      var rest, r := Unsnoc(rows);
      ChatSurvives(rest, session, runs, k);
      ChatRowsSnoc(rest, r, k);
      RowsWithoutSnoc(rest, r, session, runs);
      ChatRowsSnoc(RowsWithout(rest, session, runs), r, k);
    }
  }

  lemma DeleteKeepsSettled(st: Store, session: Id, cfg: Config)
    requires Valid(st) && AllSettled(st, cfg)
    ensures AllSettled(DeleteSession(st, session), cfg)
  {
    hide Valid, Settled, RowsWithout, SummariesWithout, ChatRows, SummariesOf, Ordered;
    var after := DeleteSession(st, session);
    KeepsDeleteSession(st, session);
    forall k | k in after.sessions ensures Settled(after, k, cfg) {
      ChatSurvives(st.messages, session, after.runs, k);
      SummariesWithoutChain(st.summaries, session, k);
      SettledFrame(st, after, k, cfg);
    }
  }

  // ---------- Runs ----------

  /** The session picks message seqs, and only the summarizer writes summaries.
      Events may still ask for seqs of their own. */
  predicate Automatic(op: Op) {
    !op.Manual? && (op.Append? ==> op.requested <= 0)
  }

  lemma OtherStepsKeepAccounts(st: Store, op: Op, cfg: Config)
    requires op.Record? || op.Complete? || op.Fail? || op.Create? || op.Insert? || op.Update? || op.Interrupt?
    ensures SameAccounts(st, Apply(st, op, cfg))
  {
    hide FindMessage, HasId, HasSeq;
  }

  lemma StepKeepsSettled(st: Store, op: Op, cfg: Config)
    requires Valid(st) && AllSettled(st, cfg) && Automatic(op) && cfg.maxRecent > 0
    ensures AllSettled(Apply(st, op, cfg), cfg)
  {
    hide Valid, AllSettled, SameAccounts, EnsureSession, CreateUserTurn, InsertMessage, InsertEvent, CompleteRun,
      FailRun, Summarize, DeleteSession, CreateRun, InsertRun, UpdateRun, MarkInterrupted;
    match op
    case Ensure(s) => EnsureKeepsSettled(st, s, cfg);
    case UserTurn(s, m, r, c) => UserTurnKeepsSettled(st, s, m, r, c, cfg);
    case Append(s, m, q, v, o, role, status, c) =>
      InsertKeepsSettled(st, MessageRow(op), cfg);
    case Auto(s, z, model, compressed) => SummarizeKeepsAllSettled(st, s, cfg, model, compressed, z);
    case Delete(s) => DeleteKeepsSettled(st, s, cfg);
    case _ =>
      OtherStepsKeepAccounts(st, op, cfg);
      StepKeepsValid(st, op, cfg);
      SameAccountsSettled(st, Apply(st, op, cfg), cfg);
  }

  lemma {:induction false} RunsKeepSettled(ops: seq<Op>, cfg: Config)
    requires cfg.maxRecent > 0 && forall op | op in ops :: Automatic(op)
    ensures AllSettled(RunAll(ops, cfg), cfg)
  {
    if ops != [] {
      hide Valid, Apply, Settled;
      RunsKeepSettled(ops[..|ops| - 1], cfg);
      RunsKeepValid(ops[..|ops| - 1], cfg);
      StepKeepsSettled(RunAll(ops[..|ops| - 1], cfg), ops[|ops| - 1], cfg);
    }
  }

  /** At every moment of every automatic run, the completed messages of user and
      assistant in a session are, in order and each once: those that went into its
      summaries, the pending candidates, the recent window. No message went into
      two summaries. */
  lemma SummarisedExactlyOnce(ops: seq<Op>, cfg: Config, session: Id)
    requires cfg.maxRecent > 0 && forall op | op in ops :: Automatic(op)
    requires session in RunAll(ops, cfg).sessions
    ensures var st := RunAll(ops, cfg);
            var (chain, covered) := (Chain(st, session), Covered(st, session));
            var rows := covered + Candidates(st, session, cfg) + Window(st, session, cfg);
            && AreTheTalk(rows, st.messages, session) && NoRepeats(Ids(rows))
            && AllSources(chain) + Ids(Candidates(st, session, cfg)) + Ids(Window(st, session, cfg)) == Ids(rows)
            && forall i, j, id | 0 <= i < j < |chain| && id in chain[i].sources :: id !in chain[j].sources
  {
    hide Valid, RunAll, Settled, Chain, Covered, Candidates, Window, AllSources, Ids, AreTheTalk, NoRepeats;
    RunsKeepSettled(ops, cfg);
    RunsKeepValid(ops, cfg);
    ExactlyOnce(RunAll(ops, cfg), session, cfg);
  }

  // ---------- Two ways to lose the account ----------

  /** A summary written by hand names no sources, though it covers the question. */
  lemma ManualSummaryLosesSources(cfg: Config)
    ensures !SourcesMatch(RunAll([UserTurn("s", "m", "r", "hi"), Manual("s", "z", 1, "")], cfg), "s")
  {
    hide RunAll, SourcesMatch, Valid, UpdateSummary;
    var (turn, manual) := (UserTurn("s", "m", "r", "hi"), Manual("s", "z", 1, ""));
    AfterUserTurn(cfg);
    RunAllSnoc([turn], manual, cfg);
    assert [turn] + [manual] == [turn, manual];
    RunsKeepValid([turn], cfg);
    QuestionSummarised(RunAll([turn], cfg), Row("m", "s", 1, true, Some("r"), MessageBody(User, Completed, "hi")), "z");
  }

  lemma QuestionSummarised(st: Store, m: Row, id: Id)
    requires Valid(st) && st.messages == [m] && st.summaries == [] && IsChat(m, m.session) && m.at == 1
    requires m.session in st.sessions && st.sessions[m.session] == Session(2, None)
    ensures var r := UpdateSummary(st, m.session, id, 1, "", []); r.Ok? && !SourcesMatch(r.value, m.session)
  {
    hide SourcesMatch, Valid, Chat, CoveredTo, UpdateSummary, Between, Ids, IsChat;
    OneChatRow(st, m);
    UnsummarisedMatches(st, m.session);
    InReach(st, m.session, id, 1, "", []);
    UpdateKeepsSources(st, m.session, id, 1, "", []);
    OneBetween(m);
  }

  lemma OneBetween(m: Row)
    ensures Between([m], m.at, m.at) == [m] && Ids([m]) == [m.id]
  {
    assert [m][..0] == [];
  }

  lemma OneChatRow(st: Store, m: Row)
    requires st.messages == [m] && IsChat(m, m.session)
    ensures Chat(st, m.session) == [m]
  {
    hide IsChat;
    assert [m][..0] == [] && ChatRows([], m.session) == [];
    assert ChatRows([m], m.session) == [m] && Ordered([m]) == [m];
  }

  lemma UnsummarisedMatches(st: Store, session: Id)
    requires st.summaries == [] && session in st.sessions && st.sessions[session].current.None?
    ensures SourcesMatch(st, session) && CoveredTo(st, session) == 0
  {
    hide Chat;
    BetweenNone(Chat(st, session), 1, 0);
  }

  /** A message that asks for a seq inside the covered prefix belongs to no summary:
      a notice at seq 5, a summary up to it, and then a question at seq 3. */
  lemma LateMessageLosesSources(cfg: Config)
    ensures var ops := [Ensure("s"), Append("s", "n", 5, true, None, System, Completed, ""), Manual("s", "z", 5, ""),
                        Append("s", "m", 3, true, None, User, Completed, "late")];
            SourcesMatch(RunAll(ops[..3], cfg), "s") && !SourcesMatch(RunAll(ops, cfg), "s")
  {
    hide RunAll, SourcesMatch, Valid;
    var ops := [Ensure("s"), Append("s", "n", 5, true, None, System, Completed, ""), Manual("s", "z", 5, ""),
                Append("s", "m", 3, true, None, User, Completed, "late")];
    AfterNotice(ops[..3], cfg);
    var st := RunAll(ops[..3], cfg);
    RunsKeepValid(ops[..3], cfg);
    NoChatMatches(st, Summary("z", "s", 1, 5, "", []));
    InsertKeepsSources(st, MessageRow(ops[3]));
    RunAllSnoc(ops[..3], ops[3], cfg);
    assert ops[..3] + [ops[3]] == ops;
  }

  lemma AfterNotice(ops: seq<Op>, cfg: Config)
    requires ops == [Ensure("s"), Append("s", "n", 5, true, None, System, Completed, ""), Manual("s", "z", 5, "")]
    ensures RunAll(ops, cfg)
         == Store(map["s" := Session(6, Some("z"))], [Row("n", "s", 5, true, None, MessageBody(System, Completed, ""))],
                  [], map[], [Summary("z", "s", 1, 5, "", [])])
  {
    hide RunAll, Summarize;
    assert RunAll([], cfg) == EMPTY by { RunAllEmpty(cfg); }
    RunAllSnoc([], ops[0], cfg);
    RunAllSnoc([ops[0]], ops[1], cfg);
    RunAllSnoc([ops[0], ops[1]], ops[2], cfg);
    assert [] + [ops[0]] == [ops[0]] && [ops[0]] + [ops[1]] == [ops[0], ops[1]] && [ops[0], ops[1]] + [ops[2]] == ops;
  }

  lemma RunAllEmpty(cfg: Config)
    ensures RunAll([], cfg) == EMPTY
  {
  }

  lemma NoChatMatches(st: Store, z: Summary)
    requires st.summaries == [z] && z.sources == [] && z.session in st.sessions
    requires st.sessions[z.session].current == Some(z.id)
    requires forall m | m in st.messages :: !IsChat(m, z.session)
    ensures SourcesMatch(st, z.session) && CoveredTo(st, z.session) == z.to
  {
    hide IsChat, FindSummary;
    NoChatRows(st.messages, z.session);
    assert Chain(st, z.session) == [z] && AllSources([z]) == [] by {
      assert [z][..0] == [] && SummariesOf([], z.session) == [];
    }
    FindSummaryAt(st.summaries, z);
  }
}
