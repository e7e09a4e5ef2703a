/** Agent runs over whole runs of transactions: when each has its question and, once
    completed, its answer; and when each can be read back. */
module RunRecords {
  import opened Common
  import opened PyText
  import opened TimelineStore
  import opened TimelineInvariants
  import opened RowSlices
  import opened Summaries
  import opened TimelineRuns

  // ---------- Runs and their messages ----------

  /** A message of the session with that role. */
  predicate IsPart(m: Row, id: Id, session: Id, role: Role) {
    m.id == id && m.session == session && m.body.MessageBody? && m.body.role == role
  }

  /** It is stored, and filed under the run if one is given. */
  predicate HasPart(rows: seq<Row>, id: Id, run: Option<Id>, session: Id, role: Role) {
    exists m | m in rows :: IsPart(m, id, session, role) && (run.Some? ==> m.run == run)
  }

  predicate SaysCompleted(s: RunStatus) { Meaning(s) == Some(RunCompleted) }

  /** A run has its question; completed, it names an answer, and that is stored. */
  predicate Accounted(rows: seq<Row>, id: Id, r: Run) {
    && HasPart(rows, r.userMessage, None, r.session, User)
    && (SaysCompleted(r.status) ==> r.finalMessage.Some?)
    && (r.finalMessage.Some? ==> HasPart(rows, r.finalMessage.value, Some(id), r.session, Assistant))
  }

  predicate AllAccounted(st: Store) {
    forall id | id in st.runs :: Accounted(st.messages, id, st.runs[id])
  }

  /** At its moment the transaction writes no run without question or answer: a
      failure says completed only of a run that names its answer, a new run does
      not, and a whole record written is accounted for. */
  predicate Honest(st: Store, op: Op) {
    match op
    case Fail(run, f) =>
      LoadRun(st, run).Ok? && SaysCompleted(f.status) ==> st.runs[run].finalMessage.Some?
    case Create(s, m, run, status) => run !in st.runs && CreateRun(st, s, m, run, status).Ok? ==> !SaysCompleted(status)
    case Insert(run, r) => run !in st.runs && r.session in st.sessions ==> Accounted(st.messages, run, r)
    case Update(run, r) => run in st.runs && r.session in st.sessions ==> Accounted(st.messages, run, r)
    case _ => true
  }

  // ---------- Writing one record ----------

  /** One record written over accounted ones: the outcome hangs on it alone. */
  lemma OneRecord(st: Store, run: Id, r: Run)
    requires AllAccounted(st)
    ensures AllAccounted(st.(runs := st.runs[run := r])) <==> Accounted(st.messages, run, r)
  {
    hide Accounted;
    var after := st.(runs := st.runs[run := r]);
    if AllAccounted(after) { assert Accounted(after.messages, run, after.runs[run]); }
  }

  lemma InsertAccountedIff(st: Store, op: Op, cfg: Config)
    requires AllAccounted(st) && (op.Insert? || op.Update?)
    ensures AllAccounted(Apply(st, op, cfg)) <==> Honest(st, op)
  {
    hide AllAccounted, Accounted;
    OneRecord(st, op.run, op.record);
  }

  lemma FailAccountedIff(st: Store, op: Op, cfg: Config)
    requires AllAccounted(st) && op.Fail?
    ensures AllAccounted(Apply(st, op, cfg)) <==> Honest(st, op)
  {
    hide AllAccounted, HasPart, Meaning, Strip, SaysCompleted;
    if op.run in st.runs && Readable(st.runs[op.run]) {
      var r := st.runs[op.run];
      OneRecord(st, op.run, FailedRecord(Loaded(r), op.failure));
      AccountedOf(st, op.run);
    }
  }

  lemma AccountedOf(st: Store, run: Id)
    requires AllAccounted(st) && run in st.runs
    ensures Accounted(st.messages, run, st.runs[run])
  {
    hide Accounted;
  }

  lemma {:induction false} FoundIn(rows: seq<Row>, id: Id)
    ensures FindMessage(rows, id).Some? ==> FindMessage(rows, id).value in rows && FindMessage(rows, id).value.id == id
  {
    if rows != [] {
      FoundIn(rows[..|rows| - 1], id);
      assert rows == rows[..|rows| - 1] + [rows[|rows| - 1]];
    }
  }

  lemma MeaningIsPlain(s: RunStatus)
    ensures Meaning(s).Some? ==> !Meaning(s).value.Odd? && Meaning(Meaning(s).value) == Meaning(s)
  {
    hide StatusOf, Normalize;
  }

  lemma CreateAccountedIff(st: Store, op: Op, cfg: Config)
    requires AllAccounted(st) && op.Create?
    ensures AllAccounted(Apply(st, op, cfg)) <==> Honest(st, op)
  {
    hide AllAccounted, FindMessage, Meaning;
    FoundIn(st.messages, op.message);
    MeaningIsPlain(op.initial);
    if op.run !in st.runs && CreateRun(st, op.session, op.message, op.run, op.initial).Ok? {
      OneRecord(st, op.run, NewRun(op.session, op.message, Meaning(op.initial).value));
      assert IsPart(FindMessage(st.messages, op.message).value, op.message, op.session, User);
    }
  }

  lemma CompleteAccounted(st: Store, run: Id, message: Id)
    requires AllAccounted(st)
    ensures var r := CompleteRun(st, run, message); r.Ok? ==> AllAccounted(r.value)
  {
    hide AllAccounted, FindMessage, Meaning, Strip;
    FoundIn(st.messages, message);
    if CompleteRun(st, run, message).Ok? {
      var r := st.runs[run];
      AccountedOf(st, run);
      assert IsPart(FindMessage(st.messages, message).value, message, r.session, Assistant);
      OneRecord(st, run, Loaded(r).(status := RunCompleted, finalMessage := Some(message)));
    }
  }

  // ---------- More or fewer rows ----------

  lemma PartSurvives(rows: seq<Row>, after: seq<Row>, id: Id, run: Option<Id>, session: Id, role: Role)
    requires HasPart(rows, id, run, session, role)
    requires forall m | m in rows && m.session == session && m.body.MessageBody? :: m in after
    ensures HasPart(after, id, run, session, role)
  {
    var m :| m in rows && IsPart(m, id, session, role) && (run.Some? ==> m.run == run);
    assert m in after;
  }

  lemma AccountedSurvives(rows: seq<Row>, after: seq<Row>, id: Id, r: Run)
    requires Accounted(rows, id, r)
    requires forall m | m in rows && m.session == r.session && m.body.MessageBody? :: m in after
    ensures Accounted(after, id, r)
  {
    hide HasPart, SaysCompleted;
    PartSurvives(rows, after, r.userMessage, None, r.session, User);
    if r.finalMessage.Some? { PartSurvives(rows, after, r.finalMessage.value, Some(id), r.session, Assistant); }
  }

  lemma MoreMessages(st: Store, after: Store)
    requires AllAccounted(st) && after.runs == st.runs && forall m | m in st.messages :: m in after.messages
    ensures AllAccounted(after)
  {
    hide Accounted;
    forall id | id in after.runs ensures Accounted(after.messages, id, after.runs[id]) {
      AccountedSurvives(st.messages, after.messages, id, st.runs[id]);
    }
  }

  lemma UserTurnAccounted(st: Store, session: Id, message: Id, run: Id, content: string)
    requires AllAccounted(st)
    ensures var r := CreateUserTurn(st, session, message, run, content); r.Ok? ==> AllAccounted(r.value)
  {
    hide HasId, HasSeq, Accounted;
    var r := CreateUserTurn(st, session, message, run, content);
    if r.Ok? {
      var after := r.value;
      var m := after.messages[|st.messages|];
      assert m in after.messages;
      forall id | id in after.runs ensures Accounted(after.messages, id, after.runs[id]) {
        if id == run {
          FreshRun(after.messages, m, run, session);
        } else {
          AccountedSurvives(st.messages, after.messages, id, st.runs[id]);
        }
      }
    }
  }

  lemma FreshRun(rows: seq<Row>, m: Row, run: Id, session: Id)
    requires m in rows && m.run == Some(run) && m.session == session && m.body.MessageBody? && m.body.role == User
    ensures Accounted(rows, run, NewRun(session, m.id, Running))
  {
    assert IsPart(m, m.id, session, User);
  }

  lemma DeletionAccounted(st: Store, session: Id)
    requires AllAccounted(st)
    ensures AllAccounted(DeleteSession(st, session))
  {
    var after := DeleteSession(st, session);
    RowsWithoutMembers(st.messages, session, after.runs);
    hide RowsWithout, SummariesWithout, Accounted;
    forall id | id in after.runs ensures Accounted(after.messages, id, after.runs[id]) {
      AccountedSurvives(st.messages, after.messages, id, st.runs[id]);
    }
  }

  lemma InterruptionAccounted(st: Store)
    requires AllAccounted(st)
    ensures AllAccounted(MarkInterrupted(st))
  {
    hide HasPart;
  }

  lemma OtherStepsKeepRuns(st: Store, op: Op, cfg: Config)
    requires op.Ensure? || op.Append? || op.Record? || op.Manual? || op.Auto?
    ensures Apply(st, op, cfg).runs == st.runs && forall m | m in st.messages :: m in Apply(st, op, cfg).messages
  {
    hide HasId, HasSeq, Candidates, Chat, Ids, CoveredTo, HasSummary;
  }

  // ---------- Exactly the honest transactions keep runs accounted for ----------

  lemma StepAccountedIff(st: Store, op: Op, cfg: Config)
    requires AllAccounted(st)
    ensures AllAccounted(Apply(st, op, cfg)) <==> Honest(st, op)
  {
    hide AllAccounted, CreateUserTurn, InsertMessage, InsertEvent, CompleteRun, DeleteSession, UpdateSummary, Summarize;
    hide FailRun, CreateRun, InsertRun, UpdateRun, MarkInterrupted, Accounted, SaysCompleted, Readable;
    match op
    case UserTurn(s, m, r, c) => UserTurnAccounted(st, s, m, r, c);
    case Complete(r, m) => CompleteAccounted(st, r, m);
    case Fail(_, _) => FailAccountedIff(st, op, cfg);
    case Create(_, _, _, _) => CreateAccountedIff(st, op, cfg);
    case Insert(_, _) => InsertAccountedIff(st, op, cfg);
    case Update(_, _) => InsertAccountedIff(st, op, cfg);
    case Interrupt => InterruptionAccounted(st);
    case Delete(s) => DeletionAccounted(st, s);
    case _ =>
      OtherStepsKeepRuns(st, op, cfg);
      MoreMessages(st, Apply(st, op, cfg));
  }

  /** Every transaction was honest at its moment. */
  predicate HonestThroughout(ops: seq<Op>, cfg: Config) {
    ops != [] ==>
      var n := |ops| - 1;
      HonestThroughout(ops[..n], cfg) && Honest(RunAll(ops[..n], cfg), ops[n])
  }

  /** At every moment every agent run has its question and, if completed, its answer. */
  predicate AlwaysAccounted(ops: seq<Op>, cfg: Config) {
    AllAccounted(RunAll(ops, cfg)) && (ops != [] ==> AlwaysAccounted(ops[..|ops| - 1], cfg))
  }

  /** A run of transactions keeps every agent run accounted for, at every moment,
      exactly when each was honest at its own. */
  lemma {:induction false} AccountedIffHonest(ops: seq<Op>, cfg: Config)
    ensures AlwaysAccounted(ops, cfg) <==> HonestThroughout(ops, cfg)
  {
    if ops != [] {
      hide AllAccounted, Apply, Honest;
      var n := |ops| - 1;
      AccountedIffHonest(ops[..n], cfg);
      if AlwaysAccounted(ops[..n], cfg) {
        NowAccounted(ops[..n], cfg);
        StepAccountedIff(RunAll(ops[..n], cfg), ops[n], cfg);
      }
    }
  }

  lemma NowAccounted(ops: seq<Op>, cfg: Config)
    requires AlwaysAccounted(ops, cfg)
    ensures AllAccounted(RunAll(ops, cfg))
  {
    hide AllAccounted, RunAll;
  }

  /** No whole record is written, and no run is declared complete by an error
      payload or at its creation. */
  predicate Undeclared(op: Op) {
    && !op.Insert? && !op.Update?
    && (op.Fail? ==> !SaysCompleted(op.failure.status)) && (op.Create? ==> !SaysCompleted(op.initial))
  }

  lemma {:induction false} UndeclaredIsHonest(ops: seq<Op>, cfg: Config)
    requires forall op | op in ops :: Undeclared(op)
    ensures HonestThroughout(ops, cfg)
  {
    if ops != [] {
      hide SaysCompleted, Readable, CreateRun, Accounted, RunAll;
      assert Undeclared(ops[|ops| - 1]);
      UndeclaredIsHonest(ops[..|ops| - 1], cfg);
    }
  }

  /** So undeclared runs always stay accounted for. */
  lemma RunsStayAccounted(ops: seq<Op>, cfg: Config)
    requires forall op | op in ops :: Undeclared(op)
    ensures AlwaysAccounted(ops, cfg) && AllAccounted(RunAll(ops, cfg))
  {
    hide Undeclared, HonestThroughout, AlwaysAccounted, AllAccounted, RunAll;
    UndeclaredIsHonest(ops, cfg);
    AccountedIffHonest(ops, cfg);
    NowAccounted(ops, cfg);
  }

  /** Ways to leave a run unaccounted for after a user turn: an error payload, a new run,
      and an inserted or replaced record that say completed and name no answer; a record
      whose question is not stored; and one that names the question as its answer. */
  lemma DishonestSteps(cfg: Config, op: Op)
    requires op in [Fail("r", Failure(RunCompleted, None, "late")), Create("s", "m", "q", RunCompleted),
                    Insert("q", NewRun("s", "m", RunCompleted)), Update("r", NewRun("s", "m", RunCompleted)),
                    Insert("q", NewRun("s", "x", Running)),
                    Update("r", NewRun("s", "m", RunCompleted).(finalMessage := Some("m")))]
    ensures !AllAccounted(RunAll([UserTurn("s", "m", "r", "hi"), op], cfg))
  {
    hide AllAccounted, RunAll, Apply;
    var turn := UserTurn("s", "m", "r", "hi");
    AfterUserTurn(cfg);
    RunsStayAccounted([turn], cfg);
    RunAllSnoc([turn], op, cfg);
    UnansweredIsDishonest(RunAll([turn], cfg), op);
    StepAccountedIff(RunAll([turn], cfg), op, cfg);
    assert [turn] + [op] == [turn, op];
  }

  lemma UnansweredIsDishonest(st: Store, op: Op)
    requires st.sessions == map["s" := Session(2, None)] && st.runs == map["r" := NewRun("s", "m", Running)]
    requires st.messages == [Row("m", "s", 1, true, Some("r"), MessageBody(User, Completed, "hi"))]
    requires op in [Fail("r", Failure(RunCompleted, None, "late")), Create("s", "m", "q", RunCompleted),
                    Insert("q", NewRun("s", "m", RunCompleted)), Update("r", NewRun("s", "m", RunCompleted)),
                    Insert("q", NewRun("s", "x", Running)),
                    Update("r", NewRun("s", "m", RunCompleted).(finalMessage := Some("m")))]
    ensures !Honest(st, op)
  {
    FindNewest([], st.messages[0]);
    assert [] + [st.messages[0]] == st.messages;
  }

  lemma FindNewest(rows: seq<Row>, m: Row)
    ensures FindMessage(rows + [m], m.id) == Some(m)
  {
    assert (rows + [m])[|rows|] == m;
  }

  // ---------- Reading runs back ----------

  /** The text a status is stored as. */
  function StoredText(s: RunStatus): string {
    match s
    case RunPending => "pending"
    case Running => "running"
    case WaitingUser => "waiting_user"
    case RunCompleted => "completed"
    case RunFailed => "failed"
    case PartialFailed => "partial_failed"
    case RunBlocked => "blocked"
    case RunCancelled => "cancelled"
    case RequestReplan => "request_replan"
    case Interrupted => "interrupted"
    case Odd(text) => text
  }

  /** Any text is stored and taken back as it is, and read as the status that it names
      as it stands or up to case and white space around it, or not at all. */
  lemma StatusesReadBack(text: string, s: RunStatus)
    ensures StoredText(StatusOf(text)) == text && StatusOf(StoredText(s)) == s
    ensures StatusOf(text) == s <==> text == StoredText(s)
    ensures var name := if StatusOf(text).Odd? then Normalize(text) else text;
            Meaning(StatusOf(text)) == Some(s) <==> !s.Odd? && StoredText(s) == name
  {
    hide Normalize, StatusOf;
    TextsAreNames(text, s);
    TextsAreNames(Normalize(text), s);
  }

  lemma TextsAreNames(text: string, s: RunStatus)
    ensures StoredText(StatusOf(text)) == text && StatusOf(StoredText(s)) == s
    ensures StatusOf(text) == s <==> text == StoredText(s)
  {
  }

  predicate AllReadable(st: Store) {
    forall id | id in st.runs :: Readable(st.runs[id])
  }

  /** At its moment the transaction writes no record that cannot be read back. */
  predicate Legible(st: Store, op: Op) {
    match op
    case Fail(run, f) =>
      run in st.runs ==> Meaning(f.status).Some? && !Blank(f.code) && !Blank(Some(f.message))
    case Insert(run, r) => run !in st.runs && r.session in st.sessions ==> Readable(r)
    case Update(run, r) => run in st.runs && r.session in st.sessions ==> Readable(r)
    case _ => true
  }

  lemma OneReadable(st: Store, run: Id, r: Run)
    requires AllReadable(st)
    ensures AllReadable(st.(runs := st.runs[run := r])) <==> Readable(r)
  {
    hide Readable;
    var after := st.(runs := st.runs[run := r]);
    if AllReadable(after) { assert Readable(after.runs[run]); }
  }

  lemma LoadedIsReadable(r: Run)
    requires Readable(r)
    ensures Readable(Loaded(r)) && Loaded(Loaded(r)) == Loaded(r)
  {
    MeaningIsPlain(r.status);
    hide Meaning;
    StripTwice(r.errorCode);
    StripTwice(r.errorMessage);
  }

  lemma StripTwice(text: Option<string>)
    ensures Stripped(Stripped(text)) == Stripped(text) && (Blank(Stripped(text)) <==> Blank(text))
  {
  }

  /** With every run readable before, every run is readable after exactly when the
      transaction wrote a legible record. */
  lemma StepReadableIff(st: Store, op: Op, cfg: Config)
    requires AllReadable(st)
    ensures AllReadable(Apply(st, op, cfg)) <==> Legible(st, op)
  {
    hide AllReadable, Readable, InsertMessage, InsertEvent, UpdateSummary, Summarize, FindMessage, Meaning;
    match op
    case UserTurn(s, m, r, c) => TurnReadable(st, s, m, r, c);
    case Complete(r, m) =>
      if CompleteRun(st, r, m).Ok? {
        CompletedIsReadable(st.runs[r], m);
        OneReadable(st, r, Loaded(st.runs[r]).(status := RunCompleted, finalMessage := Some(m)));
      }
    case Fail(r, f) =>
      if r in st.runs {
        ReadableOf(st, r);
        FailedIsReadable(st.runs[r], f);
        OneReadable(st, r, FailedRecord(Loaded(st.runs[r]), f));
      }
    case Create(s, m, r, status) =>
      if CreateRun(st, s, m, r, status).Ok? && r !in st.runs {
        NewIsReadable(s, m, status);
        OneReadable(st, r, NewRun(s, m, Meaning(status).value));
      }
    case Insert(r, record) => OneReadable(st, r, record);
    case Update(r, record) => OneReadable(st, r, record);
    case Interrupt => InterruptionReadable(st);
    case Delete(s) => SubsetReadable(st, DeleteSession(st, s));
    case _ =>
      OtherStepsKeepRuns(st, op, cfg);
      SubsetReadable(st, Apply(st, op, cfg));
  }

  lemma SubsetReadable(st: Store, after: Store)
    requires AllReadable(st) && forall r | r in after.runs :: r in st.runs && after.runs[r] == st.runs[r]
    ensures AllReadable(after)
  {
    hide Readable;
  }

  lemma ReadableOf(st: Store, run: Id)
    requires AllReadable(st) && run in st.runs
    ensures Readable(st.runs[run])
  {
    hide Readable;
  }

  lemma TurnReadable(st: Store, session: Id, message: Id, run: Id, content: string)
    requires AllReadable(st)
    ensures var r := CreateUserTurn(st, session, message, run, content); r.Ok? ==> AllReadable(r.value)
  {
    hide AllReadable, Readable, HasId, HasSeq;
    var r := CreateUserTurn(st, session, message, run, content);
    if r.Ok? {
      NewIsReadable(session, message, Running);
      OneReadable(st, run, NewRun(session, message, Running));
      SubsetReadable(st.(runs := st.runs[run := NewRun(session, message, Running)]), r.value);
    }
  }

  lemma NewIsReadable(session: Id, message: Id, status: RunStatus)
    ensures Meaning(status).Some? ==> Readable(NewRun(session, message, Meaning(status).value))
    ensures !status.Odd? ==> Meaning(status) == Some(status)
  {
    MeaningIsPlain(status);
  }

  lemma CompletedIsReadable(r: Run, message: Id)
    requires Readable(r)
    ensures Readable(Loaded(r).(status := RunCompleted, finalMessage := Some(message)))
  {
    LoadedIsReadable(r);
  }

  lemma FailedIsReadable(r: Run, f: Failure)
    requires Readable(r)
    ensures Readable(FailedRecord(Loaded(r), f))
       <==> Meaning(f.status).Some? && !Blank(f.code) && !Blank(Some(f.message))
  {
    hide Meaning, Strip;
  }

  lemma InterruptionReadable(st: Store)
    requires AllReadable(st)
    ensures AllReadable(MarkInterrupted(st))
  {
    hide Blank, Strip;
  }

  predicate LegibleThroughout(ops: seq<Op>, cfg: Config) {
    ops != [] ==>
      var n := |ops| - 1;
      LegibleThroughout(ops[..n], cfg) && Legible(RunAll(ops[..n], cfg), ops[n])
  }

  predicate AlwaysReadable(ops: seq<Op>, cfg: Config) {
    AllReadable(RunAll(ops, cfg)) && (ops != [] ==> AlwaysReadable(ops[..|ops| - 1], cfg))
  }

  /** Every agent run can be read back at every moment exactly when each
      transaction was legible at its own. */
  lemma {:induction false} ReadableIffLegible(ops: seq<Op>, cfg: Config)
    ensures AlwaysReadable(ops, cfg) <==> LegibleThroughout(ops, cfg)
  {
    if ops != [] {
      hide AllReadable, Apply, Legible;
      var n := |ops| - 1;
      ReadableIffLegible(ops[..n], cfg);
      if AlwaysReadable(ops[..n], cfg) {
        NowReadable(ops[..n], cfg);
        StepReadableIff(RunAll(ops[..n], cfg), ops[n], cfg);
      }
    }
  }

  lemma NowReadable(ops: seq<Op>, cfg: Config)
    requires AlwaysReadable(ops, cfg)
    ensures AllReadable(RunAll(ops, cfg))
  {
    hide AllReadable, RunAll;
  }

  // ---------- Unreadable for good ----------

  predicate Broken(st: Store, run: Id, session: Id) {
    run in st.runs && st.runs[run].session == session && !Readable(st.runs[run])
  }

  lemma StepKeepsBroken(st: Store, op: Op, cfg: Config, run: Id, session: Id)
    requires Broken(st, run, session) && !op.Update? && op != Delete(session)
    ensures Broken(Apply(st, op, cfg), run, session)
  {
    hide Meaning, HasId, HasSeq, FindMessage, RowsWithout, SummariesWithout, Summarize, UpdateSummary, Readable;
    match op
    case Interrupt => InterruptionKeepsBroken(st.runs[run]);
    case UserTurn(_, _, _, _) =>
    case Complete(_, _) =>
    case Fail(_, _) =>
    case Create(_, _, _, _) =>
    case Insert(_, _) =>
    case Delete(_) =>
    case _ => OtherStepsKeepRuns(st, op, cfg);
  }

  lemma InterruptionKeepsBroken(r: Run)
    ensures Readable(AfterInterruption(r)) <==> Readable(r)
  {
    hide Blank, Normalize;
  }

  lemma {:induction false} UnreadableForGood(ops: seq<Op>, more: seq<Op>, cfg: Config, run: Id, session: Id)
    requires Broken(RunAll(ops, cfg), run, session)
    requires forall op | op in more :: !op.Update? && op != Delete(session)
    ensures Broken(RunAll(ops + more, cfg), run, session)
  {
    hide Broken, RunAll, Apply;
    if more == [] {
      assert ops + more == ops;
    } else {
      var n := |more| - 1;
      UnreadableForGood(ops, more[..n], cfg, run, session);
      StepKeepsBroken(RunAll(ops + more[..n], cfg), more[n], cfg, run, session);
      RunAllSnoc(ops + more[..n], more[n], cfg);
      assert ops + more[..n] + [more[n]] == ops + more;
    }
  }
}
