/** Whole runs: any sequence of transactions, failed ones included, from the empty
    database. */
module TimelineRuns {
  import opened Common
  import opened TimelineStore
  import opened TimelineInvariants
  import opened TimelineOrder
  import opened RowSlices
  import opened Summaries

  /** `requested` is the caller's timeline seq, 0 or less for none. */
  datatype Op =
    | Ensure(session: Id)
    | UserTurn(session: Id, message: Id, run: Id, content: string)
    | Append(session: Id, message: Id, requested: int, visible: bool, owner: Option<Id>,
             role: Role, status: Status, content: string)
    | Record(session: Id, event: Id, requested: int, visible: bool, run: Id, kind: string, content: string)
    | Complete(run: Id, message: Id)
    | Fail(run: Id, failure: Failure)
    | Create(session: Id, message: Id, run: Id, initial: RunStatus)
    | Insert(run: Id, record: Run)
    | Update(run: Id, record: Run)
    | Interrupt
    | Manual(session: Id, summary: Id, coveredTo: int, content: string)
    | Auto(session: Id, summary: Id, model: bool, compressed: Option<string>)
    | Delete(session: Id)

  function MessageRow(op: Op): Row
    requires op.Append?
  {
    Row(op.message, op.session, op.requested, op.visible, op.owner, MessageBody(op.role, op.status, op.content))
  }

  function EventRow(op: Op): Row
    requires op.Record?
  {
    Row(op.event, op.session, op.requested, op.visible, Some(op.run), EventBody(op.kind, op.content))
  }

  function Step(st: Store, op: Op, cfg: Config): Result<Store, DbError> {
    match op
    case Ensure(s) => Ok(EnsureSession(st, s))
    case UserTurn(s, m, r, c) => CreateUserTurn(st, s, m, r, c)
    case Append(s, m, q, v, o, role, status, c) => InsertMessage(st, MessageRow(op))
    case Record(s, e, q, v, r, kind, c) => InsertEvent(st, EventRow(op))
    case Complete(r, m) => CompleteRun(st, r, m)
    case Fail(r, f) => FailRun(st, r, f)
    case Create(s, m, r, status) => CreateRun(st, s, m, r, status)
    case Insert(r, record) => InsertRun(st, r, record)
    case Update(r, record) => UpdateRun(st, r, record)
    case Interrupt => Ok(MarkInterrupted(st))
    case Manual(s, z, to, c) => UpdateSummary(st, s, z, to, c, [])
    case Auto(s, z, model, compressed) => Summarize(st, s, cfg, model, compressed, z)
    case Delete(s) => Ok(DeleteSession(st, s))
  }

  /** A failed transaction is rolled back. */
  function Apply(st: Store, op: Op, cfg: Config): Store {
    match Step(st, op, cfg)
    case Ok(after) => after
    case Err(_) => st
  }

  function RunAll(ops: seq<Op>, cfg: Config): Store {
    if ops == [] then EMPTY else Apply(RunAll(ops[..|ops| - 1], cfg), ops[|ops| - 1], cfg)
  }

  lemma RunAllSnoc(log: seq<Op>, op: Op, cfg: Config)
    ensures RunAll(log + [op], cfg) == Apply(RunAll(log, cfg), op, cfg)
  {
    hide Apply;
    assert (log + [op])[..|log|] == log;
  }

  // ---------- The invariant ----------

  lemma StepKeepsValid(st: Store, op: Op, cfg: Config)
    requires Valid(st)
    ensures Valid(Apply(st, op, cfg))
  {
    hide Valid, EnsureSession, CreateUserTurn, InsertMessage, InsertEvent, CompleteRun, FailRun, UpdateSummary;
    hide Summarize, DeleteSession, CreateRun, InsertRun, UpdateRun, MarkInterrupted;
    match op
    case Ensure(s) => KeepsEnsureSession(st, s);
    case UserTurn(s, m, r, c) => KeepsCreateUserTurn(st, s, m, r, c);
    case Append(s, m, q, v, o, role, status, c) => KeepsInsertMessage(st, MessageRow(op));
    case Record(s, e, q, v, r, kind, c) => KeepsInsertEvent(st, EventRow(op));
    case Complete(r, m) => KeepsCompleteRun(st, r, m);
    case Fail(r, f) => KeepsFailRun(st, r, f);
    case Create(s, m, r, status) => KeepsCreateRun(st, s, m, r, status);
    case Insert(r, record) => KeepsRunRecords(st, r, record);
    case Update(r, record) => KeepsRunRecords(st, r, record);
    case Interrupt => KeepsMarkInterrupted(st);
    case Manual(s, z, to, c) => KeepsUpdateSummary(st, s, z, to, c, []);
    case Auto(s, z, model, compressed) => KeepsSummarize(st, s, cfg, model, compressed, z);
    case Delete(s) => KeepsDeleteSession(st, s);
  }

  lemma KeepsSummarize(st: Store, session: Id, cfg: Config, model: bool, compressed: Option<string>, id: Id)
    requires Valid(st)
    ensures var r := Summarize(st, session, cfg, model, compressed, id); r.Ok? ==> Valid(r.value)
  {
    hide Valid, UpdateSummary, Candidates, Chat, Ids;
    if session in st.sessions && Compresses(st, session, cfg, model, compressed) {
      SummarizeShape(st, session, cfg, model, compressed, id);
      var candidates := Candidates(st, session, cfg);
      KeepsUpdateSummary(st, session, id, candidates[|candidates| - 1].at, compressed.value, Ids(candidates));
    } else if session in st.sessions {
      IdleRound(st, session, cfg, model, compressed, id);
    }
  }

  /** Over any run: ids and seqs unique per table, every row below its session's
      counter, summary chains contiguous from 1 and below it, runs owned. */
  lemma {:induction false} RunsKeepValid(ops: seq<Op>, cfg: Config)
    ensures Valid(RunAll(ops, cfg))
  {
    if ops != [] {
      hide Valid, Apply;
      RunsKeepValid(ops[..|ops| - 1], cfg);
      StepKeepsValid(RunAll(ops[..|ops| - 1], cfg), ops[|ops| - 1], cfg);
    }
  }

  // ---------- Strict timelines ----------

  /** The transaction leaves the choice of seq to the session. */
  predicate Allocates(op: Op) {
    op.Append? || op.Record? ==> op.requested <= 0
  }

  lemma UserTurnKeepsApart(st: Store, session: Id, message: Id, run: Id, content: string)
    requires Valid(st) && Unshared(st)
    ensures var r := CreateUserTurn(st, session, message, run, content); r.Ok? ==> Unshared(r.value)
  {
    hide Valid, Unshared, HasId, InsertMessage;
    if CreateUserTurn(st, session, message, run, content).Ok? {
      var st1 := EnsureSession(st, session);
      KeepsEnsureSession(st, session);
      var m := Row(message, session, 0, true, Some(run), MessageBody(User, Completed, content));
      SameRowsApart(st, st1);
      MessageKeepsApart(st1, m);
      SameRowsApart(InsertMessage(st1, m).value, CreateUserTurn(st, session, message, run, content).value);
    }
  }

  lemma SameRowsApart(st: Store, after: Store)
    requires Unshared(st)
    requires forall m | m in after.messages :: m in st.messages
    requires forall e | e in after.events :: e in st.events
    ensures Unshared(after)
  {
  }

  lemma DeleteKeepsApart(st: Store, session: Id)
    requires Unshared(st)
    ensures Unshared(DeleteSession(st, session))
  {
    var after := DeleteSession(st, session);
    RowsWithoutMembers(st.messages, session, after.runs);
    RowsWithoutMembers(st.events, session, after.runs);
    hide RowsWithout, Unshared, SummariesWithout;
    SameRowsApart(st, after);
  }

  lemma AppendKeepsApart(st: Store, m: Row)
    requires Valid(st) && Unshared(st) && m.body.MessageBody? && m.at <= 0
    ensures InsertMessage(st, m).Ok? ==> Unshared(InsertMessage(st, m).value)
  {
    hide Valid, Unshared, HasId, HasSeq;
    if InsertMessage(st, m).Ok? && !HasId(st.messages, m.id) { MessageKeepsApart(st, m); }
  }

  lemma RecordKeepsApart(st: Store, e: Row)
    requires Valid(st) && Unshared(st) && e.body.EventBody? && e.at <= 0
    ensures InsertEvent(st, e).Ok? ==> Unshared(InsertEvent(st, e).value)
  {
    hide Valid, Unshared, HasId, HasSeq;
    if InsertEvent(st, e).Ok? && e.visible && !HasId(st.events, e.id) { EventKeepsApart(st, e); }
  }

  lemma SameTables(st: Store, op: Op, cfg: Config)
    requires !op.UserTurn? && !op.Append? && !op.Record? && !op.Delete?
    ensures Apply(st, op, cfg).messages == st.messages && Apply(st, op, cfg).events == st.events
  {
    hide FindMessage, Candidates, Chat, Ids, CoveredTo, HasSummary;
  }

  lemma StepKeepsApart(st: Store, op: Op, cfg: Config)
    requires Valid(st) && Unshared(st) && Allocates(op)
    ensures Unshared(Apply(st, op, cfg))
  {
    hide Valid, Unshared, CreateUserTurn, InsertMessage, InsertEvent, DeleteSession, CompleteRun, FailRun;
    hide UpdateSummary, Summarize, CreateRun, InsertRun, UpdateRun, MarkInterrupted;
    match op
    case UserTurn(s, m, r, c) => UserTurnKeepsApart(st, s, m, r, c);
    case Append(s, m, q, v, o, role, status, c) => AppendKeepsApart(st, MessageRow(op));
    case Record(s, e, q, v, r, kind, c) => RecordKeepsApart(st, EventRow(op));
    case Delete(s) => DeleteKeepsApart(st, s);
    case _ =>
      SameTables(st, op, cfg);
      SameRowsApart(st, Apply(st, op, cfg));
  }

  lemma {:induction false} RunsKeepApart(ops: seq<Op>, cfg: Config)
    requires forall op | op in ops :: Allocates(op)
    ensures Unshared(RunAll(ops, cfg))
  {
    if ops != [] {
      hide Valid, Apply, Unshared;
      RunsKeepApart(ops[..|ops| - 1], cfg);
      RunsKeepValid(ops[..|ops| - 1], cfg);
      StepKeepsApart(RunAll(ops[..|ops| - 1], cfg), ops[|ops| - 1], cfg);
    }
  }

  /** When every seq is allocated, no two visible items of a session ever share
      one: messages and events interleave in one strict order. */
  lemma TimelineIsStrict(ops: seq<Op>, cfg: Config, session: Id)
    requires forall op | op in ops :: Allocates(op)
    ensures Ascending(Timeline(RunAll(ops, cfg), session))
  {
    hide Valid, RunAll, Ascending, Timeline;
    RunsKeepApart(ops, cfg);
    RunsKeepValid(ops, cfg);
    TimelineOrdered(RunAll(ops, cfg), session);
  }

  /** A caller-supplied event seq may land on a message: a user turn, then an
      event asking for seq 1. */
  lemma TimelineMayTie(cfg: Config)
    ensures var ops := [UserTurn("s", "m", "r", "hi"), Record("s", "e", 1, true, "r", "note", "")];
            !Ascending(Timeline(RunAll(ops, cfg), "s"))
  {
    hide Valid, RunAll, Ascending, Timeline, Collides;
    var ops := [UserTurn("s", "m", "r", "hi"), Record("s", "e", 1, true, "r", "note", "")];
    TieRun(ops, cfg);
    RunsKeepValid(ops, cfg);
    TimelineOrdered(RunAll(ops, cfg), "s");
  }

  lemma AfterUserTurn(cfg: Config)
    ensures RunAll([UserTurn("s", "m", "r", "hi")], cfg)
         == Store(map["s" := Session(2, None)], [Row("m", "s", 1, true, Some("r"), MessageBody(User, Completed, "hi"))],
                  [], map["r" := NewRun("s", "m", Running)], [])
  {
    hide Summarize;
    var turn := UserTurn("s", "m", "r", "hi");
    assert [turn][..0] == [] && RunAll([], cfg) == EMPTY;
    assert EnsureSession(EMPTY, "s").sessions == map["s" := Session(1, None)];
  }

  lemma TieRun(ops: seq<Op>, cfg: Config)
    requires ops == [UserTurn("s", "m", "r", "hi"), Record("s", "e", 1, true, "r", "note", "")]
    ensures Collides(RunAll(ops, cfg), "s")
  {
    hide Valid, Summarize, RunAll;
    AfterUserTurn(cfg);
    RunAllSnoc(ops[..1], ops[1], cfg);
    assert ops[..1] == [ops[0]] && ops[..1] + [ops[1]] == ops;
    var st := Apply(RunAll(ops[..1], cfg), ops[1], cfg);
    assert st.events == [Row("e", "s", 1, true, Some("r"), EventBody("note", ""))];
    assert st.messages == [Row("m", "s", 1, true, Some("r"), MessageBody(User, Completed, "hi"))];
  }
}
