/** The session tables of the SQLite repository as one value, and each
    transaction as a function on it. */
module TimelineStore {
  import opened Common
  import opened PyText

  type Id = string

  datatype Role = User | Assistant | System | Tool

  datatype Status = Pending | Streaming | Completed | Failed | Cancelled

  datatype Body =
    | MessageBody(role: Role, status: Status, content: string)
    | EventBody(kind: string, content: string)

  /** A row of the message or the event table. */
  datatype Row = Row(id: Id, session: Id, at: int, visible: bool, run: Option<Id>, body: Body)

  predicate NamesStatus(text: string) {
    text in ["pending", "running", "waiting_user", "completed", "failed", "partial_failed", "blocked", "cancelled",
             "request_replan", "interrupted"]
  }

  type OddText = text: string | !NamesStatus(text) witness "?"

  /** `AgentRunStatus`, or any other text stored in its place. */
  datatype RunStatus =
    | RunPending | Running | WaitingUser | RunCompleted | RunFailed | PartialFailed | RunBlocked | RunCancelled
    | RequestReplan | Interrupted | Odd(text: OddText)

  datatype Run = Run(
    session: Id, userMessage: Id, status: RunStatus, finalMessage: Option<Id>,
    errorCode: Option<string>, errorMessage: Option<string>)

  function NewRun(session: Id, message: Id, status: RunStatus): Run {
    Run(session, message, status, None, None, None)
  }

  /** `sources` are the messages handed to the compressor for it. */
  datatype Summary = Summary(id: Id, session: Id, from: int, to: int, content: string, sources: seq<Id>)

  datatype Session = Session(next: int, current: Option<Id>)

  datatype Store = Store(
    sessions: map<Id, Session>, messages: seq<Row>, events: seq<Row>, runs: map<Id, Run>, summaries: seq<Summary>)

  const EMPTY := Store(map[], [], [], map[], [])

  datatype DbError =
    | NoSession | NoRun | NoMessage | SeqTaken | IdTaken | BadCoverage | WrongOwner | Unreadable

  // ---------- Transactions ----------

  predicate HasId(rows: seq<Row>, id: Id) { exists r | r in rows :: r.id == id }

  predicate HasSeq(rows: seq<Row>, session: Id, at: int) {
    exists r | r in rows :: r.session == session && r.at == at
  }

  predicate HasSummary(rows: seq<Summary>, id: Id) { exists z | z in rows :: z.id == id }

  /** The seq `_reserve_next_timeline_seq` hands out: a positive request as
      asked, anything else from the session's counter. */
  function SlotFor(s: Session, requested: int): int {
    if requested <= 0 then s.next else requested
  }

  function Reserved(s: Session, at: int): Session {
    if s.next <= at then s.(next := at + 1) else s
  }

  function EnsureSession(st: Store, session: Id): Store {
    if session in st.sessions then st else st.(sessions := st.sessions[session := Session(1, None)])
  }

  function InsertMessage(st: Store, m: Row): Result<Store, DbError> {
    if HasId(st.messages, m.id) then Ok(st)
    else if m.session !in st.sessions then Err(NoSession)
    else
      var at := SlotFor(st.sessions[m.session], m.at);
      if HasSeq(st.messages, m.session, at) then Err(SeqTaken)
      else
        Ok(st.(sessions := st.sessions[m.session := Reserved(st.sessions[m.session], at)],
               messages := st.messages + [m.(at := at)]))
  }

  /** Events not meant for the user are skipped. */
  function InsertEvent(st: Store, e: Row): Result<Store, DbError> {
    if !e.visible || HasId(st.events, e.id) then Ok(st)
    else if e.session !in st.sessions then Err(NoSession)
    else
      var at := SlotFor(st.sessions[e.session], e.at);
      if HasSeq(st.events, e.session, at) then Err(SeqTaken)
      else if e.run.None? || e.run.value !in st.runs then Err(NoRun)
      else
        Ok(st.(sessions := st.sessions[e.session := Reserved(st.sessions[e.session], at)],
               events := st.events + [e.(at := at)]))
  }

  /** One transaction: session if need be, user message, run. */
  function CreateUserTurn(st: Store, session: Id, message: Id, run: Id, content: string): Result<Store, DbError> {
    var st1 := EnsureSession(st, session);
    if HasId(st.messages, message) || run in st.runs then Err(IdTaken)
    else
      var m := Row(message, session, 0, true, Some(run), MessageBody(User, Completed, content));
      match InsertMessage(st1, m)
      case Err(e) => Err(e)
      case Ok(st2) => Ok(st2.(runs := st2.runs[run := NewRun(session, message, Running)]))
  }

  function FindMessage(rows: seq<Row>, id: Id): Option<Row> {
    if rows == [] then None
    else if rows[|rows| - 1].id == id then Some(rows[|rows| - 1])
    else FindMessage(rows[..|rows| - 1], id)
  }

  // ---------- Reading runs back ----------

  function StatusOf(text: string): RunStatus {
    if text == "pending" then RunPending
    else if text == "running" then Running
    else if text == "waiting_user" then WaitingUser
    else if text == "completed" then RunCompleted
    else if text == "failed" then RunFailed
    else if text == "partial_failed" then PartialFailed
    else if text == "blocked" then RunBlocked
    else if text == "cancelled" then RunCancelled
    else if text == "request_replan" then RequestReplan
    else if text == "interrupted" then Interrupted
    else Odd(text)
  }

  /** What a stored status is read as; None when it cannot be. */
  function Meaning(s: RunStatus): Option<RunStatus> {
    if !s.Odd? then Some(s)
    else if StatusOf(Normalize(s.text)).Odd? then None
    else Some(StatusOf(Normalize(s.text)))
  }

  predicate Blank(text: Option<string>) { text.Some? && Strip(text.value) == "" }

  /** `AgentRun.__post_init__` takes the record: an error text, if any, is not blank. */
  predicate Readable(r: Run) {
    Meaning(r.status).Some? && !Blank(r.errorCode) && !Blank(r.errorMessage)
  }

  function Stripped(text: Option<string>): Option<string> { if text.Some? then Some(Strip(text.value)) else None }

  /** The record as its class normalises it. */
  function Loaded(r: Run): Run
    requires Readable(r)
  {
    r.(status := Meaning(r.status).value, errorCode := Stripped(r.errorCode), errorMessage := Stripped(r.errorMessage))
  }

  function LoadRun(st: Store, run: Id): Result<Run, DbError> {
    if run !in st.runs then Err(NoRun)
    else if !Readable(st.runs[run]) then Err(Unreadable)
    else Ok(Loaded(st.runs[run]))
  }

  /** `SessionManager.complete_run`: the final message must be this run's
      assistant message. The run's old status is not looked at. */
  function CompleteRun(st: Store, run: Id, message: Id): Result<Store, DbError> {
    match LoadRun(st, run)
    case Err(e) => Err(e)
    case Ok(r) =>
      var found := FindMessage(st.messages, message);
      if found.None? then Err(NoMessage)
      else
        var m := found.value;
        if m.session != r.session || !m.body.MessageBody? || m.body.role != Assistant || m.run != Some(run) then
          Err(WrongOwner)
        else
          Ok(st.(runs := st.runs[run := r.(status := RunCompleted, finalMessage := Some(message))]))
  }

  /** What a failure is reported with. */
  datatype Failure = Failure(status: RunStatus, code: Option<string>, message: string)

  function FailedRecord(r: Run, f: Failure): Run {
    r.(status := f.status, errorCode := f.code, errorMessage := Some(f.message))
  }

  /** What `fail_run` commits: the record is written as it is, before it is read back. */
  function FailRun(st: Store, run: Id, f: Failure): Result<Store, DbError> {
    match LoadRun(st, run)
    case Err(e) => Err(e)
    case Ok(r) => Ok(st.(runs := st.runs[run := FailedRecord(r, f)]))
  }

  /** `insert_run`: a known id is left alone. */
  function InsertRun(st: Store, run: Id, r: Run): Result<Store, DbError> {
    if run in st.runs then Ok(st)
    else if r.session !in st.sessions then Err(NoSession)
    else Ok(st.(runs := st.runs[run := r]))
  }

  /** `update_run`: an unknown id is no error. */
  function UpdateRun(st: Store, run: Id, r: Run): Result<Store, DbError> {
    if run !in st.runs then Ok(st)
    else if r.session !in st.sessions then Err(NoSession)
    else Ok(st.(runs := st.runs[run := r]))
  }

  /** `SessionManager.create_run`, for a user message of the session. */
  function CreateRun(st: Store, session: Id, message: Id, run: Id, status: RunStatus): Result<Store, DbError> {
    var found := FindMessage(st.messages, message);
    if session !in st.sessions then Err(NoSession)
    else if found.None? then Err(NoMessage)
    else if found.value.session != session || !found.value.body.MessageBody? || found.value.body.role != User then
      Err(WrongOwner)
    else if Meaning(status).None? then Err(Unreadable)
    else InsertRun(st, run, NewRun(session, message, Meaning(status).value))
  }

  function AfterInterruption(r: Run): Run {
    if r.status.RunPending? || r.status.Running? || r.status.WaitingUser? then r.(status := Interrupted) else r
  }

  /** `mark_interrupted_runs`. */
  function MarkInterrupted(st: Store): Store {
    st.(runs := map r | r in st.runs :: AfterInterruption(st.runs[r]))
  }

  function FindSummary(rows: seq<Summary>, id: Id): Option<Summary> {
    if rows == [] then None
    else if rows[|rows| - 1].id == id then Some(rows[|rows| - 1])
    else FindSummary(rows[..|rows| - 1], id)
  }

  function CurrentSummary(st: Store, session: Id): Option<Summary> {
    if session in st.sessions && st.sessions[session].current.Some?
    then FindSummary(st.summaries, st.sessions[session].current.value)
    else None
  }

  function CoveredTo(st: Store, session: Id): int {
    var z := CurrentSummary(st, session);
    if z.Some? then z.value.to else 0
  }

  /** `SessionManager.update_summary`. */
  function UpdateSummary(
    st: Store, session: Id, id: Id, coveredTo: int, content: string, sources: seq<Id>): Result<Store, DbError>
  {
    if session !in st.sessions then Err(NoSession)
    else
      var from := CoveredTo(st, session) + 1;
      if coveredTo < from || coveredTo > st.sessions[session].next - 1 then Err(BadCoverage)
      else if HasSummary(st.summaries, id) then Ok(st)
      else
        Ok(st.(summaries := st.summaries + [Summary(id, session, from, coveredTo, content, sources)],
               sessions := st.sessions[session := st.sessions[session].(current := Some(id))]))
  }

  function RowsWithout(rows: seq<Row>, session: Id, runs: map<Id, Run>): seq<Row> {
    if rows == [] then []
    else
      var r := rows[|rows| - 1];
      RowsWithout(rows[..|rows| - 1], session, runs)
      + if r.session == session || (r.body.EventBody? && r.run.Some? && r.run.value !in runs) then [] else [r]
  }

  function SummariesWithout(rows: seq<Summary>, session: Id): seq<Summary> {
    if rows == [] then []
    else
      SummariesWithout(rows[..|rows| - 1], session)
      + if rows[|rows| - 1].session == session then [] else [rows[|rows| - 1]]
  }

  /** Deletion cascades to the session's messages, runs, events (also those of
      its runs) and summaries. */
  function DeleteSession(st: Store, session: Id): Store {
    var runs := map r | r in st.runs && st.runs[r].session != session :: st.runs[r];
    Store(st.sessions - {session}, RowsWithout(st.messages, session, runs), RowsWithout(st.events, session, runs),
          runs, SummariesWithout(st.summaries, session))
  }

  // ---------- Queries ----------

  /** `ORDER BY timeline_seq ASC`. */
  function InsertOrdered(sorted: seq<Row>, r: Row): seq<Row> {
    if sorted == [] || sorted[|sorted| - 1].at <= r.at then sorted + [r]
    else InsertOrdered(sorted[..|sorted| - 1], r) + [sorted[|sorted| - 1]]
  }

  function Ordered(rows: seq<Row>): seq<Row> {
    if rows == [] then [] else InsertOrdered(Ordered(rows[..|rows| - 1]), rows[|rows| - 1])
  }

  /** Completed user and assistant messages: what summaries are about. */
  predicate IsChat(r: Row, session: Id) {
    r.session == session && r.body.MessageBody? && r.body.status == Completed
    && (r.body.role == User || r.body.role == Assistant)
  }

  function ChatRows(rows: seq<Row>, session: Id): seq<Row> {
    if rows == [] then []
    else ChatRows(rows[..|rows| - 1], session) + if IsChat(rows[|rows| - 1], session) then [rows[|rows| - 1]] else []
  }

  function Chat(st: Store, session: Id): seq<Row> { Ordered(ChatRows(st.messages, session)) }

  function VisibleRows(rows: seq<Row>, session: Id): seq<Row> {
    if rows == [] then []
    else
      var r := rows[|rows| - 1];
      VisibleRows(rows[..|rows| - 1], session) + if r.session == session && r.visible then [r] else []
  }

  /** `load_session_timeline`. */
  function Timeline(st: Store, session: Id): seq<Row> {
    Ordered(VisibleRows(st.messages, session) + VisibleRows(st.events, session))
  }

  function SummariesOf(rows: seq<Summary>, session: Id): seq<Summary> {
    if rows == [] then []
    else
      SummariesOf(rows[..|rows| - 1], session)
      + if rows[|rows| - 1].session == session then [rows[|rows| - 1]] else []
  }

  /** A session's summaries, oldest first. */
  function Chain(st: Store, session: Id): seq<Summary> { SummariesOf(st.summaries, session) }

  // ---------- The invariant ----------

  predicate DistinctIds(rows: seq<Row>) {
    forall i, j | 0 <= i < j < |rows| :: rows[i].id != rows[j].id
  }

  predicate DistinctSlots(rows: seq<Row>) {
    forall i, j | 0 <= i < j < |rows| && rows[i].session == rows[j].session :: rows[i].at != rows[j].at
  }

  /** Every row belongs to a live session, below its counter. */
  predicate Counted(rows: seq<Row>, sessions: map<Id, Session>) {
    forall r | r in rows :: r.session in sessions && 1 <= r.at < sessions[r.session].next
  }

  predicate TableOk(rows: seq<Row>, sessions: map<Id, Session>) {
    DistinctIds(rows) && DistinctSlots(rows) && Counted(rows, sessions)
  }

  /** Contiguous, nonempty ranges from 1, below `next`; `current` names the last. */
  predicate ChainOk(chain: seq<Summary>, s: Session) {
    && (chain != [] ==> chain[0].from == 1)
    && (forall i | 0 < i < |chain| :: chain[i].from == chain[i - 1].to + 1)
    && (forall i | 0 <= i < |chain| :: chain[i].from <= chain[i].to < s.next)
    && s.current == (if chain == [] then None else Some(chain[|chain| - 1].id))
  }

  predicate DistinctSummaries(rows: seq<Summary>) {
    forall i, j | 0 <= i < j < |rows| :: rows[i].id != rows[j].id
  }

  predicate MessagesOk(rows: seq<Row>, sessions: map<Id, Session>) {
    TableOk(rows, sessions) && forall m | m in rows :: m.body.MessageBody?
  }

  predicate EventsOk(rows: seq<Row>, sessions: map<Id, Session>, runs: map<Id, Run>) {
    TableOk(rows, sessions) && forall e | e in rows :: e.body.EventBody? && e.run.Some? && e.run.value in runs
  }

  predicate RunsOk(runs: map<Id, Run>, sessions: map<Id, Session>) {
    forall r | r in runs :: runs[r].session in sessions
  }

  predicate CountersOk(sessions: map<Id, Session>) {
    forall k | k in sessions :: sessions[k].next >= 1
  }

  predicate ChainsOk(rows: seq<Summary>, sessions: map<Id, Session>) {
    forall k | k in sessions :: ChainOk(SummariesOf(rows, k), sessions[k])
  }

  predicate SummariesOk(rows: seq<Summary>, sessions: map<Id, Session>) {
    DistinctSummaries(rows) && ChainsOk(rows, sessions) && forall z | z in rows :: z.session in sessions
  }

  predicate Valid(st: Store) {
    && CountersOk(st.sessions)
    && MessagesOk(st.messages, st.sessions)
    && EventsOk(st.events, st.sessions, st.runs)
    && RunsOk(st.runs, st.sessions)
    && SummariesOk(st.summaries, st.sessions)
  }
}
