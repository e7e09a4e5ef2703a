/** The repository and the session manager as objects. The repository works on
    its tables in place and puts them back when a transaction fails; the manager
    checks, calls it, and keeps a ghost log of what was committed. */
module SessionStorage {
  import opened Common
  import opened PyText
  import opened TimelineStore
  import opened TimelineOrder
  import opened RowSlices
  import opened Summaries
  import opened TimelineRuns
  import opened RunRecords
  import opened SummaryRuns

  /** `insert_summary`: a known id is left alone; the session points to the new one. */
  function InsertSummary(st: Store, z: Summary): Result<Store, DbError> {
    if HasSummary(st.summaries, z.id) then Ok(st)
    else if z.session !in st.sessions then Err(NoSession)
    else
      Ok(st.(summaries := st.summaries + [z],
             sessions := st.sessions[z.session := st.sessions[z.session].(current := Some(z.id))]))
  }

  /** `SessionManager.append_message` checks the run before it stores. */
  function AppendedMessage(st: Store, m: Row): Result<Store, DbError> {
    if m.session !in st.sessions then Err(NoSession)
    else if m.run.None? then InsertMessage(st, m)
    else
      match LoadRun(st, m.run.value)
      case Err(e) => Err(e)
      case Ok(r) => if r.session != m.session then Err(WrongOwner) else InsertMessage(st, m)
  }

  /** `SessionManager.append_execution_event` files the event under the given run. */
  function AppendedEvent(st: Store, run: Id, e: Row): Result<Store, DbError> {
    if e.session !in st.sessions then Err(NoSession)
    else
      match LoadRun(st, run)
      case Err(error) => Err(error)
      case Ok(r) =>
        if r.session != e.session || (e.run.Some? && e.run.value != run) then Err(WrongOwner)
        else InsertEvent(st, e.(run := Some(run)))
  }

  /** Writing a run ends with reading it back, after the commit. */
  function ReadBack(st: Store, run: Id): Option<DbError> {
    if run in st.runs && !Readable(st.runs[run]) then Some(Unreadable) else None
  }

  // ---------- What a failure is reported with ----------

  /** The error handed to `fail_run`: none, a mapping (with the texts of its values,
      "" for a false one, in the order they are looked up), or an exception or other
      object. */
  datatype ErrorInfo =
    | NoError
    | Payload(status: string, codes: seq<string>, messages: seq<string>)
    | Object(name: string, text: string)

  function FirstText(texts: seq<string>): string {
    if texts == [] then "" else if texts[0] != "" then texts[0] else FirstText(texts[1..])
  }

  /** `_coerce_error_payload`. */
  function Coerce(e: ErrorInfo): Failure {
    match e
    case NoError => Failure(RunFailed, None, "")
    case Payload(status, codes, messages) =>
      var code := FirstText(codes);
      Failure(if status == "" then RunFailed else StatusOf(status), if code == "" then None else Some(code),
              FirstText(messages))
    case Object(name, text) => Failure(RunFailed, Some(name), text)
  }

  /** The error has a text, and neither an unknown status nor a blank code. */
  predicate Told(e: ErrorInfo) {
    match e
    case NoError => false
    case Payload(status, codes, messages) =>
      && (status == "" || Meaning(StatusOf(status)).Some?)
      && (FirstText(codes) == "" || !AllSpace(FirstText(codes)))
      && !AllSpace(FirstText(messages))
    case Object(name, text) => !AllSpace(name) && !AllSpace(text)
  }

  class SessionRepository {
    var sessions: map<Id, Session>
    var messages: seq<Row>
    var events: seq<Row>
    var runs: map<Id, Run>
    var summaries: seq<Summary>

    ghost function View(): Store
      reads this
    {
      Store(sessions, messages, events, runs, summaries)
    }

    /** A transaction ended as `r` says: committed as computed, or rolled back. */
    twostate predicate Ended(r: Result<Store, DbError>, new error: Option<DbError>)
      reads this
    {
      match r
      case Ok(st) => error.None? && View() == st
      case Err(e) => error == Some(e) && View() == old(View())
    }

    /** Writing a run: the same, but once committed the record is read back. */
    twostate predicate EndedReading(r: Result<Store, DbError>, run: Id, new error: Option<DbError>)
      reads this
    {
      match r
      case Ok(st) => View() == st && error == ReadBack(st, run)
      case Err(e) => error == Some(e) && View() == old(View())
    }

    constructor ()
      ensures View() == EMPTY
    {
      sessions, messages, events, runs, summaries := map[], [], [], map[], [];
    }

    method ReserveNextTimelineSeq(session: Id, requested: int) returns (at: Option<int>)
      modifies `sessions
      ensures session !in old(sessions) ==> at.None? && sessions == old(sessions)
      ensures session in old(sessions) ==>
                && at == Some(SlotFor(old(sessions)[session], requested))
                && sessions == old(sessions)[session := Reserved(old(sessions)[session], at.value)]
    {
      if session !in sessions {
        return None;
      }
      var current := sessions[session].next;
      var chosen := requested;
      if chosen <= 0 {
        chosen := current;
      }
      if current <= chosen {
        sessions := sessions[session := sessions[session].(next := chosen + 1)];
      }
      at := Some(chosen);
    }

    method EnsureSessionRow(session: Id)
      modifies `sessions
      ensures View() == EnsureSession(old(View()), session)
    {
      if session !in sessions {
        sessions := sessions[session := Session(1, None)];
      }
    }

    method StoreMessage(m: Row) returns (error: Option<DbError>)
      modifies `sessions, `messages
      ensures Ended(InsertMessage(old(View()), m), error)
    {
      if HasId(messages, m.id) {
        return None;
      }
      var before := sessions;
      var at := ReserveNextTimelineSeq(m.session, m.at);
      if at.None? {
        return Some(NoSession);
      }
      if HasSeq(messages, m.session, at.value) {
        sessions := before;
        return Some(SeqTaken);
      }
      messages := messages + [m.(at := at.value)];
      error := None;
    }

    method StoreExecutionEvent(e: Row) returns (error: Option<DbError>)
      modifies `sessions, `events
      ensures Ended(InsertEvent(old(View()), e), error)
    {
      if !e.visible || HasId(events, e.id) {
        return None;
      }
      var before := sessions;
      var at := ReserveNextTimelineSeq(e.session, e.at);
      if at.None? {
        return Some(NoSession);
      }
      if HasSeq(events, e.session, at.value) {
        sessions := before;
        return Some(SeqTaken);
      }
      if e.run.None? || e.run.value !in runs {
        sessions := before;
        return Some(NoRun);
      }
      events := events + [e.(at := at.value)];
      error := None;
    }

    method StoreUserTurn(session: Id, message: Id, run: Id, content: string) returns (error: Option<DbError>)
      modifies `sessions, `messages, `runs
      ensures Ended(CreateUserTurn(old(View()), session, message, run, content), error)
    {
      var before := sessions;
      EnsureSessionRow(session);
      var at := ReserveNextTimelineSeq(session, 0);
      if HasId(messages, message) || run in runs {
        sessions := before;
        return Some(IdTaken);
      }
      if HasSeq(messages, session, at.value) {
        sessions := before;
        return Some(SeqTaken);
      }
      messages := messages + [Row(message, session, at.value, true, Some(run), MessageBody(User, Completed, content))];
      runs := runs[run := NewRun(session, message, Running)];
      error := None;
    }

    method LoadRun(run: Id) returns (r: Result<Run, DbError>)
      ensures r == TimelineStore.LoadRun(View(), run)
    {
      if run !in runs {
        return Err(NoRun);
      }
      var stored := runs[run];
      var status := Meaning(stored.status);
      if status.None? || Blank(stored.errorCode) || Blank(stored.errorMessage) {
        return Err(Unreadable);
      }
      r := Ok(stored.(status := status.value, errorCode := Stripped(stored.errorCode),
                      errorMessage := Stripped(stored.errorMessage)));
    }

    method StoreRun(run: Id, r: Run) returns (error: Option<DbError>)
      modifies `runs
      ensures EndedReading(InsertRun(old(View()), run, r), run, error)
    {
      hide Loaded, Readable;
      if run !in runs {
        if r.session !in sessions {
          return Some(NoSession);
        }
        runs := runs[run := r];
      }
      var stored := LoadRun(run);
      error := if stored == Err(Unreadable) then Some(Unreadable) else None;
    }

    method ReplaceRun(run: Id, r: Run) returns (error: Option<DbError>)
      modifies `runs
      ensures EndedReading(UpdateRun(old(View()), run, r), run, error)
    {
      hide Loaded, Readable;
      if run in runs {
        if r.session !in sessions {
          return Some(NoSession);
        }
        runs := runs[run := r];
      }
      var stored := LoadRun(run);
      error := if stored == Err(Unreadable) then Some(Unreadable) else None;
    }

    /** Only runs still open are touched. */
    method InterruptRuns() returns (count: nat)
      modifies `runs
      ensures View() == MarkInterrupted(old(View()))
      ensures count == |set r | r in old(runs) && AfterInterruption(old(runs)[r]) != old(runs)[r]|
    {
      ghost var all := runs;
      var open := set r | r in runs
                          && (runs[r].status.RunPending? || runs[r].status.Running? || runs[r].status.WaitingUser?);
      assert open == set r | r in all && AfterInterruption(all[r]) != all[r];
      count := |open|;
      var left := open;
      while left != {}
        invariant left <= open
        invariant runs.Keys == all.Keys
        invariant forall r | r in all :: runs[r] == if r in open - left then AfterInterruption(all[r]) else all[r]
        decreases |left|
      {
        var r :| r in left;
        runs := runs[r := runs[r].(status := Interrupted)];
        left := left - {r};
      }
      assert runs == map r | r in all :: AfterInterruption(all[r]);
    }

    method LoadCurrentSummary(session: Id) returns (z: Option<Summary>)
      ensures z == CurrentSummary(View(), session)
    {
      if session !in sessions || sessions[session].current.None? {
        return None;
      }
      z := FindSummary(summaries, sessions[session].current.value);
    }

    method StoreSummary(z: Summary) returns (error: Option<DbError>)
      modifies `sessions, `summaries
      ensures Ended(InsertSummary(old(View()), z), error)
    {
      if HasSummary(summaries, z.id) {
        return None;
      }
      if z.session !in sessions {
        return Some(NoSession);
      }
      summaries := summaries + [z];
      sessions := sessions[z.session := sessions[z.session].(current := Some(z.id))];
      error := None;
    }

    method LoadChat(session: Id) returns (rows: seq<Row>)
      ensures rows == Chat(View(), session)
    {
      rows := Ordered(ChatRows(messages, session));
    }

    method LoadSessionTimeline(session: Id) returns (rows: seq<Row>)
      ensures rows == Timeline(View(), session)
    {
      rows := Ordered(VisibleRows(messages, session) + VisibleRows(events, session));
    }

    /** Deleting the session row cascades through every table. */
    method RemoveSession(session: Id)
      modifies this
      ensures View() == DeleteSession(old(View()), session)
    {
      runs := map r | r in runs && runs[r].session != session :: runs[r];
      messages := RowsWithout(messages, session, runs);
      events := RowsWithout(events, session, runs);
      summaries := SummariesWithout(summaries, session);
      sessions := sessions - {session};
    }
  }

  /** The transaction a message or event row asks for. */
  function AppendOp(m: Row): (op: Op)
    requires m.body.MessageBody?
    ensures op.Append? && MessageRow(op) == m
  {
    Append(m.session, m.id, m.at, m.visible, m.run, m.body.role, m.body.status, m.body.content)
  }

  function RecordOp(e: Row): (op: Op)
    requires e.body.EventBody? && e.run.Some?
    ensures op.Record? && EventRow(op) == e
  {
    Record(e.session, e.id, e.at, e.visible, e.run.value, e.body.kind, e.body.content)
  }

  class SessionManager {
    const repo: SessionRepository
    const cfg: Config
    const model: bool
    /** The transactions that went through, in order. */
    ghost var log: seq<Op>

    /** The tables are what those transactions make of the empty database. */
    ghost predicate Valid()
      reads this, repo
    {
      repo.View() == RunAll(log, cfg)
    }

    ghost function View(): Store
      reads repo
    {
      repo.View()
    }

    /** `op` went through and is logged, or failed with `r`'s error and left no trace. */
    twostate predicate Ended(r: Result<Store, DbError>, op: Op, new error: Option<DbError>)
      reads this, repo
    {
      match r
      case Ok(st) => error.None? && View() == st && log == old(log) + [op]
      case Err(e) => error == Some(e) && View() == old(View()) && log == old(log)
    }

    /** The same for a transaction that writes the run and reads it back: it is
        logged even when its record turns out unreadable. */
    twostate predicate EndedReading(r: Result<Store, DbError>, op: Op, run: Id, new error: Option<DbError>)
      reads this, repo
    {
      match r
      case Ok(st) => View() == st && log == old(log) + [op] && error == ReadBack(st, run)
      case Err(e) => error == Some(e) && View() == old(View()) && log == old(log)
    }

    constructor (cfg: Config, model: bool)
      ensures Valid() && fresh(repo) && View() == EMPTY && log == [] && this.cfg == cfg && this.model == model
    {
      this.repo := new SessionRepository();
      this.cfg, this.model := cfg, model;
      log := [];
    }

    /** What has just been committed goes into the log. */
    ghost method Log(op: Op, before: Store)
      requires before == RunAll(log, cfg) && Step(before, op, cfg) == Ok(View())
      modifies `log
      ensures Valid() && log == old(log) + [op]
    {
      RunAllSnoc(log, op, cfg);
      log := log + [op];
    }

    method CreateUserTurn(session: Id, message: Id, run: Id, content: string) returns (error: Option<DbError>)
      requires Valid()
      modifies this, repo
      ensures Valid()
      ensures Ended(TimelineStore.CreateUserTurn(old(View()), session, message, run, content),
                    UserTurn(session, message, run, content), error)
    {
      hide RunAll, TimelineStore.CreateUserTurn;
      ghost var before := View();
      error := repo.StoreUserTurn(session, message, run, content);
      if error.None? { Log(UserTurn(session, message, run, content), before); }
    }

    method AppendMessage(m: Row) returns (error: Option<DbError>)
      requires Valid() && m.body.MessageBody?
      modifies this, repo
      ensures Valid()
      ensures Ended(AppendedMessage(old(View()), m), AppendOp(m), error)
    {
      hide RunAll, InsertMessage, TimelineStore.LoadRun;
      if m.session !in repo.sessions {
        return Some(NoSession);
      }
      if m.run.Some? {
        var run := repo.LoadRun(m.run.value);
        if run.Err? {
          return Some(run.error);
        }
        if run.value.session != m.session {
          return Some(WrongOwner);
        }
      }
      ghost var before := View();
      error := repo.StoreMessage(m);
      if error.None? { Log(AppendOp(m), before); }
    }

    method AppendExecutionEvent(run: Id, e: Row) returns (error: Option<DbError>)
      requires Valid() && e.body.EventBody?
      modifies this, repo
      ensures Valid()
      ensures Ended(AppendedEvent(old(View()), run, e), RecordOp(e.(run := Some(run))), error)
    {
      hide RunAll, InsertEvent, TimelineStore.LoadRun;
      if e.session !in repo.sessions {
        return Some(NoSession);
      }
      var r := repo.LoadRun(run);
      if r.Err? {
        return Some(r.error);
      }
      if r.value.session != e.session || (e.run.Some? && e.run.value != run) {
        return Some(WrongOwner);
      }
      ghost var before := View();
      error := repo.StoreExecutionEvent(e.(run := Some(run)));
      if error.None? { Log(RecordOp(e.(run := Some(run))), before); }
    }

    method CreateRun(session: Id, message: Id, run: Id, status: RunStatus) returns (error: Option<DbError>)
      requires Valid()
      modifies this, repo
      ensures Valid()
      ensures EndedReading(TimelineStore.CreateRun(old(View()), session, message, run, status),
                           Create(session, message, run, status), run, error)
    {
      hide RunAll, FindMessage, Meaning, Readable;
      if session !in repo.sessions {
        return Some(NoSession);
      }
      var found := FindMessage(repo.messages, message);
      if found.None? {
        return Some(NoMessage);
      }
      if found.value.session != session {
        return Some(WrongOwner);
      }
      if !found.value.body.MessageBody? || found.value.body.role != User {
        return Some(WrongOwner);
      }
      var meaning := Meaning(status);
      if meaning.None? {
        return Some(Unreadable);
      }
      ghost var before := View();
      error := repo.StoreRun(run, NewRun(session, message, meaning.value));
      Log(Create(session, message, run, status), before);
    }

    /** Writing the record back cannot fail: a run's session is always stored, and
        what could be read before can be read after. */
    method CompleteRun(run: Id, message: Id) returns (error: Option<DbError>)
      requires Valid()
      modifies this, repo
      ensures Valid()
      ensures Ended(TimelineStore.CompleteRun(old(View()), run, message), Complete(run, message), error)
    {
      hide RunAll, FindMessage, Readable, Meaning, Stripped;
      var loaded := repo.LoadRun(run);
      if loaded.Err? {
        return Some(loaded.error);
      }
      var found := FindMessage(repo.messages, message);
      if found.None? {
        return Some(NoMessage);
      }
      var (r, m) := (loaded.value, found.value);
      if m.session != r.session {
        return Some(WrongOwner);
      }
      if !m.body.MessageBody? || m.body.role != Assistant {
        return Some(WrongOwner);
      }
      if m.run != Some(run) {
        return Some(WrongOwner);
      }
      ghost var before := View();
      OwnerIsStored(before, log, cfg, run);
      CompletedIsReadable(before.runs[run], message);
      error := repo.ReplaceRun(run, r.(status := RunCompleted, finalMessage := Some(message)));
      Log(Complete(run, message), before);
    }

    /** The record is committed before it is read back, so an error without text is
        stored and yet reported as a failed call. */
    method FailRun(run: Id, e: ErrorInfo) returns (error: Option<DbError>)
      requires Valid()
      modifies this, repo
      ensures Valid()
      ensures EndedReading(TimelineStore.FailRun(old(View()), run, Coerce(e)), Fail(run, Coerce(e)), run, error)
      ensures error.None? <==> TimelineStore.LoadRun(old(View()), run).Ok? && Told(e)
    {
      hide RunAll, Readable, Coerce, Told, Meaning, Stripped;
      var r := repo.LoadRun(run);
      if r.Err? {
        return Some(r.error);
      }
      ghost var before := View();
      OwnerIsStored(before, log, cfg, run);
      FailureReadsBack(before, run, e);
      error := repo.ReplaceRun(run, FailedRecord(r.value, Coerce(e)));
      Log(Fail(run, Coerce(e)), before);
    }

    method RecoverInterruptedRuns() returns (count: nat)
      requires Valid()
      modifies this, repo
      ensures Valid() && View() == MarkInterrupted(old(View())) && log == old(log) + [Interrupt]
    {
      hide RunAll, MarkInterrupted;
      ghost var before := View();
      count := repo.InterruptRuns();
      Log(Interrupt, before);
    }

    /** The checks of `update_summary`, and the repository call. */
    method Summarise(session: Id, id: Id, coveredTo: int, content: string, sources: seq<Id>)
      returns (error: Option<DbError>)
      modifies repo
      ensures repo.Ended(TimelineStore.UpdateSummary(old(View()), session, id, coveredTo, content, sources), error)
    {
      if session !in repo.sessions {
        return Some(NoSession);
      }
      var current := repo.LoadCurrentSummary(session);
      var from := 1;
      if current.Some? {
        from := current.value.to + 1;
      }
      if coveredTo < from {
        return Some(BadCoverage);
      }
      if coveredTo > repo.sessions[session].next - 1 {
        return Some(BadCoverage);
      }
      error := repo.StoreSummary(Summary(id, session, from, coveredTo, content, sources));
    }

    /** A summary written by hand names no sources. */
    method UpdateSummary(session: Id, id: Id, coveredTo: int, content: string) returns (error: Option<DbError>)
      requires Valid()
      modifies this, repo
      ensures Valid()
      ensures Ended(TimelineStore.UpdateSummary(old(View()), session, id, coveredTo, content, []),
                    Manual(session, id, coveredTo, content), error)
    {
      hide RunAll, TimelineStore.UpdateSummary;
      ghost var before := View();
      error := Summarise(session, id, coveredTo, content, []);
      if error.None? { Log(Manual(session, id, coveredTo, content), before); }
    }

    method BuildCandidate(session: Id) returns (rows: seq<Row>)
      ensures rows == Candidates(View(), session, cfg)
    {
      var chat := repo.LoadChat(session);
      var recent := Recent(chat, cfg.maxRecent);
      if recent == [] {
        return [];
      }
      var current := repo.LoadCurrentSummary(session);
      rows := LoadBefore(chat, recent[0].at);
      if current.Some? {
        rows := KeepAfter(rows, current.value.to);
      }
    }

    /** `maybe_auto_summarize` down to the stored summary. */
    method MaybeAutoSummarize(session: Id, compressed: Option<string>, id: Id) returns (error: Option<DbError>)
      requires Valid()
      modifies this, repo
      ensures Valid()
      ensures Ended(Summarize(old(View()), session, cfg, model, compressed, id),
                    Auto(session, id, model, compressed), error)
    {
      hide RunAll, TimelineStore.UpdateSummary, Candidates;
      ghost var before := View();
      if session !in repo.sessions {
        return Some(NoSession);
      }
      error := None;
      var chat := repo.LoadChat(session);
      if |chat| > cfg.trigger && model {
        var candidates := BuildCandidate(session);
        if |candidates| >= cfg.batch && candidates != [] && compressed.Some? {
          error := Summarise(session, id, candidates[|candidates| - 1].at, compressed.value, Ids(candidates));
        }
      }
      if error.None? { Log(Auto(session, id, model, compressed), before); }
    }

    method GetSessionTimeline(session: Id) returns (rows: Option<seq<Row>>)
      ensures rows == if session in View().sessions then Some(Timeline(View(), session)) else None
    {
      if session !in repo.sessions {
        return None;
      }
      var all := repo.LoadSessionTimeline(session);
      rows := Some(all);
    }

    method DeleteSession(session: Id)
      requires Valid()
      modifies this, repo
      ensures Valid() && log == old(log) + [Delete(session)]
      ensures View() == TimelineStore.DeleteSession(old(View()), session)
    {
      hide RunAll, TimelineStore.DeleteSession;
      ghost var before := View();
      repo.RemoveSession(session);
      Log(Delete(session), before);
    }
  }

  lemma OwnerIsStored(st: Store, log: seq<Op>, cfg: Config, run: Id)
    requires st == RunAll(log, cfg) && run in st.runs
    ensures st.runs[run].session in st.sessions
  {
    hide RunAll, MessagesOk, EventsOk, SummariesOk;
    RunsKeepValid(log, cfg);
  }

  // ---------- Errors without text ----------

  /** The first text that is not empty, or the empty one if there is none. */
  lemma {:induction false} FirstTextIs(texts: seq<string>)
    ensures FirstText(texts) == "" <==> forall t | t in texts :: t == ""
    ensures FirstText(texts) != "" ==>
              exists i | 0 <= i < |texts| :: texts[i] == FirstText(texts) && forall j | 0 <= j < i :: texts[j] == ""
  {
    if texts != [] {
      var rest := texts[1..];
      assert texts == [texts[0]] + rest;
      FirstTextIs(rest);
      assert texts[0] in texts && forall t :: t in texts <==> t == texts[0] || t in rest;
      if texts[0] == "" && FirstText(rest) != "" {
        var i :| 0 <= i < |rest| && rest[i] == FirstText(rest) && forall j | 0 <= j < i :: rest[j] == "";
        assert texts[i + 1] == rest[i] && forall j | 1 <= j < i + 1 :: texts[j] == rest[j - 1];
      }
    }
  }

  lemma ToldIsLegible(e: ErrorInfo)
    ensures var f := Coerce(e);
            Told(e) <==> Meaning(f.status).Some? && !Blank(f.code) && !Blank(Some(f.message))
  {
    hide Meaning, StatusOf;
    NewIsReadable("", "", RunFailed);
  }

  /** The record `fail_run` commits can be read back exactly when the error was told. */
  lemma FailureReadsBack(st: Store, run: Id, e: ErrorInfo)
    requires LoadRun(st, run).Ok?
    ensures var after := FailRun(st, run, Coerce(e)).value; ReadBack(after, run).None? <==> Told(e)
  {
    hide Coerce, Told, Readable, Meaning, Loaded, Strip;
    FailedIsReadable(st.runs[run], Coerce(e));
    ToldIsLegible(e);
  }

  /** A run that cannot be read back can be neither completed nor failed again, and
      no message or event can be filed under it. */
  lemma UnreadableRefusesAll(st: Store, run: Id, message: Id, f: Failure, m: Row, e: Row)
    requires run in st.runs && !Readable(st.runs[run]) && m.run == Some(run)
    ensures CompleteRun(st, run, message).Err? && FailRun(st, run, f).Err?
    ensures AppendedMessage(st, m).Err? && AppendedEvent(st, run, e).Err?
  {
    hide Readable;
  }

  /** Nothing the manager does afterwards mends it: after `fail_run` was called for a
      readable run with an error that was not told, the run is stored but unreadable
      for as long as its session is. */
  lemma UntoldFailureIsForGood(ops: seq<Op>, more: seq<Op>, cfg: Config, run: Id, e: ErrorInfo)
    requires LoadRun(RunAll(ops, cfg), run).Ok? && !Told(e)
    requires var owner := RunAll(ops, cfg).runs[run].session;
             forall op | op in more :: !op.Update? && op != Delete(owner)
    ensures var st := RunAll(ops + [Fail(run, Coerce(e))] + more, cfg); run in st.runs && !Readable(st.runs[run])
  {
    hide RunAll, Apply, Readable, Told, Coerce, Loaded;
    var st := RunAll(ops, cfg);
    FailureReadsBack(st, run, e);
    RunAllSnoc(ops, Fail(run, Coerce(e)), cfg);
    AppliedFailure(st, run, Coerce(e), cfg);
    UnreadableForGood(ops + [Fail(run, Coerce(e))], more, cfg, run, st.runs[run].session);
  }

  lemma AppliedFailure(st: Store, run: Id, f: Failure, cfg: Config)
    requires LoadRun(st, run).Ok?
    ensures Apply(st, Fail(run, f), cfg) == FailRun(st, run, f).value
    ensures FailRun(st, run, f).value.runs.Keys == st.runs.Keys
    ensures FailRun(st, run, f).value.runs[run].session == st.runs[run].session
  {
    hide Readable;
  }

  /** Errors that are not told: none, one without text, and a payload with nothing but a status. */
  lemma UntoldErrors()
    ensures !Told(NoError) && !Told(Object("TimeoutError", "")) && !Told(Payload("failed", ["", "", ""], ["", "", ""]))
  {
    assert ["", "", ""][1..] == ["", ""] && ["", ""][1..] == [""] && [""][1..] == [];
  }

  // ---------- What holds of every manager object ----------

  /** Whatever was done through it: the tables are consistent; agent runs have their
      question and answer at every moment exactly when every call was honest, and can
      be read back exactly when every call was legible; and with allocated seqs every
      timeline is strict. */
  lemma ManagerIsConsistent(m: SessionManager)
    requires m.Valid()
    ensures TimelineStore.Valid(m.View())
    ensures AlwaysAccounted(m.log, m.cfg) <==> HonestThroughout(m.log, m.cfg)
    ensures AlwaysReadable(m.log, m.cfg) <==> LegibleThroughout(m.log, m.cfg)
    ensures HonestThroughout(m.log, m.cfg) ==> AllAccounted(m.View())
    ensures LegibleThroughout(m.log, m.cfg) ==> AllReadable(m.View())
    ensures (forall op | op in m.log :: Allocates(op)) ==> forall session :: Ascending(Timeline(m.View(), session))
  {
    hide RunAll, TimelineStore.Valid, AllAccounted, AllReadable, Ascending, Timeline, Allocates;
    hide AlwaysAccounted, HonestThroughout, AlwaysReadable, LegibleThroughout;
    RunsKeepValid(m.log, m.cfg);
    AccountedIffHonest(m.log, m.cfg);
    ReadableIffLegible(m.log, m.cfg);
    if HonestThroughout(m.log, m.cfg) { NowAccounted(m.log, m.cfg); }
    if LegibleThroughout(m.log, m.cfg) { NowReadable(m.log, m.cfg); }
    if forall op | op in m.log :: Allocates(op) {
      forall session ensures Ascending(Timeline(m.View(), session)) { TimelineIsStrict(m.log, m.cfg, session); }
    }
  }

  /** And with automatic operation each chat message is summarised exactly once. */
  lemma ManagerSummarisesOnce(m: SessionManager, session: Id)
    requires m.Valid() && m.cfg.maxRecent > 0 && session in m.View().sessions
    requires forall op | op in m.log :: Automatic(op)
    ensures var (st, chain) := (m.View(), Chain(m.View(), session));
            var rows := Covered(st, session) + Candidates(st, session, m.cfg) + Window(st, session, m.cfg);
            && AreTheTalk(rows, st.messages, session) && NoRepeats(Ids(rows))
            && AllSources(chain) + Ids(Candidates(st, session, m.cfg)) + Ids(Window(st, session, m.cfg)) == Ids(rows)
  {
    hide RunAll, Chain, Candidates, Window, Covered, Ids, AllSources, NoRepeats, AreTheTalk, Automatic;
    SummarisedExactlyOnce(m.log, m.cfg, session);
  }
}
