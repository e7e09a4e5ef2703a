/** The adapter between the agent and the repository. Storage may fail at any
    call, before or after its transaction commits; the turn then goes on
    without persistence. */
module RuntimeAdapter {
  import opened Common
  import opened PyText
  import opened TimelineStore
  import opened TimelineInvariants
  import opened RowSlices
  import opened Summaries
  import opened TimelineRuns
  import opened RunRecords
  import opened SummaryRuns
  import opened SessionStorage

  /** Where a repository call raises, if at all. */
  datatype Fault = NoFault | BeforeCommit | AfterCommit

  /** What the environment decides during one call of the adapter. */
  datatype World = World(
    store: Fault, finish: Fault, summarize: Fault, timeline: Fault, summary: Id, compressed: Option<string>)

  /** Which session and run a turn belongs to, and whether the manager has a model. */
  datatype Turn = Turn(session: Id, run: Id, cfg: Config, model: bool)

  datatype Call =
    | RecordEvent(event: Row)
    | CompleteTurn(message: Id, content: string, summarize: bool, timeline: bool)
    | FailTurn(error: ErrorInfo, summarize: bool, timeline: bool)

  datatype TurnState = TurnState(store: Store, available: bool)

  // ---------- What a call does ----------

  predicate Went(r: Result<Store, DbError>, fault: Fault) { fault.NoFault? && r.Ok? }

  /** One guarded repository call; after a failure the remaining ones are skipped. */
  function Attempt(s: TurnState, r: Result<Store, DbError>, fault: Fault): TurnState {
    if !s.available then s
    else TurnState(if fault.BeforeCommit? || r.Err? then s.store else r.value, Went(r, fault))
  }

  /** Reading a run back after the commit may fail too. */
  function ReadFault(r: Result<Store, DbError>, run: Id, fault: Fault): Fault {
    if fault.NoFault? && r.Ok? && ReadBack(r.value, run).Some? then AfterCommit else fault
  }

  /** `SessionManager.fail_run`, guarded. */
  function Failing(s: TurnState, turn: Turn, error: ErrorInfo, fault: Fault): TurnState {
    var r := FailRun(s.store, turn.run, Coerce(error));
    Attempt(s, r, ReadFault(r, turn.run, fault))
  }

  function Answer(turn: Turn, message: Id, content: string): Row {
    Row(message, turn.session, 0, true, Some(turn.run), MessageBody(Assistant, Completed, content))
  }

  function LoadTimeline(st: Store, session: Id): Result<Store, DbError> {
    if session in st.sessions then Ok(st) else Err(NoSession)
  }

  function Summarized(st: Store, turn: Turn, w: World): Result<Store, DbError> {
    Summarize(st, turn.session, turn.cfg, turn.model, w.compressed, w.summary)
  }

  /** The tail shared by both ways to end a turn. */
  function Finalize(s: TurnState, turn: Turn, summarize: bool, timeline: bool, w: World): TurnState {
    var s1 := if summarize then Attempt(s, Summarized(s.store, turn, w), w.summarize) else s;
    if timeline then Attempt(s1, LoadTimeline(s1.store, turn.session), w.timeline) else s1
  }

  function After(s: TurnState, turn: Turn, call: Call, w: World): TurnState {
    match call
    case RecordEvent(e) => Attempt(s, AppendedEvent(s.store, turn.run, e), w.store)
    case CompleteTurn(message, content, summarize, timeline) =>
      var s1 := Attempt(s, AppendedMessage(s.store, Answer(turn, message, content)), w.store);
      var s2 := Attempt(s1, CompleteRun(s1.store, turn.run, message), w.finish);
      Finalize(s2, turn, summarize, timeline, w)
    case FailTurn(error, summarize, timeline) =>
      Finalize(Failing(s, turn, error, w.finish), turn, summarize, timeline, w)
  }

  function AfterAll(s: TurnState, turn: Turn, calls: seq<(Call, World)>): TurnState {
    if calls == [] then s
    else
      var (call, w) := calls[|calls| - 1];
      After(AfterAll(s, turn, calls[..|calls| - 1]), turn, call, w)
  }

  // ---------- The adapter ----------

  /** What a call reports: `run` is the status of the run record handed back. */
  datatype Outcome = Outcome(success: bool, run: RunStatus, available: bool, timeline: Option<seq<Row>>)

  class RuntimeMemoryTurn {
    const turn: Turn
    var persistenceAvailable: bool
    var warning: Option<string>

    constructor (turn: Turn, available: bool)
      ensures this.turn == turn && persistenceAvailable == available
    {
      this.turn := turn;
      persistenceAvailable := available;
      warning := if available then None else Some("begin_turn");
    }
  }

  class RuntimeMemoryAdapter {
    const manager: SessionManager

    constructor (manager: SessionManager)
      ensures this.manager == manager
    {
      this.manager := manager;
    }

    ghost function State(turn: RuntimeMemoryTurn): TurnState
      reads manager.repo, turn
    {
      TurnState(manager.View(), turn.persistenceAvailable)
    }

    /** The turn belongs to this manager. */
    ghost predicate Fits(turn: RuntimeMemoryTurn)
      reads manager, manager.repo
    {
      manager.Valid() && turn.turn.cfg == manager.cfg && turn.turn.model == manager.model
    }

    method MarkPersistenceFailure(turn: RuntimeMemoryTurn, operation: string)
      modifies turn
      ensures !turn.persistenceAvailable && turn.warning == Some(operation)
    {
      turn.persistenceAvailable := false;
      turn.warning := Some(operation);
    }

    method RecordEvent(turn: RuntimeMemoryTurn, event: Row, w: World)
      requires Fits(turn) && event.body.EventBody?
      modifies manager, manager.repo, turn
      ensures Fits(turn)
      ensures State(turn) == After(old(State(turn)), turn.turn, Call.RecordEvent(event), w)
    {
      hide RunAll, AppendedEvent;
      if !turn.persistenceAvailable {
        return;
      }
      var failed := true;
      if !w.store.BeforeCommit? {
        var error := manager.AppendExecutionEvent(turn.turn.run, event);
        failed := error.Some? || w.store.AfterCommit?;
      }
      if failed {
        MarkPersistenceFailure(turn, "event");
      }
    }

    /** Both optional steps; the timeline only when neither fails. */
    method FinalizeTurn(turn: RuntimeMemoryTurn, summarize: bool, timeline: bool, operation: string, w: World)
      returns (rows: Option<seq<Row>>)
      requires Fits(turn) && turn.persistenceAvailable
      modifies manager, manager.repo, turn
      ensures Fits(turn)
      ensures State(turn) == Finalize(old(State(turn)), turn.turn, summarize, timeline, w)
      ensures rows
           == if timeline && turn.persistenceAvailable then Some(Timeline(manager.View(), turn.turn.session)) else None
    {
      hide RunAll, Summarize, Timeline;
      var t := turn.turn;
      rows := None;
      if summarize {
        var failed := true;
        if !w.summarize.BeforeCommit? {
          var error := manager.MaybeAutoSummarize(t.session, w.compressed, w.summary);
          failed := error.Some? || w.summarize.AfterCommit?;
        }
        if failed {
          MarkPersistenceFailure(turn, operation);
          return;
        }
      }
      if timeline {
        rows := manager.GetSessionTimeline(t.session);
        if rows.None? || !w.timeline.NoFault? {
          MarkPersistenceFailure(turn, operation);
          rows := None;
        }
      }
    }

    /** Reports success whatever the storage does. */
    method CompleteTurn(
      turn: RuntimeMemoryTurn, message: Id, content: string, summarize: bool, timeline: bool, w: World)
      returns (outcome: Outcome)
      requires Fits(turn)
      modifies manager, manager.repo, turn
      ensures Fits(turn)
      ensures State(turn)
           == After(old(State(turn)), turn.turn, Call.CompleteTurn(message, content, summarize, timeline), w)
      ensures outcome.success && outcome.run == RunCompleted && outcome.available == turn.persistenceAvailable
      ensures outcome.timeline
           == if timeline && turn.persistenceAvailable then Some(Timeline(manager.View(), turn.turn.session)) else None
    {
      hide RunAll, Summarize, Timeline, AppendedMessage, CompleteRun, Finalize;
      FinalizeSkips(turn.turn, summarize, timeline, w);
      if !turn.persistenceAvailable {
        return Outcome(true, RunCompleted, false, None);
      }
      var failed := true;
      if !w.store.BeforeCommit? {
        var error := manager.AppendMessage(Answer(turn.turn, message, content));
        failed := error.Some? || w.store.AfterCommit?;
      }
      if failed {
        MarkPersistenceFailure(turn, "assistant_message");
        return Outcome(true, RunCompleted, false, None);
      }
      failed := true;
      if !w.finish.BeforeCommit? {
        var error := manager.CompleteRun(turn.turn.run, message);
        failed := error.Some? || w.finish.AfterCommit?;
      }
      if failed {
        MarkPersistenceFailure(turn, "complete_run");
        return Outcome(true, RunCompleted, false, None);
      }
      var rows := FinalizeTurn(turn, summarize, timeline, "post_turn_finalize", w);
      outcome := Outcome(true, RunCompleted, turn.persistenceAvailable, rows);
    }

    /** Without persistence the run is reported failed, unless the error shows no text,
        which raises; when storage fails midway it is reported as it was, still
        running, even if its end had been stored. */
    method FailTurn(
      turn: RuntimeMemoryTurn, error: ErrorInfo, shown: string, summarize: bool, timeline: bool, w: World)
      returns (outcome: Option<Outcome>)
      requires Fits(turn)
      modifies manager, manager.repo, turn
      ensures Fits(turn)
      ensures State(turn) == After(old(State(turn)), turn.turn, Call.FailTurn(error, summarize, timeline), w)
      ensures outcome.None? <==> !old(turn.persistenceAvailable) && AllSpace(shown)
      ensures outcome.Some? ==> !outcome.value.success && outcome.value.available == turn.persistenceAvailable
      ensures outcome.Some? ==>
                Some(outcome.value.run) == if !old(turn.persistenceAvailable) then Some(RunFailed)
                                           else if turn.persistenceAvailable then Meaning(Coerce(error).status)
                                           else Some(Running)
      ensures timeline && turn.persistenceAvailable ==>
                outcome.Some? && outcome.value.timeline == Some(Timeline(manager.View(), turn.turn.session))
      ensures outcome.Some? && !(timeline && turn.persistenceAvailable) ==> outcome.value.timeline.None?
    {
      hide RunAll, Summarize, Timeline, FailRun, Finalize, Meaning, Coerce, StatusOf;
      FinalizeSkips(turn.turn, summarize, timeline, w);
      if !turn.persistenceAvailable {
        return if Strip(shown) == "" then None else Some(Outcome(false, RunFailed, false, None));
      }
      var failed := true;
      var rows: Option<seq<Row>> := None;
      if !w.finish.BeforeCommit? {
        var refused := manager.FailRun(turn.turn.run, error);
        failed := refused.Some? || w.finish.AfterCommit?;
        ToldHasStatus(error);
      }
      if failed {
        MarkPersistenceFailure(turn, "fail_turn");
      } else {
        rows := FinalizeTurn(turn, summarize, timeline, "fail_turn", w);
      }
      var status := if turn.persistenceAvailable then Meaning(Coerce(error).status).value else Running;
      outcome := Some(Outcome(false, status, turn.persistenceAvailable, rows));
    }
  }

  lemma ToldHasStatus(error: ErrorInfo)
    ensures Told(error) ==> Meaning(Coerce(error).status).Some?
  {
    hide Told, Meaning, Coerce, StatusOf;
    ToldIsLegible(error);
  }

  lemma FinalizeSkips(turn: Turn, summarize: bool, timeline: bool, w: World)
    ensures forall s: TurnState :: !s.available ==> Finalize(s, turn, summarize, timeline, w) == s
  {
    hide Summarized;
  }

  // ---------- Fault tolerance ----------

  /** Once persistence is lost it stays lost, and the tables are left alone. */
  lemma {:induction false} LossIsFinal(s: TurnState, turn: Turn, calls: seq<(Call, World)>)
    requires !s.available
    ensures AfterAll(s, turn, calls) == s
  {
    if calls != [] { LossIsFinal(s, turn, calls[..|calls| - 1]); }
  }

  /** The flag at the end speaks for every call before. */
  lemma {:induction false} FlagSpeaksForAll(s: TurnState, turn: Turn, calls: seq<(Call, World)>, k: nat)
    requires k <= |calls| && AfterAll(s, turn, calls).available
    ensures AfterAll(s, turn, calls[..k]).available
  {
    if k == |calls| {
      assert calls[..k] == calls;
    } else {
      var (call, w) := calls[|calls| - 1];
      var rest := calls[..|calls| - 1];
      NeverRegained(AfterAll(s, turn, rest), turn, call, w);
      FlagSpeaksForAll(s, turn, rest, k);
      assert rest[..k] == calls[..k];
    }
  }

  lemma NeverRegained(s: TurnState, turn: Turn, call: Call, w: World)
    ensures After(s, turn, call, w).available ==> s.available
  {
    hide AppendedEvent, AppendedMessage, CompleteRun, FailRun, Summarize, ReadFault;
  }

  lemma AttemptKeepsValid(s: TurnState, r: Result<Store, DbError>, fault: Fault)
    requires Valid(s.store) && (r.Ok? ==> Valid(r.value))
    ensures Valid(Attempt(s, r, fault).store)
  {
    hide Valid;
  }

  /** The same for any property of the tables that is kept by what goes through. */
  lemma AttemptKeepsSettled(s: TurnState, r: Result<Store, DbError>, fault: Fault, cfg: Config)
    requires AllSettled(s.store, cfg) && (r.Ok? ==> AllSettled(r.value, cfg))
    ensures AllSettled(Attempt(s, r, fault).store, cfg)
  {
    hide AllSettled;
  }

  lemma FinalizeKeepsValid(s: TurnState, turn: Turn, summarize: bool, timeline: bool, w: World)
    requires Valid(s.store)
    ensures Valid(Finalize(s, turn, summarize, timeline, w).store)
    ensures AllSettled(s.store, turn.cfg) ==> AllSettled(Finalize(s, turn, summarize, timeline, w).store, turn.cfg)
  {
    hide Valid, Summarize, Attempt, AllSettled;
    var r := Summarized(s.store, turn, w);
    KeepsSummarize(s.store, turn.session, turn.cfg, turn.model, w.compressed, w.summary);
    AttemptKeepsValid(s, r, w.summarize);
    var s1 := if summarize then Attempt(s, r, w.summarize) else s;
    AttemptKeepsValid(s1, LoadTimeline(s1.store, turn.session), w.timeline);
    if AllSettled(s.store, turn.cfg) {
      SummarizeKeepsAllSettled(s.store, turn.session, turn.cfg, turn.model, w.compressed, w.summary);
      AttemptKeepsSettled(s, r, w.summarize, turn.cfg);
      AttemptKeepsSettled(s1, LoadTimeline(s1.store, turn.session), w.timeline, turn.cfg);
    }
  }

  /** Wherever storage fails, the tables stay consistent. */
  lemma CallKeepsValid(s: TurnState, turn: Turn, call: Call, w: World)
    requires Valid(s.store) && (call.RecordEvent? ==> call.event.body.EventBody?)
    ensures Valid(After(s, turn, call, w).store)
  {
    hide Valid, Attempt, Finalize, CompleteRun, Failing, InsertMessage, InsertEvent, LoadRun;
    match call
    case RecordEvent(e) =>
      KeepsInsertEvent(s.store, e.(run := Some(turn.run)));
      AttemptKeepsValid(s, AppendedEvent(s.store, turn.run, e), w.store);
    case CompleteTurn(message, content, summarize, timeline) =>
      var m := Answer(turn, message, content);
      KeepsInsertMessage(s.store, m);
      AttemptKeepsValid(s, AppendedMessage(s.store, m), w.store);
      var s1 := Attempt(s, AppendedMessage(s.store, m), w.store);
      KeepsCompleteRun(s1.store, turn.run, message);
      AttemptKeepsValid(s1, CompleteRun(s1.store, turn.run, message), w.finish);
      FinalizeKeepsValid(Attempt(s1, CompleteRun(s1.store, turn.run, message), w.finish), turn, summarize, timeline, w);
    case FailTurn(error, summarize, timeline) =>
      FailingKeepsValid(s, turn, error, w.finish);
      FinalizeKeepsValid(Failing(s, turn, error, w.finish), turn, summarize, timeline, w);
  }

  lemma FailingKeepsValid(s: TurnState, turn: Turn, error: ErrorInfo, fault: Fault)
    requires Valid(s.store)
    ensures Valid(Failing(s, turn, error, fault).store)
  {
    hide Valid, FailRun, Coerce, ReadFault;
    KeepsFailRun(s.store, turn.run, Coerce(error));
  }

  lemma AppendKeepsSettled(st: Store, turn: Turn, message: Id, content: string)
    requires Valid(st) && AllSettled(st, turn.cfg) && turn.cfg.maxRecent > 0
    ensures var r := AppendedMessage(st, Answer(turn, message, content)); r.Ok? ==> AllSettled(r.value, turn.cfg)
  {
    hide Valid, AllSettled, InsertMessage;
    InsertKeepsSettled(st, Answer(turn, message, content), turn.cfg);
  }

  /** Runs and events are no part of the account. */
  lemma OthersKeepSettled(st: Store, turn: Turn, e: Row, message: Id, f: Failure)
    requires Valid(st) && AllSettled(st, turn.cfg) && e.body.EventBody?
    ensures var r := AppendedEvent(st, turn.run, e); r.Ok? ==> AllSettled(r.value, turn.cfg)
    ensures var r := CompleteRun(st, turn.run, message); r.Ok? ==> AllSettled(r.value, turn.cfg)
    ensures var r := FailRun(st, turn.run, f); r.Ok? ==> AllSettled(r.value, turn.cfg)
  {
    hide Valid, AllSettled, FindMessage, HasId, HasSeq, Readable, Loaded;
    if AppendedEvent(st, turn.run, e).Ok? {
      KeepsInsertEvent(st, e.(run := Some(turn.run)));
      SameAccountsSettled(st, AppendedEvent(st, turn.run, e).value, turn.cfg);
    }
    if CompleteRun(st, turn.run, message).Ok? {
      KeepsCompleteRun(st, turn.run, message);
      SameAccountsSettled(st, CompleteRun(st, turn.run, message).value, turn.cfg);
    }
    if FailRun(st, turn.run, f).Ok? {
      KeepsFailRun(st, turn.run, f);
      SameAccountsSettled(st, FailRun(st, turn.run, f).value, turn.cfg);
    }
  }

  const NO_EVENT := Row("", "", 0, false, None, EventBody("", ""))

  const NO_FAILURE := Failure(RunFailed, None, "")

  /** Wherever storage fails, each chat message stays summarised at most once and
      in none but the covered prefix. */
  lemma CallKeepsSettled(s: TurnState, turn: Turn, call: Call, w: World)
    requires Valid(s.store) && AllSettled(s.store, turn.cfg) && turn.cfg.maxRecent > 0
    requires call.RecordEvent? ==> call.event.body.EventBody?
    ensures AllSettled(After(s, turn, call, w).store, turn.cfg)
  {
    hide Valid, AllSettled, Attempt, Finalize, CompleteRun, FailRun, ReadFault, Coerce;
    hide AppendedMessage, AppendedEvent, InsertMessage;
    match call
    case RecordEvent(e) =>
      OthersKeepSettled(s.store, turn, e, "", NO_FAILURE);
      AttemptKeepsSettled(s, AppendedEvent(s.store, turn.run, e), w.store, turn.cfg);
    case CompleteTurn(message, content, summarize, timeline) =>
      var r1 := AppendedMessage(s.store, Answer(turn, message, content));
      var s1 := Attempt(s, r1, w.store);
      AppendKeepsSettled(s.store, turn, message, content);
      AttemptKeepsSettled(s, r1, w.store, turn.cfg);
      CompleteTurnKeepsValid(s, turn, call, w);
      AppendKeepsValid(s, turn, message, content, w);
      OthersKeepSettled(s1.store, turn, NO_EVENT, message, NO_FAILURE);
      AttemptKeepsSettled(s1, CompleteRun(s1.store, turn.run, message), w.finish, turn.cfg);
      FinalizeKeepsValid(Attempt(s1, CompleteRun(s1.store, turn.run, message), w.finish), turn, summarize, timeline, w);
    case FailTurn(error, summarize, timeline) =>
      var r := FailRun(s.store, turn.run, Coerce(error));
      OthersKeepSettled(s.store, turn, NO_EVENT, "", Coerce(error));
      AttemptKeepsSettled(s, r, ReadFault(r, turn.run, w.finish), turn.cfg);
      FailingKeepsValid(s, turn, error, w.finish);
      FinalizeKeepsValid(Failing(s, turn, error, w.finish), turn, summarize, timeline, w);
  }

  lemma AppendKeepsValid(s: TurnState, turn: Turn, message: Id, content: string, w: World)
    requires Valid(s.store)
    ensures Valid(Attempt(s, AppendedMessage(s.store, Answer(turn, message, content)), w.store).store)
  {
    hide Valid, Attempt, InsertMessage;
    KeepsInsertMessage(s.store, Answer(turn, message, content));
    AttemptKeepsValid(s, AppendedMessage(s.store, Answer(turn, message, content)), w.store);
  }

  // ---------- What a kept flag means ----------

  /** The answer is stored and the run completed with it. */
  predicate Persisted(st: Store, turn: Turn, message: Id, content: string) {
    && (exists m | m in st.messages :: m.id == message && m.session == turn.session && m.run == Some(turn.run)
                                       && m.visible && m.body == MessageBody(Assistant, Completed, content))
    && turn.run in st.runs
    && st.runs[turn.run].status == RunCompleted && st.runs[turn.run].finalMessage == Some(message)
  }

  /** A turn fit to be completed: live session, its own run, readable, a new message id. */
  predicate Ready(st: Store, turn: Turn, message: Id) {
    turn.session in st.sessions && turn.run in st.runs && st.runs[turn.run].session == turn.session
    && Readable(st.runs[turn.run]) && !HasId(st.messages, message)
  }

  /** Neither transaction of a ready turn can be refused. */
  lemma StoresAnswer(st: Store, turn: Turn, message: Id, content: string)
    requires Valid(st) && Ready(st, turn, message)
    ensures var r := AppendedMessage(st, Answer(turn, message, content));
            && r.Ok? && r.value.sessions.Keys == st.sessions.Keys
            && CompleteRun(r.value, turn.run, message).Ok?
            && Persisted(CompleteRun(r.value, turn.run, message).value, turn, message, content)
            && CompleteRun(r.value, turn.run, message).value.sessions.Keys == st.sessions.Keys
  {
    hide Valid, HasId, HasSeq, FindMessage, Readable, Meaning, Stripped;
    var m := Answer(turn, message, content);
    SlotIsFresh(st, turn.session, 0);
    var m' := m.(at := SlotFor(st.sessions[turn.session], 0));
    FindNewest(st.messages, m');
    var r := AppendedMessage(st, m);
    assert r.value.messages == st.messages + [m'];
    assert m' in r.value.messages;
  }

  lemma SummarizeKeepsRows(st: Store, turn: Turn, w: World)
    requires Valid(st) && turn.session in st.sessions
    ensures var r := Summarize(st, turn.session, turn.cfg, turn.model, w.compressed, w.summary);
            && r.Ok? && r.value.messages == st.messages && r.value.runs == st.runs
            && r.value.sessions.Keys == st.sessions.Keys
  {
    hide Valid, Candidates, Chat, CoveredTo, HasSummary, Ids;
    if Compresses(st, turn.session, turn.cfg, turn.model, w.compressed) {
      SummarizeShape(st, turn.session, turn.cfg, turn.model, w.compressed, w.summary);
    } else {
      IdleRound(st, turn.session, turn.cfg, turn.model, w.compressed, w.summary);
    }
  }

  lemma FinalizeKeepsRows(s: TurnState, turn: Turn, summarize: bool, timeline: bool, w: World)
    requires Valid(s.store) && turn.session in s.store.sessions
    ensures var after := Finalize(s, turn, summarize, timeline, w);
            && after.store.messages == s.store.messages && after.store.runs == s.store.runs
            && (after.available <==>
                  s.available && (summarize ==> w.summarize.NoFault?) && (timeline ==> w.timeline.NoFault?))
  {
    hide Valid, Summarize;
    SummarizeKeepsRows(s.store, turn, w);
  }

  /** No storage call it makes fails. */
  predicate Faultless(call: Call, w: World)
    requires call.CompleteTurn? || call.FailTurn?
  {
    (call.CompleteTurn? ==> w.store.NoFault?) && w.finish.NoFault?
    && (call.summarize ==> w.summarize.NoFault?) && (call.timeline ==> w.timeline.NoFault?)
  }

  /** A ready turn keeps its flag exactly when no storage call fails, and a kept
      flag means that answer and completion are both stored. */
  lemma CompletionIsHonest(s: TurnState, turn: Turn, call: Call, w: World)
    requires Valid(s.store) && s.available && call.CompleteTurn? && Ready(s.store, turn, call.message)
    ensures var after := After(s, turn, call, w);
            && (after.available <==> Faultless(call, w))
            && (after.available ==> Persisted(after.store, turn, call.message, call.content))
  {
    hide Valid, Finalize, AppendedMessage, CompleteRun, HasId, Persisted, Ready;
    var r1 := AppendedMessage(s.store, Answer(turn, call.message, call.content));
    StoresAnswer(s.store, turn, call.message, call.content);
    ReadySession(s.store, turn, call.message);
    var s1 := Attempt(s, r1, w.store);
    var s2 := Attempt(s1, CompleteRun(s1.store, turn.run, call.message), w.finish);
    CompleteTurnKeepsValid(s, turn, call, w);
    if s2.available {
      FinalizeKeepsRows(s2, turn, call.summarize, call.timeline, w);
      PersistedStays(s2.store, After(s, turn, call, w).store, turn, call.message, call.content);
    } else {
      FinalizeSkips(turn, call.summarize, call.timeline, w);
    }
  }

  lemma ReadySession(st: Store, turn: Turn, message: Id)
    requires Ready(st, turn, message)
    ensures turn.session in st.sessions
  {
  }

  lemma CompleteTurnKeepsValid(s: TurnState, turn: Turn, call: Call, w: World)
    requires Valid(s.store) && call.CompleteTurn?
    ensures var s1 := Attempt(s, AppendedMessage(s.store, Answer(turn, call.message, call.content)), w.store);
            Valid(Attempt(s1, CompleteRun(s1.store, turn.run, call.message), w.finish).store)
  {
    hide Valid, CompleteRun, InsertMessage, Attempt;
    var m := Answer(turn, call.message, call.content);
    KeepsInsertMessage(s.store, m);
    AttemptKeepsValid(s, AppendedMessage(s.store, m), w.store);
    var s1 := Attempt(s, AppendedMessage(s.store, m), w.store);
    KeepsCompleteRun(s1.store, turn.run, call.message);
    AttemptKeepsValid(s1, CompleteRun(s1.store, turn.run, call.message), w.finish);
  }

  lemma PersistedStays(st: Store, after: Store, turn: Turn, message: Id, content: string)
    requires Persisted(st, turn, message, content) && st.messages == after.messages && st.runs == after.runs
    ensures Persisted(after, turn, message, content)
  {
  }

  /** A failed turn of a live session and a readable run keeps its flag exactly when no
      storage call fails and its error has a text; without a storage fault the failure
      is stored either way. */
  lemma FailureIsHonest(s: TurnState, turn: Turn, call: Call, w: World)
    requires Valid(s.store) && s.available && call.FailTurn? && turn.session in s.store.sessions
    requires LoadRun(s.store, turn.run).Ok?
    ensures var (after, r) := (After(s, turn, call, w), LoadRun(s.store, turn.run).value);
            && (after.available <==> Faultless(call, w) && Told(call.error))
            && (Faultless(call, w) ==>
                  after.store.runs == s.store.runs[turn.run := FailedRecord(r, Coerce(call.error))])
  {
    hide Valid, Finalize, Readable, Loaded, Coerce, Told, Failing;
    FailingIsHonest(s, turn, call.error, w.finish);
    var s1 := Failing(s, turn, call.error, w.finish);
    if s1.available {
      FailingKeepsValid(s, turn, call.error, w.finish);
      FinalizeKeepsRows(s1, turn, call.summarize, call.timeline, w);
    } else {
      FinalizeSkips(turn, call.summarize, call.timeline, w);
    }
  }

  lemma FailingIsHonest(s: TurnState, turn: Turn, error: ErrorInfo, fault: Fault)
    requires s.available && LoadRun(s.store, turn.run).Ok?
    ensures var (after, r) := (Failing(s, turn, error, fault), LoadRun(s.store, turn.run).value);
            && after.store.sessions == s.store.sessions
            && (after.available <==> fault.NoFault? && Told(error))
            && (fault.NoFault? ==> after.store.runs == s.store.runs[turn.run := FailedRecord(r, Coerce(error))])
  {
    hide Readable, Loaded, Coerce, Told;
    FailureReadsBack(s.store, turn.run, error);
  }
}
