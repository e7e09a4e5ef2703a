/** What every transaction keeps, and the order of the merged timeline. */
module TimelineInvariants {
  import opened Common
  import opened PyText
  import opened TimelineStore

  // ---------- Components under insertion ----------

  lemma SlotIsFresh(st: Store, session: Id, requested: int)
    requires Valid(st) && session in st.sessions
    ensures var at := SlotFor(st.sessions[session], requested);
            && 1 <= at < Reserved(st.sessions[session], at).next
            && (requested <= 0 ==> !HasSeq(st.messages, session, at) && !HasSeq(st.events, session, at))
  {
    hide ChainsOk, DistinctSlots, DistinctIds;
  }

  lemma TableGrows(rows: seq<Row>, sessions: map<Id, Session>, r: Row)
    requires TableOk(rows, sessions) && r.session in sessions && 1 <= r.at < sessions[r.session].next
    requires !HasId(rows, r.id) && !HasSeq(rows, r.session, r.at)
    ensures TableOk(rows + [r], sessions)
  {
  }

  lemma CountedKeeps(rows: seq<Row>, sessions: map<Id, Session>, k: Id, s: Session)
    requires Counted(rows, sessions) && (k in sessions ==> sessions[k].next <= s.next)
    ensures Counted(rows, sessions[k := s])
  {
  }

  lemma ChainKeeps(chain: seq<Summary>, s: Session, t: Session)
    requires ChainOk(chain, s) && s.next <= t.next && s.current == t.current
    ensures ChainOk(chain, t)
  {
  }

  lemma {:induction false} NoSummariesOf(rows: seq<Summary>, session: Id)
    requires forall z | z in rows :: z.session != session
    ensures SummariesOf(rows, session) == []
  {
    if rows != [] { NoSummariesOf(rows[..|rows| - 1], session); }
  }

  lemma ChainsKeep(rows: seq<Summary>, sessions: map<Id, Session>, k: Id, s: Session)
    requires SummariesOk(rows, sessions)
    requires if k in sessions then sessions[k].next <= s.next && sessions[k].current == s.current
             else s == Session(1, None)
    ensures SummariesOk(rows, sessions[k := s])
  {
    hide DistinctSummaries, ChainOk;
    if k in sessions {
      ChainKeeps(SummariesOf(rows, k), sessions[k], s);
    } else {
      NoSummariesOf(rows, k);
      EmptyChain(s);
    }
  }

  lemma EmptyChain(s: Session)
    requires s.current.None?
    ensures ChainOk([], s)
  {
  }

  /** A session may come into being or move its counter up. */
  lemma SessionsGrow(st: Store, k: Id, s: Session)
    requires Valid(st) && s.next >= 1
    requires if k in st.sessions then st.sessions[k].next <= s.next && st.sessions[k].current == s.current
             else s == Session(1, None)
    ensures Valid(st.(sessions := st.sessions[k := s]))
  {
    hide SummariesOk, Counted, DistinctIds, DistinctSlots;
    CountedKeeps(st.messages, st.sessions, k, s);
    CountedKeeps(st.events, st.sessions, k, s);
    ChainsKeep(st.summaries, st.sessions, k, s);
  }

  // ---------- Every transaction keeps the invariant ----------

  lemma KeepsEnsureSession(st: Store, session: Id)
    requires Valid(st)
    ensures Valid(EnsureSession(st, session))
  {
    hide Valid;
    if session !in st.sessions { SessionsGrow(st, session, Session(1, None)); }
  }

  lemma MessagesGrow(st: Store, m: Row)
    requires Valid(st) && m.body.MessageBody? && m.session in st.sessions && 1 <= m.at < st.sessions[m.session].next
    requires !HasId(st.messages, m.id) && !HasSeq(st.messages, m.session, m.at)
    ensures Valid(st.(messages := st.messages + [m]))
  {
    hide TableOk, HasId, HasSeq, EventsOk, SummariesOk;
    TableGrows(st.messages, st.sessions, m);
  }

  lemma EventsGrow(st: Store, e: Row)
    requires Valid(st) && e.body.EventBody? && e.session in st.sessions && 1 <= e.at < st.sessions[e.session].next
    requires e.run.Some? && e.run.value in st.runs
    requires !HasId(st.events, e.id) && !HasSeq(st.events, e.session, e.at)
    ensures Valid(st.(events := st.events + [e]))
  {
    hide TableOk, HasId, HasSeq, MessagesOk, SummariesOk;
    TableGrows(st.events, st.sessions, e);
  }

  lemma KeepsInsertMessage(st: Store, m: Row)
    requires Valid(st) && m.body.MessageBody?
    ensures InsertMessage(st, m).Ok? ==> Valid(InsertMessage(st, m).value)
  {
    hide Valid, HasId, HasSeq;
    if InsertMessage(st, m).Ok? && !HasId(st.messages, m.id) {
      var s := st.sessions[m.session];
      var at := SlotFor(s, m.at);
      SlotIsFresh(st, m.session, m.at);
      SessionsGrow(st, m.session, Reserved(s, at));
      MessagesGrow(st.(sessions := st.sessions[m.session := Reserved(s, at)]), m.(at := at));
    }
  }

  lemma KeepsInsertEvent(st: Store, e: Row)
    requires Valid(st) && e.body.EventBody?
    ensures InsertEvent(st, e).Ok? ==> Valid(InsertEvent(st, e).value)
  {
    hide Valid, HasId, HasSeq;
    if InsertEvent(st, e).Ok? && e.visible && !HasId(st.events, e.id) {
      var s := st.sessions[e.session];
      var at := SlotFor(s, e.at);
      SlotIsFresh(st, e.session, e.at);
      SessionsGrow(st, e.session, Reserved(s, at));
      EventsGrow(st.(sessions := st.sessions[e.session := Reserved(s, at)]), e.(at := at));
    }
  }

  lemma RunsGrow(st: Store, run: Id, r: Run)
    requires Valid(st) && r.session in st.sessions
    ensures Valid(st.(runs := st.runs[run := r]))
  {
    hide TableOk, MessagesOk, SummariesOk;
  }

  lemma KeepsCreateUserTurn(st: Store, session: Id, message: Id, run: Id, content: string)
    requires Valid(st)
    ensures var r := CreateUserTurn(st, session, message, run, content); r.Ok? ==> Valid(r.value)
  {
    hide Valid, HasId, HasSeq;
    var st1 := EnsureSession(st, session);
    var m := Row(message, session, 0, true, Some(run), MessageBody(User, Completed, content));
    KeepsEnsureSession(st, session);
    KeepsInsertMessage(st1, m);
    var st2 := InsertMessage(st1, m);
    if st2.Ok? { RunsGrow(st2.value, run, NewRun(session, message, Running)); }
  }

  lemma KeepsCompleteRun(st: Store, run: Id, message: Id)
    requires Valid(st)
    ensures var r := CompleteRun(st, run, message); r.Ok? ==> Valid(r.value)
  {
    hide EventsOk, MessagesOk, SummariesOk, FindMessage, Meaning, Stripped, Strip;
    if CompleteRun(st, run, message).Ok? {
      RunsGrow(st, run, Loaded(st.runs[run]).(status := RunCompleted, finalMessage := Some(message)));
    }
  }

  lemma KeepsFailRun(st: Store, run: Id, f: Failure)
    requires Valid(st)
    ensures var r := FailRun(st, run, f); r.Ok? ==> Valid(r.value)
  {
    hide EventsOk, MessagesOk, SummariesOk, Meaning, Stripped, Strip;
    if FailRun(st, run, f).Ok? { RunsGrow(st, run, FailedRecord(Loaded(st.runs[run]), f)); }
  }

  lemma KeepsRunRecords(st: Store, run: Id, r: Run)
    requires Valid(st)
    ensures InsertRun(st, run, r).Ok? ==> Valid(InsertRun(st, run, r).value)
    ensures UpdateRun(st, run, r).Ok? ==> Valid(UpdateRun(st, run, r).value)
  {
    hide Valid;
    if r.session in st.sessions { RunsGrow(st, run, r); }
  }

  lemma KeepsCreateRun(st: Store, session: Id, message: Id, run: Id, status: RunStatus)
    requires Valid(st)
    ensures var r := CreateRun(st, session, message, run, status); r.Ok? ==> Valid(r.value)
  {
    hide Valid, FindMessage, InsertRun, Meaning;
    if Meaning(status).Some? { KeepsRunRecords(st, run, NewRun(session, message, Meaning(status).value)); }
  }

  lemma KeepsMarkInterrupted(st: Store)
    requires Valid(st)
    ensures Valid(MarkInterrupted(st))
  {
    hide TableOk, MessagesOk, SummariesOk;
  }

  // ---------- Summaries ----------

  lemma SummariesOfAppend(rows: seq<Summary>, z: Summary, session: Id)
    ensures SummariesOf(rows + [z], session)
         == SummariesOf(rows, session) + if z.session == session then [z] else []
  {
    assert (rows + [z])[..|rows|] == rows;
  }

  lemma {:induction false} SummariesOfMembers(rows: seq<Summary>, session: Id)
    ensures forall z | z in SummariesOf(rows, session) :: z in rows && z.session == session
  {
    if rows != [] { SummariesOfMembers(rows[..|rows| - 1], session); }
  }

  lemma {:induction false} FindSummaryAt(rows: seq<Summary>, z: Summary)
    requires DistinctSummaries(rows) && z in rows
    ensures FindSummary(rows, z.id) == Some(z)
  {
    var n := |rows| - 1;
    assert rows == rows[..n] + [rows[n]];
    if rows[n].id != z.id { FindSummaryAt(rows[..n], z); }
  }

  lemma LastOfChain(rows: seq<Summary>, session: Id, s: Session)
    requires ChainOk(SummariesOf(rows, session), s) && SummariesOf(rows, session) != []
    ensures var chain := SummariesOf(rows, session);
            s.current == Some(chain[|chain| - 1].id) && chain[|chain| - 1] in rows
  {
    var chain := SummariesOf(rows, session);
    SummariesOfMembers(rows, session);
    assert chain[|chain| - 1] in chain;
  }

  /** The current summary is the last link of the chain. */
  lemma CurrentIsLast(st: Store, session: Id)
    requires SummariesOk(st.summaries, st.sessions) && session in st.sessions
    ensures var chain := Chain(st, session);
            CurrentSummary(st, session) == if chain == [] then None else Some(chain[|chain| - 1])
  {
    hide DistinctSummaries, SummariesOf, FindSummary;
    var chain := Chain(st, session);
    assert ChainOk(chain, st.sessions[session]);
    if chain != [] {
      LastOfChain(st.summaries, session, st.sessions[session]);
      FindSummaryAt(st.summaries, chain[|chain| - 1]);
    }
  }

  lemma ChainGrows(chain: seq<Summary>, s: Session, z: Summary)
    requires ChainOk(chain, s)
    requires z.from == (if chain == [] then 1 else chain[|chain| - 1].to + 1) && z.from <= z.to < s.next
    ensures ChainOk(chain + [z], s.(current := Some(z.id)))
  {
  }

  lemma DistinctGrows(rows: seq<Summary>, z: Summary)
    requires DistinctSummaries(rows) && !HasSummary(rows, z.id)
    ensures DistinctSummaries(rows + [z])
  {
  }

  lemma SummariesGrow(rows: seq<Summary>, sessions: map<Id, Session>, z: Summary)
    requires SummariesOk(rows, sessions) && !HasSummary(rows, z.id) && z.session in sessions
    requires var chain := SummariesOf(rows, z.session);
             && z.from == (if chain == [] then 1 else chain[|chain| - 1].to + 1)
             && z.from <= z.to < sessions[z.session].next
    ensures SummariesOk(rows + [z], sessions[z.session := sessions[z.session].(current := Some(z.id))])
  {
    hide ChainOk, SummariesOf, DistinctSummaries, HasSummary;
    DistinctGrows(rows, z);
    var after := sessions[z.session := sessions[z.session].(current := Some(z.id))];
    forall k | k in after ensures ChainOk(SummariesOf(rows + [z], k), after[k]) {
      SummariesOfAppend(rows, z, k);
      assert ChainOk(SummariesOf(rows, k), sessions[k]);
      if k == z.session { ChainGrows(SummariesOf(rows, k), sessions[k], z); }
      assert SummariesOf(rows, k) + [] == SummariesOf(rows, k);
    }
  }

  lemma CoveredToIsChainEnd(st: Store, session: Id)
    requires SummariesOk(st.summaries, st.sessions) && session in st.sessions
    ensures var chain := Chain(st, session);
            CoveredTo(st, session) == if chain == [] then 0 else chain[|chain| - 1].to
  {
    hide SummariesOk, CurrentSummary, SummariesOf;
    CurrentIsLast(st, session);
  }

  lemma KeepsUpdateSummary(st: Store, session: Id, id: Id, coveredTo: int, content: string, sources: seq<Id>)
    requires Valid(st)
    ensures var r := UpdateSummary(st, session, id, coveredTo, content, sources); r.Ok? ==> Valid(r.value)
  {
    hide CoveredTo, SummariesOk, TableOk, HasSummary, SummariesOf;
    var r := UpdateSummary(st, session, id, coveredTo, content, sources);
    if r.Ok? && !HasSummary(st.summaries, id) {
      CoveredToIsChainEnd(st, session);
      var z := Summary(id, session, CoveredTo(st, session) + 1, coveredTo, content, sources);
      SummariesGrow(st.summaries, st.sessions, z);
      TablesKeepCurrent(st, session, id);
    }
  }

  lemma TablesKeepCurrent(st: Store, session: Id, id: Id)
    requires Valid(st) && session in st.sessions
    ensures var sessions := st.sessions[session := st.sessions[session].(current := Some(id))];
            TableOk(st.messages, sessions) && TableOk(st.events, sessions)
  {
    hide Counted, DistinctIds, DistinctSlots, SummariesOk;
    CountedKeeps(st.messages, st.sessions, session, st.sessions[session].(current := Some(id)));
    CountedKeeps(st.events, st.sessions, session, st.sessions[session].(current := Some(id)));
  }

  // ---------- Deletion ----------

  predicate Survives(r: Row, session: Id, runs: map<Id, Run>) {
    r.session != session && !(r.body.EventBody? && r.run.Some? && r.run.value !in runs)
  }

  lemma {:induction false} RowsWithoutMembers(rows: seq<Row>, session: Id, runs: map<Id, Run>)
    ensures forall r :: r in RowsWithout(rows, session, runs) <==> r in rows && Survives(r, session, runs)
  {
    if rows != [] {
      RowsWithoutMembers(rows[..|rows| - 1], session, runs);
      assert rows == rows[..|rows| - 1] + [rows[|rows| - 1]];
    }
  }

  /** Ids and slots of `r` are not used in `rows`. */
  predicate Apart(rows: seq<Row>, r: Row) {
    forall x | x in rows :: x.id != r.id && (x.session == r.session ==> x.at != r.at)
  }

  lemma DistinctSnoc(rows: seq<Row>, r: Row)
    ensures DistinctIds(rows + [r]) && DistinctSlots(rows + [r])
       <==> DistinctIds(rows) && DistinctSlots(rows) && Apart(rows, r)
  {
    var all := rows + [r];
    if DistinctIds(all) && DistinctSlots(all) {
      assert forall i | 0 <= i < |rows| :: rows[i] == all[i] && all[i].id != all[|rows|].id;
      assert forall i | 0 <= i < |rows| && all[i].session == all[|rows|].session :: all[i].at != all[|rows|].at;
      assert forall i, j | 0 <= i < j < |rows| :: all[i] == rows[i] && all[j] == rows[j];
    }
  }

  lemma {:induction false} RowsWithoutDistinct(rows: seq<Row>, session: Id, runs: map<Id, Run>)
    requires DistinctIds(rows) && DistinctSlots(rows)
    ensures var kept := RowsWithout(rows, session, runs); DistinctIds(kept) && DistinctSlots(kept)
  {
    if rows != [] {
      hide DistinctIds, DistinctSlots;
      var (rest, r) := (rows[..|rows| - 1], rows[|rows| - 1]);
      assert rows == rest + [r];
      DistinctSnoc(rest, r);
      RowsWithoutDistinct(rest, session, runs);
      RowsWithoutMembers(rest, session, runs);
      DistinctSnoc(RowsWithout(rest, session, runs), r);
    } else {
      assert RowsWithout(rows, session, runs) == rows;
    }
  }

  lemma {:induction false} SummariesWithoutMembers(rows: seq<Summary>, session: Id)
    ensures forall z :: z in SummariesWithout(rows, session) <==> z in rows && z.session != session
  {
    if rows != [] {
      SummariesWithoutMembers(rows[..|rows| - 1], session);
      assert rows == rows[..|rows| - 1] + [rows[|rows| - 1]];
    }
  }

  lemma {:induction false} SummariesWithoutDistinct(rows: seq<Summary>, session: Id)
    requires DistinctSummaries(rows)
    ensures DistinctSummaries(SummariesWithout(rows, session))
  {
    if rows != [] {
      var (rest, z) := (rows[..|rows| - 1], rows[|rows| - 1]);
      SummariesWithoutDistinct(rest, session);
      SummariesWithoutMembers(rest, session);
      var kept := SummariesWithout(rest, session);
      forall i | 0 <= i < |kept| ensures kept[i].id != z.id { assert kept[i] in rest; }
    }
  }

  lemma {:induction false} SummariesWithoutChain(rows: seq<Summary>, session: Id, k: Id)
    ensures SummariesOf(SummariesWithout(rows, session), k) == if k == session then [] else SummariesOf(rows, k)
  {
    if rows != [] {
      var (rest, z) := (rows[..|rows| - 1], rows[|rows| - 1]);
      SummariesWithoutChain(rest, session, k);
      if z.session != session { SummariesOfAppend(SummariesWithout(rest, session), z, k); }
      assert SummariesWithout(rest, session) + [] == SummariesWithout(rest, session);
    }
  }

  lemma TableSurvives(rows: seq<Row>, sessions: map<Id, Session>, session: Id, runs: map<Id, Run>)
    requires TableOk(rows, sessions)
    ensures TableOk(RowsWithout(rows, session, runs), sessions - {session})
  {
    RowsWithoutDistinct(rows, session, runs);
    RowsWithoutMembers(rows, session, runs);
    hide DistinctIds, DistinctSlots, RowsWithout;
  }

  lemma KeepsDeleteSession(st: Store, session: Id)
    requires Valid(st)
    ensures Valid(DeleteSession(st, session))
  {
    hide TableOk, RowsWithout, SummariesWithout, SummariesOk;
    var after := DeleteSession(st, session);
    TableSurvives(st.messages, st.sessions, session, after.runs);
    TableSurvives(st.events, st.sessions, session, after.runs);
    RowsWithoutMembers(st.messages, session, after.runs);
    RowsWithoutMembers(st.events, session, after.runs);
    SummariesSurvive(st, session);
  }

  lemma SummariesSurvive(st: Store, session: Id)
    requires SummariesOk(st.summaries, st.sessions)
    ensures SummariesOk(SummariesWithout(st.summaries, session), st.sessions - {session})
  {
    SummariesWithoutDistinct(st.summaries, session);
    SummariesWithoutMembers(st.summaries, session);
    hide DistinctSummaries, ChainOk, SummariesWithout;
    forall k | k in st.sessions - {session}
      ensures ChainOk(SummariesOf(SummariesWithout(st.summaries, session), k), st.sessions[k])
    {
      SummariesWithoutChain(st.summaries, session, k);
    }
  }
}
