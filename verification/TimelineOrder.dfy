/** The order of queries by timeline seq: when it is strict, and what new rows do to it. */
module TimelineOrder {
  import opened TimelineStore
  import opened TimelineInvariants

  predicate Nondecreasing(rows: seq<Row>) {
    forall i, j | 0 <= i < j < |rows| :: rows[i].at <= rows[j].at
  }

  predicate Ascending(rows: seq<Row>) {
    forall i, j | 0 <= i < j < |rows| :: rows[i].at < rows[j].at
  }

  predicate NoneAt(rows: seq<Row>, at: int) {
    forall r | r in rows :: r.at != at
  }

  predicate DistinctAts(rows: seq<Row>) {
    forall i, j | 0 <= i < j < |rows| :: rows[i].at != rows[j].at
  }

  // ---------- Sorting ----------

  lemma NondecreasingSnoc(rows: seq<Row>, r: Row)
    ensures Nondecreasing(rows + [r]) <==> Nondecreasing(rows) && forall x | x in rows :: x.at <= r.at
    ensures Ascending(rows + [r]) <==> Ascending(rows) && forall x | x in rows :: x.at < r.at
  {
    var all := rows + [r];
    assert forall i | 0 <= i < |rows| :: all[i] == rows[i];
    assert all[|rows|] == r;
  }

  lemma {:induction false} InsertOrderedMembers(sorted: seq<Row>, r: Row)
    ensures multiset(InsertOrdered(sorted, r)) == multiset(sorted) + multiset{r}
  {
    if sorted != [] {
      var n := |sorted| - 1;
      assert sorted == sorted[..n] + [sorted[n]];
      if sorted[n].at > r.at { InsertOrderedMembers(sorted[..n], r); }
    }
  }

  lemma InsertOrderedIn(sorted: seq<Row>, r: Row)
    ensures forall x :: x in InsertOrdered(sorted, r) <==> x in sorted || x == r
  {
    InsertOrderedMembers(sorted, r);
    hide InsertOrdered;
    forall x ensures x in InsertOrdered(sorted, r) <==> x in sorted || x == r {
      assert x in multiset(InsertOrdered(sorted, r)) <==> x in multiset(sorted) + multiset{r};
    }
  }

  /** Insertion keeps the order; it stays strict exactly when the seq is new. */
  lemma {:induction false} InsertOrderedSorts(sorted: seq<Row>, r: Row)
    requires Nondecreasing(sorted)
    ensures Nondecreasing(InsertOrdered(sorted, r))
    ensures Ascending(InsertOrdered(sorted, r)) <==> Ascending(sorted) && NoneAt(sorted, r.at)
  {
    hide Nondecreasing, Ascending;
    if sorted == [] {
      NondecreasingSnoc([], r);
      assert [] + [r] == [r];
    } else {
      var (rest, last) := (sorted[..|sorted| - 1], sorted[|sorted| - 1]);
      assert sorted == rest + [last];
      NondecreasingSnoc(rest, last);
      if last.at <= r.at {
        NondecreasingSnoc(sorted, r);
        assert last in sorted;
      } else {
        InsertOrderedSorts(rest, r);
        InsertOrderedIn(rest, r);
        NondecreasingSnoc(InsertOrdered(rest, r), last);
      }
    }
  }

  /** `ORDER BY` sorts, loses nothing, and is strict exactly for distinct seqs. */
  lemma {:induction false} OrderedSorts(rows: seq<Row>)
    ensures multiset(Ordered(rows)) == multiset(rows) && |Ordered(rows)| == |rows|
    ensures Nondecreasing(Ordered(rows))
    ensures Ascending(Ordered(rows)) <==> DistinctAts(rows)
  {
    if rows != [] {
      var (rest, r) := (rows[..|rows| - 1], rows[|rows| - 1]);
      assert rows == rest + [r];
      OrderedSorts(rest);
      InsertOrderedMembers(Ordered(rest), r);
      InsertOrderedSorts(Ordered(rest), r);
      SameMembers(Ordered(rest), rest);
      hide Nondecreasing, Ascending, InsertOrdered;
      DistinctAtsSnoc(rest, r);
      assert |multiset(Ordered(rows))| == |multiset(rows)|;
    }
  }

  lemma DistinctAtsSnoc(rows: seq<Row>, r: Row)
    ensures DistinctAts(rows + [r]) <==> DistinctAts(rows) && NoneAt(rows, r.at)
  {
    var all := rows + [r];
    assert forall i | 0 <= i < |rows| :: all[i] == rows[i];
    assert all[|rows|] == r;
  }

  lemma SameMembers(a: seq<Row>, b: seq<Row>)
    requires multiset(a) == multiset(b)
    ensures forall x :: x in a <==> x in b
  {
    forall x ensures x in a <==> x in b { assert x in multiset(a) <==> x in multiset(b); }
  }

  lemma OrderedIn(rows: seq<Row>)
    ensures forall x :: x in Ordered(rows) <==> x in rows
  {
    OrderedSorts(rows);
    SameMembers(Ordered(rows), rows);
  }

  // ---------- The merged timeline ----------

  lemma {:induction false} VisibleIn(rows: seq<Row>, session: Id)
    ensures forall x :: x in VisibleRows(rows, session) <==> x in rows && x.session == session && x.visible
  {
    if rows != [] {
      VisibleIn(rows[..|rows| - 1], session);
      assert rows == rows[..|rows| - 1] + [rows[|rows| - 1]];
    }
  }

  lemma {:induction false} VisibleDistinct(rows: seq<Row>, session: Id)
    requires DistinctSlots(rows)
    ensures DistinctAts(VisibleRows(rows, session))
  {
    if rows != [] {
      var (rest, r) := (rows[..|rows| - 1], rows[|rows| - 1]);
      assert forall i, j | 0 <= i < j < |rest| && rest[i].session == rest[j].session ::
          rest[i] == rows[i] && rest[j] == rows[j];
      VisibleDistinct(rest, session);
      VisibleIn(rest, session);
      forall x | x in VisibleRows(rest, session) && r.session == session ensures x.at != r.at {
        var i :| 0 <= i < |rest| && rest[i] == x;
        assert rows[i] == x && rows[|rest|] == r;
      }
      DistinctAtsSnoc(VisibleRows(rest, session), r);
    }
  }

  lemma {:induction false} DistinctAppend(a: seq<Row>, b: seq<Row>)
    ensures DistinctAts(a + b) <==> DistinctAts(a) && DistinctAts(b) && forall x, y | x in a && y in b :: x.at != y.at
  {
    if b == [] {
      assert a + b == a;
    } else {
      var (rest, r) := (b[..|b| - 1], b[|b| - 1]);
      DistinctAppend(a, rest);
      DistinctAtsSnoc(a + rest, r);
      DistinctAtsSnoc(rest, r);
      assert a + b == (a + rest) + [r] && b == rest + [r];
      hide DistinctAts;
    }
  }

  /** A visible message and a visible event of the session sit at one seq. */
  ghost predicate Collides(st: Store, session: Id) {
    exists m, e | m in st.messages && e in st.events ::
      m.session == e.session == session && m.visible && e.visible && m.at == e.at
  }

  /** The merged timeline lists exactly the visible rows, in seq order, and the
      order is strict exactly when no message and event collide. */
  lemma TimelineOrdered(st: Store, session: Id)
    requires Valid(st)
    ensures var t := Timeline(st, session);
            && Nondecreasing(t)
            && (forall x :: x in t <==> (x in st.messages || x in st.events) && x.session == session && x.visible)
            && (Ascending(t) <==> !Collides(st, session))
  {
    hide SummariesOk, Nondecreasing, Ascending, DistinctAts, Ordered, VisibleRows, DistinctSlots, DistinctIds, Counted;
    var (ms, es) := (VisibleRows(st.messages, session), VisibleRows(st.events, session));
    VisibleIn(st.messages, session);
    VisibleIn(st.events, session);
    VisibleDistinct(st.messages, session);
    VisibleDistinct(st.events, session);
    OrderedSorts(ms + es);
    OrderedIn(ms + es);
    DistinctAppend(ms, es);
  }

  // ---------- When collisions can arise ----------

  ghost predicate Unshared(st: Store) {
    forall m, e | m in st.messages && e in st.events && m.session == e.session :: m.at != e.at
  }

  /** A message whose seq the session allocates never meets an event's. A
      caller-supplied seq keeps the tables apart exactly when no event has it. */
  lemma MessageKeepsApart(st: Store, m: Row)
    requires Valid(st) && Unshared(st) && m.body.MessageBody?
    requires InsertMessage(st, m).Ok? && !HasId(st.messages, m.id)
    ensures Unshared(InsertMessage(st, m).value) <==> m.at <= 0 || !HasSeq(st.events, m.session, m.at)
  {
    hide Valid, HasId;
    SlotIsFresh(st, m.session, m.at);
    var m' := m.(at := SlotFor(st.sessions[m.session], m.at));
    var after := InsertMessage(st, m).value;
    assert after.messages == st.messages + [m'] && after.events == st.events;
    assert m' in after.messages;
    if HasSeq(st.events, m.session, m'.at) {
      var e :| e in st.events && e.session == m.session && e.at == m'.at;
      assert !Unshared(after);
    }
  }

  lemma EventKeepsApart(st: Store, e: Row)
    requires Valid(st) && Unshared(st) && e.body.EventBody?
    requires InsertEvent(st, e).Ok? && e.visible && !HasId(st.events, e.id)
    ensures Unshared(InsertEvent(st, e).value) <==> e.at <= 0 || !HasSeq(st.messages, e.session, e.at)
  {
    hide Valid, HasId;
    SlotIsFresh(st, e.session, e.at);
    var e' := e.(at := SlotFor(st.sessions[e.session], e.at));
    var after := InsertEvent(st, e).value;
    assert after.events == st.events + [e'] && after.messages == st.messages;
    assert e' in after.events;
    if HasSeq(st.messages, e.session, e'.at) {
      var m :| m in st.messages && m.session == e.session && m.at == e'.at;
      assert !Unshared(after);
    }
  }

  /** Storing the same row again changes nothing, whatever its seq. */
  lemma ReinsertIsNoop(st: Store, m: Row, e: Row)
    ensures InsertMessage(st, m).Ok? ==> InsertMessage(InsertMessage(st, m).value, m) == InsertMessage(st, m)
    ensures InsertEvent(st, e).Ok? ==> InsertEvent(InsertEvent(st, e).value, e) == InsertEvent(st, e)
  {
    if InsertMessage(st, m).Ok? && !HasId(st.messages, m.id) {
      var rows := InsertMessage(st, m).value.messages;
      assert rows[|rows| - 1].id == m.id;
    }
    if InsertEvent(st, e).Ok? && e.visible && !HasId(st.events, e.id) {
      var rows := InsertEvent(st, e).value.events;
      assert rows[|rows| - 1].id == e.id;
    }
  }
}
