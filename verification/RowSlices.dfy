/** Slices of a list of rows: seq ranges, the recent window, ids. */
module RowSlices {
  import opened TimelineStore
  import opened TimelineOrder

  /** `load_recent_messages`: the last `limit` rows. */
  function Recent(chat: seq<Row>, limit: nat): seq<Row> {
    if |chat| <= limit then chat else chat[|chat| - limit..]
  }

  function Between(rows: seq<Row>, from: int, to: int): seq<Row> {
    if rows == [] then []
    else
      var r := rows[|rows| - 1];
      Between(rows[..|rows| - 1], from, to) + if from <= r.at <= to then [r] else []
  }

  /** `load_messages_before`. */
  function LoadBefore(chat: seq<Row>, boundary: int): seq<Row> {
    if boundary <= 1 then [] else Between(chat, 1, boundary - 1)
  }

  /** The comprehension that drops what a summary already covers. */
  function KeepAfter(rows: seq<Row>, covered: int): seq<Row> {
    if rows == [] then []
    else
      var r := rows[|rows| - 1];
      KeepAfter(rows[..|rows| - 1], covered) + if r.at > covered then [r] else []
  }

  function Ids(rows: seq<Row>): seq<Id> {
    if rows == [] then [] else Ids(rows[..|rows| - 1]) + [rows[|rows| - 1].id]
  }

  predicate InSpan(r: Row, from: int, to: int) { from <= r.at <= to }

  // ---------- Seq ranges ----------

  lemma BetweenSnoc(rows: seq<Row>, r: Row, a: int, b: int)
    ensures Between(rows + [r], a, b) == if InSpan(r, a, b) then Between(rows, a, b) + [r] else Between(rows, a, b)
  {
    assert (rows + [r])[..|rows|] == rows;
  }

  lemma Unsnoc(rows: seq<Row>) returns (rest: seq<Row>, r: Row)
    requires rows != []
    ensures rows == rest + [r] && rest == rows[..|rows| - 1] && r == rows[|rows| - 1]
    ensures r in rows && forall x | x in rest :: x in rows
  {
    rest, r := rows[..|rows| - 1], rows[|rows| - 1];
  }

  lemma {:induction false} BetweenIn(rows: seq<Row>, a: int, b: int)
    ensures forall x :: x in Between(rows, a, b) <==> x in rows && InSpan(x, a, b)
  {
    if rows != [] {
      var rest, r := Unsnoc(rows);
      BetweenIn(rest, a, b);
      BetweenSnoc(rest, r, a, b);
    }
  }

  /** Only which rows fall inside the bounds matters. */
  lemma {:induction false} BetweenSame(rows: seq<Row>, a: int, b: int, c: int, d: int)
    requires forall x | x in rows :: InSpan(x, a, b) <==> InSpan(x, c, d)
    ensures Between(rows, a, b) == Between(rows, c, d)
  {
    if rows != [] {
      hide InSpan;
      var rest, r := Unsnoc(rows);
      BetweenSame(rest, a, b, c, d);
      BetweenSnoc(rest, r, a, b);
      BetweenSnoc(rest, r, c, d);
    }
  }

  lemma {:induction false} BetweenAll(rows: seq<Row>, a: int, b: int)
    requires forall x | x in rows :: InSpan(x, a, b)
    ensures Between(rows, a, b) == rows
  {
    if rows != [] {
      hide InSpan;
      var rest, r := Unsnoc(rows);
      BetweenAll(rest, a, b);
      BetweenSnoc(rest, r, a, b);
    }
  }

  lemma {:induction false} BetweenNone(rows: seq<Row>, a: int, b: int)
    requires forall x | x in rows :: !InSpan(x, a, b)
    ensures Between(rows, a, b) == []
  {
    if rows != [] {
      hide InSpan;
      var rest, r := Unsnoc(rows);
      BetweenNone(rest, a, b);
      BetweenSnoc(rest, r, a, b);
    }
  }

  lemma {:induction false} BetweenAppend(x: seq<Row>, y: seq<Row>, a: int, b: int)
    ensures Between(x + y, a, b) == Between(x, a, b) + Between(y, a, b)
  {
    if y == [] {
      assert x + y == x;
    } else {
      hide *;
      var rest, r := Unsnoc(y);
      Reassociate(x, rest, r);
      BetweenAppend(x, rest, a, b);
      BetweenSnoc(rest, r, a, b);
      BetweenSnoc(x + rest, r, a, b);
      Reassociate(Between(x, a, b), Between(rest, a, b), r);
    }
  }

  lemma SpanCut(r: Row, lo: int, cut: int, hi: int)
    requires lo <= cut + 1 && cut <= hi
    ensures InSpan(r, lo, hi) <==> InSpan(r, lo, cut) || InSpan(r, cut + 1, hi)
    ensures !(InSpan(r, lo, cut) && InSpan(r, cut + 1, hi))
    ensures InSpan(r, lo, cut) ==> r.at <= cut
  {
  }

  lemma NoneLater(rows: seq<Row>, r: Row, cut: int, hi: int)
    requires (forall x | x in rows :: x.at < r.at) && r.at <= cut
    ensures Between(rows, cut + 1, hi) == []
  {
    hide Between;
    BetweenNone(rows, cut + 1, hi);
  }

  lemma Reassociate(a: seq<Row>, b: seq<Row>, r: Row)
    ensures (a + b) + [r] == a + (b + [r])
  {
  }

  /** Two adjoining ranges of an ascending list make one. */
  lemma {:induction false} SplitAt(rows: seq<Row>, lo: int, cut: int, hi: int)
    requires Ascending(rows) && lo <= cut + 1 && cut <= hi
    ensures Between(rows, lo, hi) == Between(rows, lo, cut) + Between(rows, cut + 1, hi)
  {
    if rows != [] {
      hide *;
      var rest, r := Unsnoc(rows);
      NondecreasingSnoc(rest, r);
      SplitAt(rest, lo, cut, hi);
      BetweenSnoc(rest, r, lo, hi);
      BetweenSnoc(rest, r, lo, cut);
      BetweenSnoc(rest, r, cut + 1, hi);
      SpanCut(r, lo, cut, hi);
      if InSpan(r, lo, cut) {
        NoneLater(rest, r, cut, hi);
        NothingAdded(Between(rest, lo, cut));
        NothingAdded(Between(rows, lo, cut));
      } else {
        Reassociate(Between(rest, lo, cut), Between(rest, cut + 1, hi), r);
      }
    }
  }

  lemma NothingAdded(rows: seq<Row>)
    ensures rows + [] == rows
  {
  }

  lemma KeepAfterSnoc(rows: seq<Row>, r: Row, covered: int)
    ensures KeepAfter(rows + [r], covered)
         == if r.at > covered then KeepAfter(rows, covered) + [r] else KeepAfter(rows, covered)
  {
    assert (rows + [r])[..|rows|] == rows;
  }

  lemma {:induction false} KeepAfterBetween(rows: seq<Row>, from: int, to: int, covered: int)
    requires from <= covered + 1
    ensures KeepAfter(Between(rows, from, to), covered) == Between(rows, covered + 1, to)
  {
    if rows != [] {
      hide Between, KeepAfter;
      var rest, r := Unsnoc(rows);
      KeepAfterBetween(rest, from, to, covered);
      BetweenSnoc(rest, r, from, to);
      BetweenSnoc(rest, r, covered + 1, to);
      if InSpan(r, from, to) { KeepAfterSnoc(Between(rest, from, to), r, covered); }
    }
  }

  // ---------- Insertion in order ----------

  /** A row inserted outside the bounds is not seen; inside, it adds one. */
  lemma {:induction false} BetweenInsert(sorted: seq<Row>, r: Row, a: int, b: int)
    ensures !InSpan(r, a, b) ==> Between(InsertOrdered(sorted, r), a, b) == Between(sorted, a, b)
    ensures InSpan(r, a, b) ==> |Between(InsertOrdered(sorted, r), a, b)| == |Between(sorted, a, b)| + 1
  {
    if sorted == [] || sorted[|sorted| - 1].at <= r.at {
      BetweenSnoc(sorted, r, a, b);
    } else {
      var rest, last := Unsnoc(sorted);
      BetweenInsert(rest, r, a, b);
      BetweenSnoc(rest, last, a, b);
      BetweenSnoc(InsertOrdered(rest, r), last, a, b);
    }
  }

  lemma {:induction false} KeepAfterInsert(sorted: seq<Row>, r: Row, covered: int)
    ensures |KeepAfter(InsertOrdered(sorted, r), covered)|
         == |KeepAfter(sorted, covered)| + if r.at > covered then 1 else 0
    ensures |InsertOrdered(sorted, r)| == |sorted| + 1
  {
    if sorted == [] || sorted[|sorted| - 1].at <= r.at {
      KeepAfterSnoc(sorted, r, covered);
    } else {
      var rest, last := Unsnoc(sorted);
      KeepAfterInsert(rest, r, covered);
      KeepAfterSnoc(rest, last, covered);
      KeepAfterSnoc(InsertOrdered(rest, r), last, covered);
    }
  }

  // ---------- The recent window ----------

  /** Exactly the rows from index `cut` on lie after `covered`. */
  predicate TailAfter(rows: seq<Row>, covered: int, cut: int) {
    forall i | 0 <= i < |rows| :: rows[i].at > covered <==> i >= cut
  }

  lemma TailAfterSnoc(rows: seq<Row>, r: Row, covered: int, cut: int)
    requires TailAfter(rows, covered, cut) && 0 <= cut <= |rows|
    requires forall x | x in rows :: x.at < r.at
    ensures r.at > covered ==> TailAfter(rows + [r], covered, cut)
    ensures r.at <= covered ==> cut == |rows| && TailAfter(rows + [r], covered, cut + 1)
  {
    if cut < |rows| { assert rows[cut] in rows && covered < rows[cut].at < r.at; }
  }

  lemma NoneKept(covered: int)
    ensures KeepAfter([], covered) == [] && TailAfter([], covered, 0)
  {
  }

  /** In an ascending list the rows after `covered` are its tail. */
  lemma {:induction false} KeepAfterIsTail(rows: seq<Row>, covered: int)
    requires Ascending(rows)
    ensures |KeepAfter(rows, covered)| <= |rows|
    ensures TailAfter(rows, covered, |rows| - |KeepAfter(rows, covered)|)
  {
    hide *;
    if rows == [] {
      NoneKept(covered);
    } else {
      var rest, r := Unsnoc(rows);
      NondecreasingSnoc(rest, r);
      KeepAfterIsTail(rest, covered);
      KeepAfterSnoc(rest, r, covered);
      TailAfterSnoc(rest, r, covered, |rest| - |KeepAfter(rest, covered)|);
    }
  }

  lemma WindowSplits(chat: seq<Row>, k: nat)
    requires Ascending(chat) && k < |chat|
    ensures forall x | x in chat[k..] :: x.at >= chat[k].at
    ensures forall x | x in chat[..k] :: x.at < chat[k].at
  {
  }

  lemma RecentIsRange(chat: seq<Row>, limit: nat, top: int)
    requires Ascending(chat) && limit > 0 && chat != [] && forall x | x in chat :: 1 <= x.at <= top
    ensures var recent := Recent(chat, limit);
            recent != [] && recent[0] in chat && recent == Between(chat, recent[0].at, top)
  {
    var recent := Recent(chat, limit);
    var (before, start) := (chat[..|chat| - |recent|], recent[0].at);
    assert chat == before + recent && recent[0] == chat[|before|];
    WindowSplits(chat, |before|);
    hide *;
    BetweenAppend(before, recent, start, top);
    BetweenNone(before, start, top);
    BetweenAll(recent, start, top);
    assert [] + recent == recent;
  }

  // ---------- Ids ----------

  lemma {:induction false} IdsAppend(x: seq<Row>, y: seq<Row>)
    ensures Ids(x + y) == Ids(x) + Ids(y)
  {
    if y == [] {
      assert x + y == x;
    } else {
      var rest, r := Unsnoc(y);
      IdsAppend(x, rest);
      assert (x + y)[..|x + y| - 1] == x + rest;
    }
  }

  lemma {:induction false} IdsAt(rows: seq<Row>)
    ensures |Ids(rows)| == |rows| && forall i | 0 <= i < |rows| :: Ids(rows)[i] == rows[i].id
  {
    if rows != [] { IdsAt(rows[..|rows| - 1]); }
  }

  predicate NoRepeats(ids: seq<Id>) {
    forall i, j | 0 <= i < j < |ids| :: ids[i] != ids[j]
  }
}
