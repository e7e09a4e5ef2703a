/** Context compression: splitting oversized chunks, and the sequence of model
    calls with its rule fallback. */
module Compression {
  import opened Common
  import opened PyText

  /** `part` numbers the pieces a chunk was split into, from 1. */
  datatype Chunk = Chunk(ref: string, id: string, part: Option<nat>, text: string)

  function Texts(chunks: seq<Chunk>): string {
    if chunks == [] then "" else Texts(chunks[..|chunks| - 1]) + chunks[|chunks| - 1].text
  }

  // ---------- Splitting ----------

  /** The pieces of `chunk` from piece `k + 1` on, `limit` characters each. */
  function PiecesFrom(chunk: Chunk, limit: nat, start: nat, k: nat): seq<Chunk>
    requires limit > 0
    decreases |chunk.text| - start
  {
    if start >= |chunk.text| then []
    else
      var stop := if start + limit < |chunk.text| then start + limit else |chunk.text|;
      [chunk.(part := Some(k + 1), text := chunk.text[start..stop])] + PiecesFrom(chunk, limit, start + limit, k + 1)
  }

  function Pieces(chunk: Chunk, limit: nat): seq<Chunk>
    requires limit > 0
  {
    if |chunk.text| <= limit then [chunk] else PiecesFrom(chunk, limit, 0, 0)
  }

  function Split(chunks: seq<Chunk>, limit: nat): seq<Chunk>
    requires limit > 0
  {
    if chunks == [] then [] else Split(chunks[..|chunks| - 1], limit) + Pieces(chunks[|chunks| - 1], limit)
  }

  function Limit(maxChunkChars: int): (limit: nat)
    ensures limit >= 1 && limit >= maxChunkChars && (limit == 1 || limit == maxChunkChars)
  {
    if maxChunkChars < 1 then 1 else maxChunkChars
  }

  method SplitLargeChunks(chunks: seq<Chunk>, maxChunkChars: int) returns (result: seq<Chunk>)
    ensures result == Split(chunks, Limit(maxChunkChars))
  {
    var limit := Limit(maxChunkChars);
    result := [];
    for i := 0 to |chunks|
      invariant result == Split(chunks[..i], limit)
    {
      assert chunks[..i + 1][..i] == chunks[..i];
      var chunk := chunks[i];
      if |chunk.text| <= limit {
        result := result + [chunk];
      } else {
        var parts := SplitChunk(chunk, limit);
        result := result + parts;
      }
    }
    assert chunks[..|chunks|] == chunks;
  }

  /** The inner loop, for one oversized chunk. */
  method SplitChunk(chunk: Chunk, limit: nat) returns (parts: seq<Chunk>)
    requires limit > 0
    ensures parts == PiecesFrom(chunk, limit, 0, 0)
  {
    hide PiecesFrom;
    parts := [];
    var start := 0;
    var partIndex := 1;
    while start < |chunk.text|
      invariant partIndex >= 1
      invariant PiecesFrom(chunk, limit, 0, 0) == parts + PiecesFrom(chunk, limit, start, partIndex - 1)
      decreases |chunk.text| - start
    {
      var stop := if start + limit < |chunk.text| then start + limit else |chunk.text|;
      var piece := chunk.(part := Some(partIndex), text := chunk.text[start..stop]);
      PiecesStep(chunk, limit, start, partIndex - 1);
      assert parts + ([piece] + PiecesFrom(chunk, limit, start + limit, partIndex))
          == (parts + [piece]) + PiecesFrom(chunk, limit, start + limit, partIndex);
      parts := parts + [piece];
      start := start + limit;
      partIndex := partIndex + 1;
    }
    NoPieces(chunk, limit, start, partIndex - 1);
  }

  // ---------- What splitting keeps ----------

  lemma {:induction false} TextsAppend(a: seq<Chunk>, b: seq<Chunk>)
    ensures Texts(a + b) == Texts(a) + Texts(b)
  {
    if b == [] {
      assert a + b == a;
    } else {
      hide Texts;
      var (b', c) := (b[..|b| - 1], b[|b| - 1]);
      TextsAppend(a, b');
      assert b == b' + [c] && a + b == (a + b') + [c];
      TextsSnoc(b', c);
      TextsSnoc(a + b', c);
      assert Texts(a) + (Texts(b') + c.text) == Texts(a) + Texts(b') + c.text;
    }
  }

  lemma TextsSnoc(a: seq<Chunk>, c: Chunk)
    ensures Texts(a + [c]) == Texts(a) + c.text
  {
    assert (a + [c])[..|a|] == a;
  }

  lemma TextsOne(c: Chunk)
    ensures Texts([c]) == c.text && Texts([]) == ""
  {
    assert [c][..0] == [];
  }

  /** `ceil(n / limit)`, by counting off. */
  function CeilDiv(n: nat, limit: nat): nat
    requires limit > 0
  {
    if n == 0 then 0 else if n <= limit then 1 else 1 + CeilDiv(n - limit, limit)
  }

  /** It is the least number of pieces of that size that hold `n`. */
  lemma {:induction false} CeilDivIsCeiling(n: nat, limit: nat)
    requires limit > 0
    ensures n <= CeilDiv(n, limit) * limit
    ensures n > 0 ==> (CeilDiv(n, limit) - 1) * limit < n
    decreases n
  {
    if n > limit {
      CeilDivIsCeiling(n - limit, limit);
      OneMore(CeilDiv(n - limit, limit), limit);
    }
  }

  lemma OneMore(c: int, limit: int)
    ensures (1 + c) * limit == c * limit + limit && c * limit == (c - 1) * limit + limit
  {
  }

  function Stop(chunk: Chunk, limit: nat, start: nat): nat {
    if start + limit < |chunk.text| then start + limit else |chunk.text|
  }

  function Piece(chunk: Chunk, limit: nat, start: nat, k: nat): Chunk
    requires start < |chunk.text|
  {
    chunk.(part := Some(k + 1), text := chunk.text[start..Stop(chunk, limit, start)])
  }

  lemma PiecesStep(chunk: Chunk, limit: nat, start: nat, k: nat)
    requires limit > 0 && start < |chunk.text|
    ensures PiecesFrom(chunk, limit, start, k)
         == [Piece(chunk, limit, start, k)] + PiecesFrom(chunk, limit, start + limit, k + 1)
    ensures start + limit >= |chunk.text| ==> PiecesFrom(chunk, limit, start + limit, k + 1) == []
  {
  }

  lemma NoPieces(chunk: Chunk, limit: nat, start: nat, k: nat)
    requires limit > 0 && start >= |chunk.text|
    ensures PiecesFrom(chunk, limit, start, k) == [] && Texts([]) == ""
  {
  }

  lemma {:induction false} PiecesJoin(chunk: Chunk, limit: nat, start: nat, k: nat)
    requires limit > 0 && start <= |chunk.text|
    ensures Texts(PiecesFrom(chunk, limit, start, k)) == chunk.text[start..]
    decreases |chunk.text| - start
  {
    hide Texts, PiecesFrom;
    if start == |chunk.text| {
      NoPieces(chunk, limit, start, k);
    } else {
      PiecesStep(chunk, limit, start, k);
      var (head, stop) := (Piece(chunk, limit, start, k), Stop(chunk, limit, start));
      TextsAppend([head], PiecesFrom(chunk, limit, start + limit, k + 1));
      TextsOne(head);
      if stop < |chunk.text| {
        PiecesJoin(chunk, limit, stop, k + 1);
      } else {
        NoPieces(chunk, limit, start + limit, k + 1);
      }
      assert chunk.text[start..] == head.text + chunk.text[stop..];
    }
  }

  /** Numbered from `k + 1`, nonempty, within the limit, all full but perhaps the last. */
  predicate WellCut(chunk: Chunk, limit: nat, k: nat, p: seq<Chunk>) {
    && (forall i | 0 <= i < |p| ::
          0 < |p[i].text| <= limit && p[i] == chunk.(part := Some(k + 1 + i), text := p[i].text))
    && (forall i | 0 <= i < |p| - 1 :: |p[i].text| == limit)
  }

  lemma WellCutCons(chunk: Chunk, limit: nat, k: nat, head: Chunk, p: seq<Chunk>)
    requires WellCut(chunk, limit, k + 1, p) && head == chunk.(part := Some(k + 1), text := head.text)
    requires 0 < |head.text| <= limit && (p != [] ==> |head.text| == limit)
    ensures WellCut(chunk, limit, k, [head] + p)
  {
    var all := [head] + p;
    assert forall i | 0 < i < |all| :: all[i] == p[i - 1];
  }

  lemma {:induction false} PiecesShape(chunk: Chunk, limit: nat, start: nat, k: nat)
    requires limit > 0 && start <= |chunk.text|
    ensures |PiecesFrom(chunk, limit, start, k)| == CeilDiv(|chunk.text| - start, limit)
    ensures WellCut(chunk, limit, k, PiecesFrom(chunk, limit, start, k))
    decreases |chunk.text| - start
  {
    hide PiecesFrom, WellCut;
    if start == |chunk.text| {
      NoPieces(chunk, limit, start, k);
      assert WellCut(chunk, limit, k, []) by { NothingCut(chunk, limit, k); }
    } else {
      PiecesStep(chunk, limit, start, k);
      var rest := PiecesFrom(chunk, limit, start + limit, k + 1);
      if start + limit <= |chunk.text| {
        PiecesShape(chunk, limit, start + limit, k + 1);
      } else {
        NothingCut(chunk, limit, k + 1);
      }
      WellCutCons(chunk, limit, k, Piece(chunk, limit, start, k), rest);
    }
  }

  lemma NothingCut(chunk: Chunk, limit: nat, k: nat)
    ensures WellCut(chunk, limit, k, [])
  {
  }

  /** Splitting a chunk loses nothing: the pieces join to its text, each fits
      the limit, and an oversized chunk yields `ceil(n / limit)` of them,
      numbered from 1, all full but perhaps the last. */
  lemma PiecesKeepTheText(chunk: Chunk, limit: nat)
    requires limit > 0
    ensures var p := Pieces(chunk, limit);
            && Texts(p) == chunk.text
            && (forall i | 0 <= i < |p| :: |p[i].text| <= limit && p[i].ref == chunk.ref && p[i].id == chunk.id)
            && (|chunk.text| > limit ==>
                  && |p| == CeilDiv(|chunk.text|, limit)
                  && (forall i | 0 <= i < |p| :: p[i].part == Some(i + 1) && p[i].text != "")
                  && (forall i | 0 <= i < |p| - 1 :: |p[i].text| == limit))
  {
    if |chunk.text| <= limit {
      assert [chunk][..0] == [];
    } else {
      PiecesJoin(chunk, limit, 0, 0);
      PiecesShape(chunk, limit, 0, 0);
      assert chunk.text[0..] == chunk.text;
    }
  }

  /** The whole list keeps its concatenated text. */
  lemma {:induction false} SplitKeepsTheText(chunks: seq<Chunk>, limit: nat)
    requires limit > 0
    ensures Texts(Split(chunks, limit)) == Texts(chunks)
    ensures forall c | c in Split(chunks, limit) :: |c.text| <= limit
  {
    if chunks != [] {
      var (rest, c) := (chunks[..|chunks| - 1], chunks[|chunks| - 1]);
      SplitKeepsTheText(rest, limit);
      PiecesKeepTheText(c, limit);
      TextsAppend(Split(rest, limit), Pieces(c, limit));
    }
  }

  // ---------- The sequence of calls ----------

  datatype Compressed =
    | BlankInput
    | SingleCall(calls: nat)
    | Synthesis(calls: nat)
    | RuleFallback(text: string, calls: nat, afterSynthesis: bool)
    | ModelFailed(calls: nat)

  predicate Succeeded(r: Compressed) { r.SingleCall? || r.Synthesis? || r.RuleFallback? }

  function Joined(chunks: seq<Chunk>): string {
    if chunks == [] then ""
    else if |chunks| == 1 then chunks[0].text
    else Joined(chunks[..|chunks| - 1]) + "\n\n" + chunks[|chunks| - 1].text
  }

  lemma JoinedEnd(chunks: seq<Chunk>)
    requires |chunks| >= 2
    ensures Joined(chunks) == Joined(chunks[..|chunks| - 1]) + "\n\n" + chunks[|chunks| - 1].text
  {
  }

  lemma Chain(a: string, gap: string, b: string, c: string)
    ensures (a + gap + b) + gap + c == a + gap + (b + gap + c)
  {
  }

  /** Read from the front: a blank line stands between any two texts, and nowhere else. */
  lemma {:induction false} JoinedFromFront(c: Chunk, rest: seq<Chunk>)
    ensures Joined([c] + rest) == if rest == [] then c.text else c.text + "\n\n" + Joined(rest)
  {
    if |rest| <= 1 {
      assert ([c] + rest)[..1] == [c];
    } else {
      var (mid, last) := (rest[..|rest| - 1], rest[|rest| - 1]);
      JoinedFromFront(c, mid);
      assert ([c] + rest)[..|rest|] == [c] + mid;
      JoinedEnd(rest);
      JoinedEnd([c] + rest);
      hide Joined;
      Chain(c.text, "\n\n", Joined(mid), last.text);
    }
  }

  /** `_rule_fallback_result`: the preserved-entities line, then the head of the source. */
  function FallbackText(chunks: seq<Chunk>, prefix: string, target: nat): string {
    var room := if target - |prefix| < 1 then 1 else target - |prefix|;
    var source := Joined(chunks);
    prefix + if |source| <= room then source else source[..room]
  }

  lemma FallbackFits(chunks: seq<Chunk>, prefix: string, target: nat)
    ensures var t := FallbackText(chunks, prefix, target);
            && |t| <= (if |prefix| < target then target else |prefix| + 1)
            && prefix <= t && t[|prefix|..] <= Joined(chunks)
            && (t == prefix + Joined(chunks) <==> |Joined(chunks)| <= 1 || |prefix| + |Joined(chunks)| <= target)
  {
    var (t, source) := (FallbackText(chunks, prefix, target), Joined(chunks));
    assert t == prefix + source ==> |t| == |prefix| + |source|;
  }

  /** Calls needed when every chunk compresses. */
  function CallsNeeded(n: nat): nat { if n <= 1 then n else n + 1 }

  /** How the calls, answered by `ok` in turn, lead to the result. */
  ghost predicate Follows(
    chunks: seq<Chunk>, ok: nat -> bool, allowFallback: bool, prefix: string, target: nat, r: Compressed)
  {
    if AllSpace(Joined(chunks)) then r == BlankInput
    else
      match r
      case BlankInput => false
      case SingleCall(calls) => calls == |chunks| == 1 && ok(0)
      case Synthesis(calls) => |chunks| > 1 && calls == |chunks| + 1 && forall i | 0 <= i < calls :: ok(i)
      case RuleFallback(text, calls, after) =>
        && allowFallback && text == FallbackText(chunks, prefix, target)
        && FirstRefusal(chunks, ok, calls) && (after <==> calls == |chunks| + 1)
      case ModelFailed(calls) => !allowFallback && FirstRefusal(chunks, ok, calls)
  }

  /** Call number `calls` is the first refused one. */
  ghost predicate FirstRefusal(chunks: seq<Chunk>, ok: nat -> bool, calls: nat) {
    1 <= calls <= CallsNeeded(|chunks|) && !ok(calls - 1) && forall i | 0 <= i < calls - 1 :: ok(i)
  }

  method CompressContext(
    chunks: seq<Chunk>, ok: nat -> bool, allowFallback: bool, prefix: string, target: nat) returns (r: Compressed)
    ensures Follows(chunks, ok, allowFallback, prefix, target, r)
  {
    var source := Joined(chunks);
    if Strip(source) == "" {
      return BlankInput;
    }
    var calls := 0;
    for i := 0 to |chunks|
      invariant calls == i
      invariant forall j | 0 <= j < i :: ok(j)
    {
      calls := calls + 1;
      if !ok(i) {
        if allowFallback {
          return RuleFallback(FallbackText(chunks, prefix, target), calls, false);
        }
        return ModelFailed(calls);
      }
    }
    if |chunks| == 1 {
      return SingleCall(calls);
    }
    assert |chunks| > 1;
    calls := calls + 1;
    if ok(|chunks|) {
      return Synthesis(calls);
    }
    if allowFallback {
      return RuleFallback(FallbackText(chunks, prefix, target), calls, true);
    }
    return ModelFailed(calls);
  }

  /** Compression succeeds exactly when there is something to compress and
      either the rule fallback is allowed or no needed call is refused. */
  lemma SucceedsIff(
    chunks: seq<Chunk>, ok: nat -> bool, allowFallback: bool, prefix: string, target: nat, r: Compressed)
    requires Follows(chunks, ok, allowFallback, prefix, target, r)
    ensures Succeeded(r) <==>
              !AllSpace(Joined(chunks)) && (allowFallback || forall i | 0 <= i < CallsNeeded(|chunks|) :: ok(i))
  {
    hide Joined, FallbackText, AllSpace;
    if chunks == [] { assert Joined(chunks) == "" by { NothingJoined(); } }
    if r.ModelFailed? { assert !ok(r.calls - 1); }
  }

  lemma NothingJoined()
    ensures Joined([]) == "" && AllSpace(Joined([]))
  {
  }
}
