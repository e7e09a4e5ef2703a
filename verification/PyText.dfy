/** The Python string operations the sources normalise names with. */
module PyText {
  /** Characters `str.strip` removes. */
  predicate IsSpace(c: char) {
    var n := c as int;
    9 <= n <= 13 || 28 <= n <= 32 || n == 0x85 || n == 0xA0 || n == 0x1680 || 0x2000 <= n <= 0x200A
    || n == 0x2028 || n == 0x2029 || n == 0x202F || n == 0x205F || n == 0x3000
  }

  predicate AllSpace(s: string) {
    s == "" || (IsSpace(s[0]) && AllSpace(s[1..]))
  }

  function StripLeft(s: string): (r: string)
    ensures r == "" <==> AllSpace(s)
    ensures r != "" ==> !IsSpace(r[0])
  {
    if s != "" && IsSpace(s[0]) then StripLeft(s[1..]) else s
  }

  function StripRight(s: string): (r: string)
    ensures r != "" ==> !IsSpace(r[|r| - 1])
    ensures s != "" && !IsSpace(s[0]) ==> r != "" && r[0] == s[0]
  {
    if s != "" && IsSpace(s[|s| - 1]) then StripRight(s[..|s| - 1]) else s
  }

  predicate Trimmed(s: string) {
    s != "" ==> !IsSpace(s[0]) && !IsSpace(s[|s| - 1])
  }

  /** `str.strip()`. */
  function Strip(s: string): (r: string)
    ensures Trimmed(r)
    ensures Trimmed(s) ==> r == s
    ensures r == "" <==> AllSpace(s)
  {
    StripRight(StripLeft(s))
  }

  function LowerChar(c: char): char {
    if 'A' <= c <= 'Z' then (c as int + 32) as char else c
  }

  /** `str.lower()` on ASCII letters. */
  function Lower(s: string): (r: string)
    ensures |r| == |s| && forall i | 0 <= i < |s| :: r[i] == LowerChar(s[i])
  {
    if s == "" then "" else [LowerChar(s[0])] + Lower(s[1..])
  }

  /** `str(x).strip().lower()`. */
  function Normalize(s: string): string {
    Lower(Strip(s))
  }

  lemma PlainLetter(c: char)
    requires !IsSpace(c) && LowerChar(c) == c
    ensures Strip([c]) == [c] && Normalize([c]) == [c]
  {
    assert [c][1..] == "" && Lower("") == "";
  }

  lemma {:induction false} LowerTwice(s: string)
    ensures Lower(Lower(s)) == Lower(s)
  {
    if s != "" { LowerTwice(s[1..]); }
  }

  lemma LowerTrimmed(t: string)
    requires Trimmed(t)
    ensures Trimmed(Lower(t))
  {
    if t != "" {
      assert Lower(t)[0] == LowerChar(t[0]);
      assert Lower(t)[|t| - 1] == LowerChar(t[|t| - 1]);
    }
  }

  lemma NormalizeTwice(s: string)
    ensures Normalize(Normalize(s)) == Normalize(s)
    ensures Normalize(s) == "" <==> AllSpace(s)
  {
    LowerTwice(Strip(s));
    LowerTrimmed(Strip(s));
  }

  // ---------- What stripping and lowering amount to ----------

  lemma SpacesAre(c: char)
    ensures IsSpace(c) <==>
              c as int in {0x9, 0xA, 0xB, 0xC, 0xD, 0x1C, 0x1D, 0x1E, 0x1F, 0x20, 0x85, 0xA0, 0x1680,
                           0x2000, 0x2001, 0x2002, 0x2003, 0x2004, 0x2005, 0x2006, 0x2007, 0x2008, 0x2009, 0x200A,
                           0x2028, 0x2029, 0x202F, 0x205F, 0x3000}
  {
  }

  /** The 26 capitals go to the small letters at the same place in the alphabet. */
  lemma LowerCharIs(c: char)
    ensures if 'A' <= c <= 'Z' then LowerChar(c) as int - 'a' as int == c as int - 'A' as int else LowerChar(c) == c
    ensures IsSpace(LowerChar(c)) <==> IsSpace(c)
  {
  }

  lemma {:induction false} StripLeftPadded(pad: string, s: string)
    requires AllSpace(pad)
    ensures StripLeft(pad + s) == StripLeft(s)
  {
    if pad == "" {
      assert pad + s == s;
    } else {
      StripLeftPadded(pad[1..], s);
      assert (pad + s)[1..] == pad[1..] + s;
    }
  }

  lemma {:induction false} AllSpaceLast(pad: string)
    requires pad != ""
    ensures AllSpace(pad) <==> AllSpace(pad[..|pad| - 1]) && IsSpace(pad[|pad| - 1])
  {
    if |pad| > 1 {
      AllSpaceLast(pad[1..]);
      assert pad[1..][..|pad| - 2] == pad[..|pad| - 1][1..];
    }
  }

  lemma {:induction false} StripRightPadded(s: string, pad: string)
    requires AllSpace(pad)
    ensures StripRight(s + pad) == StripRight(s)
  {
    if pad == "" {
      assert s + pad == s;
    } else {
      AllSpaceLast(pad);
      StripRightPadded(s, pad[..|pad| - 1]);
      assert (s + pad)[..|s + pad| - 1] == s + pad[..|pad| - 1];
    }
  }

  lemma {:induction false} StripLeftBefore(s: string, pad: string)
    requires AllSpace(pad)
    ensures StripLeft(s + pad) == if AllSpace(s) then "" else StripLeft(s) + pad
  {
    if s == "" {
      assert s + pad == pad;
    } else if IsSpace(s[0]) {
      StripLeftBefore(s[1..], pad);
      assert (s + pad)[1..] == s[1..] + pad;
    }
  }

  /** White space around a text makes no difference, and a text without any around
      it is what is left: `Strip` cuts off exactly the spaces on both sides. */
  lemma StripPadded(before: string, s: string, after: string)
    requires AllSpace(before) && AllSpace(after)
    ensures Strip(before + s + after) == Strip(s)
    ensures Trimmed(s) ==> Strip(before + s + after) == s
  {
    hide StripLeft, StripRight;
    StripLeftPadded(before, s + after);
    assert before + s + after == before + (s + after);
    StripLeftBefore(s, after);
    StripRightPadded(StripLeft(s), after);
    if AllSpace(s) { assert StripLeft(s) == ""; }
  }

  lemma LowerTail(s: string)
    requires s != ""
    ensures Lower(s)[1..] == Lower(s[1..]) && Lower(s)[..|s| - 1] == Lower(s[..|s| - 1])
  {
  }

  lemma {:induction false} StripLeftLower(s: string)
    ensures StripLeft(Lower(s)) == Lower(StripLeft(s))
  {
    if s != "" {
      LowerCharIs(s[0]);
      LowerTail(s);
      StripLeftLower(s[1..]);
    }
  }

  lemma {:induction false} StripRightLower(s: string)
    ensures StripRight(Lower(s)) == Lower(StripRight(s))
  {
    if s != "" {
      LowerCharIs(s[|s| - 1]);
      LowerTail(s);
      StripRightLower(s[..|s| - 1]);
    }
  }

  /** Neither white space around a name nor the case of its letters makes a difference,
      and nothing else is changed. */
  lemma NormalizeIgnores(before: string, s: string, after: string)
    requires AllSpace(before) && AllSpace(after)
    ensures Normalize(before + Lower(s) + after) == Normalize(s)
    ensures Trimmed(s) && Lower(s) == s ==> Normalize(s) == s
  {
    hide Lower, StripLeft, StripRight, LowerChar;
    StripPadded(before, Lower(s), after);
    StripLeftLower(s);
    StripRightLower(StripLeft(s));
    LowerTwice(Strip(s));
  }

  // ---------- Order ----------

  /** Python's order on strings, by code points. */
  predicate TextBefore(a: string, b: string) {
    b != "" && (a == "" || a[0] < b[0] || (a[0] == b[0] && TextBefore(a[1..], b[1..])))
  }

  lemma {:induction false} TextOrder(a: string, b: string, c: string)
    ensures !TextBefore(a, a)
    ensures TextBefore(a, b) ==> !TextBefore(b, a)
    ensures TextBefore(a, b) && !TextBefore(c, b) ==> TextBefore(a, c)
    ensures !TextBefore(a, b) && TextBefore(c, b) ==> TextBefore(c, a)
    decreases |a| + |b| + |c|
  {
    if a != "" && b != "" && c != "" { TextOrder(a[1..], b[1..], c[1..]); }
    else if a != "" && b != "" { TextOrder(a[1..], b[1..], c); }
    else if a != "" { TextOrder(a[1..], b, c); }
  }

  lemma {:induction false} TextTotal(a: string, b: string)
    ensures a == b || TextBefore(a, b) || TextBefore(b, a)
  {
    if a != "" && b != "" && a[0] == b[0] {
      TextTotal(a[1..], b[1..]);
      assert a == [a[0]] + a[1..] && b == [b[0]] + b[1..];
    }
  }

  /** Every name comes before those after it. */
  predicate Sorted(names: seq<string>) {
    forall i, j | 0 <= i < j < |names| :: TextBefore(names[i], names[j])
  }

  /** The name of `items` before all others. */
  method FirstName(items: set<string>) returns (first: string)
    requires items != {}
    ensures first in items && forall x | x in items && x != first :: TextBefore(first, x)
  {
    hide TextBefore;
    first :| first in items;
    var left := items - {first};
    while left != {}
      invariant left <= items && first in items - left
      invariant forall x | x in items - left && x != first :: TextBefore(first, x)
      decreases |left|
    {
      var name :| name in left;
      TextTotal(name, first);
      if TextBefore(name, first) {
        forall x | x in items - left && x != first ensures TextBefore(name, x) {
          TextOrder(name, first, x);
          TextOrder(first, x, x);
        }
        first := name;
      }
      left := left - {name};
    }
  }

  /** `sorted` on a set of names. */
  method SortedNames(items: set<string>) returns (names: seq<string>)
    ensures Sorted(names) && forall n :: n in names <==> n in items
  {
    hide TextBefore;
    names := [];
    var left := items;
    while left != {}
      invariant left <= items && forall n :: n in names <==> n in items - left
      invariant Sorted(names)
      invariant forall n, x | n in names && x in left :: TextBefore(n, x)
      decreases |left|
    {
      var first := FirstName(left);
      names := names + [first];
      left := left - {first};
    }
  }
}
