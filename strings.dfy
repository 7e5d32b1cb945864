/** The few JavaScript string operations the core relies on:
    `Array.prototype.join`, `String.prototype.split` with a one-character
    separator, substring search and the decimal rendering of a count. */
module Strings {

  /** Number of occurrences of `c` in `s`. */
  function Count(s: string, c: char): (n: nat)
    ensures n <= |s|
    ensures n == 0 <==> c !in s
  {
    if s == [] then 0 else (if s[0] == c then 1 else 0) + Count(s[1..], c)
  }

  /** `Math.min` on integers. */
  function Min(a: int, b: int): int
  {
    if a <= b then a else b
  }

  /** `parts.join(sep)`: the parts with `sep` between neighbours; `[]` gives "". */
  function Join(parts: seq<string>, sep: string): string
  {
    if |parts| == 0 then ""
    else if |parts| == 1 then parts[0]
    else parts[0] + sep + Join(parts[1..], sep)
  }

  /** `s.split(c)` for a one-character separator: the maximal runs between
      separators, empty runs included, so "" gives [""]. */
  function Split(s: string, c: char): (r: seq<string>)
    ensures |r| == Count(s, c) + 1
    ensures forall i :: 0 <= i < |r| ==> c !in r[i]
  {
    if s == [] then [""]
    else if s[0] == c then [""] + Split(s[1..], c)
    else
      var rest := Split(s[1..], c);
      [[s[0]] + rest[0]] + rest[1..]
  }

  /** Splitting creates no characters: a character missing from `s` is
      missing from every piece. */
  lemma {:induction false} SplitPiecesAvoid(s: string, c: char, d: char)
    requires d !in s
    ensures forall i :: 0 <= i < |Split(s, c)| ==> d !in Split(s, c)[i]
  {
    if s != [] {
      SplitPiecesAvoid(s[1..], c, d);
    }
  }

  /** `s.includes(t)`: `t` occurs in `s` at some position. */
  predicate Contains(s: string, t: string)
  {
    exists i: nat :: i <= |s| && OccursAt(s, t, i)
  }

  /** `s` holds `t` starting at index `at`. */
  predicate OccursAt(s: string, t: string, at: nat)
  {
    at + |t| <= |s| && s[at..at + |t|] == t
  }

  function Digit(d: nat): (c: char)
    requires d < 10
    ensures '0' <= c <= '9'
  {
    (('0' as int) + d) as char
  }

  /** The template literal `${n}` of a non-negative integer. */
  function Decimal(n: nat): (r: string)
    ensures |r| >= 1
    ensures forall i :: 0 <= i < |r| ==> '0' <= r[i] <= '9'
  {
    if n < 10 then [Digit(n)] else Decimal(n / 10) + [Digit(n % 10)]
  }

  /** Joining the pieces of a split with the separator gives back the string. */
  lemma {:induction false} JoinSplit(s: string, c: char)
    ensures Join(Split(s, c), [c]) == s
  {
    if s != [] {
      JoinSplit(s[1..], c);
      if s[0] == c {
        JoinSplitAtSeparator(s[1..], c);
        assert s == [c] + s[1..];
      } else {
        JoinSplitAtOther(s[0], s[1..], c);
        assert s == [s[0]] + s[1..];
      }
    }
  }

  /** The induction step of `JoinSplit` when the text is the separator
      followed by `t`. */
  lemma JoinSplitAtSeparator(t: string, c: char)
    requires Join(Split(t, c), [c]) == t
    ensures Join(Split([c] + t, c), [c]) == [c] + t
  {
    var rest := Split(t, c);
    assert ([c] + t)[1..] == t;
    assert Split([c] + t, c) == [""] + rest;
    assert ([""] + rest)[1..] == rest;
  }

  /** The induction step of `JoinSplit` when `s` opens with another
      character `x`, followed by `t`. */
  lemma JoinSplitAtOther(x: char, t: string, c: char)
    requires x != c
    requires Join(Split(t, c), [c]) == t
    ensures Join(Split([x] + t, c), [c]) == [x] + t
  {
    var rest := Split(t, c);
    assert ([x] + t)[1..] == t;
    assert Split([x] + t, c) == [[x] + rest[0]] + rest[1..];
    assert rest == [rest[0]] + rest[1..];
    JoinPrepend(x, rest[0], rest[1..], [c]);
  }

  /** Putting a character in front of the first part puts it in front of the
      joined text. */
  lemma JoinPrepend(x: char, p: string, q: seq<string>, sep: string)
    ensures Join([[x] + p] + q, sep) == [x] + Join([p] + q, sep)
  {
    if q != [] {
      assert ([[x] + p] + q)[1..] == q;
      assert ([p] + q)[1..] == q;
    }
  }

  lemma {:induction false} SplitNoSeparator(w: string, c: char)
    requires c !in w
    ensures Split(w, c) == [w]
  {
    if w != [] {
      SplitNoSeparator(w[1..], c);
      assert [w[0]] + w[1..] == w;
    }
  }

  lemma {:induction false} SplitAfterPiece(w: string, t: string, c: char)
    requires c !in w
    ensures Split(w + [c] + t, c) == [w] + Split(t, c)
  {
    if w == [] {
      assert w + [c] + t == [c] + t;
      assert ([c] + t)[1..] == t;
    } else {
      var s := w + [c] + t;
      assert s[0] == w[0] && s[0] != c;
      assert s[1..] == w[1..] + [c] + t;
      SplitAfterPiece(w[1..], t, c);
      var rest := Split(s[1..], c);
      assert rest[0] == w[1..] && rest[1..] == Split(t, c);
      assert [s[0]] + rest[0] == w;
    }
  }

  /** Splitting a join gives back the parts when no part holds the separator. */
  lemma {:induction false} SplitJoin(parts: seq<string>, c: char)
    requires |parts| >= 1
    requires forall i :: 0 <= i < |parts| ==> c !in parts[i]
    ensures Split(Join(parts, [c]), c) == parts
  {
    if |parts| == 1 {
      SplitNoSeparator(parts[0], c);
    } else {
      SplitJoin(parts[1..], c);
      SplitAfterPiece(parts[0], Join(parts[1..], [c]), c);
      assert [parts[0]] + parts[1..] == parts;
    }
  }

  /** A join has the length of its parts plus one separator between each
      two neighbours. */
  lemma {:induction false} JoinLength(parts: seq<string>, sep: string)
    requires |parts| >= 1
    ensures |Join(parts, sep)| == TotalLength(parts) + (|parts| - 1) * |sep|
  {
    if |parts| > 1 {
      JoinLength(parts[1..], sep);
    }
  }

  function TotalLength(parts: seq<string>): nat
  {
    if parts == [] then 0 else |parts[0]| + TotalLength(parts[1..])
  }

  /** A character not in `s` rules out every word that holds it. */
  lemma MissingCharRulesOut(s: string, t: string, at: nat)
    requires at < |t|
    requires t[at] !in s
    ensures !Contains(s, t)
  {
    forall i: nat | i <= |s|
      ensures !OccursAt(s, t, i)
    {
      if i + |t| <= |s| {
        assert s[i..i + |t|][at] == s[i + at];
      }
    }
  }

  /** A word found inside `m` is found in any text that embeds `m`. */
  lemma OccursInContext(p: string, m: string, q: string, t: string, at: nat)
    requires OccursAt(m, t, at)
    ensures OccursAt(p + m + q, t, |p| + at)
  {
    assert (p + m + q)[|p| + at..|p| + at + |t|] == m[at..at + |t|];
  }

  /** Where the `k`-th part starts inside `Join(parts, sep)` when `sep` has
      length `w`. */
  function PieceOffset(parts: seq<string>, w: nat, k: nat): nat
    requires k < |parts|
  {
    if k == 0 then 0 else |parts[0]| + w + PieceOffset(parts[1..], w, k - 1)
  }

  /** Every part appears in a join, verbatim, at its offset. */
  lemma {:induction false} JoinPieceAt(parts: seq<string>, sep: string, k: nat)
    requires k < |parts|
    ensures OccursAt(Join(parts, sep), parts[k], PieceOffset(parts, |sep|, k))
  {
    if |parts| == 1 {
      assert Join(parts, sep) == parts[0];
    } else if k == 0 {
      var rest := Join(parts[1..], sep);
      Regroup(parts[0], sep, rest);
      Starts(parts[0], sep + rest);
    } else {
      JoinPieceAt(parts[1..], sep, k - 1);
      assert parts[1..][k - 1] == parts[k];
      Shift(parts[0] + sep, Join(parts[1..], sep), parts[k], PieceOffset(parts[1..], |sep|, k - 1));
    }
  }

  /** Between a part and the next one a join holds exactly the separator. */
  lemma {:induction false} JoinSeparatorAt(parts: seq<string>, sep: string, k: nat)
    requires k + 1 < |parts|
    ensures OccursAt(Join(parts, sep), sep, PieceOffset(parts, |sep|, k) + |parts[k]|)
  {
    var rest := Join(parts[1..], sep);
    if k == 0 {
      Sits(parts[0], sep, rest);
    } else {
      JoinSeparatorAt(parts[1..], sep, k - 1);
      assert parts[1..][k - 1] == parts[k];
      Regroup(parts[0], sep, rest);
      Shift(parts[0] + sep, rest, sep, PieceOffset(parts[1..], |sep|, k - 1) + |parts[k]|);
    }
  }

  /** The next part starts one separator after the end of this one. */
  lemma {:induction false} PieceOffsetNext(parts: seq<string>, w: nat, k: nat)
    requires k + 1 < |parts|
    ensures PieceOffset(parts, w, k + 1) == PieceOffset(parts, w, k) + |parts[k]| + w
  {
    if k > 0 {
      PieceOffsetNext(parts[1..], w, k - 1);
    }
  }

  /** The last part ends where the join ends: nothing follows it. */
  lemma {:induction false} LastPieceEnds(parts: seq<string>, sep: string)
    requires |parts| >= 1
    ensures PieceOffset(parts, |sep|, |parts| - 1) + |parts[|parts| - 1]| == |Join(parts, sep)|
  {
    if |parts| > 1 {
      LastPieceEnds(parts[1..], sep);
      assert parts[1..][|parts| - 2] == parts[|parts| - 1];
    }
  }

  /** Parts appear in a join in their own order, without overlapping. */
  lemma {:induction false} PieceOffsetsIncrease(parts: seq<string>, w: nat, j: nat, k: nat)
    requires j < k < |parts|
    ensures PieceOffset(parts, w, j) + |parts[j]| + w <= PieceOffset(parts, w, k)
  {
    if j > 0 {
      PieceOffsetsIncrease(parts[1..], w, j - 1, k - 1);
    } else if k > 1 {
      PieceOffsetsIncrease(parts[1..], w, 0, k - 1);
    }
  }

  /** A word found inside a part of `s` is found in `s`. */
  lemma OccursWithin(s: string, m: string, t: string, at: nat, inner: nat)
    requires OccursAt(s, m, at) && OccursAt(m, t, inner)
    ensures OccursAt(s, t, at + inner)
  {
    forall i | 0 <= i < |t|
      ensures s[at + inner..at + inner + |t|][i] == t[i]
    {
      assert s[at..at + |m|][inner + i] == m[inner + i];
      assert m[inner..inner + |t|][i] == m[inner + i];
    }
  }

  /** The parts written one after the other, left to right. */
  function Concat(parts: seq<string>): string
  {
    if parts == [] then "" else Concat(parts[..|parts| - 1]) + parts[|parts| - 1]
  }

  lemma ConcatSnoc(parts: seq<string>, p: string)
    ensures Concat(parts + [p]) == Concat(parts) + p
  {
    assert (parts + [p])[..|parts|] == parts;
  }

  /** Part `k` sits right after the parts before it. */
  lemma {:induction false} ConcatPieceAt(parts: seq<string>, k: nat)
    requires k < |parts|
    ensures OccursAt(Concat(parts), parts[k], |Concat(parts[..k])|)
  {
    var init := parts[..|parts| - 1];
    if k < |parts| - 1 {
      ConcatPieceAt(init, k);
      assert init[..k] == parts[..k];
      OccursInContext("", Concat(init), parts[|parts| - 1], parts[k], |Concat(parts[..k])|);
      assert "" + Concat(init) + parts[|parts| - 1] == Concat(parts);
    } else {
      assert parts[..k] == init;
      assert Concat(parts)[|Concat(init)|..] == parts[k];
    }
  }

  /** A middle part occurs right after what precedes it. */
  lemma Sits(p: string, m: string, q: string)
    ensures OccursAt(p + m + q, m, |p|)
  {
    assert (p + m + q)[|p|..|p| + |m|] == m;
  }

  lemma StartsMiddle(s: string, p: string, m: string, q: string, t: string)
    requires s == p + m + q && OccursAt(m, t, 0)
    ensures OccursAt(s, t, |p|)
  {
    OccursInContext(p, m, q, t, 0);
  }

  /** A match stays where it is when text is appended. */
  lemma Extend(s: string, t: string, x: string, at: nat)
    requires OccursAt(s, x, at)
    ensures OccursAt(s + t, x, at)
  {
    assert (s + t)[at..at + |x|] == s[at..at + |x|];
  }

  /** A match moves right by the length of what is prepended. */
  lemma Shift(p: string, s: string, x: string, at: nat)
    requires OccursAt(s, x, at)
    ensures OccursAt(p + s, x, |p| + at)
  {
    assert (p + s)[|p| + at..|p| + at + |x|] == s[at..at + |x|];
  }

  /** A word inside a part of the middle of `pre + body + post` is found in
      the whole text, at the sum of the offsets. */
  lemma PartWithin(pre: string, body: string, post: string, m: string, t: string, mAt: nat, tAt: nat)
    requires OccursAt(body, m, mAt) && OccursAt(m, t, tAt)
    ensures OccursAt(pre + body + post, t, |pre| + mAt + tAt)
  {
    OccursWithin(body, m, t, mAt, tAt);
    OccursInContext(pre, body, post, t, mAt + tAt);
  }

  /** A non-empty sequence, and anything ending in it, split before its
      last element. */
  lemma SplitLast<T>(a: seq<T>, b: seq<T>)
    requires b != []
    ensures b == b[..|b| - 1] + [b[|b| - 1]]
    ensures a + b == a + b[..|b| - 1] + [b[|b| - 1]]
  {
    assert b == b[..|b| - 1] + [b[|b| - 1]];
  }

  /** The first part of a concatenation occurs at its start. */
  lemma Starts(p: string, m: string)
    ensures OccursAt(p + m, p, 0)
  {
    assert (p + m)[..|p|] == p;
  }

  /** The last part of a concatenation occurs at its end. */
  lemma Ends(p: string, m: string)
    ensures OccursAt(p + m, m, |p|)
  {
    assert (p + m)[|p|..|p| + |m|] == m;
  }

  /** One differing character rules a match out. */
  lemma Differs(s: string, t: string, at: nat, i: nat)
    requires i < |t| && (at + i >= |s| || s[at + i] != t[i])
    ensures !OccursAt(s, t, at)
  {
    if at + |t| <= |s| {
      assert s[at..at + |t|][i] == s[at + i];
    }
  }

  /** Regrouping text appended piece by piece. */
  lemma Regroup(p: string, a: string, b: string)
    ensures p + a + b == p + (a + b)
  {
  }

  lemma Regroup3(p: string, a: string, b: string, c: string)
    ensures p + a + b + c == p + (a + b + c)
  {
  }

  lemma Regroup4(p: string, a: string, b: string, c: string, d: string)
    ensures p + a + b + c + d == p + (a + b + c + d)
  {
  }

  lemma Regroup5(p: string, a: string, b: string, c: string, d: string, e: string)
    ensures p + a + b + c + d + e == p + (a + b + c + d + e)
  {
  }

  /** Two texts that differ at some position cannot both occur at one place. */
  lemma Clash(s: string, t: string, u: string, at: nat, i: nat)
    requires OccursAt(s, t, at) && i < |t| && i < |u| && t[i] != u[i]
    ensures !OccursAt(s, u, at)
  {
    assert s[at..at + |t|][i] == s[at + i];
    if at + |u| <= |s| {
      assert s[at..at + |u|][i] == s[at + i];
    }
  }

  /** When an empty middle is followed by `h`, nothing differing from `h`
      follows the first part. */
  lemma NotAfter(p: string, m: string, q: string, h: string, x: string, i: nat)
    requires m == "" && OccursAt(q, h, 0) && i < |h| && i < |x| && h[i] != x[i]
    ensures !OccursAt(p + m + q, x, |p|)
  {
    Shift(p + m, q, h, 0);
    Clash(p + m + q, h, x, |p|, i);
  }
}
