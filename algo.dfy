/**
 * Levenshtein in algo.go: a single-row dynamic program over the runes of two
 * words. Before processing rune `i` of `w` (counting from 0) the code resets
 * the row's first cell to `i`, where the textbook recurrence has `i + 1`. The
 * first rune of `w` may therefore be dropped for free, and what the code
 * returns is the smaller of the textbook distance from `v` to `w` and from `v`
 * to `w` without its first rune (`Distance` below), not the textbook distance
 * (`EditDistance`).
 */
module Algo {
  import opened Words

  function Min(a: int, b: int): int
  {
    if a <= b then a else b
  }

  function Max(a: int, b: int): int
  {
    if a <= b then b else a
  }

  /** The price of putting rune `y` where rune `x` stands. */
  function Cost(x: char, y: char): nat
  {
    if x == y then 0 else 1
  }

  /**
   * The textbook Levenshtein distance between `a[..n]` and `b[o..o + m]`,
   * with unit-cost insertion, deletion and substitution.
   */
  function Lev(a: Word, b: Word, o: nat, n: nat, m: nat): nat
    requires n <= |a| && o + m <= |b|
  {
    if n == 0 then m
    else if m == 0 then n
    else
      Min(Min(Lev(a, b, o, n - 1, m) + 1, Lev(a, b, o, n, m - 1) + 1),
          Lev(a, b, o, n - 1, m - 1) + Cost(a[n - 1], b[o + m - 1]))
  }

  /** The textbook Levenshtein distance between two words. */
  function EditDistance(a: Word, b: Word): nat
  {
    Lev(a, b, 0, |a|, |b|)
  }

  /** What Levenshtein(v, w) returns. */
  function Distance(v: Word, w: Word): nat
  {
    if |w| == 0 then |v| else Min(EditDistance(v, w), EditDistance(v, w[1..]))
  }

  /**
   * What the code keeps in `d[j]` once it has processed the first `i` runes of
   * `w`: `j` before any rune, and afterwards the smaller of the textbook
   * distances from `v[..j]` to `w[..i]` and to `w[1..i]`.
   */
  ghost function Entry(v: Word, w: Word, i: nat, j: nat): int
    requires i <= |w| && j <= |v|
  {
    if i == 0 then j else Min(Lev(v, w, 0, j, i), Lev(v, w, 1, j, i - 1))
  }

  /** The whole row `d` once the first `i` runes of `w` are processed. */
  ghost function Row(v: Word, w: Word, i: nat): (r: seq<int>)
    requires i <= |w|
    ensures |r| == |v| + 1
  {
    seq(|v| + 1, k requires 0 <= k <= |v| => Entry(v, w, i, k))
  }

  /** The first cell of row `i + 1` is `i`, the value the code stores in `d[0]`. */
  lemma EntryFirstColumn(v: Word, w: Word, i: nat)
    requires i < |w|
    ensures Entry(v, w, i + 1, 0) == i
  {
  }

  /**
   * The entries obey the recurrence of the code's inner loop: one more than the
   * smaller of the cell above and the cell to the left, or the diagonal plus
   * the substitution cost if that is smaller.
   */
  lemma EntryStep(v: Word, w: Word, i: nat, j: nat)
    requires i < |w| && j < |v|
    ensures Entry(v, w, i + 1, j + 1)
         == Min(Min(Entry(v, w, i, j + 1) + 1, Entry(v, w, i + 1, j) + 1),
                Entry(v, w, i, j) + Cost(v[j], w[i]))
  {
    if i == 0 {
      LevUnfold(v, w, 0, j + 1, 1);
    } else {
      EntryStepLaterRow(v, w, i, j);
    }
  }

  lemma EntryStepLaterRow(v: Word, w: Word, i: nat, j: nat)
    requires 0 < i < |w| && j < |v|
    ensures Entry(v, w, i + 1, j + 1)
         == Min(Min(Entry(v, w, i, j + 1) + 1, Entry(v, w, i + 1, j) + 1),
                Entry(v, w, i, j) + Cost(v[j], w[i]))
  {
    LevUnfold(v, w, 0, j + 1, i + 1);
    LevUnfold(v, w, 1, j + 1, i);
    MinDistributes(Lev(v, w, 0, j, i + 1), Lev(v, w, 0, j + 1, i), Lev(v, w, 0, j, i),
                   Lev(v, w, 1, j, i), Lev(v, w, 1, j + 1, i - 1), Lev(v, w, 1, j, i - 1),
                   Cost(v[j], w[i]));
  }

  /** One step of the textbook recurrence. */
  lemma LevUnfold(a: Word, b: Word, o: nat, n: nat, m: nat)
    requires 1 <= n <= |a| && 1 <= m && o + m <= |b|
    ensures Lev(a, b, o, n, m)
         == Min(Min(Lev(a, b, o, n - 1, m) + 1, Lev(a, b, o, n, m - 1) + 1),
                Lev(a, b, o, n - 1, m - 1) + Cost(a[n - 1], b[o + m - 1]))
  {
  }

  /** Both recurrences are minima of the same shape, so their minimum is one too. */
  lemma MinDistributes(e1: int, e2: int, e3: int, f1: int, f2: int, f3: int, c: int)
    ensures Min(Min(Min(e2, f2) + 1, Min(e1, f1) + 1), Min(e3, f3) + c)
         == Min(Min(Min(e1 + 1, e2 + 1), e3 + c), Min(Min(f1 + 1, f2 + 1), f3 + c))
  {
  }

  /** Comparing `a` with `b` from offset `o` is comparing it with `b[o..]`. */
  ghost predicate OffsetIsSuffix(a: Word, b: Word, o: nat, n: nat, m: nat)
    requires n <= |a| && o + m <= |b|
  {
    Lev(a, b, o, n, m) == Lev(a, b[o..], 0, n, m)
  }

  lemma {:induction false} LevOffset(a: Word, b: Word, o: nat, n: nat, m: nat)
    requires n <= |a| && o + m <= |b|
    ensures OffsetIsSuffix(a, b, o, n, m)
    decreases n + m
  {
    if n > 0 && m > 0 {
      LevOffset(a, b, o, n - 1, m);
      LevOffset(a, b, o, n, m - 1);
      LevOffset(a, b, o, n - 1, m - 1);
      LevOffsetStep(a, b, o, n, m);
    }
  }

  lemma LevOffsetStep(a: Word, b: Word, o: nat, n: nat, m: nat)
    requires 1 <= n <= |a| && 1 <= m && o + m <= |b|
    requires OffsetIsSuffix(a, b, o, n - 1, m) && OffsetIsSuffix(a, b, o, n, m - 1) && OffsetIsSuffix(a, b, o, n - 1, m - 1)
    ensures OffsetIsSuffix(a, b, o, n, m)
  {
    var b' := b[o..];
    assert b'[m - 1] == b[o + m - 1];
    LevUnfold(a, b, o, n, m);
    LevUnfold(a, b', 0, n, m);
  }

  /** The last row's last cell is what the code returns. */
  lemma LastEntryIsDistance(v: Word, w: Word)
    ensures Entry(v, w, |w|, |v|) == Distance(v, w)
  {
    if |w| > 0 {
      LevOffset(v, w, 1, |v|, |w| - 1);
    }
  }

  /**
   * One cell of the row update (algo.go:17-31): one more than the smaller of
   * the cell above and the cell to the left, unless the diagonal plus the
   * substitution cost is smaller still.
   */
  method Cell(up: int, left: int, diag: int, vc: char, wc: char) returns (min: int)
    ensures min == Min(Min(up + 1, left + 1), diag + Cost(vc, wc))
  {
    if up < left {
      min := up + 1;
    } else {
      min := left + 1;
    }
    if vc != wc {
      if diag + 1 < min {
        min := diag + 1;
      }
    } else {
      if diag < min {
        min := diag;
      }
    }
  }

  /** Levenshtein in algo.go, over the runes of `v` and `w`, with the row `d` overwritten in place. */
  method Levenshtein(v: Word, w: Word) returns (dist: int)
    ensures dist == Distance(v, w)
  {
    var d := new int[|v| + 1];
    for k := 0 to d.Length
      invariant forall k' :: 0 <= k' < k ==> d[k'] == k'
    {
      d[k] := k;
    }
    assert d[..] == Row(v, w, 0);

    for i := 0 to |w|
      invariant d[..] == Row(v, w, i)
    {
      NextRow(v, w, i, d);
    }

    dist := d[d.Length - 1];
    LastEntryIsDistance(v, w);
  }

  /**
   * The body of the outer loop of Levenshtein (algo.go:14-33): overwrites row
   * `i` with row `i + 1`, cell by cell, keeping the overwritten cell in `last`.
   */
  method NextRow(v: Word, w: Word, i: nat, d: array<int>)
    requires i < |w| && d.Length == |v| + 1
    requires d[..] == Row(v, w, i)
    modifies d
    ensures d[..] == Row(v, w, i + 1)
  {
    ghost var prev := Row(v, w, i);
    ghost var next := Row(v, w, i + 1);
    var last := d[0];
    d[0] := i;
    EntryFirstColumn(v, w, i);
    SplitStart(d[..], prev, next);
    for j := 0 to |v|
      // Compared with `true` so that the split is handled by the lemmas below only.
      invariant Split(d[..], prev, next, j + 1) == true
      invariant last == prev[j]
    {
      SplitAt(d[..], prev, next, j + 1);
      var min := Cell(d[j + 1], d[j], last, v[j], w[i]);
      NextCell(v, w, i, j);
      ghost var before := d[..];
      last, d[j + 1] := d[j + 1], min;
      Overwrite(before, d[..], prev, next, j + 1, min);
    }
    SplitEnd(d[..], prev, next);
  }

  /** The row being rewritten: its first `k` cells are the next row's, the rest still the previous row's. */
  ghost predicate Split(cur: seq<int>, prev: seq<int>, next: seq<int>, k: nat)
  {
    && 0 < k <= |cur| == |prev| == |next|
    && cur[..k] == next[..k] && cur[k..] == prev[k..]
  }

  /** Once the code has stored `d[0]`, the row is split after its first cell. */
  lemma SplitStart(cur: seq<int>, prev: seq<int>, next: seq<int>)
    requires 0 < |cur| == |prev| == |next| && cur[0] == next[0]
    requires cur[1..] == prev[1..]
    ensures Split(cur, prev, next, 1)
  {
    assert cur[..1] == [cur[0]] && next[..1] == [next[0]];
  }

  /** The two cells the code reads at the split: the previous row's at `k`, the next row's before it. */
  lemma SplitAt(cur: seq<int>, prev: seq<int>, next: seq<int>, k: nat)
    requires Split(cur, prev, next, k) && k < |cur|
    ensures cur[k] == prev[k] && cur[k - 1] == next[k - 1]
  {
    assert cur[k] == cur[k..][0] && prev[k] == prev[k..][0];
    assert cur[k - 1] == cur[..k][k - 1] && next[k - 1] == next[..k][k - 1];
  }

  /** A split at the end of the row is the next row. */
  lemma SplitEnd(cur: seq<int>, prev: seq<int>, next: seq<int>)
    requires Split(cur, prev, next, |cur|)
    ensures cur == next
  {
    assert cur == cur[..|cur|] && next == next[..|next|];
  }

  /** `EntryStep` read on the rows: cell `j + 1` of the next row from its three neighbours. */
  lemma NextCell(v: Word, w: Word, i: nat, j: nat)
    requires i < |w| && j < |v|
    ensures Row(v, w, i + 1)[j + 1]
         == Min(Min(Row(v, w, i)[j + 1] + 1, Row(v, w, i + 1)[j] + 1), Row(v, w, i)[j] + Cost(v[j], w[i]))
  {
    EntryStep(v, w, i, j);
  }

  /** Writing the next row's cell `k` over the previous row's moves the split by one. */
  lemma Overwrite(before: seq<int>, after: seq<int>, prev: seq<int>, next: seq<int>, k: nat, x: int)
    requires Split(before, prev, next, k) && k < |before|
    requires after == before[k := x] && x == next[k]
    ensures Split(after, prev, next, k + 1)
  {
    assert after[..k + 1] == before[..k] + [x];
    assert next[..k + 1] == next[..k] + [next[k]];
    assert after[k + 1..] == before[k..][1..];
  }

  // Bounds on the textbook distance, by induction over the recurrence.

  /** The number of positions in `s[lo..hi]` whose rune is in `c`. */
  function CountIn(s: Word, c: set<char>, lo: nat, hi: nat): (r: nat)
    requires lo <= hi <= |s|
    ensures r <= hi - lo
  {
    if hi == lo then 0 else CountIn(s, c, lo, hi - 1) + (if s[hi - 1] in c then 1 else 0)
  }

  /** The number of positions `k < n` where `a[p + k]` and `b[q + k]` differ. */
  function Mismatches(a: Word, p: nat, b: Word, q: nat, n: nat): (r: nat)
    requires p + n <= |a| && q + n <= |b|
    ensures r <= n
  {
    if n == 0 then 0 else Mismatches(a, p, b, q, n - 1) + Cost(a[p + n - 1], b[q + n - 1])
  }

  /** Each edit changes the length by at most one. */
  lemma {:induction false} LevLengthGap(a: Word, b: Word, o: nat, n: nat, m: nat)
    requires n <= |a| && o + m <= |b|
    ensures Lev(a, b, o, n, m) >= n - m && Lev(a, b, o, n, m) >= m - n
    decreases n + m
  {
    if n > 0 && m > 0 {
      LevLengthGap(a, b, o, n - 1, m);
      LevLengthGap(a, b, o, n, m - 1);
      LevLengthGap(a, b, o, n - 1, m - 1);
      LevUnfold(a, b, o, n, m);
    }
  }

  /** Substituting along the shorter word and inserting or deleting the rest is one way to edit. */
  lemma {:induction false} LevAtMostLonger(a: Word, b: Word, o: nat, n: nat, m: nat)
    requires n <= |a| && o + m <= |b|
    ensures Lev(a, b, o, n, m) <= Max(n, m)
    decreases n + m
  {
    if n > 0 && m > 0 {
      LevAtMostLonger(a, b, o, n - 1, m - 1);
      LevUnfold(a, b, o, n, m);
    }
  }

  /** Each edit changes the number of runes drawn from `c` by at most one. */
  ghost predicate CountGapBound(a: Word, b: Word, o: nat, n: nat, m: nat, c: set<char>)
    requires n <= |a| && o + m <= |b|
  {
    Lev(a, b, o, n, m) >= CountIn(a, c, 0, n) - CountIn(b, c, o, o + m) &&
    Lev(a, b, o, n, m) >= CountIn(b, c, o, o + m) - CountIn(a, c, 0, n)
  }

  lemma {:induction false} LevCountGap(a: Word, b: Word, o: nat, n: nat, m: nat, c: set<char>)
    requires n <= |a| && o + m <= |b|
    ensures CountGapBound(a, b, o, n, m, c)
    decreases n + m
  {
    if n > 0 && m > 0 {
      LevCountGap(a, b, o, n - 1, m, c);
      LevCountGap(a, b, o, n, m - 1, c);
      LevCountGap(a, b, o, n - 1, m - 1, c);
      LevCountGapStep(a, b, o, n, m, c);
    }
  }

  lemma LevCountGapStep(a: Word, b: Word, o: nat, n: nat, m: nat, c: set<char>)
    requires 1 <= n <= |a| && 1 <= m && o + m <= |b|
    requires CountGapBound(a, b, o, n - 1, m, c) && CountGapBound(a, b, o, n, m - 1, c)
    requires CountGapBound(a, b, o, n - 1, m - 1, c)
    ensures CountGapBound(a, b, o, n, m, c)
  {
    LevUnfold(a, b, o, n, m);
  }

  /** Distance zero means the two ranges are equal. */
  lemma {:induction false} LevZero(a: Word, b: Word, o: nat, n: nat, m: nat)
    requires n <= |a| && o + m <= |b|
    requires Lev(a, b, o, n, m) == 0
    ensures n == m && Mismatches(a, 0, b, o, n) == 0
    decreases n + m
  {
    if n > 0 && m > 0 {
      LevUnfold(a, b, o, n, m);
      LevLengthGap(a, b, o, n - 1, m);
      LevLengthGap(a, b, o, n, m - 1);
      LevZero(a, b, o, n - 1, m - 1);
    }
  }

  /** Substituting at every differing position is one way to edit. */
  lemma {:induction false} LevAtMostMismatches(a: Word, b: Word, o: nat, n: nat)
    requires n <= |a| && o + n <= |b|
    ensures Lev(a, b, o, n, n) <= Mismatches(a, 0, b, o, n)
  {
    if n > 0 {
      LevAtMostMismatches(a, b, o, n - 1);
      LevUnfold(a, b, o, n, n);
    }
  }

  /** The three single edits: deleting from `a`, inserting into it, substituting. */
  lemma LevEditSteps(a: Word, b: Word, o: nat, n: nat, m: nat)
    requires n <= |a| && o + m <= |b|
    ensures n >= 1 ==> Lev(a, b, o, n, m) <= Lev(a, b, o, n - 1, m) + 1
    ensures m >= 1 ==> Lev(a, b, o, n, m) <= Lev(a, b, o, n, m - 1) + 1
    ensures n >= 1 && m >= 1 ==> Lev(a, b, o, n, m) <= Lev(a, b, o, n - 1, m - 1) + Cost(a[n - 1], b[o + m - 1])
  {
    if n >= 1 && m >= 1 {
      LevUnfold(a, b, o, n, m);
    }
  }

  /** No differing position means the two ranges hold the same runes. */
  lemma {:induction false} MismatchesZero(a: Word, p: nat, b: Word, q: nat, n: nat)
    requires p + n <= |a| && q + n <= |b|
    ensures Mismatches(a, p, b, q, n) == 0 <==> forall k :: p <= k < p + n ==> a[k] == b[k - p + q]
  {
    if n > 0 {
      MismatchesZero(a, p, b, q, n - 1);
    }
  }

  /** Words with a common prefix agree on it. */
  lemma SamePrefix(p: Word, u: Word, v: Word)
    ensures Mismatches(p + u, 0, p + v, 0, |p|) == 0
  {
    MismatchesZero(p + u, 0, p + v, 0, |p|);
  }

  /** Words with a common suffix agree on it. */
  lemma SameSuffix(u: Word, v: Word, s: Word)
    ensures Mismatches(u + s, |u|, v + s, |v|, |s|) == 0
  {
    MismatchesZero(u + s, |u|, v + s, |v|, |s|);
  }

  /** A common tail of length `t` costs nothing. */
  lemma {:induction false} LevCommonTail(a: Word, b: Word, o: nat, n: nat, m: nat, t: nat)
    requires n + t <= |a| && o + m + t <= |b|
    requires Mismatches(a, n, b, o + m, t) == 0
    ensures Lev(a, b, o, n + t, m + t) <= Lev(a, b, o, n, m)
  {
    if t > 0 {
      LevCommonTail(a, b, o, n, m, t - 1);
      assert a[n + t - 1] == b[o + m + t - 1];
      LevMatch(a, b, o, n + t, m + t);
    }
  }

  /** Matching last runes cost nothing. */
  lemma LevMatch(a: Word, b: Word, o: nat, n: nat, m: nat)
    requires 1 <= n <= |a| && 1 <= m && o + m <= |b|
    requires a[n - 1] == b[o + m - 1]
    ensures Lev(a, b, o, n, m) <= Lev(a, b, o, n - 1, m - 1)
  {
    LevUnfold(a, b, o, n, m);
  }

  /** For ranges of equal length, distance at most one means at most one differing position. */
  lemma {:induction false} LevOneMismatch(a: Word, b: Word, o: nat, n: nat)
    requires n <= |a| && o + n <= |b|
    requires Lev(a, b, o, n, n) <= 1
    ensures Mismatches(a, 0, b, o, n) <= 1
  {
    if n > 0 {
      LevDiagonalStep(a, b, o, n);
      assert Mismatches(a, 0, b, o, n) == Mismatches(a, 0, b, o, n - 1) + Cost(a[n - 1], b[o + n - 1]);
      if Lev(a, b, o, n - 1, n - 1) == 0 {
        LevZero(a, b, o, n - 1, n - 1);
      } else {
        LevOneMismatch(a, b, o, n - 1);
      }
    }
  }

  /** Between ranges of equal length, a distance of at most one is reached along the diagonal. */
  lemma LevDiagonalStep(a: Word, b: Word, o: nat, n: nat)
    requires 0 < n <= |a| && o + n <= |b|
    requires Lev(a, b, o, n, n) <= 1
    ensures Lev(a, b, o, n - 1, n - 1) + Cost(a[n - 1], b[o + n - 1]) <= 1
  {
    LevUnfold(a, b, o, n, n);
    LevLengthGap(a, b, o, n - 1, n);
    LevLengthGap(a, b, o, n, n - 1);
  }

  /** Dropping the first rune loses at most that rune from the count. */
  lemma {:induction false} CountInDropFirst(s: Word, c: set<char>, hi: nat)
    requires 1 <= hi <= |s|
    ensures CountIn(s, c, 1, hi) + (if s[0] in c then 1 else 0) == CountIn(s, c, 0, hi)
  {
    if hi > 1 {
      CountInDropFirst(s, c, hi - 1);
    }
  }

  // What Levenshtein returns, stated on whole words.

  /** The code's distance in terms of the textbook recurrence. */
  lemma DistanceAsLev(v: Word, w: Word)
    requires |w| > 0
    ensures Distance(v, w) == Min(Lev(v, w, 0, |v|, |w|), Lev(v, w, 1, |v|, |w| - 1))
  {
    LastEntryIsDistance(v, w);
  }

  /**
   * The distance is zero exactly when `v` is `w` or `w` without its first rune:
   * a word is at distance zero from itself, and also from itself with any rune
   * put in front.
   */
  lemma DistanceZeroIff(v: Word, w: Word)
    ensures Distance(v, w) == 0 <==> v == w || (|w| > 0 && v == w[1..])
  {
    if |w| > 0 {
      DistanceAsLev(v, w);
      if Distance(v, w) == 0 {
        if Lev(v, w, 0, |v|, |w|) == 0 {
          LevZero(v, w, 0, |v|, |w|);
          MismatchesZero(v, 0, w, 0, |v|);
        } else {
          LevZero(v, w, 1, |v|, |w| - 1);
          MismatchesZero(v, 0, w, 1, |v|);
          assert v == w[1..];
        }
      }
      if v == w {
        MismatchesZero(v, 0, w, 0, |v|);
        LevAtMostMismatches(v, w, 0, |v|);
      }
      if v == w[1..] {
        MismatchesZero(v, 0, w, 1, |v|);
        LevAtMostMismatches(v, w, 1, |v|);
      }
    }
  }

  /** A rune put in front of `v` is free. */
  lemma DistanceFreeFirstRune(v: Word, x: char)
    ensures Distance(v, [x] + v) == 0
  {
    DistanceZeroIff(v, [x] + v);
    assert ([x] + v)[1..] == v;
  }

  /** The code's distance is never more than the textbook one, and is at least the difference in length, less one when `w` is longer. */
  lemma DistanceBounds(v: Word, w: Word)
    ensures Distance(v, w) <= EditDistance(v, w)
    ensures Distance(v, w) >= |v| - |w|
    ensures Distance(v, w) >= |w| - |v| - 1
  {
    if |w| > 0 {
      DistanceAsLev(v, w);
      LevLengthGap(v, w, 0, |v|, |w|);
      LevLengthGap(v, w, 1, |v|, |w| - 1);
    }
  }

  /**
   * The distance never exceeds the longer length; when `w` is not empty its
   * first rune is free, so the bound is the longer of `v` and `w[1..]`.
   */
  lemma DistanceAtMostLonger(v: Word, w: Word)
    ensures Distance(v, w) <= Max(|v|, |w|)
    ensures |w| > 0 ==> Distance(v, w) <= Max(|v|, |w| - 1)
  {
    if |w| > 0 {
      DistanceAsLev(v, w);
      LevAtMostLonger(v, w, 1, |v|, |w| - 1);
    }
  }

  /** Each edit moves at most one rune drawn from `c`, so the distance is at least the surplus of such runes in `v`. */
  lemma DistanceCountGap(v: Word, w: Word, c: set<char>)
    ensures Distance(v, w) >= CountIn(v, c, 0, |v|) - CountIn(w, c, 0, |w|)
  {
    if |w| > 0 {
      DistanceAsLev(v, w);
      LevCountGap(v, w, 0, |v|, |w|, c);
      LevCountGap(v, w, 1, |v|, |w| - 1, c);
      CountInDropFirst(w, c, |w|);
    }
  }

  /** For words of equal length, substituting at each differing position is one way to edit. */
  lemma DistanceAtMostMismatches(v: Word, w: Word)
    requires |v| == |w|
    ensures Distance(v, w) <= Mismatches(v, 0, w, 0, |v|)
  {
    DistanceBounds(v, w);
    LevAtMostMismatches(v, w, 0, |v|);
  }

  /**
   * Two words of equal length that differ in at least two places, and
   * where `w` without its first rune still lacks two runes of `c` that `v`
   * has, are at least 2 apart: neither the substitutions nor the free
   * deletion of `w[0]` brings them within 1.
   */
  lemma DistanceAtLeastTwo(v: Word, w: Word, c: set<char>)
    requires |v| == |w| > 0
    requires Mismatches(v, 0, w, 0, |v|) >= 2
    requires CountIn(v, c, 0, |v|) - CountIn(w, c, 1, |w|) >= 2
    ensures Distance(v, w) >= 2
  {
    DistanceAsLev(v, w);
    if Lev(v, w, 0, |v|, |w|) <= 1 {
      LevOneMismatch(v, w, 0, |v|);
    }
    LevCountGap(v, w, 1, |v|, |w| - 1, c);
  }

  /** Inserting, deleting or substituting one rune gives a word at distance at most one. */
  lemma DistanceOneEdit(p: Word, x: char, y: char, s: Word)
    ensures Distance(p + s, p + [x] + s) <= 1
    ensures Distance(p + [x] + s, p + s) <= 1
    ensures Distance(p + [x] + s, p + [y] + s) <= 1
  {
    EditDistanceInsert(p, x, s);
    EditDistanceDelete(p, x, s);
    EditDistanceSubstitute(p, x, y, s);
    DistanceBounds(p + s, p + [x] + s);
    DistanceBounds(p + [x] + s, p + s);
    DistanceBounds(p + [x] + s, p + [y] + s);
  }

  lemma EditDistanceInsert(p: Word, x: char, s: Word)
    ensures EditDistance(p + s, p + [x] + s) <= 1
  {
    var a, b, n := p + s, p + [x] + s, |p|;
    assert b == p + ([x] + s);
    SamePrefix(p, s, [x] + s);
    SameSuffix(p, p + [x], s);
    LevAtMostMismatches(a, b, 0, n);
    LevEditSteps(a, b, 0, n, n + 1);
    LevCommonTail(a, b, 0, n, n + 1, |s|);
  }

  lemma EditDistanceDelete(p: Word, x: char, s: Word)
    ensures EditDistance(p + [x] + s, p + s) <= 1
  {
    var a, b, n := p + [x] + s, p + s, |p|;
    assert a == p + ([x] + s);
    SamePrefix(p, [x] + s, s);
    SameSuffix(p + [x], p, s);
    LevAtMostMismatches(a, b, 0, n);
    LevEditSteps(a, b, 0, n + 1, n);
    LevCommonTail(a, b, 0, n + 1, n, |s|);
  }

  lemma EditDistanceSubstitute(p: Word, x: char, y: char, s: Word)
    ensures EditDistance(p + [x] + s, p + [y] + s) <= 1
  {
    var a, b, n := p + [x] + s, p + [y] + s, |p|;
    assert a == p + ([x] + s) && b == p + ([y] + s);
    SamePrefix(p, [x] + s, [y] + s);
    SameSuffix(p + [x], p + [y], s);
    LevAtMostMismatches(a, b, 0, n);
    LevEditSteps(a, b, 0, n + 1, n + 1);
    LevCommonTail(a, b, 0, n + 1, n + 1, |s|);
  }

  /** The code's distance is not symmetric. */
  lemma DistanceNotSymmetric()
    ensures Distance("", "ab") == 1 && Distance("ab", "") == 2
  {
  }

  /** The first two cases of algo_test.go: one insertion and one deletion. */
  lemma OneEditExamples()
    ensures Distance("bad", "band") == 1 && Distance("bind", "bid") == 1
  {
    DistanceOneEdit("ba", 'n', 'n', "d");
    assert "ba" + "d" == "bad" && "ba" + ['n'] + "d" == "band";
    DistanceZeroIff("bad", "band");
    DistanceOneEdit("bi", 'n', 'n', "d");
    assert "bi" + "d" == "bid" && "bi" + ['n'] + "d" == "bind";
    DistanceZeroIff("bind", "bid");
  }

  /** The last case of algo_test.go, two substitutions, bounded from both sides. */
  lemma ReplaceExample()
    ensures Distance("bulk", "bill") == 2
  {
    ReplaceExampleLower();
    ReplaceExampleUpper();
  }

  lemma ReplaceExampleLower()
    ensures Distance("bulk", "bill") >= 2
  {
    var c := {'u', 'k'};
    assert CountIn("bulk", c, 0, 4) == 2;
    assert CountIn("bill", c, 0, 4) == 0;
    DistanceCountGap("bulk", "bill", c);
  }

  lemma ReplaceExampleUpper()
    ensures Distance("bulk", "bill") <= 2
  {
    assert Mismatches("bulk", 0, "bill", 0, 4) == 2;
    DistanceAtMostMismatches("bulk", "bill");
  }
}
