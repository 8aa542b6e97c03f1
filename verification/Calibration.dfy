/** Threshold calibration of the vector corpus: calibrate and head_threshold of the corpus
    builder, over exact numbers. */
module Calibration {
  import opened Options

  /** An entry of a numpy score array: a real, or -inf for a text without any window. */
  datatype Float = NegInf | Fin(r: real)

  predicate Less(a: Float, b: Float) {
    match (a, b)
    case (NegInf, Fin(_)) => true
    case (Fin(x), Fin(y)) => x < y
    case (_, NegInf) => false
  }

  // ---- counting ---------------------------------------------------------------------------

  /** How many entries are below t, at most t, above t. */
  function Below(w: seq<Float>, t: Float): nat {
    if w == [] then 0 else (if Less(w[0], t) then 1 else 0) + Below(w[1..], t)
  }

  function UpTo(w: seq<Float>, t: Float): nat {
    if w == [] then 0 else (if Less(t, w[0]) then 0 else 1) + UpTo(w[1..], t)
  }

  function Above(w: seq<Float>, t: Float): (n: nat)
    ensures n == |w| - UpTo(w, t)
  {
    if w == [] then 0 else (if Less(t, w[0]) then 1 else 0) + Above(w[1..], t)
  }

  /** The value at rank k (from 0, smallest first), said without sorting. */
  ghost predicate AtRank(w: seq<Float>, k: nat, t: Float) {
    Below(w, t) <= k < UpTo(w, t)
  }

  lemma {:induction false} BelowUpTo(w: seq<Float>, t: Float, u: Float)
    ensures Less(t, u) ==> UpTo(w, t) <= Below(w, u)
    ensures Below(w, t) <= UpTo(w, t) <= |w|
  {
    if w != [] {
      BelowUpTo(w[1..], t, u);
    }
  }

  lemma RankOrder(w: seq<Float>, j: nat, tj: Float, k: nat, tk: Float)
    requires AtRank(w, j, tj) && AtRank(w, k, tk) && j <= k
    ensures !Less(tk, tj)
  {
    BelowUpTo(w, tk, tj);
  }

  lemma RankUnique(w: seq<Float>, k: nat, t: Float, u: Float)
    requires AtRank(w, k, t) && AtRank(w, k, u)
    ensures t == u
  {
    BelowUpTo(w, t, u);
    BelowUpTo(w, u, t);
  }

  // ---- sorting ----------------------------------------------------------------------------

  function Insert(x: Float, s: seq<Float>): seq<Float> {
    if s == [] || !Less(s[0], x) then [x] + s else [s[0]] + Insert(x, s[1..])
  }

  /** np.sort. */
  function Sort(w: seq<Float>): seq<Float> {
    if w == [] then [] else Insert(w[0], Sort(w[1..]))
  }

  ghost predicate Sorted(s: seq<Float>) {
    forall i, j :: 0 <= i < j < |s| ==> !Less(s[j], s[i])
  }

  lemma {:induction false} InsertGood(x: Float, s: seq<Float>)
    requires Sorted(s)
    ensures var r := Insert(x, s);
      Sorted(r) && |r| == |s| + 1 && forall y :: y in r <==> y == x || y in s
  {
    var r := Insert(x, s);
    if s == [] || !Less(s[0], x) {
      assert r == [x] + s;
    } else {
      InsertGood(x, s[1..]);
      assert s == [s[0]] + s[1..];
      forall j | 1 <= j < |r| ensures !Less(r[j], r[0]) {
        assert r[j] == Insert(x, s[1..])[j - 1] && r[j] in Insert(x, s[1..]);
      }
    }
  }

  lemma {:induction false} InsertCounts(x: Float, s: seq<Float>, t: Float)
    ensures Below(Insert(x, s), t) == Below([x] + s, t)
    ensures UpTo(Insert(x, s), t) == UpTo([x] + s, t)
  {
    assert ([x] + s)[1..] == s;
    if s != [] && Less(s[0], x) {
      InsertCounts(x, s[1..], t);
      assert ([x] + s[1..])[1..] == s[1..];
      assert Insert(x, s)[1..] == Insert(x, s[1..]);
    }
  }

  lemma {:induction false} SortGood(w: seq<Float>)
    ensures Sorted(Sort(w)) && |Sort(w)| == |w|
  {
    if w != [] {
      SortGood(w[1..]);
      InsertGood(w[0], Sort(w[1..]));
    }
  }

  lemma {:induction false} SortCounts(w: seq<Float>, t: Float)
    ensures Below(Sort(w), t) == Below(w, t) && UpTo(Sort(w), t) == UpTo(w, t)
  {
    if w != [] {
      SortCounts(w[1..], t);
      var s := Sort(w[1..]);
      InsertCounts(w[0], s, t);
      assert ([w[0]] + s)[1..] == s;
    }
  }

  lemma {:induction false} SortedCounts(s: seq<Float>, k: nat, t: Float)
    requires Sorted(s) && k < |s|
    ensures !Less(s[k], t) ==> Below(s, t) <= k
    ensures !Less(t, s[k]) ==> k < UpTo(s, t)
    ensures Less(t, s[k]) ==> UpTo(s, t) <= k
  {
    if k > 0 {
      SortedCounts(s[1..], k - 1, t);
    } else {
      NoneSmaller(s, t);
    }
  }

  lemma {:induction false} NoneSmaller(s: seq<Float>, t: Float)
    requires s != [] && forall i :: 0 <= i < |s| ==> !Less(s[i], s[0])
    ensures !Less(s[0], t) ==> Below(s, t) == 0
    ensures Less(t, s[0]) ==> UpTo(s, t) == 0
  {
    if !Less(s[0], t) {
      AllCounts(s, t);
    }
    if Less(t, s[0]) {
      AllCounts(s, t);
    }
  }

  lemma {:induction false} AllCounts(s: seq<Float>, t: Float)
    ensures (forall i :: 0 <= i < |s| ==> !Less(s[i], t)) ==> Below(s, t) == 0
    ensures (forall i :: 0 <= i < |s| ==> Less(t, s[i])) ==> UpTo(s, t) == 0
  {
    if s != [] {
      AllCounts(s[1..], t);
    }
  }

  /** The k-th entry of the sorted array is the value at rank k. */
  lemma SortAtRank(w: seq<Float>, k: nat)
    requires k < |w|
    ensures |Sort(w)| == |w| && AtRank(w, k, Sort(w)[k])
  {
    SortGood(w);
    SortedCounts(Sort(w), k, Sort(w)[k]);
    SortCounts(w, Sort(w)[k]);
  }

  // ---- the kNN thresholds --------------------------------------------------------------------

  predicate KnnFlags(w: Float, s: Float, tw: Float, ts: Float) { Less(w, tw) || Less(s, ts) }

  /** How many texts raise a kNN hit of either kind. */
  function Flagged(W: seq<Float>, S: seq<Float>, tw: Float, ts: Float): (n: nat)
    requires |W| == |S|
    ensures n <= |W|
  {
    if W == [] then 0
    else (if KnnFlags(W[0], S[0], tw, ts) then 1 else 0) + Flagged(W[1..], S[1..], tw, ts)
  }

  lemma {:induction false} FlaggedCovers(W: seq<Float>, S: seq<Float>, tw: Float, ts: Float)
    requires |W| == |S|
    ensures Below(W, tw) <= Flagged(W, S, tw, ts) && Below(S, ts) <= Flagged(W, S, tw, ts)
    ensures Flagged(W, S, tw, ts) <= Below(W, tw) + Below(S, ts)
  {
    if W != [] {
      FlaggedCovers(W[1..], S[1..], tw, ts);
    }
  }

  /** The most texts that may be flagged: floor(target * n). */
  function FloorOf(target: real, n: nat): int { (target * n as real).Floor }

  /** np.mean of the flags, compared with the target. */
  predicate RateWithin(count: nat, target: real, n: nat)
    requires n > 0
  {
    count as real / n as real <= target
  }

  lemma RateIsCount(count: nat, target: real, n: nat)
    requires n > 0
    ensures RateWithin(count, target, n) <==> count <= FloorOf(target, n)
  {
    var x := target * n as real;
    assert count as real / n as real <= target <==> count as real <= x by {
      DivMul(count as real, n as real, target);
    }
    FloorCount(count, x);
  }

  lemma DivMul(a: real, b: real, c: real)
    requires b > 0.0
    ensures a / b <= c <==> a <= c * b
  {
    var q := a / b;
    assert q * b == a;
    if q <= c {
      assert (c - q) * b >= 0.0;
    } else {
      assert (q - c) * b > 0.0;
    }
  }

  lemma FloorCount(count: int, x: real)
    ensures count as real <= x <==> count <= x.Floor
  {
  }

  lemma FloorSign(target: real, n: nat)
    requires n > 0
    ensures target < 0.0 <==> FloorOf(target, n) < 0
  {
    if target < 0.0 {
      assert target * n as real < 0.0;
    }
  }

  /** Python's int() of a float. */
  function Trunc(x: real): int { if x < 0.0 then -((-x).Floor) else x.Floor }

  datatype Thresholds = Thresholds(tw: Float, ts: Float, flagged: nat, k: nat)

  /** Both thresholds sit at rank k of their scores, and they flag at most `most` texts. */
  ghost predicate Feasible(W: seq<Float>, S: seq<Float>, most: int, k: nat, tw: Float, ts: Float)
    requires |W| == |S|
  {
    AtRank(W, k, tw) && AtRank(S, k, ts) && Flagged(W, S, tw, ts) <= most
  }

  function Clamp(k: nat, n: nat): nat
    requires n > 0
  {
    if k <= n - 1 then k else n - 1
  }

  /** At rank 0 nothing is below either threshold. */
  lemma NothingBelowMinimum(W: seq<Float>, S: seq<Float>, tw: Float, ts: Float)
    requires |W| == |S| && AtRank(W, 0, tw) && AtRank(S, 0, ts)
    ensures Flagged(W, S, tw, ts) == 0
  {
    FlaggedCovers(W, S, tw, ts);
  }

  /** Ranks past the searched ones repeat thresholds that were already tried. */
  lemma SearchIsExhaustive(W: seq<Float>, S: seq<Float>, most: nat, k: nat, btw: Float, bts: Float, j: nat, tw: Float,
                           ts: Float)
    requires |W| == |S|
    requires AtRank(W, k, btw) && AtRank(S, k, bts)
    requires forall i: nat, u, v :: i <= most + 1 && Feasible(W, S, most, i, u, v) ==> i <= k
    requires Feasible(W, S, most, j, tw, ts)
    ensures !Less(btw, tw) && !Less(bts, ts)
  {
    FlaggedCovers(W, S, tw, ts);
    var i := if j <= most + 1 then j else most + 1;
    assert Feasible(W, S, most, i, tw, ts);
    RankOrder(W, i, tw, k, btw);
    RankOrder(S, i, ts, k, bts);
  }

  /** What the loop of calibrate has found after trying the ranks below hi. */
  ghost predicate Found(W: seq<Float>, S: seq<Float>, most: int, hi: nat, best: Option<Thresholds>)
    requires |W| == |S| > 0
  {
    && (best.Some? ==>
         var b := best.value;
         Feasible(W, S, most, Clamp(b.k, |W|), b.tw, b.ts) && b.flagged == Flagged(W, S, b.tw, b.ts))
    && (forall i: nat, u, v :: i < hi && Feasible(W, S, most, i, u, v) ==> best.Some? && i <= best.value.k)
  }

  lemma FoundStep(W: seq<Float>, S: seq<Float>, most: int, k: nat, best: Option<Thresholds>, tw: Float, ts: Float)
    requires |W| == |S| > 0 && Found(W, S, most, k, best) && (best.Some? ==> best.value.k < k)
    requires AtRank(W, Clamp(k, |W|), tw) && AtRank(S, Clamp(k, |W|), ts)
    ensures var flagged := Flagged(W, S, tw, ts);
      Found(W, S, most, k + 1, if flagged <= most then Some(Thresholds(tw, ts, flagged, k)) else best)
  {
    forall u, v | Feasible(W, S, most, k, u, v) ensures Flagged(W, S, tw, ts) <= most {
      BelowUpTo(W, u, u);
      RankUnique(W, k, u, tw);
      RankUnique(S, k, v, ts);
    }
  }

  lemma FoundBest(W: seq<Float>, S: seq<Float>, most: nat, best: Option<Thresholds>)
    requires |W| == |S| > 0 && Found(W, S, most, most + 2, best)
    ensures best.Some?
    ensures forall j: nat, tw, ts :: Feasible(W, S, most, j, tw, ts) ==>
      !Less(best.value.tw, tw) && !Less(best.value.ts, ts)
  {
    SortAtRank(W, 0);
    SortAtRank(S, 0);
    NothingBelowMinimum(W, S, Sort(W)[0], Sort(S)[0]);
    assert Feasible(W, S, most, 0, Sort(W)[0], Sort(S)[0]);
    var b := best.value;
    forall i: nat, u, v | i <= most + 1 && Feasible(W, S, most, i, u, v) ensures i <= Clamp(b.k, |W|) {
      BelowUpTo(W, u, u);
    }
    forall j: nat, tw, ts | Feasible(W, S, most, j, tw, ts) ensures !Less(b.tw, tw) && !Less(b.ts, ts) {
      SearchIsExhaustive(W, S, most, Clamp(b.k, |W|), b.tw, b.ts, j, tw, ts);
    }
  }

  /** calibrate: the thresholds at one common percentile. A negative target leaves it with
      nothing to return; otherwise the search over the few ranks it tries loses nothing: no
      rank of the whole array that keeps the rate gives a higher threshold of either kind. */
  method Calibrate(W: seq<Float>, S: seq<Float>, target: real) returns (best: Option<Thresholds>)
    requires |W| == |S| > 0
    ensures best.None? <==> target < 0.0
    ensures best.Some? ==>
      var b, most := best.value, FloorOf(target, |W|);
      && Feasible(W, S, most, Clamp(b.k, |W|), b.tw, b.ts)
      && b.flagged == Flagged(W, S, b.tw, b.ts)
      && forall j: nat, tw, ts :: Feasible(W, S, most, j, tw, ts) ==> !Less(b.tw, tw) && !Less(b.ts, ts)
  {
    var n := |W|;
    var sw, ss := Sort(W), Sort(S);
    ghost var most := FloorOf(target, n);
    FloorSign(target, n);
    SortGood(W);
    SortGood(S);
    best := None;
    var hi := Trunc(target * n as real) + 2;
    assert 0 <= most ==> hi == most + 2;
    var k: nat := 0;
    while k < hi
      invariant 0 <= most ==> k <= hi
      invariant best.Some? ==> best.value.k < k
      invariant Found(W, S, most, k, best)
    {
      var tw, ts := sw[Clamp(k, n)], ss[Clamp(k, n)];
      var flagged := Flagged(W, S, tw, ts);
      SortAtRank(W, Clamp(k, n));
      SortAtRank(S, Clamp(k, n));
      FoundStep(W, S, most, k, best, tw, ts);
      RateIsCount(flagged, target, n);
      if RateWithin(flagged, target, n) {
        best := Some(Thresholds(tw, ts, flagged, k));
      }
      k := k + 1;
    }
    if 0 <= most {
      FoundBest(W, S, most, best);
    }
  }

  // ---- the head threshold ------------------------------------------------------------------------

  /** Head scores of the texts kNN does not flag. */
  function Unflagged(W: seq<Float>, S: seq<Float>, H: seq<Float>, tw: Float, ts: Float): (rest: seq<Float>)
    requires |W| == |S| == |H|
    ensures |rest| == |W| - Flagged(W, S, tw, ts)
  {
    if W == [] then []
    else (if KnnFlags(W[0], S[0], tw, ts) then [] else [H[0]]) + Unflagged(W[1..], S[1..], H[1..], tw, ts)
  }

  /** How many texts raise a kNN hit or a head score strictly above th. */
  function Joint(W: seq<Float>, S: seq<Float>, H: seq<Float>, tw: Float, ts: Float, th: Float): nat
    requires |W| == |S| == |H|
  {
    if W == [] then 0
    else (if KnnFlags(W[0], S[0], tw, ts) || Less(th, H[0]) then 1 else 0) + Joint(W[1..], S[1..], H[1..], tw, ts, th)
  }

  lemma {:induction false} JointSplits(W: seq<Float>, S: seq<Float>, H: seq<Float>, tw: Float, ts: Float, th: Float)
    requires |W| == |S| == |H|
    ensures Joint(W, S, H, tw, ts, th) == Flagged(W, S, tw, ts) + Above(Unflagged(W, S, H, tw, ts), th)
  {
    if W != [] {
      JointSplits(W[1..], S[1..], H[1..], tw, ts, th);
      var rest := Unflagged(W[1..], S[1..], H[1..], tw, ts);
      assert ([H[0]] + rest)[1..] == rest;
      assert [] + rest == rest;
    }
  }

  function Max(w: seq<Float>): Float
    requires w != []
  {
    if |w| == 1 then w[0]
    else var m := Max(w[1..]); if Less(m, w[0]) then w[0] else m
  }

  /** The budget left to the head: how many texts it may flag on its own. */
  function Budget(W: seq<Float>, S: seq<Float>, tw: Float, ts: Float, target: real): nat
    requires |W| == |S|
  {
    var left := FloorOf(target, |W|) - Flagged(W, S, tw, ts);
    if left <= 0 then 0 else left
  }

  /** The entry of index i of np.sort(w)[::-1]. */
  function FromTop(w: seq<Float>, i: nat): Float
    requires i < |w|
  {
    SortGood(w);
    Sort(w)[|w| - 1 - i]
  }

  lemma FromTopCounts(w: seq<Float>, i: nat, t: Float)
    requires i < |w|
    ensures Above(w, FromTop(w, i)) <= i
    ensures Less(t, FromTop(w, i)) ==> i < Above(w, t)
  {
    var s, top := Sort(w), FromTop(w, i);
    SortGood(w);
    SortedCounts(s, |w| - 1 - i, top);
    SortCounts(w, top);
    SortedCounts(s, |w| - 1 - i, t);
    SortCounts(w, t);
  }

  /** head_threshold. The budget is kept; it is the lowest such threshold exactly while the
      budget is smaller than the number of texts left, and beyond that no threshold breaks it. */
  method HeadThreshold(W: seq<Float>, S: seq<Float>, H: seq<Float>, tw: Float, ts: Float, target: real)
    returns (th: Float)
    requires |W| == |S| == |H| > 0
    ensures var kept := Flagged(W, S, tw, ts) + Budget(W, S, tw, ts, target);
      && Joint(W, S, H, tw, ts, th) <= kept
      && (if Budget(W, S, tw, ts, target) < |Unflagged(W, S, H, tw, ts)|
          then forall lower :: Less(lower, th) ==> kept < Joint(W, S, H, tw, ts, lower)
          else forall any :: Joint(W, S, H, tw, ts, any) <= kept)
  {
    var budget := FloorOf(target, |W|) - Flagged(W, S, tw, ts);
    var rest := Unflagged(W, S, H, tw, ts);
    if budget <= 0 || |rest| == 0 {
      th := if |rest| > 0 then FromTop(rest, 0) else Max(H);
    } else {
      th := FromTop(rest, if budget <= |rest| - 1 then budget else |rest| - 1);
    }
    ghost var allowed := Budget(W, S, tw, ts, target);
    JointSplits(W, S, H, tw, ts, th);
    if allowed < |rest| {
      FromTopCounts(rest, allowed, th);
      forall lower | Less(lower, th) ensures Flagged(W, S, tw, ts) + allowed < Joint(W, S, H, tw, ts, lower) {
        FromTopCounts(rest, allowed, lower);
        JointSplits(W, S, H, tw, ts, lower);
      }
    } else {
      forall any ensures Joint(W, S, H, tw, ts, any) <= Flagged(W, S, tw, ts) + allowed {
        JointSplits(W, S, H, tw, ts, any);
      }
    }
  }

  /** The calibration of main with a head: kNN gets its share of the budget, then the head.
      Together they flag at most floor(target * n) of the calibration texts. */
  method CalibrateJointly(W: seq<Float>, S: seq<Float>, H: seq<Float>, target: real, share: real)
    returns (knn: Thresholds, th: Float)
    requires |W| == |S| == |H| > 0
    requires 0.0 <= target && 0.0 <= share <= 1.0
    ensures Joint(W, S, H, knn.tw, knn.ts, th) <= FloorOf(target, |W|)
    ensures AtRank(W, Clamp(knn.k, |W|), knn.tw) && AtRank(S, Clamp(knn.k, |W|), knn.ts)
    ensures knn.flagged == Flagged(W, S, knn.tw, knn.ts) <= FloorOf(target * (1.0 - share), |W|)
    ensures FloorOf(target, |W|) < |W| ==>
      forall lower :: Less(lower, th) ==> FloorOf(target, |W|) < Joint(W, S, H, knn.tw, knn.ts, lower)
  {
    ShareOfBudget(target, share, |W|);
    var best := Calibrate(W, S, target * (1.0 - share));
    knn := best.value;
    th := HeadThreshold(W, S, H, knn.tw, knn.ts, target);
  }

  lemma ShareOfBudget(target: real, share: real, n: nat)
    requires 0.0 <= target && 0.0 <= share <= 1.0
    ensures 0.0 <= target * (1.0 - share)
    ensures FloorOf(target * (1.0 - share), n) <= FloorOf(target, n)
  {
    var part := target * (1.0 - share);
    assert part <= target;
    assert part * n as real <= target * n as real;
  }
}
