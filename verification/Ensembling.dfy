/**
 Temporal ensembling and smoothing: which chunks still predict a step, and how their predictions
 are blended. Values are reals; the weight base `r` stands for exp(-m), a real in (0, 1].
 */
module Ensembling {
  import opened Basics

  /** A chunk queried at step `q`; its action at index t - q predicts step t. */
  datatype Entry<V> = Entry(q: nat, acts: seq<V>)

  predicate Covers<V>(e: Entry<V>, t: nat) {
    e.q <= t < e.q + |e.acts|
  }

  // ---------------------------------------------------------------- eviction

  function Filtered<V>(entries: seq<Entry<V>>, t: nat): seq<Entry<V>> {
    if entries == [] then []
    else
      var last := entries[|entries| - 1];
      Filtered(entries[..|entries| - 1], t) + (if Covers(last, t) then [last] else [])
  }

  /** A stable sort by query time: every entry goes after the ones queried no later. */
  function Insert<V>(sorted: seq<Entry<V>>, e: Entry<V>): seq<Entry<V>> {
    if sorted == [] || sorted[|sorted| - 1].q <= e.q then sorted + [e]
    else Insert(sorted[..|sorted| - 1], e) + [sorted[|sorted| - 1]]
  }

  function Sorted<V>(entries: seq<Entry<V>>): seq<Entry<V>> {
    if entries == [] then [] else Insert(Sorted(entries[..|entries| - 1]), entries[|entries| - 1])
  }

  /** The buffer after a query at its step: the new chunk is added, stale ones leave, oldest first. */
  function Queried<V>(buffer: seq<Entry<V>>, e: Entry<V>): seq<Entry<V>> {
    Sorted(Filtered(buffer + [e], e.q))
  }

  /** The buffer after a whole history of queries. */
  function Buffer<V>(history: seq<Entry<V>>): seq<Entry<V>> {
    if history == [] then []
    else Queried(Buffer(history[..|history| - 1]), history[|history| - 1])
  }

  ghost predicate Ascending<V>(entries: seq<Entry<V>>) {
    forall i, j :: 0 <= i < j < |entries| ==> entries[i].q < entries[j].q
  }

  lemma {:induction false} FilteredMeans<V>(entries: seq<Entry<V>>, t: nat)
    ensures forall e :: e in Filtered(entries, t) ==> e in entries && Covers(e, t)
    ensures forall e :: e in entries && Covers(e, t) ==> e in Filtered(entries, t)
    ensures Ascending(entries) ==> Ascending(Filtered(entries, t))
  {
    if entries != [] {
      var front, last := entries[..|entries| - 1], entries[|entries| - 1];
      assert entries == front + [last];
      FilteredMeans(front, t);
      if Ascending(entries) {
        assert Ascending(front);
        forall e | e in Filtered(front, t)
          ensures e.q < last.q
        {
          assert e in front;
          var i :| 0 <= i < |front| && front[i] == e;
          assert entries[i] == e;
        }
      }
    }
  }

  lemma {:induction false} SortIsIdle<V>(entries: seq<Entry<V>>)
    requires Ascending(entries)
    ensures Sorted(entries) == entries
  {
    if entries != [] {
      SortIsIdle(entries[..|entries| - 1]);
    }
  }

  lemma FilteredPush<V>(entries: seq<Entry<V>>, e: Entry<V>, t: nat)
    ensures Filtered(entries + [e], t) == Filtered(entries, t) + (if Covers(e, t) then [e] else [])
  {
    assert (entries + [e])[..|entries|] == entries;
  }

  /** A chunk that left at step s is no use at a later one. */
  lemma {:induction false} FilteredTwice<V>(entries: seq<Entry<V>>, s: nat, t: nat)
    requires s <= t && forall e :: e in entries ==> e.q <= s
    ensures Filtered(Filtered(entries, s), t) == Filtered(entries, t)
  {
    if entries != [] {
      var front, last := entries[..|entries| - 1], entries[|entries| - 1];
      FilteredTwice(front, s, t);
      assert last in entries;
      if Covers(last, s) {
        FilteredPush(Filtered(front, s), last, t);
      } else {
        ConcatEmpty(Filtered(front, s));
        ConcatEmpty(Filtered(front, t));
      }
    }
  }

  ghost predicate Filled<V>(history: seq<Entry<V>>) {
    forall i :: 0 <= i < |history| ==> history[i].acts != []
  }

  /** Queries at increasing steps, of chunks with actions. */
  ghost predicate History<V>(history: seq<Entry<V>>) {
    Ascending(history) && Filled(history)
  }

  /**
   Eviction loses nothing: after queries at increasing steps, the buffer is exactly the whole history
   filtered to the chunks that cover the latest step, oldest first, and it holds the newest chunk.
   */
  lemma {:induction false} EvictionIsLossless<V>(history: seq<Entry<V>>)
    requires History(history) && history != []
    ensures
      var last := history[|history| - 1];
      && Buffer(history) == Filtered(history, last.q) && Ascending(Buffer(history))
      && Buffer(history) != [] && Buffer(history)[|Buffer(history)| - 1] == last
  {
    var front, last := history[..|history| - 1], history[|history| - 1];
    hide Filtered, Queried, Ascending, Filled, History;
    HistoryFront(history);
    if front == [] {
      NothingFiltered<V>(last.q);
      QueryStep(front, last, last.q);
    } else {
      EvictionIsLossless(front);
      LastIsLatest(front);
      LastIsLatest(history);
      QueryStep(front, last, front[|front| - 1].q);
    }
  }

  lemma HistoryFront<V>(history: seq<Entry<V>>)
    requires History(history) && history != []
    ensures History(history[..|history| - 1])
    ensures history == history[..|history| - 1] + [history[|history| - 1]]
  {
  }

  lemma LastIsLatest<V>(history: seq<Entry<V>>)
    requires History(history) && history != []
    ensures forall i :: 0 <= i < |history| ==> history[i].q <= history[|history| - 1].q
  {
  }

  lemma NothingFiltered<V>(t: nat)
    ensures Filtered<V>([], t) == []
  {
  }

  lemma QueryStep<V>(front: seq<Entry<V>>, last: Entry<V>, s: nat)
    requires History(front + [last]) && s <= last.q
    requires forall i :: 0 <= i < |front| ==> front[i].q <= s
    ensures
      var now := Queried(Filtered(front, s), last);
      && now == Filtered(front + [last], last.q) && Ascending(now)
      && now != [] && now[|now| - 1] == last
  {
    assert (front + [last])[|front|] == last && last.acts != [];
    FilteredTwice(front, s, last.q);
    FilteredPush(front, last, last.q);
    FilteredPush(Filtered(front, s), last, last.q);
    FilteredMeans(front + [last], last.q);
    hide Filtered, Sorted;
    SortIsIdle(Filtered(front + [last], last.q));
  }

  // ---------------------------------------------------------------- blending

  type Vector = seq<real>

  function Power(r: real, i: nat): real {
    if i == 0 then 1.0 else r * Power(r, i - 1)
  }

  function Sum(s: seq<real>): real {
    if s == [] then 0.0 else Sum(s[..|s| - 1]) + s[|s| - 1]
  }

  /** exp(-m * i), i = 0 for the oldest chunk. */
  function Raw(r: real, n: nat): seq<real> {
    seq(n, i requires i >= 0 => Power(r, i))
  }

  function Normalised(w: seq<real>): (v: seq<real>)
    requires Sum(w) != 0.0
    ensures |v| == |w|
  {
    seq(|w|, i requires 0 <= i < |w| => w[i] / Sum(w))
  }

  function Dot(w: seq<real>, p: seq<real>): real
    requires |w| == |p|
  {
    if w == [] then 0.0 else Dot(w[..|w| - 1], p[..|p| - 1]) + w[|w| - 1] * p[|p| - 1]
  }

  ghost predicate Positive(w: seq<real>) {
    forall i :: 0 <= i < |w| ==> w[i] > 0.0
  }

  /** The blended value of one dimension. */
  function Blend(r: real, column: seq<real>): real
    requires column != [] && 0.0 < r <= 1.0
  {
    WeightsAreWeights(r, |column|);
    Dot(Normalised(Raw(r, |column|)), column)
  }

  lemma {:induction false} PowerShrinks(r: real, i: nat)
    requires 0.0 < r <= 1.0
    ensures 0.0 < Power(r, i) <= 1.0 && Power(r, i + 1) <= Power(r, i)
  {
    if i > 0 {
      PowerShrinks(r, i - 1);
      var p := Power(r, i - 1);
      assert r * p > 0.0;
      assert r * p <= p;
      assert Power(r, i) == r * p;
    }
    var q := Power(r, i);
    assert Power(r, i + 1) == r * q;
    assert r * q <= q;
  }

  lemma {:induction false} SumIsPositive(w: seq<real>)
    requires Positive(w)
    ensures Sum(w) >= 0.0 && (w != [] ==> Sum(w) > 0.0)
  {
    if w != [] {
      SumIsPositive(w[..|w| - 1]);
    }
  }

  lemma {:induction false} SumOfScaled(w: seq<real>, v: seq<real>, total: real)
    requires total != 0.0 && |v| == |w| && forall i :: 0 <= i < |w| ==> v[i] == w[i] / total
    ensures Sum(v) == Sum(w) / total
  {
    if w != [] {
      SumOfScaled(w[..|w| - 1], v[..|v| - 1], total);
    }
  }

  /** The weights are positive, sum to one, and never grow towards newer chunks. */
  lemma WeightsAreWeights(r: real, n: nat)
    requires 0.0 < r <= 1.0 && n > 0
    ensures Sum(Raw(r, n)) > 0.0
    ensures Positive(Normalised(Raw(r, n))) && Sum(Normalised(Raw(r, n))) == 1.0
    ensures forall i :: 0 <= i < n - 1 ==> Normalised(Raw(r, n))[i + 1] <= Normalised(Raw(r, n))[i]
  {
    var w := Raw(r, n);
    RawShrinks(r, n);
    SumIsPositive(w);
    var total := Sum(w);
    var v := Normalised(w);
    SumOfScaled(w, v, total);
    hide Raw, Sum, Power;
    forall i | 0 <= i < n
      ensures v[i] > 0.0
    {
      Divides(0.0, w[i], total);
    }
    forall i | 0 <= i < n - 1
      ensures v[i + 1] <= v[i]
    {
      Divides(w[i + 1], w[i], total);
    }
    SelfQuotient(total);
  }

  lemma RawShrinks(r: real, n: nat)
    requires 0.0 < r <= 1.0
    ensures Positive(Raw(r, n)) && forall i :: 0 <= i < n - 1 ==> Raw(r, n)[i + 1] <= Raw(r, n)[i]
  {
    hide Power;
    forall i: nat | i < n
      ensures Power(r, i) > 0.0 && Power(r, i + 1) <= Power(r, i)
    {
      PowerShrinks(r, i);
    }
  }

  lemma SelfQuotient(total: real)
    requires total > 0.0
    ensures total / total == 1.0
  {
  }

  lemma Divides(a: real, b: real, total: real)
    requires total > 0.0 && a <= b
    ensures a / total <= b / total && (a < b ==> a / total < b / total)
  {
  }

  /** `dot` is within [lo, hi] times `sum`. */
  ghost predicate Within(lo: real, hi: real, sum: real, dot: real) {
    lo * sum <= dot <= hi * sum
  }

  lemma {:induction false} DotWithin(w: seq<real>, p: seq<real>, lo: real, hi: real)
    requires |w| == |p| && Positive(w) && forall i :: 0 <= i < |p| ==> lo <= p[i] <= hi
    ensures Within(lo, hi, Sum(w), Dot(w, p))
  {
    if w != [] {
      var n := |w| - 1;
      DotWithin(w[..n], p[..n], lo, hi);
      hide Within;
      DotStep(Sum(w[..n]), Dot(w[..n], p[..n]), w[n], p[n], lo, hi);
    }
  }

  lemma DotStep(sum: real, dot: real, a: real, x: real, lo: real, hi: real)
    requires Within(lo, hi, sum, dot) && a > 0.0 && lo <= x <= hi
    ensures Within(lo, hi, sum + a, dot + a * x)
  {
    NonNegative(a, x - lo);
    NonNegative(a, hi - x);
    assert a * (x - lo) == a * x - lo * a && a * (hi - x) == hi * a - a * x;
    assert lo * (sum + a) == lo * sum + lo * a && hi * (sum + a) == hi * sum + hi * a;
  }

  lemma NonNegative(a: real, b: real)
    requires a >= 0.0 && b >= 0.0
    ensures a * b >= 0.0
  {
  }

  /** The blend stays within whatever interval holds every prediction. */
  lemma BlendInHull(r: real, column: seq<real>, lo: real, hi: real)
    requires column != [] && 0.0 < r <= 1.0 && forall i :: 0 <= i < |column| ==> lo <= column[i] <= hi
    ensures lo <= Blend(r, column) <= hi
  {
    WeightsAreWeights(r, |column|);
    DotWithin(Normalised(Raw(r, |column|)), column, lo, hi);
  }

  /** One dimension of what the chunks predict for step `t`. */
  function Column(entries: seq<Entry<Vector>>, t: nat, d: nat): (c: seq<real>)
    requires forall e :: e in entries ==> Covers(e, t) && d < |e.acts[t - e.q]|
    ensures |c| == |entries|
  {
    assert forall i :: 0 <= i < |entries| ==> entries[i] in entries && Covers(entries[i], t);
    seq(|entries|, i requires 0 <= i < |entries| => entries[i].acts[t - entries[i].q][d])
  }

  /** The predictions of these chunks for dimension `d` of step `t` lie in an interval. */
  ghost predicate PredictWithin(entries: seq<Entry<Vector>>, t: nat, d: nat, lo: real, hi: real) {
    forall e :: e in entries && Covers(e, t) ==> d < |e.acts[t - e.q]| && lo <= e.acts[t - e.q][d] <= hi
  }

  /** The action blended from the buffer lies in the hull of every prediction of the whole history. */
  lemma BlendOverHistory(history: seq<Entry<Vector>>, r: real, d: nat, lo: real, hi: real)
    requires History(history) && history != [] && 0.0 < r <= 1.0
    requires PredictWithin(history, history[|history| - 1].q, d, lo, hi)
    ensures
      var t := history[|history| - 1].q;
      && (forall e :: e in Buffer(history) ==> Covers(e, t) && d < |e.acts[t - e.q]|)
      && Buffer(history) != [] && lo <= Blend(r, Column(Buffer(history), t, d)) <= hi
  {
    var t := history[|history| - 1].q;
    EvictionIsLossless(history);
    PredictFiltered(history, t, d, lo, hi);
    hide *;
    BlendWithin(Buffer(history), t, r, d, lo, hi);
  }

  lemma PredictFiltered(history: seq<Entry<Vector>>, t: nat, d: nat, lo: real, hi: real)
    requires PredictWithin(history, t, d, lo, hi)
    ensures PredictWithin(Filtered(history, t), t, d, lo, hi)
    ensures forall e :: e in Filtered(history, t) ==> Covers(e, t)
  {
    FilteredMeans(history, t);
  }

  lemma BlendWithin(buffer: seq<Entry<Vector>>, t: nat, r: real, d: nat, lo: real, hi: real)
    requires buffer != [] && 0.0 < r <= 1.0 && PredictWithin(buffer, t, d, lo, hi)
    requires forall e :: e in buffer ==> Covers(e, t)
    ensures forall e :: e in buffer ==> d < |e.acts[t - e.q]|
    ensures lo <= Blend(r, Column(buffer, t, d)) <= hi
  {
    hide Blend;
    var column := Column(buffer, t, d);
    assert forall i :: 0 <= i < |column| ==> buffer[i] in buffer;
    BlendInHull(r, column, lo, hi);
  }

  // ---------------------------------------------------------------- smoothing

  function Mix(alpha: real, raw: real, prev: Option<real>): real {
    if prev.None? then raw else alpha * raw + (1.0 - alpha) * prev.value
  }

  /** The smoothed stream of one dimension after these raw values. */
  function Smoothed(alpha: real, raws: seq<real>): Option<real> {
    if raws == [] then None
    else Some(Mix(alpha, raws[|raws| - 1], Smoothed(alpha, raws[..|raws| - 1])))
  }

  lemma {:induction false} SmoothedInHull(alpha: real, raws: seq<real>, lo: real, hi: real)
    requires 0.0 < alpha <= 1.0 && raws != [] && forall i :: 0 <= i < |raws| ==> lo <= raws[i] <= hi
    ensures lo <= Smoothed(alpha, raws).value <= hi
  {
    var front, last := raws[..|raws| - 1], raws[|raws| - 1];
    if front != [] {
      SmoothedInHull(alpha, front, lo, hi);
      MixInHull(alpha, last, Smoothed(alpha, front).value, lo, hi);
    } else {
      assert Smoothed(alpha, front) == None;
    }
  }

  lemma MixInHull(alpha: real, raw: real, prev: real, lo: real, hi: real)
    requires 0.0 < alpha <= 1.0 && lo <= raw <= hi && lo <= prev <= hi
    ensures lo <= alpha * raw + (1.0 - alpha) * prev <= hi
  {
    NonNegative(alpha, raw - lo);
    NonNegative(alpha, hi - raw);
    NonNegative(1.0 - alpha, prev - lo);
    NonNegative(1.0 - alpha, hi - prev);
    assert alpha * (raw - lo) == alpha * raw - alpha * lo;
    assert alpha * (hi - raw) == alpha * hi - alpha * raw;
    assert (1.0 - alpha) * (prev - lo) == (1.0 - alpha) * prev - lo + alpha * lo;
    assert (1.0 - alpha) * (hi - prev) == hi - alpha * hi - (1.0 - alpha) * prev;
  }
}
