/** The pass@k estimator over the epochs of a scene. */
module PassAtK {
  import opened Basics

  /** A score's value: a number, a truth value, or a word, which may still read as a number. */
  datatype Value = Number(r: real) | Truth(b: bool) | Word(number: Option<real>)

  datatype Error = NotNumeric | TooFewEpochs(n: nat)

  function Numeric(v: Value): Option<real> {
    match v
    case Number(r) => Some(r)
    case Truth(b) => Some(if b then 1.0 else 0.0)
    case Word(number) => number
  }

  predicate Success(v: Value) {
    Numeric(v).Some? && Numeric(v).value >= 0.5
  }

  // ---------------------------------------------------------------- binomials

  function Comb(n: nat, k: nat): nat {
    if k == 0 then 1 else if n == 0 then 0 else Comb(n - 1, k - 1) + Comb(n - 1, k)
  }

  lemma {:induction false} CombPositive(n: nat, k: nat)
    ensures Comb(n, k) > 0 <==> k <= n
  {
    if n > 0 && k > 0 {
      CombPositive(n - 1, k - 1);
      CombPositive(n - 1, k);
    }
  }

  lemma {:induction false} CombOne(n: nat)
    ensures Comb(n, 1) == n
  {
    if n > 0 {
      CombOne(n - 1);
    }
  }

  lemma {:induction false} CombGrows(m: nat, n: nat, k: nat)
    requires m <= n
    ensures Comb(m, k) <= Comb(n, k)
  {
    if m < n && k > 0 {
      CombGrows(m, n - 1, k);
    }
  }

  /** The next binomial of a row: (k + 1) C(n, k + 1) = (n - k) C(n, k). */
  lemma {:induction false} CombNext(n: nat, k: nat)
    requires k <= n
    ensures (k + 1) * Comb(n, k + 1) == (n - k) * Comb(n, k)
  {
    if n == k {
      CombPositive(n, n + 1);
    } else if k == 0 {
      CombOne(n);
    } else {
      CombNext(n - 1, k);
      CombNext(n - 1, k - 1);
      PascalStep(n, k, Comb(n - 1, k - 1), Comb(n - 1, k), Comb(n - 1, k + 1));
    }
  }

  lemma PascalStep(n: int, k: int, a: int, b: int, c: int)
    requires (k + 1) * c == (n - 1 - k) * b && k * b == (n - k) * a
    ensures (k + 1) * (b + c) == (n - k) * (a + b)
  {
    assert (k + 1) * (b + c) == (k + 1) * b + (k + 1) * c;
    assert (k + 1) * b + (n - 1 - k) * b == n * b;
    assert (n - k) * (a + b) == (n - k) * a + (n - k) * b;
    assert k * b + (n - k) * b == n * b;
  }

  // ---------------------------------------------------------------- counting subsets

  /** The k-element subsets of a finite set. */
  function Subsets(s: set<nat>, k: nat): set<set<nat>> {
    set t | t <= s && |t| == k
  }

  function With(ts: set<set<nat>>, x: nat): set<set<nat>> {
    set t | t in ts :: t + {x}
  }

  lemma {:induction false} WithCounts(ts: set<set<nat>>, x: nat)
    requires forall t :: t in ts ==> x !in t
    ensures |With(ts, x)| == |ts|
    decreases |ts|
  {
    if ts != {} {
      var t :| t in ts;
      var rest := ts - {t};
      WithCounts(rest, x);
      forall u | u in rest
        ensures u + {x} != t + {x}
      {
        assert (u + {x}) - {x} == u && (t + {x}) - {x} == t;
      }
      assert With(ts, x) == With(rest, x) + {t + {x}};
    }
  }

  /** There are C(|s|, k) of them. */
  lemma {:induction false} SubsetsCount(s: set<nat>, k: nat)
    ensures |Subsets(s, k)| == Comb(|s|, k)
    decreases |s|
  {
    hide Subsets;
    if k == 0 {
      SubsetsOfNone(s, k);
    } else if s == {} {
      SubsetsOfNone(s, k);
    } else {
      var x :| x in s;
      var rest := s - {x};
      assert |s| == |rest| + 1;
      SubsetsCount(rest, k);
      SubsetsCount(rest, k - 1);
      SubsetsStep(s, x, k);
    }
  }

  /** A subset holds an element or does not. */
  lemma SubsetsStep(s: set<nat>, x: nat, k: nat)
    requires x in s && k > 0
    ensures |Subsets(s, k)| == |Subsets(s - {x}, k)| + |Subsets(s - {x}, k - 1)|
  {
    var rest := s - {x};
    hide Subsets, With;
    SubsetsLack(rest, k, x);
    SubsetsLack(rest, k - 1, x);
    SubsetsSplit(s, x, k);
    WithCounts(Subsets(rest, k - 1), x);
    WithHas(Subsets(rest, k - 1), x);
    DisjointCount(Subsets(rest, k), With(Subsets(rest, k - 1), x));
  }

  lemma SubsetsOfNone(s: set<nat>, k: nat)
    ensures k == 0 ==> Subsets(s, k) == {{}}
    ensures k > 0 && s == {} ==> Subsets(s, k) == {}
  {
    assert {} <= s;
  }

  lemma SubsetsLack(s: set<nat>, k: nat, x: nat)
    requires x !in s
    ensures forall t :: t in Subsets(s, k) ==> x !in t
  {
  }

  lemma WithHas(ts: set<set<nat>>, x: nat)
    ensures forall t :: t in With(ts, x) ==> x in t
  {
  }

  lemma DisjointCount(a: set<set<nat>>, b: set<set<nat>>)
    requires a !! b
    ensures |a + b| == |a| + |b|
  {
  }

  lemma SubsetsSplit(s: set<nat>, x: nat, k: nat)
    requires x in s && k > 0
    ensures Subsets(s, k) == Subsets(s - {x}, k) + With(Subsets(s - {x}, k - 1), x)
  {
    forall t | t in Subsets(s, k)
      ensures t in Subsets(s - {x}, k) + With(Subsets(s - {x}, k - 1), x)
    {
      if x in t {
        var u := t - {x};
        assert u in Subsets(s - {x}, k - 1) && u + {x} == t;
      }
    }
    forall t | t in With(Subsets(s - {x}, k - 1), x)
      ensures t in Subsets(s, k)
    {
      var u :| u in Subsets(s - {x}, k - 1) && u + {x} == t;
    }
  }

  // ---------------------------------------------------------------- the epochs

  function Epochs(n: nat): (s: set<nat>)
    ensures forall i :: i in s <==> 0 <= i < n
  {
    if n == 0 then {} else Epochs(n - 1) + {n - 1}
  }

  function Failures(values: seq<Value>): set<nat> {
    set i | 0 <= i < |values| && !Success(values[i])
  }

  lemma {:induction false} EpochsCount(n: nat)
    ensures |Epochs(n)| == n
  {
    if n > 0 {
      EpochsCount(n - 1);
    }
  }

  lemma {:induction false} FailuresCount(values: seq<Value>)
    ensures |Failures(values)| == |values| - Count(values, Success)
    ensures Count(values, Success) <= |values|
  {
    if values == [] {
      assert Failures(values) == {};
    } else {
      var front, last := values[..|values| - 1], values[|values| - 1];
      FailuresCount(front);
      assert Failures(values) == Failures(front) + (if Success(last) then {} else {|front|});
    }
  }

  /** The draws of k epochs that hold a success. */
  function Hits(values: seq<Value>, k: nat): set<set<nat>> {
    set t | t in Subsets(Epochs(|values|), k) && exists i :: i in t && 0 <= i < |values| && Success(values[i])
  }

  /** The draws that hold none are the draws among the failures. */
  lemma HitsCount(values: seq<Value>, k: nat)
    ensures Count(values, Success) <= |values|
    ensures |Hits(values, k)| == Comb(|values|, k) - Comb(|values| - Count(values, Success), k)
    ensures |Subsets(Epochs(|values|), k)| == Comb(|values|, k)
  {
    EpochsCount(|values|);
    FailuresCount(values);
    hide Subsets, Hits, Epochs, Failures, Comb;
    SubsetsCount(Epochs(|values|), k);
    SubsetsCount(Failures(values), k);
    HitsAndMisses(values, k);
  }

  lemma HitsAndMisses(values: seq<Value>, k: nat)
    ensures Hits(values, k) + Subsets(Failures(values), k) == Subsets(Epochs(|values|), k)
    ensures Hits(values, k) !! Subsets(Failures(values), k)
    ensures |Hits(values, k)| == |Subsets(Epochs(|values|), k)| - |Subsets(Failures(values), k)|
  {
    var all, misses := Subsets(Epochs(|values|), k), Subsets(Failures(values), k);
    forall t | t in all && t !in Hits(values, k)
      ensures t in misses
    {
      assert forall i :: i in t ==> i in Epochs(|values|);
    }
    forall t | t in misses
      ensures t in all && t !in Hits(values, k)
    {
      assert forall i :: i in t ==> i in Failures(values);
    }
    hide Subsets, Hits;
    DisjointCount(Hits(values, k), misses);
  }

  // ---------------------------------------------------------------- the estimator

  /** The estimator on the values of n epochs, in closed form. */
  function Estimate(n: nat, c: nat, k: nat): real
    requires c <= n && 1 <= k <= n
  {
    CombPositive(n, k);
    1.0 - (if n - c >= k then Comb(n - c, k) as real / Comb(n, k) as real else 0.0)
  }

  function PassAtK(k: nat, values: seq<Value>): Result<real, Error>
    requires k >= 1
  {
    if exists v :: v in values && Numeric(v).None? then Err(NotNumeric)
    else if k > |values| then Err(TooFewEpochs(|values|))
    else
      FailuresCount(values);
      Ok(Estimate(|values|, Count(values, Success), k))
  }

  /** pass@k is the share of the k-element draws of the epochs that hold a success. */
  lemma EstimateIsShare(k: nat, values: seq<Value>)
    requires 1 <= k <= |values|
    ensures Count(values, Success) <= |values| && |Subsets(Epochs(|values|), k)| > 0
    ensures
      Estimate(|values|, Count(values, Success), k)
      == |Hits(values, k)| as real / |Subsets(Epochs(|values|), k)| as real
  {
    HitsCount(values, k);
    FailuresCount(values);
    var n, c := |values|, Count(values, Success);
    CombPositive(n, k);
    CombPositive(n - c, k);
    Complement(Comb(n - c, k), Comb(n, k));
  }

  lemma Complement(a: nat, b: nat)
    requires b > 0
    ensures 1.0 - a as real / b as real == (b - a) as real / b as real
  {
    var p, x, z := b as real, a as real / b as real, (b - a) as real / b as real;
    QuotientTimes(a as real, p);
    QuotientTimes((b - a) as real, p);
    Distributes(x, z, p);
    CastsAdd(a, b);
    OneTimes(p);
    CancelReal(p, x + z, 1.0);
    CancelReal(p, 1.0, x + z);
  }

  lemma QuotientTimes(a: real, p: real)
    requires p > 0.0
    ensures a / p * p == a
  {
  }

  lemma CastsAdd(a: nat, b: nat)
    ensures a as real + (b - a) as real == b as real
  {
  }

  lemma Distributes(x: real, z: real, p: real)
    ensures (x + z) * p == x * p + z * p
  {
  }

  lemma OneTimes(p: real)
    ensures 1.0 * p == p
  {
  }

  lemma RatioBounds(a: nat, b: nat)
    requires b > 0 && a <= b
    ensures 0.0 <= a as real / b as real <= 1.0 && (a > 0 ==> a as real / b as real > 0.0)
  {
  }

  /** It lies in [0, 1], and is 1 exactly when fewer than k epochs failed. */
  lemma EstimateBounds(n: nat, c: nat, k: nat)
    requires c <= n && 1 <= k <= n
    ensures 0.0 <= Estimate(n, c, k) <= 1.0
    ensures Estimate(n, c, k) == 1.0 <==> n - c < k
  {
    CombPositive(n, k);
    CombPositive(n - c, k);
    CombGrows(n - c, n, k);
    RatioBounds(Comb(n - c, k), Comb(n, k));
    if n - c >= k {
      assert Comb(n - c, k) as real / Comb(n, k) as real > 0.0;
    }
  }

  /** At k = 1 it is the success rate. */
  lemma EstimateAtOne(n: nat, c: nat)
    requires c <= n && n >= 1
    ensures Estimate(n, c, 1) == c as real / n as real
  {
    CombOne(n);
    CombOne(n - c);
    Complement(n - c, n);
    if c == n {
      assert n as real / n as real == 1.0;
    }
  }

  lemma RatioOrder(a: nat, b: nat, c: nat, d: nat)
    requires b > 0 && d > 0 && a * d <= c * b
    ensures a as real / b as real <= c as real / d as real
  {
    var y := c as real / d as real;
    var p, q := b as real, d as real;
    QuotientTimes(c as real, q);
    CastsMultiply(a, d);
    CastsMultiply(c, b);
    Swaps(y, p, q);
    CancelReal(q, a as real, y * p);
    BelowQuotient(a as real, p, y);
  }

  lemma CastsMultiply(x: nat, y: nat)
    ensures (x * y) as real == x as real * y as real
  {
  }

  lemma Swaps(x: real, y: real, z: real)
    ensures x * y * z == x * z * y
  {
  }

  lemma CancelReal(f: real, x: real, y: real)
    requires f > 0.0 && x * f <= y * f
    ensures x <= y
  {
  }

  lemma BelowQuotient(a: real, p: real, y: real)
    requires p > 0.0 && a <= y * p
    ensures a / p <= y
  {
    QuotientTimes(a, p);
    CancelReal(p, a / p, y);
  }

  /** The share of misses, also where there are none. */
  lemma EstimateIsComplement(n: nat, c: nat, k: nat)
    requires c <= n && 1 <= k <= n
    ensures Comb(n, k) > 0 && Estimate(n, c, k) == 1.0 - Comb(n - c, k) as real / Comb(n, k) as real
  {
    CombPositive(n, k);
    CombPositive(n - c, k);
  }

  /** More successes never lower it, */
  lemma MonotoneInSuccesses(n: nat, c: nat, d: nat, k: nat)
    requires c <= d <= n && 1 <= k <= n
    ensures Estimate(n, c, k) <= Estimate(n, d, k)
  {
    EstimateIsComplement(n, c, k);
    EstimateIsComplement(n, d, k);
    CombGrows(n - d, n - c, k);
    MultiplyBoth(Comb(n - d, k), Comb(n - c, k), Comb(n, k));
    RatioOrder(Comb(n - d, k), Comb(n, k), Comb(n - c, k), Comb(n, k));
  }

  lemma MultiplyBoth(a: nat, b: nat, f: nat)
    requires a <= b
    ensures a * f <= b * f && f * a <= f * b
  {
  }

  /** nor do more draws. */
  lemma MonotoneInDraws(n: nat, c: nat, k: nat)
    requires c <= n && 1 <= k < n
    ensures Estimate(n, c, k) <= Estimate(n, c, k + 1)
  {
    EstimateIsComplement(n, c, k);
    EstimateIsComplement(n, c, k + 1);
    MissesShrink(n - c, n, k);
    RatioOrder(Comb(n - c, k + 1), Comb(n, k + 1), Comb(n - c, k), Comb(n, k));
  }

  lemma MissesShrink(m: nat, n: nat, k: nat)
    requires m <= n && k < n
    ensures Comb(m, k + 1) * Comb(n, k) <= Comb(m, k) * Comb(n, k + 1)
  {
    var a, b, x, y := Comb(m, k), Comb(m, k + 1), Comb(n, k), Comb(n, k + 1);
    CombNext(n, k);
    if k <= m {
      CombNext(m, k);
      CrossMultiply(a, b, x, y, k + 1, m - k, n - k);
    } else {
      CombPositive(m, k + 1);
    }
  }

  lemma Cancel(f: nat, x: nat, y: nat)
    requires f > 0 && f * x <= f * y
    ensures x <= y
  {
  }

  /** From f b = u a, f y = v x and u <= v: b x <= a y. */
  lemma CrossMultiply(a: nat, b: nat, x: nat, y: nat, f: nat, u: nat, v: nat)
    requires f > 0 && f * b == u * a && f * y == v * x && u <= v
    ensures b * x <= a * y
  {
    Regroup(f, b, x, u, a);
    Regroup(f, y, a, v, x);
    Commutes(x, a);
    Commutes(y, a);
    MultiplyBoth(u, v, a * x);
    Cancel(f, b * x, a * y);
  }

  lemma Commutes(x: nat, y: nat)
    ensures x * y == y * x
  {
  }

  lemma Regroup(f: nat, b: nat, x: nat, u: nat, a: nat)
    requires f * b == u * a
    ensures f * (b * x) == u * (a * x)
  {
    Associates(f, b, x);
    Associates(u, a, x);
  }

  lemma Associates(x: nat, y: nat, z: nat)
    ensures x * (y * z) == x * y * z
  {
  }

  // ---------------------------------------------------------------- abstentions

  function Voted(scores: seq<Option<Value>>): seq<Value> {
    if scores == [] then []
    else
      var last := scores[|scores| - 1];
      Voted(scores[..|scores| - 1]) + (if last.Some? then [last.value] else [])
  }

  /** A scene's score: abstained epochs are left out, and a scene of abstentions abstains. */
  function ReduceScores(k: nat, scores: seq<Option<Value>>): Result<Option<real>, Error>
    requires k >= 1
  {
    var voted := Voted(scores);
    if voted == [] then Ok(None)
    else
      match PassAtK(k, voted)
      case Ok(v) => Ok(Some(v))
      case Err(e) => Err(e)
  }

  /** Inserting or removing abstentions changes nothing. */
  lemma {:induction false} AbstentionsDoNotCount(a: seq<Option<Value>>, b: seq<Option<Value>>, k: nat)
    requires k >= 1
    ensures Voted(a + [None] + b) == Voted(a + b)
    ensures ReduceScores(k, a + [None] + b) == ReduceScores(k, a + b)
  {
    if b == [] {
      assert (a + [None])[..|a|] == a && a + [None] + b == a + [None] && a + b == a;
      ConcatEmpty(Voted(a));
    } else {
      var front := b[..|b| - 1];
      AbstentionsDoNotCount(a, front, k);
      assert (a + [None] + b)[..|a + [None] + b| - 1] == a + [None] + front;
      assert (a + b)[..|a + b| - 1] == a + front;
    }
  }

  /** What a scene's score means: the share of draws of the voting epochs that hold a success. */
  lemma ReducedIsShare(k: nat, scores: seq<Option<Value>>)
    requires k >= 1
    ensures
      var voted := Voted(scores);
      match ReduceScores(k, scores)
      case Ok(None) => forall s :: s in scores ==> s.None?
      case Ok(Some(v)) =>
        && 1 <= k <= |voted| && (forall x :: x in voted ==> Numeric(x).Some?)
        && |Subsets(Epochs(|voted|), k)| > 0
        && v == |Hits(voted, k)| as real / |Subsets(Epochs(|voted|), k)| as real
      case Err(TooFewEpochs(n)) => 0 < |voted| == n < k
      case Err(NotNumeric) => exists x :: x in voted && Numeric(x).None?
  {
    var voted := Voted(scores);
    VotedMeans(scores);
    if 1 <= k <= |voted| {
      EstimateIsShare(k, voted);
    }
  }

  lemma {:induction false} VotedMeans(scores: seq<Option<Value>>)
    ensures forall x :: x in Voted(scores) <==> Some(x) in scores
    ensures Voted(scores) == [] ==> forall s :: s in scores ==> s.None?
  {
    if scores != [] {
      var front, last := scores[..|scores| - 1], scores[|scores| - 1];
      assert scores == front + [last];
      VotedMeans(front);
    }
  }
}
