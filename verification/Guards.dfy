/**
 The guards between policy output and the embodiment: clamping, per-step limits, and their chain.

 Values are extended reals (plus NaN), vectors are flattened sequences of one length, and floating-point
 rounding is not modelled. What a guard does to one dimension is a clip to an interval that may depend
 on the last approved action; a chain is proved to be a single clip to the intersection.
 */
module Guards {
  import opened Basics

  datatype Num = NegInf | Fin(r: real) | PosInf | NaN

  predicate Le(a: Num, b: Num) {
    a != NaN && b != NaN && (a == NegInf || b == PosInf || (a.Fin? && b.Fin? && a.r <= b.r))
  }

  function Max(a: Num, b: Num): Num {
    if a == NaN || b == NaN then NaN else if Le(a, b) then b else a
  }

  function Min(a: Num, b: Num): Num {
    if a == NaN || b == NaN then NaN else if Le(a, b) then a else b
  }

  /** numpy's clip: the upper bound wins when the bounds cross. */
  function Clip(x: Num, lo: Num, hi: Num): Num {
    Min(Max(x, lo), hi)
  }

  function Shift(x: Num, d: real): Num {
    if x.Fin? then Fin(x.r + d) else x
  }

  type Vec = seq<Num>

  /** A bound at dimension `i`; an absent side is infinite. */
  function At(v: Option<Vec>, i: nat, absent: Num): Num {
    if v.Some? && i < |v.value| then v.value[i] else absent
  }

  predicate AllFinite(v: Vec) {
    forall i :: 0 <= i < |v| ==> v[i].Fin?
  }

  predicate AnyNaN(v: Vec) {
    exists i :: 0 <= i < |v| && v[i].NaN?
  }

  /** A step's action: its values and the intervention flags in its metadata. */
  datatype Action = Action(data: Vec, flags: set<string>)

  const CLAMPED := "clamped"
  const DELTA_CLAMPED := "delta_clamped"

  datatype Guard =
    | PassThrough
    | Clamp(low: Option<Vec>, high: Option<Vec>)
    | AbsoluteDelta(delta: seq<real>)
    | DisplacementDelta(low: Option<Vec>, high: Option<Vec>)  // the box already intersected with the limit
  {
    function Flag(): string {
      if Clamp? then CLAMPED else DELTA_CLAMPED
    }

    /** The lower end of the interval this guard clips dimension `i` to. */
    function Lo(ref: Option<Vec>, i: nat): Num {
      match this
      case PassThrough => NegInf
      case Clamp(low, _) => At(low, i, NegInf)
      case AbsoluteDelta(delta) => if i < |delta| then Shift(At(ref, i, NegInf), -delta[i]) else NegInf
      case DisplacementDelta(low, _) => At(low, i, NegInf)
    }

    function Hi(ref: Option<Vec>, i: nat): Num {
      match this
      case PassThrough => PosInf
      case Clamp(_, high) => At(high, i, PosInf)
      case AbsoluteDelta(delta) => if i < |delta| then Shift(At(ref, i, PosInf), delta[i]) else PosInf
      case DisplacementDelta(_, high) => At(high, i, PosInf)
    }

    /** The interval at dimension `i` is proper and holds a finite value. */
    predicate ProperAt(ref: Option<Vec>, i: nat) {
      Le(Lo(ref, i), Hi(ref, i)) && Lo(ref, i) != PosInf && Hi(ref, i) != NegInf
    }
  }

  /** The guard and the reference have at least `n` dimensions. */
  predicate Fits(g: Guard, ref: Option<Vec>, n: nat) {
    && (ref.Some? ==> n <= |ref.value|)
    && match g
       case PassThrough => true
       case AbsoluteDelta(delta) => n <= |delta|
       case Clamp(low, high) => (low.Some? ==> n <= |low.value|) && (high.Some? ==> n <= |high.value|)
       case DisplacementDelta(low, high) => (low.Some? ==> n <= |low.value|) && (high.Some? ==> n <= |high.value|)
  }

  /** What the guards' constructors and the action space check: bounds are on their own side and not
      NaN, low <= high, limits are not negative: one derived from a
      degenerate dimension is zero. A displacement limit must meet its box. */
  predicate Sane(g: Guard, n: nat) {
    && Fits(g, None, n)
    && (g.AbsoluteDelta? ==> forall i :: 0 <= i < n ==> g.delta[i] >= 0.0)
    && forall i: nat :: i < n ==> g.ProperAt(None, i)
  }

  // ---------------------------------------------------------------- one review

  /** The values one guard approves, or None for a SafetyAbort. */
  function Approved(g: Guard, ref: Option<Vec>, v: Vec): (w: Option<Vec>)
    requires Fits(g, ref, |v|)
    ensures w.Some? ==> |w.value| == |v|
  {
    if g.PassThrough? then Some(v)
    else if AnyNaN(v) || (!g.Clamp? && !AllFinite(v)) then None
    else Some(seq(|v|, i requires 0 <= i < |v| => Clip(v[i], g.Lo(ref, i), g.Hi(ref, i))))
  }

  /** The reviewed action; it is the reviewed object itself exactly when its values did not change. */
  function Reviewed(g: Guard, ref: Option<Vec>, a: Action): Option<Action>
    requires Fits(g, ref, |a.data|)
  {
    match Approved(g, ref, a.data)
    case None => None
    case Some(w) => Some(if w == a.data then a else Action(w, a.flags + {g.Flag()}))
  }

  /** A chain's result when every member measures against the same reference. */
  function ChainReviewed(gs: seq<Guard>, ref: Option<Vec>, a: Action): (r: Option<Action>)
    requires forall g :: g in gs ==> Fits(g, ref, |a.data|)
    ensures r.Some? ==> |r.value.data| == |a.data|
  {
    if gs == [] then Some(a)
    else match Reviewed(gs[0], ref, a)
      case None => None
      case Some(b) => ChainReviewed(gs[1..], ref, b)
  }

  datatype Change = Change(name: string, before: Vec, after: Vec)

  /** The interventions a chain notes: one per guard that changed the action. */
  function Changes(gs: seq<Guard>, names: seq<string>, ref: Option<Vec>, a: Action): seq<Change>
    requires |names| == |gs|
    requires forall g :: g in gs ==> Fits(g, ref, |a.data|)
  {
    if gs == [] then []
    else match Reviewed(gs[0], ref, a)
      case None => []
      case Some(b) =>
        (if b == a then [] else [Change(names[0], a.data, b.data)]) + Changes(gs[1..], names[1..], ref, b)
  }

  /** One round of the chain's loop. */
  lemma ChainUnfolds(gs: seq<Guard>, names: seq<string>, i: nat, ref: Option<Vec>, a: Action)
    requires i < |gs| == |names|
    requires forall g :: g in gs ==> Fits(g, ref, |a.data|)
    ensures
      match Reviewed(gs[i], ref, a)
      case None => ChainReviewed(gs[i..], ref, a).None? && Changes(gs[i..], names[i..], ref, a) == []
      case Some(b) =>
        && ChainReviewed(gs[i..], ref, a) == ChainReviewed(gs[i + 1..], ref, b)
        && Changes(gs[i..], names[i..], ref, a)
           == (if b == a then [] else [Change(names[i], a.data, b.data)]) + Changes(gs[i + 1..], names[i + 1..], ref, b)
  {
    assert gs[i..][0] == gs[i] && gs[i..][1..] == gs[i + 1..];
    assert names[i..][0] == names[i] && names[i..][1..] == names[i + 1..];
  }

  lemma LimitedPush(gs: seq<Guard>, i: nat)
    requires i < |gs|
    ensures Limited(gs[..i + 1]) <==> Limited(gs[..i]) || gs[i].AbsoluteDelta?
  {
    assert gs[..i + 1] == gs[..i] + [gs[i]];
    if Limited(gs[..i]) {
      var g :| g in gs[..i] && g.AbsoluteDelta?;
      assert g in gs[..i + 1];
    }
  }

  predicate Limited(gs: seq<Guard>) {
    exists g :: g in gs && g.AbsoluteDelta?
  }

  /** The trial's shared store, as far as guards use it. */
  class Store {
    var reference: Option<Vec>
    var trace: seq<Change>

    constructor ()
      ensures reference.None? && trace == []
    {
      reference, trace := None, [];
    }

    /** One guard's review; only an absolute delta limit touches the reference. */
    method Review(g: Guard, a: Action) returns (r: Option<Action>)
      requires Fits(g, reference, |a.data|)
      modifies this`reference
      ensures r == Reviewed(g, old(reference), a)
      ensures reference == if g.AbsoluteDelta? && r.Some? then Some(r.value.data) else old(reference)
    {
      var approved := Approved(g, reference, a.data);
      if approved.None? {
        return None;
      }
      if g.AbsoluteDelta? {
        reference := approved;
      }
      r := Some(if approved.value == a.data then a else Action(approved.value, a.flags + {g.Flag()}));
    }

    /** Resets an existing reference to an executed pose; false when the pose is refused. */
    method RewindReference(pose: Vec) returns (ok: bool)
      modifies this`reference
      ensures ok <==> AllFinite(pose)
      ensures reference == if ok && old(reference).Some? then Some(pose) else old(reference)
    {
      ok := AllFinite(pose);
      if ok && reference.Some? {
        reference := Some(pose);
      }
    }

    /** The chain: every member measures against the reference the previous review left. */
    method ReviewChain(gs: seq<Guard>, names: seq<string>, a: Action) returns (r: Option<Action>)
      requires |names| == |gs|
      requires forall g :: g in gs ==> Fits(g, reference, |a.data|) && Fits(g, None, |a.data|)
      modifies this
      ensures r == ChainReviewed(gs, old(reference), a)
      ensures trace == old(trace) + Changes(gs, names, old(reference), a)
      ensures r.Some? ==>
                reference == if old(reference).Some? || Limited(gs) then Some(r.value.data) else None
    {
      hide ChainReviewed;
      hide Changes;
      hide Approved;
      hide Limited;
      var base, action, limited := reference, a, reference.Some?;
      ChainStarts(gs, names, base, a);
      for i := 0 to |gs|
        invariant |action.data| == |a.data|
        invariant ChainReviewed(gs, base, a) == ChainReviewed(gs[i..], base, action)
        invariant old(trace) + Changes(gs, names, base, a) == trace + Changes(gs[i..], names[i..], base, action)
        invariant limited <==> base.Some? || Limited(gs[..i])
        invariant limited || reference.None?
      {
        ChainUnfolds(gs, names, i, base, action);
        LimitedPush(gs, i);
        reference := base;
        var reviewed := Review(gs[i], action);
        if reviewed.None? {
          return None;
        }
        limited := limited || reference.Some?;
        if reviewed.value != action {
          trace := trace + [Change(names[i], action.data, reviewed.value.data)];
        }
        action := reviewed.value;
      }
      ChainEnds(gs, names, base, action);
      assert gs[..|gs|] == gs;
      if limited {
        reference := Some(action.data);
      }
      r := Some(action);
    }
  }

  lemma ChainStarts(gs: seq<Guard>, names: seq<string>, ref: Option<Vec>, a: Action)
    requires |gs| == |names|
    requires forall g :: g in gs ==> Fits(g, ref, |a.data|)
    ensures gs[0..] == gs && names[0..] == names && !Limited(gs[..0])
  {
  }

  lemma ChainEnds(gs: seq<Guard>, names: seq<string>, ref: Option<Vec>, a: Action)
    requires |gs| == |names|
    requires forall g :: g in gs ==> Fits(g, ref, |a.data|)
    ensures ChainReviewed(gs[|gs|..], ref, a) == Some(a)
    ensures Changes(gs[|gs|..], names[|gs|..], ref, a) == []
  {
  }

  /** A review changes the values or nothing. */
  lemma ReviewChanges(g: Guard, ref: Option<Vec>, a: Action)
    requires Fits(g, ref, |a.data|)
    ensures Reviewed(g, ref, a).Some? ==> |Reviewed(g, ref, a).value.data| == |a.data|
    ensures Reviewed(g, ref, a).Some? && Reviewed(g, ref, a).value != a ==> Reviewed(g, ref, a).value.data != a.data
  {
  }

  /** The changes lead from `before` to `after` with no gap; each one changes something and is some guard's. */
  predicate Linked(cs: seq<Change>, names: seq<string>, before: Vec, after: Vec) {
    && (cs != [] ==> cs[0].before == before && cs[|cs| - 1].after == after)
    && (forall k :: 0 <= k < |cs| - 1 ==> cs[k].after == cs[k + 1].before)
    && (forall k :: 0 <= k < |cs| ==> cs[k].before != cs[k].after && cs[k].name in names)
  }

  lemma LinkedCons(c: Change, cs: seq<Change>, names: seq<string>, after: Vec)
    requires Linked(cs, names, c.after, after) && (cs == [] ==> c.after == after)
    requires c.before != c.after && c.name in names
    ensures Linked([c] + cs, names, c.before, after)
  {
    var whole := [c] + cs;
    assert forall k :: 0 < k < |whole| ==> whole[k] == cs[k - 1];
  }

  /** The noted changes link the proposed action to the approved one, with no gap. */
  lemma {:induction false} ChangesConnect(gs: seq<Guard>, names: seq<string>, ref: Option<Vec>, a: Action)
    requires |names| == |gs|
    requires forall g :: g in gs ==> Fits(g, ref, |a.data|)
    requires ChainReviewed(gs, ref, a).Some?
    ensures Linked(Changes(gs, names, ref, a), names, a.data, ChainReviewed(gs, ref, a).value.data)
    ensures Changes(gs, names, ref, a) == [] ==> ChainReviewed(gs, ref, a).value == a
  {
    hide Reviewed, Fits;
    if gs != [] {
      ReviewChanges(gs[0], ref, a);
      var b := Reviewed(gs[0], ref, a).value;
      ChangesConnect(gs[1..], names[1..], ref, b);
      var rest, r := Changes(gs[1..], names[1..], ref, b), ChainReviewed(gs[1..], ref, b).value;
      assert forall x :: x in names[1..] ==> x in names;
      assert Linked(rest, names, b.data, r.data);
      if b != a {
        LinkedCons(Change(names[0], a.data, b.data), rest, names, r.data);
      } else {
        ConcatEmpty(rest);
      }
    }
  }

  // ---------------------------------------------------------------- a chain is one projection

  predicate AllProper(gs: seq<Guard>, ref: Option<Vec>, i: nat) {
    forall g :: g in gs ==> g.ProperAt(ref, i)
  }

  predicate AllFit(gs: seq<Guard>, ref: Option<Vec>, n: nat) {
    forall g :: g in gs ==> Fits(g, ref, n)
  }

  /** The lower end of the intersection of all members' intervals at dimension `i`. */
  function MaxLo(gs: seq<Guard>, ref: Option<Vec>, i: nat): Num {
    if gs == [] then NegInf else Max(gs[0].Lo(ref, i), MaxLo(gs[1..], ref, i))
  }

  function MinHi(gs: seq<Guard>, ref: Option<Vec>, i: nat): Num {
    if gs == [] then PosInf else Min(gs[0].Hi(ref, i), MinHi(gs[1..], ref, i))
  }

  /** All members' intervals at dimension `i` share a point. */
  predicate Meet(gs: seq<Guard>, ref: Option<Vec>, i: nat) {
    Le(MaxLo(gs, ref, i), MinHi(gs, ref, i))
  }

  /** What the chain does to one dimension: the members' clips in order. */
  function ChainValue(gs: seq<Guard>, ref: Option<Vec>, i: nat, x: Num): Num {
    if gs == [] then x else ChainValue(gs[1..], ref, i, Clip(x, gs[0].Lo(ref, i), gs[0].Hi(ref, i)))
  }

  /** The intersection's ends are numbers on their own side, at least as tight as every member's. */
  lemma {:induction false} Bounds(gs: seq<Guard>, ref: Option<Vec>, i: nat)
    requires AllProper(gs, ref, i)
    ensures MaxLo(gs, ref, i) !in {NaN, PosInf} && MinHi(gs, ref, i) !in {NaN, NegInf}
    ensures forall g :: g in gs ==> Le(g.Lo(ref, i), MaxLo(gs, ref, i)) && Le(MinHi(gs, ref, i), g.Hi(ref, i))
  {
    if gs != [] {
      assert gs[0] in gs;
      Bounds(gs[1..], ref, i);
      assert forall g :: g in gs ==> g == gs[0] || g in gs[1..];
    }
  }

  lemma {:induction false} Tightest(gs: seq<Guard>, ref: Option<Vec>, i: nat)
    requires AllProper(gs, ref, i) && gs != []
    ensures exists g :: g in gs && g.Lo(ref, i) == MaxLo(gs, ref, i)
    ensures exists g :: g in gs && g.Hi(ref, i) == MinHi(gs, ref, i)
  {
    assert gs[0] in gs;
    Bounds(gs, ref, i);
    if |gs| > 1 {
      Tightest(gs[1..], ref, i);
    } else {
      assert gs[1..] == [];
    }
  }

  /** A finite action passes the whole chain, and each dimension is clipped on its own. */
  lemma {:induction false} ChainPointwise(gs: seq<Guard>, ref: Option<Vec>, a: Action)
    requires AllFit(gs, ref, |a.data|) && AllFinite(a.data)
    requires forall i: nat :: i < |a.data| ==> AllProper(gs, ref, i)
    ensures ChainReviewed(gs, ref, a).Some?
    ensures AllFinite(ChainReviewed(gs, ref, a).value.data)
    ensures forall i: nat :: i < |a.data| ==> ChainReviewed(gs, ref, a).value.data[i] == ChainValue(gs, ref, i, a.data[i])
  {
    if gs != [] {
      var g := gs[0];
      assert g in gs;
      var b := Reviewed(g, ref, a).value;
      forall i: nat | i < |a.data|
        ensures b.data[i] == Clip(a.data[i], g.Lo(ref, i), g.Hi(ref, i)) && b.data[i].Fin?
        ensures AllProper(gs[1..], ref, i)
      {
        assert AllProper(gs, ref, i);
      }
      ChainPointwise(gs[1..], ref, b);
    }
  }

  /** Two clips to intervals that meet are one clip to their intersection. */
  lemma ClipsCompose(x: Num, l1: Num, h1: Num, l2: Num, h2: Num)
    requires x != NaN && Le(l1, h1) && Le(l2, h2) && Le(l1, h2) && Le(l2, h1)
    ensures Clip(Clip(x, l1, h1), l2, h2) == Clip(x, Max(l1, l2), Min(h1, h2))
  {
  }

  lemma {:induction false} ScalarProjection(gs: seq<Guard>, ref: Option<Vec>, i: nat, x: Num)
    requires AllProper(gs, ref, i) && x != NaN && Meet(gs, ref, i)
    ensures ChainValue(gs, ref, i, x) == Clip(x, MaxLo(gs, ref, i), MinHi(gs, ref, i))
  {
    if gs != [] {
      var g, rest := gs[0], gs[1..];
      assert g in gs;
      Bounds(rest, ref, i);
      var l, h := MaxLo(rest, ref, i), MinHi(rest, ref, i);
      assert Le(l, h) && Le(g.Lo(ref, i), h) && Le(l, g.Hi(ref, i));
      ScalarProjection(rest, ref, i, Clip(x, g.Lo(ref, i), g.Hi(ref, i)));
      ClipsCompose(x, g.Lo(ref, i), g.Hi(ref, i), l, h);
    }
  }

  /** A review by a chain whose intervals meet is one projection onto their intersection. */
  lemma ChainIsProjection(gs: seq<Guard>, ref: Option<Vec>, a: Action)
    requires AllFit(gs, ref, |a.data|) && AllFinite(a.data)
    requires forall i: nat :: i < |a.data| ==> AllProper(gs, ref, i) && Meet(gs, ref, i)
    ensures ChainReviewed(gs, ref, a).Some?
    ensures forall i: nat :: i < |a.data| ==>
              ChainReviewed(gs, ref, a).value.data[i] == Clip(a.data[i], MaxLo(gs, ref, i), MinHi(gs, ref, i))
  {
    ChainPointwise(gs, ref, a);
    forall i: nat | i < |a.data|
      ensures ChainReviewed(gs, ref, a).value.data[i] == Clip(a.data[i], MaxLo(gs, ref, i), MinHi(gs, ref, i))
    {
      ScalarProjection(gs, ref, i, a.data[i]);
    }
  }

  // ---------------------------------------------------------------- when the order does not matter

  lemma SameMembers(gs: seq<Guard>, hs: seq<Guard>)
    requires multiset(gs) == multiset(hs)
    ensures (forall g :: g in hs <==> g in gs) && (gs == [] <==> hs == [])
  {
    assert forall g :: g in hs <==> g in multiset(hs);
    assert forall g :: g in gs <==> g in multiset(gs);
    assert |multiset(gs)| == |gs| && |multiset(hs)| == |hs|;
  }

  lemma SameMembersSameEnds(gs: seq<Guard>, hs: seq<Guard>, ref: Option<Vec>, i: nat)
    requires AllProper(gs, ref, i) && multiset(gs) == multiset(hs)
    ensures AllProper(hs, ref, i)
    ensures MaxLo(gs, ref, i) == MaxLo(hs, ref, i) && MinHi(gs, ref, i) == MinHi(hs, ref, i)
  {
    SameMembers(gs, hs);
    Bounds(gs, ref, i);
    Bounds(hs, ref, i);
    if gs != [] {
      Tightest(gs, ref, i);
      Tightest(hs, ref, i);
    }
  }

  /** Every order of the chain's members gives every finite value the same result at dimension `i`. */
  ghost predicate OrderFree(gs: seq<Guard>, ref: Option<Vec>, i: nat) {
    forall hs: seq<Guard>, x: Num :: multiset(hs) == multiset(gs) && x.Fin? ==>
      ChainValue(hs, ref, i, x) == ChainValue(gs, ref, i, x)
  }

  /** The last guard of a chain has the last word. */
  lemma {:induction false} LastClip(gs: seq<Guard>, ref: Option<Vec>, i: nat, x: Num)
    requires AllProper(gs, ref, i) && gs != [] && x.Fin?
    ensures Le(gs[|gs| - 1].Lo(ref, i), ChainValue(gs, ref, i, x))
    ensures Le(ChainValue(gs, ref, i, x), gs[|gs| - 1].Hi(ref, i))
  {
    assert gs[0] in gs;
    var y := Clip(x, gs[0].Lo(ref, i), gs[0].Hi(ref, i));
    if |gs| > 1 {
      assert gs[1..][|gs[1..]| - 1] == gs[|gs| - 1];
      LastClip(gs[1..], ref, i, y);
    } else {
      assert gs[1..] == [];
      assert ChainValue(gs, ref, i, x) == y;
    }
  }

  /** A reordering that puts a chosen member last. */
  lemma PutLast(gs: seq<Guard>, g: Guard) returns (hs: seq<Guard>)
    requires g in gs
    ensures multiset(hs) == multiset(gs) && hs != [] && hs[|hs| - 1] == g
  {
    var k :| 0 <= k < |gs| && gs[k] == g;
    hs := gs[..k] + gs[k + 1..] + [g];
    assert gs == gs[..k] + [g] + gs[k + 1..];
  }

  /** The order of the guards is irrelevant exactly when their intervals share a point. */
  lemma OrderFreeIffMeet(gs: seq<Guard>, ref: Option<Vec>, i: nat)
    requires AllProper(gs, ref, i)
    ensures OrderFree(gs, ref, i) <==> Meet(gs, ref, i)
  {
    if Meet(gs, ref, i) {
      forall hs: seq<Guard>, x: Num | multiset(hs) == multiset(gs) && x.Fin?
        ensures ChainValue(hs, ref, i, x) == ChainValue(gs, ref, i, x)
      {
        SameMembersSameEnds(gs, hs, ref, i);
        ScalarProjection(gs, ref, i, x);
        ScalarProjection(hs, ref, i, x);
      }
    } else {
      assert gs != [];
      Tightest(gs, ref, i);
      Bounds(gs, ref, i);
      var g1 :| g1 in gs && g1.Lo(ref, i) == MaxLo(gs, ref, i);
      var g2 :| g2 in gs && g2.Hi(ref, i) == MinHi(gs, ref, i);
      var h1 := PutLast(gs, g1);
      var h2 := PutLast(gs, g2);
      SameMembersSameEnds(gs, h1, ref, i);
      SameMembersSameEnds(gs, h2, ref, i);
      LastClip(h1, ref, i, Fin(0.0));
      LastClip(h2, ref, i, Fin(0.0));
      assert ChainValue(h1, ref, i, Fin(0.0)) != ChainValue(h2, ref, i, Fin(0.0));
    }
  }

  // ---------------------------------------------------------------- actions that are not finite

  predicate Limiter(g: Guard) {
    g.AbsoluteDelta? || g.DisplacementDelta?
  }

  predicate HasLimiter(gs: seq<Guard>) {
    exists g :: g in gs && Limiter(g)
  }

  /** No clamp bounds dimension `i` on the side of the infinite value `x`. */
  predicate Unbounded(gs: seq<Guard>, i: nat, x: Num) {
    && (x.PosInf? || x.NegInf?)
    && forall g :: g in gs && g.Clamp? ==> if x.PosInf? then g.Hi(None, i).PosInf? else g.Lo(None, i).NegInf?
  }

  predicate SomeUnbounded(gs: seq<Guard>, v: Vec) {
    exists i :: 0 <= i < |v| && Unbounded(gs, i, v[i])
  }

  /** What a chain makes of the values, or None for a SafetyAbort. */
  function Values(gs: seq<Guard>, ref: Option<Vec>, a: Action): Option<Vec>
    requires AllFit(gs, ref, |a.data|)
  {
    var r := ChainReviewed(gs, ref, a);
    if r.Some? then Some(r.value.data) else None
  }

  /** Every order of the chain's members approves the same values, or refuses alike. */
  ghost predicate OrderBlind(gs: seq<Guard>, ref: Option<Vec>, a: Action)
    requires AllFit(gs, ref, |a.data|)
  {
    forall hs: seq<Guard> :: multiset(hs) == multiset(gs) ==>
      AllFit(hs, ref, |a.data|) && Values(hs, ref, a) == Values(gs, ref, a)
  }

  /** Any guard but the pass-through refuses NaN. */
  lemma {:induction false} NaNIsRefused(gs: seq<Guard>, ref: Option<Vec>, a: Action)
    requires AllFit(gs, ref, |a.data|) && AnyNaN(a.data)
    ensures Values(gs, ref, a) == if exists g :: g in gs && !g.PassThrough? then None else Some(a.data)
  {
    if gs != [] {
      assert gs[0] in gs && forall g :: g in gs <==> g == gs[0] || g in gs[1..];
      if gs[0].PassThrough? {
        NaNIsRefused(gs[1..], ref, a);
      }
    }
  }

  /** A limiter meets the infinite value no clamp has bounded. */
  lemma {:induction false} InfinityIsRefused(gs: seq<Guard>, ref: Option<Vec>, a: Action)
    requires AllFit(gs, ref, |a.data|) && HasLimiter(gs) && SomeUnbounded(gs, a.data)
    requires forall i: nat :: i < |a.data| ==> AllProper(gs, None, i)
    ensures ChainReviewed(gs, ref, a).None?
  {
    var g, rest := gs[0], gs[1..];
    var i: nat :| i < |a.data| && Unbounded(gs, i, a.data[i]);
    assert g in gs && forall h :: h in gs <==> h == g || h in rest;
    if !Limiter(g) && Reviewed(g, ref, a).Some? {
      var b := Reviewed(g, ref, a).value;
      assert AllProper(gs, None, i);
      assert b.data[i] == a.data[i];
      assert Unbounded(rest, i, b.data[i]);
      forall k: nat | k < |b.data|
        ensures AllProper(rest, None, k)
      {
        assert AllProper(gs, None, k);
      }
      InfinityIsRefused(rest, ref, b);
    }
  }

  /** Without a limiter an action free of NaN passes, and each dimension is clipped on its own. */
  lemma {:induction false} ClampsPass(gs: seq<Guard>, ref: Option<Vec>, a: Action)
    requires AllFit(gs, ref, |a.data|) && !AnyNaN(a.data) && !HasLimiter(gs)
    requires forall i: nat :: i < |a.data| ==> AllProper(gs, ref, i)
    ensures ChainReviewed(gs, ref, a).Some? && |ChainReviewed(gs, ref, a).value.data| == |a.data|
    ensures forall i: nat :: i < |a.data| ==> ChainReviewed(gs, ref, a).value.data[i] == ChainValue(gs, ref, i, a.data[i])
  {
    if gs != [] {
      var g, rest := gs[0], gs[1..];
      assert g in gs && forall h :: h in gs <==> h == g || h in rest;
      var b := Reviewed(g, ref, a).value;
      forall i: nat | i < |a.data|
        ensures b.data[i] == Clip(a.data[i], g.Lo(ref, i), g.Hi(ref, i)) && b.data[i] != NaN
        ensures AllProper(rest, ref, i)
      {
        assert AllProper(gs, ref, i);
      }
      ClampsPass(rest, ref, b);
    }
  }

  /** A chain in two parts. */
  lemma {:induction false} ChainConcat(gs: seq<Guard>, hs: seq<Guard>, ref: Option<Vec>, a: Action)
    requires AllFit(gs + hs, ref, |a.data|) && AllFit(gs, ref, |a.data|) && AllFit(hs, ref, |a.data|)
    ensures
      ChainReviewed(gs + hs, ref, a)
      == match ChainReviewed(gs, ref, a) case None => None case Some(b) => ChainReviewed(hs, ref, b)
  {
    if gs == [] {
      assert gs + hs == hs;
    } else {
      assert (gs + hs)[1..] == gs[1..] + hs;
      if Reviewed(gs[0], ref, a).Some? {
        ChainConcat(gs[1..], hs, ref, Reviewed(gs[0], ref, a).value);
      }
    }
  }

  function NoLimiters(gs: seq<Guard>): (hs: seq<Guard>)
    ensures forall g :: g in hs <==> g in gs && !Limiter(g)
  {
    if gs == [] then []
    else
      var rest := NoLimiters(gs[1..]);
      assert gs == [gs[0]] + gs[1..];
      if Limiter(gs[0]) then rest else [gs[0]] + rest
  }

  function OnlyLimiters(gs: seq<Guard>): (hs: seq<Guard>)
    ensures forall g :: g in hs <==> g in gs && Limiter(g)
  {
    if gs == [] then []
    else
      var rest := OnlyLimiters(gs[1..]);
      assert gs == [gs[0]] + gs[1..];
      if Limiter(gs[0]) then [gs[0]] + rest else rest
  }

  /** The limiters can be moved behind the rest. */
  lemma {:induction false} LimitersLast(gs: seq<Guard>)
    ensures multiset(NoLimiters(gs) + OnlyLimiters(gs)) == multiset(gs)
    ensures multiset(OnlyLimiters(gs) + NoLimiters(gs)) == multiset(gs)
  {
    if gs != [] {
      assert gs == [gs[0]] + gs[1..];
      LimitersLast(gs[1..]);
    }
  }

  /** A clip to an interval bounded on the side of an infinite value is finite. */
  lemma ClampBounds(gs: seq<Guard>, ref: Option<Vec>, i: nat, x: Num)
    requires AllProper(gs, ref, i) && Meet(gs, ref, i) && !HasLimiter(gs) && x != NaN && !Unbounded(gs, i, x)
    ensures ChainValue(gs, ref, i, x).Fin?
  {
    ScalarProjection(gs, ref, i, x);
    Bounds(gs, ref, i);
    if !x.Fin? {
      var g :| g in gs && g.Clamp? && !(if x.PosInf? then g.Hi(None, i).PosInf? else g.Lo(None, i).NegInf?);
      assert g.Hi(ref, i) == g.Hi(None, i) && g.Lo(ref, i) == g.Lo(None, i);
    }
  }

  lemma {:induction false} PartsMeet(gs: seq<Guard>, ref: Option<Vec>, i: nat)
    requires AllProper(gs, ref, i) && Meet(gs, ref, i)
    ensures AllProper(NoLimiters(gs), ref, i) && Meet(NoLimiters(gs), ref, i)
  {
    var hs := NoLimiters(gs);
    Bounds(gs, ref, i);
    Bounds(hs, ref, i);
    if hs != [] {
      Tightest(hs, ref, i);
      var g :| g in hs && g.Lo(ref, i) == MaxLo(hs, ref, i);
      var h :| h in hs && h.Hi(ref, i) == MinHi(hs, ref, i);
      assert g in gs && h in gs;
    }
  }

  /** With the clamps first, a limiter sees only finite values. */
  lemma ClampsFirst(gs: seq<Guard>, ref: Option<Vec>, a: Action)
    requires AllFit(gs, ref, |a.data|) && !AnyNaN(a.data) && !SomeUnbounded(gs, a.data)
    requires forall i: nat :: i < |a.data| ==> AllProper(gs, ref, i) && Meet(gs, ref, i)
    ensures ChainReviewed(NoLimiters(gs) + OnlyLimiters(gs), ref, a).Some?
  {
    var clamps, limiters := NoLimiters(gs), OnlyLimiters(gs);
    forall i: nat | i < |a.data|
      ensures AllProper(clamps, ref, i) && AllProper(limiters, ref, i) && ChainValue(clamps, ref, i, a.data[i]).Fin?
    {
      assert AllProper(gs, ref, i) && !Unbounded(gs, i, a.data[i]);
      PartsMeet(gs, ref, i);
      ClampBounds(clamps, ref, i, a.data[i]);
    }
    ClampsPass(clamps, ref, a);
    ChainConcat(clamps, limiters, ref, a);
    ChainPointwise(limiters, ref, ChainReviewed(clamps, ref, a).value);
  }

  /** Without a limiter on the way, the order is irrelevant where the intervals meet. */
  lemma ClampsBlind(gs: seq<Guard>, ref: Option<Vec>, a: Action)
    requires AllFit(gs, ref, |a.data|) && (AllFinite(a.data) || (!AnyNaN(a.data) && !HasLimiter(gs)))
    requires forall i: nat :: i < |a.data| ==> AllProper(gs, ref, i) && Meet(gs, ref, i)
    ensures OrderBlind(gs, ref, a)
  {
    forall hs: seq<Guard> | multiset(hs) == multiset(gs)
      ensures AllFit(hs, ref, |a.data|) && Values(hs, ref, a) == Values(gs, ref, a)
    {
      SameMembers(gs, hs);
      forall i: nat | i < |a.data|
        ensures AllProper(hs, ref, i) && ChainValue(hs, ref, i, a.data[i]) == ChainValue(gs, ref, i, a.data[i])
      {
        SameMembersSameEnds(gs, hs, ref, i);
        ScalarProjection(gs, ref, i, a.data[i]);
        ScalarProjection(hs, ref, i, a.data[i]);
      }
      if AllFinite(a.data) {
        ChainPointwise(gs, ref, a);
        ChainPointwise(hs, ref, a);
      } else {
        ClampsPass(gs, ref, a);
        ClampsPass(hs, ref, a);
      }
      assert ChainReviewed(hs, ref, a).value.data == ChainReviewed(gs, ref, a).value.data;
    }
  }

  /**
   Where the intervals meet, the order of the guards is irrelevant to an action exactly when it has a
   NaN (every order refuses it, or none looks), or is finite, or no guard is a limiter, or some
   infinite value stays unbounded whatever the clamps do (every order refuses it).
   */
  lemma OrderBlindIff(gs: seq<Guard>, ref: Option<Vec>, a: Action)
    requires AllFit(gs, ref, |a.data|)
    requires forall i: nat :: i < |a.data| ==> AllProper(gs, ref, i) && AllProper(gs, None, i) && Meet(gs, ref, i)
    ensures
      OrderBlind(gs, ref, a)
      <==> AnyNaN(a.data) || AllFinite(a.data) || !HasLimiter(gs) || SomeUnbounded(gs, a.data)
  {
    hide OrderBlind, HasLimiter, SomeUnbounded, AnyNaN, AllFit, Meet;
    if AnyNaN(a.data) {
      NaNBlind(gs, ref, a);
    } else if AllFinite(a.data) || !HasLimiter(gs) {
      ClampsBlind(gs, ref, a);
    } else if SomeUnbounded(gs, a.data) {
      UnboundedBlind(gs, ref, a);
    } else {
      OrderMatters(gs, ref, a);
    }
  }

  lemma OrderMatters(gs: seq<Guard>, ref: Option<Vec>, a: Action)
    requires AllFit(gs, ref, |a.data|)
    requires forall i: nat :: i < |a.data| ==> AllProper(gs, ref, i) && Meet(gs, ref, i)
    requires !AnyNaN(a.data) && !AllFinite(a.data) && HasLimiter(gs) && !SomeUnbounded(gs, a.data)
    ensures !OrderBlind(gs, ref, a)
  {
    var early, late := OnlyLimiters(gs) + NoLimiters(gs), NoLimiters(gs) + OnlyLimiters(gs);
    LimitersLast(gs);
    SameMembers(gs, early);
    SameMembers(gs, late);
    ClampsFirst(gs, ref, a);
    LimitersRefuse(gs, ref, a);
    assert Values(early, ref, a) != Values(late, ref, a);
  }

  /** For one: a clamp and a limiter, and an action that is infinite. */
  lemma ALimiterBeforeAClamp()
    ensures
      var gs := [Clamp(Some([Fin(-1.0)]), Some([Fin(1.0)])), AbsoluteDelta([0.5])];
      AllSane(gs, 1) && AllFit(gs, None, 1) && !OrderBlind(gs, None, Action([PosInf], {}))
  {
    var clamp, limit := Clamp(Some([Fin(-1.0)]), Some([Fin(1.0)])), AbsoluteDelta([0.5]);
    var gs, a, zero := [clamp, limit], Action([PosInf], {}), [Fin(0.0)];
    assert clamp in gs && limit in gs && forall g :: g in gs ==> g == clamp || g == limit;
    assert !a.data[0].Fin? && !Unbounded(gs, 0, a.data[0]);
    hide MaxLo, MinHi, ChainReviewed;
    assert InBounds(gs, zero);
    SaneIsProper(gs, None, 1);
    SafeMeets(gs, None, zero, 1, 0);
    OrderMatters(gs, None, a);
  }

  lemma NaNBlind(gs: seq<Guard>, ref: Option<Vec>, a: Action)
    requires AllFit(gs, ref, |a.data|) && AnyNaN(a.data)
    ensures OrderBlind(gs, ref, a)
  {
    forall hs: seq<Guard> | multiset(hs) == multiset(gs)
      ensures AllFit(hs, ref, |a.data|) && Values(hs, ref, a) == Values(gs, ref, a)
    {
      SameMembers(gs, hs);
      NaNIsRefused(gs, ref, a);
      NaNIsRefused(hs, ref, a);
    }
  }

  lemma UnboundedBlind(gs: seq<Guard>, ref: Option<Vec>, a: Action)
    requires AllFit(gs, ref, |a.data|) && HasLimiter(gs) && SomeUnbounded(gs, a.data)
    requires forall i: nat :: i < |a.data| ==> AllProper(gs, None, i)
    ensures OrderBlind(gs, ref, a)
  {
    forall hs: seq<Guard> | multiset(hs) == multiset(gs)
      ensures AllFit(hs, ref, |a.data|) && Values(hs, ref, a) == Values(gs, ref, a)
    {
      SameMembers(gs, hs);
      var i: nat :| i < |a.data| && Unbounded(gs, i, a.data[i]);
      assert Unbounded(hs, i, a.data[i]);
      forall k: nat | k < |a.data|
        ensures AllProper(hs, None, k)
      {
        assert AllProper(gs, None, k);
      }
      InfinityIsRefused(gs, ref, a);
      InfinityIsRefused(hs, ref, a);
    }
  }

  /** With a limiter first, what is not finite is refused. */
  lemma LimitersRefuse(gs: seq<Guard>, ref: Option<Vec>, a: Action)
    requires AllFit(gs, ref, |a.data|) && HasLimiter(gs) && !AllFinite(a.data)
    ensures ChainReviewed(OnlyLimiters(gs) + NoLimiters(gs), ref, a).None?
  {
    var g :| g in gs && Limiter(g);
    assert g in OnlyLimiters(gs);
    var hs := OnlyLimiters(gs) + NoLimiters(gs);
    assert hs[0] == OnlyLimiters(gs)[0] && hs[0] in OnlyLimiters(gs);
  }

  // ---------------------------------------------------------------- a whole run

  predicate AllSane(gs: seq<Guard>, n: nat) {
    forall g :: g in gs ==> Sane(g, n)
  }

  predicate Proposable(v: Vec, n: nat) {
    |v| == n && AllFinite(v)
  }

  predicate ReferenceOk(ref: Option<Vec>, n: nat) {
    ref.Some? ==> Proposable(ref.value, n)
  }

  /** Between reviews the constructors' checks are enough: every interval is proper. */
  lemma SaneIsProper(gs: seq<Guard>, ref: Option<Vec>, n: nat)
    requires AllSane(gs, n) && ReferenceOk(ref, n)
    ensures AllFit(gs, ref, n)
    ensures forall i: nat :: i < n ==> AllProper(gs, ref, i)
  {
    forall g, i: nat | g in gs && i < n
      ensures g.ProperAt(ref, i)
    {
      assert g.ProperAt(None, i);
    }
  }

  /** The values executed in place of the proposed ones; the chain passes every finite action. */
  function Step(gs: seq<Guard>, ref: Option<Vec>, v: Vec, n: nat): (y: Vec)
    requires AllSane(gs, n) && ReferenceOk(ref, n) && Proposable(v, n)
    ensures Proposable(y, n)
    ensures ChainReviewed(gs, ref, Action(v, {})).Some? && ChainReviewed(gs, ref, Action(v, {})).value.data == y
  {
    SaneIsProper(gs, ref, n);
    ChainPointwise(gs, ref, Action(v, {}));
    ChainReviewed(gs, ref, Action(v, {})).value.data
  }

  /** Values within every fixed bound of the chain (its clamps and displacement limits). */
  predicate InBounds(gs: seq<Guard>, v: Vec) {
    forall i: nat, g :: g in gs && i < |v| ==> Le(g.Lo(None, i), v[i]) && Le(v[i], g.Hi(None, i))
  }

  /** `b` is within every absolute limit of `a`. */
  predicate CloseTo(gs: seq<Guard>, a: Vec, b: Vec, n: nat)
    requires Proposable(a, n) && Proposable(b, n)
  {
    forall g, i: nat :: g in gs && g.AbsoluteDelta? && i < n && i < |g.delta| ==>
      a[i].r - g.delta[i] <= b[i].r <= a[i].r + g.delta[i]
  }

  /** A reference in bounds is a common point of all intervals around it. */
  lemma {:induction false} ReferenceMeets(gs: seq<Guard>, ref: Vec, n: nat, i: nat)
    requires AllSane(gs, n) && Proposable(ref, n) && InBounds(gs, ref) && i < n
    ensures Le(MaxLo(gs, Some(ref), i), ref[i]) && Le(ref[i], MinHi(gs, Some(ref), i))
  {
    if gs != [] {
      var g := gs[0];
      assert g in gs;
      assert Le(g.Lo(None, i), ref[i]) && Le(ref[i], g.Hi(None, i));
      ReferenceMeets(gs[1..], ref, n, i);
    }
  }

  /** The fixed bounds and the limits around the reference, if there is one, share a point. */
  predicate AllMeet(gs: seq<Guard>, ref: Option<Vec>, n: nat) {
    forall i: nat :: i < n ==> Meet(gs, ref, i)
  }

  /** In bounds, and close to the reference if there is one. */
  predicate SafeStep(gs: seq<Guard>, ref: Option<Vec>, y: Vec, n: nat)
    requires ReferenceOk(ref, n) && Proposable(y, n)
  {
    InBounds(gs, y) && (ref.Some? ==> CloseTo(gs, ref.value, y, n))
  }

  lemma ReferenceAllMeets(gs: seq<Guard>, ref: Vec, n: nat)
    requires AllSane(gs, n) && Proposable(ref, n) && InBounds(gs, ref)
    ensures AllMeet(gs, Some(ref), n)
  {
    SaneIsProper(gs, Some(ref), n);
    forall i: nat | i < n
      ensures Meet(gs, Some(ref), i)
    {
      ReferenceMeets(gs, ref, n, i);
      Bounds(gs, Some(ref), i);
    }
  }

  /** The result of a review lies in every member's interval if these meet. */
  lemma StepWithin(gs: seq<Guard>, ref: Option<Vec>, v: Vec, n: nat, i: nat)
    requires AllSane(gs, n) && ReferenceOk(ref, n) && Proposable(v, n) && i < n && Meet(gs, ref, i)
    ensures forall g :: g in gs ==> Le(g.Lo(ref, i), Step(gs, ref, v, n)[i]) && Le(Step(gs, ref, v, n)[i], g.Hi(ref, i))
  {
    SaneIsProper(gs, ref, n);
    ChainPointwise(gs, ref, Action(v, {}));
    ScalarProjection(gs, ref, i, v[i]);
    Bounds(gs, ref, i);
  }

  /** A value in bounds and close to the reference is a common point of the intervals. */
  lemma {:induction false} SafeMeets(gs: seq<Guard>, ref: Option<Vec>, y: Vec, n: nat, i: nat)
    requires AllSane(gs, n) && ReferenceOk(ref, n) && Proposable(y, n) && i < n && SafeStep(gs, ref, y, n)
    ensures Le(MaxLo(gs, ref, i), y[i]) && Le(y[i], MinHi(gs, ref, i))
  {
    if gs != [] {
      var g := gs[0];
      assert g in gs;
      assert Le(g.Lo(None, i), y[i]) && Le(y[i], g.Hi(None, i));
      SafeMeets(gs[1..], ref, y, n, i);
    }
  }

  /** One review, whatever is proposed: the result is in bounds, and close to the reference if there is
      one, if and only if the bounds and the limits around the reference share a point. */
  lemma ReviewIsSafe(gs: seq<Guard>, ref: Option<Vec>, v: Vec, n: nat)
    requires AllSane(gs, n) && ReferenceOk(ref, n) && Proposable(v, n)
    ensures SafeStep(gs, ref, Step(gs, ref, v, n), n) <==> AllMeet(gs, ref, n)
  {
    var y := Step(gs, ref, v, n);
    if AllMeet(gs, ref, n) {
      forall i: nat | i < n
        ensures forall g :: g in gs ==> Le(g.Lo(ref, i), y[i]) && Le(y[i], g.Hi(ref, i))
      {
        StepWithin(gs, ref, v, n, i);
      }
    }
    if SafeStep(gs, ref, y, n) {
      forall i: nat | i < n
        ensures Meet(gs, ref, i)
      {
        SafeMeets(gs, ref, y, n, i);
      }
    }
  }

  // ---------------------------------------------------------------- runs with rewinds

  /** A trial as the guards see it: an action is proposed, or the reference is set to an executed pose. */
  datatype Move = Propose(v: Vec) | Rewind(pose: Vec)
  {
    predicate Ok(n: nat) {
      match this
      case Propose(v) => Proposable(v, n)
      case Rewind(pose) => |pose| == n
    }
  }

  predicate AllOk(moves: seq<Move>, n: nat) {
    forall k :: 0 <= k < |moves| ==> moves[k].Ok(n)
  }

  /** The reference after a move; a pose that is not finite is refused, and without a reference it is ignored. */
  function Moved(gs: seq<Guard>, ref: Option<Vec>, m: Move, n: nat): (next: Option<Vec>)
    requires AllSane(gs, n) && ReferenceOk(ref, n) && m.Ok(n)
    ensures ReferenceOk(next, n)
  {
    match m
    case Propose(v) => if ref.Some? || Limited(gs) then Some(Step(gs, ref, v, n)) else None
    case Rewind(pose) => if ref.Some? && AllFinite(pose) then Some(pose) else ref
  }

  /** Every executed action is in bounds, and within every absolute limit of the reference: the action
      executed before it, or the pose the reference was last rewound to. */
  predicate RunSafe(gs: seq<Guard>, ref: Option<Vec>, moves: seq<Move>, n: nat)
    requires AllSane(gs, n) && ReferenceOk(ref, n) && AllOk(moves, n)
    decreases |moves|
  {
    moves == []
    || (&& (moves[0].Propose? ==> SafeStep(gs, ref, Step(gs, ref, moves[0].v, n), n))
        && RunSafe(gs, Moved(gs, ref, moves[0], n), moves[1..], n))
  }

  /** Every pose that is the reference of a review is within reach of the bounds; `held` tells whether there
      is a reference, and `pose` is the one it was just rewound to. */
  predicate PosesReach(gs: seq<Guard>, held: bool, pose: Option<Vec>, moves: seq<Move>, n: nat)
    decreases |moves|
  {
    moves == []
    || match moves[0]
       case Propose(_) =>
         (pose.Some? ==> AllMeet(gs, pose, n)) && PosesReach(gs, held || Limited(gs), None, moves[1..], n)
       case Rewind(next) =>
         PosesReach(gs, held, if held && AllFinite(next) then Some(next) else pose, moves[1..], n)
  }

  /** A run with any proposals and any rewinds is safe if and only if every pose it is rewound to, and
      then measured from, is within reach of the bounds. */
  lemma {:induction false} RunIsSafe(gs: seq<Guard>, ref: Option<Vec>, pose: Option<Vec>, moves: seq<Move>, n: nat)
    requires AllSane(gs, n) && ReferenceOk(ref, n) && AllOk(moves, n) && AllMeet(gs, None, n)
    requires pose.Some? ==> ref == pose
    requires pose.None? && ref.Some? ==> InBounds(gs, ref.value)
    ensures RunSafe(gs, ref, moves, n) <==> PosesReach(gs, ref.Some?, pose, moves, n)
    decreases |moves|
  {
    if moves != [] {
      var m, next := moves[0], Moved(gs, ref, moves[0], n);
      assert m.Ok(n) && forall k :: 0 <= k < |moves[1..]| ==> moves[1..][k] == moves[k + 1];
      if m.Rewind? {
        RunIsSafe(gs, next, if ref.Some? && AllFinite(m.pose) then Some(m.pose) else pose, moves[1..], n);
      } else {
        ReviewIsSafe(gs, ref, m.v, n);
        if ref.Some? && pose.None? {
          ReferenceAllMeets(gs, ref.value, n);
        }
        if AllMeet(gs, ref, n) {
          RunIsSafe(gs, next, None, moves[1..], n);
        }
      }
    }
  }

  /** The executed actions of a trial without rewinds, one chain review per proposed action. */
  function Executed(gs: seq<Guard>, ref: Option<Vec>, proposed: seq<Vec>, n: nat): (ys: seq<Vec>)
    requires AllSane(gs, n) && ReferenceOk(ref, n)
    requires forall k :: 0 <= k < |proposed| ==> Proposable(proposed[k], n)
    ensures |ys| == |proposed| && forall k :: 0 <= k < |ys| ==> Proposable(ys[k], n)
    decreases |proposed|
  {
    if proposed == [] then []
    else
      var y := Step(gs, ref, proposed[0], n);
      [y] + Executed(gs, if ref.Some? || Limited(gs) then Some(y) else None, proposed[1..], n)
  }

  /** Without rewinds, every executed action is in bounds, and each after the first is within every
      absolute limit of its predecessor. */
  lemma {:induction false} ExecutedAreSafe(gs: seq<Guard>, ref: Option<Vec>, proposed: seq<Vec>, n: nat)
    requires AllSane(gs, n) && ReferenceOk(ref, n) && AllMeet(gs, None, n)
    requires forall k :: 0 <= k < |proposed| ==> Proposable(proposed[k], n)
    requires ref.Some? ==> InBounds(gs, ref.value)
    ensures
      var ys := Executed(gs, ref, proposed, n);
      && (forall k :: 0 <= k < |ys| ==> InBounds(gs, ys[k]))
      && (forall k :: 0 <= k < |ys| - 1 ==> CloseTo(gs, ys[k], ys[k + 1], n))
      && (ref.Some? && ys != [] ==> CloseTo(gs, ref.value, ys[0], n))
    decreases |proposed|
  {
    if proposed != [] {
      var y := Step(gs, ref, proposed[0], n);
      if ref.Some? {
        ReferenceAllMeets(gs, ref.value, n);
      }
      ReviewIsSafe(gs, ref, proposed[0], n);
      var next := if ref.Some? || Limited(gs) then Some(y) else None;
      ExecutedAreSafe(gs, next, proposed[1..], n);
      var ys, zs := Executed(gs, ref, proposed, n), Executed(gs, next, proposed[1..], n);
      assert ys == [y] + zs;
      forall k | 0 <= k < |ys| - 1
        ensures CloseTo(gs, ys[k], ys[k + 1], n)
      {
        if k > 0 {
          assert ys[k] == zs[k - 1] && ys[k + 1] == zs[k];
        } else if next.None? {
          assert forall g :: g in gs ==> !g.AbsoluteDelta?;
        }
      }
    }
  }
}
