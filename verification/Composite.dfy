/**
 The composite video of a report: several camera streams, side by side, each holding its latest frame.

 Reading a frame file is a parameter: a path yields a frame of some shape, nothing (an empty frame), or
 a frame error. Files do not change between the probe and the pass that composes them.
 */
module Composite {
  import opened Basics

  datatype Shape = Shape(height: nat, width: nat)

  datatype Read = Frame(shape: Shape) | Empty | FrameError

  type Reader = nat -> Read

  datatype Entry = Entry(step: int, path: nat)

  datatype Stream = Stream(key: string, frames: seq<Entry>)

  /** A stream that survived the probe, with the shape of its first usable frame. */
  datatype Probed = Probed(key: string, frames: seq<Entry>, shape: Shape)

  /** A tile shows the frame read from a path, or black. */
  datatype Tile = Tile(shape: Shape, content: Option<nat>)

  /** Tiles side by side, padded below to one height. */
  datatype Picture = Picture(height: nat, tiles: seq<Tile>)

  ghost predicate Sorted(frames: seq<Entry>) {
    forall i, j :: 0 <= i < j < |frames| ==> frames[i].step < frames[j].step
  }

  predicate Usable(read: Reader, e: Entry) {
    read(e.path).Frame?
  }

  /** The frame at a step, if the stream has an entry there. */
  function At(frames: seq<Entry>, step: int): (r: Option<Entry>)
    ensures r.Some? ==> r.value in frames && r.value.step == step
    ensures r.None? ==> forall e :: e in frames ==> e.step != step
  {
    if frames == [] then None
    else if frames[|frames| - 1].step == step then Some(frames[|frames| - 1])
    else At(frames[..|frames| - 1], step)
  }

  /** What a tile holds at a step: the latest usable frame at or before it. */
  function Latest(read: Reader, frames: seq<Entry>, step: int): Option<nat> {
    if frames == [] then None
    else
      var last := frames[|frames| - 1];
      if last.step <= step && Usable(read, last) then Some(last.path) else Latest(read, frames[..|frames| - 1], step)
  }

  lemma {:induction false} LatestMeans(read: Reader, frames: seq<Entry>, step: int, k: nat)
    requires Sorted(frames) && k < |frames| && frames[k].step <= step && Usable(read, frames[k])
    requires forall j :: k < j < |frames| && frames[j].step <= step ==> !Usable(read, frames[j])
    ensures Latest(read, frames, step) == Some(frames[k].path)
  {
    if k < |frames| - 1 {
      LatestMeans(read, frames[..|frames| - 1], step, k);
    }
  }

  lemma {:induction false} LatestNone(read: Reader, frames: seq<Entry>, step: int)
    requires forall e :: e in frames && e.step <= step ==> !Usable(read, e)
    ensures Latest(read, frames, step) == None
  {
    if frames != [] {
      var front, last := frames[..|frames| - 1], frames[|frames| - 1];
      assert frames == front + [last];
      LatestNone(read, front, step);
    }
  }

  /** From one step to the next, a tile changes only to the frame at the new step. */
  lemma {:induction false} LatestAdvances(read: Reader, frames: seq<Entry>, a: int, b: int)
    requires Sorted(frames) && a < b && forall e :: e in frames ==> e.step <= a || e.step >= b
    ensures
      var at := At(frames, b);
      Latest(read, frames, b)
      == if at.Some? && Usable(read, at.value) then Some(at.value.path) else Latest(read, frames, a)
  {
    if frames != [] {
      var front, last := frames[..|frames| - 1], frames[|frames| - 1];
      assert frames == front + [last];
      LatestAdvances(read, front, a, b);
    }
  }

  // ---------------------------------------------------------------- the probe

  /** The first usable frame of a stream decides its shape; a frame error on the way ends it all. */
  function Probe(read: Reader, frames: seq<Entry>): Read {
    if frames == [] then Empty
    else
      var first := read(frames[0].path);
      if first.Empty? then Probe(read, frames[1..]) else first
  }

  /** A surviving stream: it is sorted, and the probe read it up to its first usable frame. */
  ghost predicate Survives(read: Reader, p: Probed) {
    Sorted(p.frames) && Probe(read, p.frames) == Frame(p.shape)
  }

  /** The entry that would make the composing pass fail. */
  predicate Bad(read: Reader, p: Probed, e: Entry) {
    read(e.path).FrameError? || (Usable(read, e) && read(e.path).shape != p.shape)
  }

  /** Whatever fails in a surviving stream fails after its first usable frame. */
  lemma {:induction false} BadIsLate(read: Reader, p: Probed, k: nat)
    requires Survives(read, p) && k < |p.frames| && Bad(read, p, p.frames[k])
    ensures exists j :: 0 <= j < k && Usable(read, p.frames[j])
    decreases k
  {
    var first := read(p.frames[0].path);
    if first.Empty? {
      var rest := p.(frames := p.frames[1..]);
      assert k > 0 && rest.frames[k - 1] == p.frames[k];
      BadIsLate(read, rest, k - 1);
      var j :| 0 <= j < k - 1 && Usable(read, rest.frames[j]);
      assert p.frames[j + 1] == rest.frames[j];
    } else {
      assert Usable(read, p.frames[0]);
    }
  }

  lemma {:induction false} SurvivorIsUsable(read: Reader, p: Probed)
    requires Survives(read, p)
    ensures exists j :: 0 <= j < |p.frames| && Usable(read, p.frames[j])
    decreases |p.frames|
  {
    if read(p.frames[0].path).Empty? {
      var rest := p.(frames := p.frames[1..]);
      SurvivorIsUsable(read, rest);
      var j :| 0 <= j < |rest.frames| && Usable(read, rest.frames[j]);
      assert p.frames[j + 1] == rest.frames[j];
    } else {
      assert Usable(read, p.frames[0]);
    }
  }

  // ---------------------------------------------------------------- the union of steps

  ghost predicate Increasing(s: seq<int>) {
    forall i, j :: 0 <= i < j < |s| ==> s[i] < s[j]
  }

  function Insert(s: seq<int>, x: int): seq<int> {
    if s == [] then [x]
    else if s[|s| - 1] == x then s
    else if s[|s| - 1] < x then s + [x]
    else Insert(s[..|s| - 1], x) + [s[|s| - 1]]
  }

  lemma {:induction false} InsertKeeps(s: seq<int>, x: int)
    requires Increasing(s)
    ensures Increasing(Insert(s, x))
    ensures forall y :: y in Insert(s, x) <==> y == x || y in s
  {
    if s != [] && s[|s| - 1] > x {
      var front, last := s[..|s| - 1], s[|s| - 1];
      assert s == front + [last];
      InsertKeeps(front, x);
      forall y | y in Insert(front, x)
        ensures y < last
      {
        if y in front {
          var i :| 0 <= i < |front| && front[i] == y;
          assert s[i] == y;
        }
      }
      var all := Insert(front, x) + [last];
      forall i, j | 0 <= i < j < |all|
        ensures all[i] < all[j]
      {
        assert all[i] == Insert(front, x)[i] && all[i] in Insert(front, x);
      }
    }
  }

  function StepsOf(frames: seq<Entry>, into: seq<int>): seq<int> {
    if frames == [] then into
    else Insert(StepsOf(frames[..|frames| - 1], into), frames[|frames| - 1].step)
  }

  /** Every step of every stream, once, in order. */
  function Union(probed: seq<Probed>): seq<int> {
    if probed == [] then [] else StepsOf(probed[|probed| - 1].frames, Union(probed[..|probed| - 1]))
  }

  predicate HasStep(frames: seq<Entry>, step: int) {
    exists e :: e in frames && e.step == step
  }

  lemma {:induction false} StepsMeans(frames: seq<Entry>, into: seq<int>)
    requires Increasing(into)
    ensures Increasing(StepsOf(frames, into))
    ensures forall y :: y in StepsOf(frames, into) <==> y in into || HasStep(frames, y)
  {
    if frames != [] {
      var front, last := frames[..|frames| - 1], frames[|frames| - 1];
      assert frames == front + [last];
      StepsMeans(front, into);
      InsertKeeps(StepsOf(front, into), last.step);
      assert forall y :: HasStep(frames, y) <==> HasStep(front, y) || y == last.step;
    }
  }

  lemma {:induction false} UnionMeans(probed: seq<Probed>)
    ensures Increasing(Union(probed))
    ensures forall y :: y in Union(probed) <==> exists p :: p in probed && HasStep(p.frames, y)
  {
    if probed != [] {
      var front, last := probed[..|probed| - 1], probed[|probed| - 1];
      assert probed == front + [last];
      UnionMeans(front);
      StepsMeans(last.frames, Union(front));
    }
  }

  // ---------------------------------------------------------------- composing

  /** Some stream has a usable frame at the step. */
  predicate Contributes(read: Reader, p: Probed, step: int) {
    var at := At(p.frames, step);
    at.Some? && Usable(read, at.value)
  }

  ghost predicate AnyContributes(read: Reader, probed: seq<Probed>, step: int) {
    exists p :: p in probed && Contributes(read, p, step)
  }

  ghost predicate AnyBad(read: Reader, probed: seq<Probed>) {
    exists p, e :: p in probed && e in p.frames && Bad(read, p, e)
  }

  function TileAt(read: Reader, p: Probed, step: int): Tile {
    Tile(p.shape, Latest(read, p.frames, step))
  }

  function TilesAt(read: Reader, probed: seq<Probed>, step: int): (r: seq<Tile>)
    ensures |r| == |probed|
  {
    seq(|probed|, i requires 0 <= i < |probed| => TileAt(read, probed[i], step))
  }

  function MaxHeight(probed: seq<Probed>): nat {
    if probed == [] then 0
    else
      var h := MaxHeight(probed[..|probed| - 1]);
      if probed[|probed| - 1].shape.height > h then probed[|probed| - 1].shape.height else h
  }

  /** The picture a viewer expects at a step: every stream's latest usable frame, black before it. */
  function Expected(read: Reader, probed: seq<Probed>, step: int): Picture {
    Picture(MaxHeight(probed), TilesAt(read, probed, step))
  }

  function Width(tiles: seq<Tile>): nat {
    if tiles == [] then 0 else Width(tiles[..|tiles| - 1]) + tiles[|tiles| - 1].shape.width
  }

  function Size(p: Picture): (nat, nat) {
    (p.height, Width(p.tiles))
  }

  lemma {:induction false} SameWidth(a: seq<Tile>, b: seq<Tile>)
    requires |a| == |b| && forall i :: 0 <= i < |a| ==> a[i].shape == b[i].shape
    ensures Width(a) == Width(b)
  {
    if a != [] {
      SameWidth(a[..|a| - 1], b[..|b| - 1]);
    }
  }

  lemma {:induction false} NoTileIsTooHigh(probed: seq<Probed>)
    ensures forall i :: 0 <= i < |probed| ==> probed[i].shape.height <= MaxHeight(probed)
  {
    if probed != [] {
      NoTileIsTooHigh(probed[..|probed| - 1]);
    }
  }

  /** All pictures of a video have one size, and no tile has to be cut to fit it. */
  lemma OneSize(read: Reader, probed: seq<Probed>, s: int, t: int)
    ensures Size(Expected(read, probed, s)) == Size(Expected(read, probed, t))
    ensures
      forall i :: 0 <= i < |probed|
        ==> Expected(read, probed, s).tiles[i].shape.height <= Expected(read, probed, s).height
  {
    SameWidth(TilesAt(read, probed, s), TilesAt(read, probed, t));
    NoTileIsTooHigh(probed);
  }

  ghost predicate AllSurvive(read: Reader, probed: seq<Probed>) {
    forall i :: 0 <= i < |probed| ==> Survives(read, probed[i])
  }

  /** What the pass has emitted after some steps of the union. */
  ghost predicate Emitted(read: Reader, probed: seq<Probed>, done: seq<int>, pictures: seq<Picture>, timeline: seq<int>) {
    && |pictures| == |timeline| && Increasing(timeline)
    && (forall j :: 0 <= j < |timeline| ==> pictures[j] == Expected(read, probed, timeline[j]))
    && (forall s :: s in timeline <==> s in done && AnyContributes(read, probed, s))
  }

  /** What a tile holds after a step of the pass. */
  function After(read: Reader, p: Probed, held: Tile, step: int): Tile {
    if Contributes(read, p, step) then Tile(p.shape, Some(At(p.frames, step).value.path)) else held
  }

  predicate FailsAt(read: Reader, p: Probed, step: int) {
    var at := At(p.frames, step);
    at.Some? && Bad(read, p, at.value)
  }

  /** One step of the pass: every stream with a usable frame there takes it into its tile. */
  method TakeStep(read: Reader, probed: seq<Probed>, held: seq<Tile>, step: int)
    returns (held': seq<Tile>, contributed: bool, failed: bool)
    requires |held| == |probed|
    ensures failed <==> exists i :: 0 <= i < |probed| && FailsAt(read, probed[i], step)
    ensures
      !failed
      ==>
        && |held'| == |probed| && (contributed <==> AnyContributes(read, probed, step))
        && forall i :: 0 <= i < |probed| ==> held'[i] == After(read, probed[i], held[i], step)
  {
    held', contributed, failed := held, false, false;
    for i := 0 to |probed|
      invariant |held'| == |probed|
      invariant contributed <==> exists k :: 0 <= k < i && Contributes(read, probed[k], step)
      invariant forall k :: 0 <= k < i ==> held'[k] == After(read, probed[k], held[k], step)
      invariant forall k :: i <= k < |probed| ==> held'[k] == held[k]
      invariant forall k :: 0 <= k < i ==> !FailsAt(read, probed[k], step)
    {
      var at := At(probed[i].frames, step);
      if at.None? {
        continue;
      }
      var frame := read(at.value.path);
      if frame.Empty? {
        continue;
      }
      if frame.FrameError? || frame.shape != probed[i].shape {
        assert FailsAt(read, probed[i], step);
        return held', contributed, true;
      }
      held' := held'[i := Tile(frame.shape, Some(at.value.path))];
      contributed := true;
    }
    if p :| p in probed && Contributes(read, p, step) {
      var k :| 0 <= k < |probed| && probed[k] == p;
    }
  }

  /** A stream has one entry a step. */
  lemma {:induction false} AtFinds(frames: seq<Entry>, e: Entry)
    requires Sorted(frames) && e in frames
    ensures At(frames, e.step) == Some(e)
  {
    var front, last := frames[..|frames| - 1], frames[|frames| - 1];
    assert frames == front + [last];
    if e != last {
      assert e in front;
      var i :| 0 <= i < |front| && front[i] == e;
      assert frames[i].step < last.step;
      AtFinds(front, e);
    }
  }

  /** The steps the pass walks: all there are, in order. */
  ghost predicate Covers(union: seq<int>, probed: seq<Probed>) {
    && Increasing(union)
    && (forall i, e :: 0 <= i < |probed| && e in probed[i].frames ==> e.step in union)
  }

  lemma UnionCovers(probed: seq<Probed>)
    ensures Covers(Union(probed), probed)
  {
    UnionMeans(probed);
    forall i, e | 0 <= i < |probed| && e in probed[i].frames
      ensures e.step in Union(probed)
    {
      assert HasStep(probed[i].frames, e.step) && probed[i] in probed;
    }
  }

  lemma NothingYet(read: Reader, probed: seq<Probed>, union: seq<int>, before: int)
    requires Covers(union, probed) && (union != [] ==> before < union[0])
    ensures forall i :: 0 <= i < |probed| ==> Latest(read, probed[i].frames, before) == None
  {
    forall i | 0 <= i < |probed|
      ensures Latest(read, probed[i].frames, before) == None
    {
      forall e | e in probed[i].frames
        ensures e.step > before
      {
        assert e.step in union;
        var k :| 0 <= k < |union| && union[k] == e.step;
      }
      LatestNone(read, probed[i].frames, before);
    }
  }

  /** An entry that fails has a picture before it. */
  lemma BadNeedsPicture(read: Reader, probed: seq<Probed>, union: seq<int>, n: nat, i: nat, e: Entry)
    requires AllSurvive(read, probed) && Covers(union, probed) && n < |union| && i < |probed|
    requires e in probed[i].frames && e.step == union[n] && Bad(read, probed[i], e)
    ensures exists s :: s in union[..n] && AnyContributes(read, probed, s)
  {
    var p := probed[i];
    var k :| 0 <= k < |p.frames| && p.frames[k] == e;
    BadIsLate(read, p, k);
    var j :| 0 <= j < k && Usable(read, p.frames[j]);
    AtFinds(p.frames, p.frames[j]);
    var s := p.frames[j].step;
    assert s in union;
    var m :| 0 <= m < |union| && union[m] == s;
    assert s < union[n];
    assert m < n;
    assert union[..n][m] == s && s in union[..n];
    assert Contributes(read, p, s) && p in probed;
    assert AnyContributes(read, probed, s);
  }

  /** Between two neighbouring steps of the union no stream has an entry. */
  lemma StepAdvances(read: Reader, p: Probed, union: seq<int>, n: nat, before: int)
    requires Sorted(p.frames) && Increasing(union) && n < |union| && forall e :: e in p.frames ==> e.step in union
    requires before < union[n] && (n > 0 ==> before == union[n - 1])
    ensures
      var at := At(p.frames, union[n]);
      Latest(read, p.frames, union[n])
      == if at.Some? && Usable(read, at.value) then Some(at.value.path) else Latest(read, p.frames, before)
  {
    forall e | e in p.frames
      ensures e.step <= before || e.step >= union[n]
    {
      var k :| 0 <= k < |union| && union[k] == e.step;
    }
    LatestAdvances(read, p.frames, before, union[n]);
  }

  lemma TilesAdvance(read: Reader, probed: seq<Probed>, union: seq<int>, n: nat, before: int, held: seq<Tile>)
    requires AllSurvive(read, probed) && Covers(union, probed) && n < |union| && |held| == |probed|
    requires before < union[n] && (n > 0 ==> before == union[n - 1])
    requires forall i :: 0 <= i < |probed| ==> held[i] == After(read, probed[i], TileAt(read, probed[i], before), union[n])
    ensures held == TilesAt(read, probed, union[n])
  {
    forall i | 0 <= i < |probed|
      ensures held[i] == TileAt(read, probed[i], union[n])
    {
      assert Survives(read, probed[i]);
      StepAdvances(read, probed[i], union, n, before);
    }
  }

  /** A usable frame contributes at its step. */
  lemma UsableContributes(read: Reader, probed: seq<Probed>, i: nat, j: nat)
    requires AllSurvive(read, probed) && i < |probed| && j < |probed[i].frames| && Usable(read, probed[i].frames[j])
    ensures AnyContributes(read, probed, probed[i].frames[j].step)
  {
    assert Survives(read, probed[i]);
    AtFinds(probed[i].frames, probed[i].frames[j]);
    assert probed[i] in probed && Contributes(read, probed[i], probed[i].frames[j].step);
  }

  /** No entry before step `n` of the union fails. */
  ghost predicate NoneBad(read: Reader, probed: seq<Probed>, steps: seq<int>) {
    forall i, e :: 0 <= i < |probed| && e in probed[i].frames && e.step in steps ==> !Bad(read, probed[i], e)
  }

  lemma NoneBadGrows(read: Reader, probed: seq<Probed>, steps: seq<int>, step: int)
    requires AllSurvive(read, probed) && NoneBad(read, probed, steps)
    requires forall i :: 0 <= i < |probed| ==> !FailsAt(read, probed[i], step)
    ensures NoneBad(read, probed, steps + [step])
  {
    forall i, e | 0 <= i < |probed| && e in probed[i].frames && e.step in steps + [step]
      ensures !Bad(read, probed[i], e)
    {
      if e.step == step {
        assert Survives(read, probed[i]);
        AtFinds(probed[i].frames, e);
      }
    }
  }

  lemma NoneBadAtAll(read: Reader, probed: seq<Probed>, union: seq<int>)
    requires Covers(union, probed) && NoneBad(read, probed, union)
    ensures !AnyBad(read, probed)
  {
    forall p, e | p in probed && e in p.frames
      ensures !Bad(read, p, e)
    {
      var i :| 0 <= i < |probed| && probed[i] == p;
      assert e.step in union;
    }
  }

  lemma EmittedGrows(read: Reader, probed: seq<Probed>, steps: seq<int>, step: int, pictures: seq<Picture>,
                     timeline: seq<int>, contributed: bool)
    requires Emitted(read, probed, steps, pictures, timeline) && Increasing(steps + [step])
    requires contributed <==> AnyContributes(read, probed, step)
    ensures
      if contributed then
        Emitted(read, probed, steps + [step], pictures + [Expected(read, probed, step)], timeline + [step])
      else Emitted(read, probed, steps + [step], pictures, timeline)
  {
    hide AnyContributes, Expected;
    forall s | s in timeline
      ensures s < step
    {
      var k :| 0 <= k < |steps| && steps[k] == s;
      assert (steps + [step])[k] == s && (steps + [step])[|steps|] == step;
    }
    if contributed {
      var now := timeline + [step];
      forall i, j | 0 <= i < j < |now|
        ensures now[i] < now[j]
      {
        assert now[i] == timeline[i] && timeline[i] in timeline;
      }
    }
  }

  /**
   The generator, run to its end or its first frame error. It yields at least one picture before it
   can fail, so the first one may be taken without a guard.
   */
  method Compose(read: Reader, probed: seq<Probed>) returns (pictures: seq<Picture>, timeline: seq<int>, failed: bool)
    requires probed != [] && AllSurvive(read, probed)
    ensures |pictures| == |timeline| > 0 && Increasing(timeline)
    ensures forall j :: 0 <= j < |timeline| ==> pictures[j] == Expected(read, probed, timeline[j])
    ensures failed <==> AnyBad(read, probed)
    ensures !failed ==> forall s :: s in timeline <==> AnyContributes(read, probed, s)
    ensures failed ==> forall s :: s in timeline ==> AnyContributes(read, probed, s)
  {
    hide Survives, AnyContributes, Contributes, AnyBad, Bad, FailsAt, After, At, Latest, Union, NoneBad, AllSurvive;
    var union := Union(probed);
    UnionCovers(probed);
    pictures, timeline, failed := [], [], false;
    var held := seq(|probed|, i requires 0 <= i < |probed| => Tile(probed[i].shape, None));
    ghost var before: int := if union == [] then 0 else union[0] - 1;
    NothingYet(read, probed, union, before);
    NoneBadYet(read, probed);
    for n := 0 to |union|
      invariant Emitted(read, probed, union[..n], pictures, timeline) && NoneBad(read, probed, union[..n])
      invariant held == TilesAt(read, probed, before) && (n < |union| ==> before < union[n])
      invariant n > 0 ==> before == union[n - 1]
    {
      var step := union[n];
      assert union[..n + 1] == union[..n] + [step];
      var held', contributed, bad := TakeStep(read, probed, held, step);
      if bad {
        BadHasPicture(read, probed, union, n);
        return pictures, timeline, true;
      }
      TilesAdvance(read, probed, union, n, before, held');
      NoneBadGrows(read, probed, union[..n], step);
      EmittedGrows(read, probed, union[..n], step, pictures, timeline, contributed);
      held := held';
      before := step;
      if contributed {
        pictures := pictures + [Picture(MaxHeight(probed), held)];
        timeline := timeline + [step];
      }
    }
    assert union[..|union|] == union;
    NoneBadAtAll(read, probed, union);
    AllContributed(read, probed, union);
  }

  lemma NoneBadYet(read: Reader, probed: seq<Probed>)
    ensures NoneBad(read, probed, [])
  {
  }

  lemma BadHasPicture(read: Reader, probed: seq<Probed>, union: seq<int>, n: nat)
    requires AllSurvive(read, probed) && Covers(union, probed) && n < |union|
    requires exists i :: 0 <= i < |probed| && FailsAt(read, probed[i], union[n])
    ensures AnyBad(read, probed) && exists s :: s in union[..n] && AnyContributes(read, probed, s)
  {
    var i :| 0 <= i < |probed| && FailsAt(read, probed[i], union[n]);
    BadNeedsPicture(read, probed, union, n, i, At(probed[i].frames, union[n]).value);
    assert probed[i] in probed;
  }

  /** A step contributes only if it is one of the union's, and some step does. */
  lemma AllContributed(read: Reader, probed: seq<Probed>, union: seq<int>)
    requires probed != [] && AllSurvive(read, probed) && Covers(union, probed)
    ensures forall s :: AnyContributes(read, probed, s) ==> s in union
    ensures exists s :: s in union && AnyContributes(read, probed, s)
  {
    forall s | AnyContributes(read, probed, s)
      ensures s in union
    {
      var p :| p in probed && Contributes(read, p, s);
      var i :| 0 <= i < |probed| && probed[i] == p;
      assert At(p.frames, s).value in probed[i].frames;
    }
    assert Survives(read, probed[0]);
    SurvivorIsUsable(read, probed[0]);
    var j :| 0 <= j < |probed[0].frames| && Usable(read, probed[0].frames[j]);
    UsableContributes(read, probed, 0, j);
    assert probed[0].frames[j] in probed[0].frames;
  }

  // ---------------------------------------------------------------- the whole encoder

  ghost predicate StepSorted(streams: seq<Stream>) {
    forall i :: 0 <= i < |streams| ==> Sorted(streams[i].frames)
  }

  /** The streams with a usable frame, in order. */
  function Survivors(read: Reader, streams: seq<Stream>): seq<Probed> {
    if streams == [] then []
    else
      var last := streams[|streams| - 1];
      var first := Probe(read, last.frames);
      Survivors(read, streams[..|streams| - 1])
      + (if first.Frame? then [Probed(last.key, last.frames, first.shape)] else [])
  }

  ghost predicate ProbeFails(read: Reader, streams: seq<Stream>) {
    exists s :: s in streams && Probe(read, s.frames).FrameError?
  }

  lemma {:induction false} SurvivorsSurvive(read: Reader, streams: seq<Stream>)
    requires StepSorted(streams)
    ensures AllSurvive(read, Survivors(read, streams))
  {
    if streams != [] {
      var front, last := streams[..|streams| - 1], streams[|streams| - 1];
      assert forall i :: 0 <= i < |front| ==> Sorted(front[i].frames) by {
        forall i | 0 <= i < |front|
          ensures Sorted(front[i].frames)
        {
          assert streams[i] == front[i];
        }
      }
      SurvivorsSurvive(read, front);
    }
  }

  datatype Video = Video(pictures: seq<Picture>, keys: seq<string>, timeline: seq<int>)

  function Keys(probed: seq<Probed>): seq<string> {
    seq(|probed|, i requires 0 <= i < |probed| => probed[i].key)
  }

  /** `encodes` says whether ffmpeg turns the pictures into a file. */
  method EncodeComposite(read: Reader, streams: seq<Stream>, encodes: bool) returns (r: Option<Video>)
    requires StepSorted(streams)
    ensures
      var probed := Survivors(read, streams);
      r.Some? <==> encodes && !ProbeFails(read, streams) && probed != [] && !AnyBad(read, probed)
    ensures
      r.Some?
      ==>
        var probed := Survivors(read, streams);
        && r.value.keys == Keys(probed) && Increasing(r.value.timeline) && |r.value.pictures| == |r.value.timeline| > 0
        && (forall s :: s in r.value.timeline <==> AnyContributes(read, probed, s))
        && forall j :: 0 <= j < |r.value.timeline| ==> r.value.pictures[j] == Expected(read, probed, r.value.timeline[j])
  {
    hide Expected, AnyContributes, AnyBad;
    var probed := [];
    for i := 0 to |streams|
      invariant probed == Survivors(read, streams[..i])
      invariant forall s :: s in streams[..i] ==> !Probe(read, s.frames).FrameError?
    {
      assert streams[..i + 1][..i] == streams[..i] && streams[..i + 1] == streams[..i] + [streams[i]];
      var first := FirstUsable(read, streams[i].frames);
      if first.FrameError? {
        assert streams[i] in streams;
        return None;
      }
      if first.Frame? {
        probed := probed + [Probed(streams[i].key, streams[i].frames, first.shape)];
      }
    }
    assert streams[..|streams|] == streams;
    if probed == [] {
      return None;
    }
    SurvivorsSurvive(read, streams);
    var pictures, timeline, failed := Compose(read, probed);
    if failed || !encodes {
      return None;
    }
    r := Some(Video(pictures, Keys(probed), timeline));
  }

  /** Reads a stream up to its first frame that is not empty. */
  method FirstUsable(read: Reader, frames: seq<Entry>) returns (first: Read)
    ensures first == Probe(read, frames)
  {
    for i := 0 to |frames|
      invariant Probe(read, frames) == Probe(read, frames[i..])
    {
      var frame := read(frames[i].path);
      assert frames[i..][1..] == frames[i + 1..];
      if !frame.Empty? {
        return frame;
      }
    }
    first := Empty;
  }
}
