/**
 Annotations: judgements and notes kept beside a log, and which of them counts.

 The log of annotations is append-only and a correction names the one it supersedes. The main result
 is that, for logs edited as the edit command edits them, the current annotation is a plain lookup in
 a last-write map keyed by (trial, kind, rubric).
 */
module Annotations {
  import opened Basics

  const JUDGEMENT := "judgement"
  const NOTE := "note"
  const GRADING_ERROR := "grading_error"

  datatype Annotation = Annotation(
    recordId: string, kind: string, value: string, author: string, source: string, created: string,
    rubric: Option<string>, note: Option<string>, supersedes: Option<string>, id: string)

  /** The last element satisfying `p`. */
  function Last<T>(s: seq<T>, p: T -> bool): Option<T> {
    if s == [] then None
    else if p(s[|s| - 1]) then Some(s[|s| - 1]) else Last(s[..|s| - 1], p)
  }

  lemma {:induction false} LastAt<T>(s: seq<T>, p: T -> bool) returns (k: nat)
    ensures Last(s, p).None? ==> forall x :: x in s ==> !p(x)
    ensures Last(s, p).Some? ==>
              k < |s| && s[k] == Last(s, p).value && p(s[k]) && forall j :: k < j < |s| ==> !p(s[j])
  {
    k := 0;
    if s != [] {
      if p(s[|s| - 1]) {
        k := |s| - 1;
      } else {
        k := LastAt(s[..|s| - 1], p);
      }
    }
  }

  lemma {:induction false} LastIs<T>(s: seq<T>, p: T -> bool, k: nat)
    requires k < |s| && p(s[k]) && forall j :: k < j < |s| ==> !p(s[j])
    ensures Last(s, p) == Some(s[k])
  {
    if k < |s| - 1 {
      LastIs(s[..|s| - 1], p, k);
    }
  }

  lemma {:induction false} LastNone<T>(s: seq<T>, p: T -> bool)
    requires forall x :: x in s ==> !p(x)
    ensures Last(s, p).None?
  {
    if s != [] {
      assert s[|s| - 1] in s;
      LastNone(s[..|s| - 1], p);
    }
  }

  lemma {:induction false} LastImplied<T>(s: seq<T>, p: T -> bool, q: T -> bool)
    requires forall x :: x in s && p(x) ==> q(x)
    ensures Last(s, q).None? ==> Last(s, p).None?
  {
    if s != [] {
      assert s[|s| - 1] in s;
      LastImplied(s[..|s| - 1], p, q);
    }
  }

  // ---------------------------------------------------------------- which annotation counts

  function HasId(id: string): Annotation -> bool {
    (a: Annotation) => a.id == id
  }

  /** The rubric the annotation with `id` is for; the last one wins, and an unknown id has `default`. */
  function RubricOf(all: seq<Annotation>, id: string, default: Option<string>): Option<string> {
    match Last(all, HasId(id))
    case None => default
    case Some(a) => a.rubric
  }

  /** The ids retired by an annotation for the same rubric. */
  function Superseded(all: seq<Annotation>): set<string> {
    set a | a in all && a.supersedes.Some? && RubricOf(all, a.supersedes.value, a.rubric) == a.rubric ::
      a.supersedes.value
  }

  /** Annotations of one kind about one trial, for exactly `rubric`, that nothing retired. */
  function Live(dead: set<string>, recordId: string, kind: string, rubric: Option<string>): Annotation -> bool {
    (a: Annotation) => a.recordId == recordId && a.kind == kind && a.id !in dead && a.rubric == rubric
  }

  /** The annotation of `kind` that counts for a trial, seen from `rubric`. */
  function Current(all: seq<Annotation>, recordId: string, kind: string, rubric: Option<string>): Option<Annotation> {
    var dead := Superseded(all);
    var specific := if rubric.None? then None else Last(all, Live(dead, recordId, kind, rubric));
    if specific.Some? then specific else Last(all, Live(dead, recordId, kind, None))
  }

  // ---------------------------------------------------------------- the last-write map

  datatype Slot = Slot(recordId: string, kind: string, rubric: Option<string>)

  function SlotOf(a: Annotation): Slot {
    Slot(a.recordId, a.kind, a.rubric)
  }

  /** The map an append-only log stands for: each slot's last annotation. */
  function MapOf(all: seq<Annotation>): map<Slot, Annotation> {
    if all == [] then map[] else MapOf(all[..|all| - 1])[SlotOf(all[|all| - 1]) := all[|all| - 1]]
  }

  function Get(m: map<Slot, Annotation>, slot: Slot): Option<Annotation> {
    if slot in m then Some(m[slot]) else None
  }

  /** The answer for a rubric: its own entry, else the one for every rubric. */
  function Lookup(m: map<Slot, Annotation>, recordId: string, kind: string, rubric: Option<string>): Option<Annotation> {
    var own := Get(m, Slot(recordId, kind, rubric));
    if own.Some? then own else Get(m, Slot(recordId, kind, None))
  }

  function InSlot(slot: Slot): Annotation -> bool {
    (a: Annotation) => SlotOf(a) == slot
  }

  lemma {:induction false} MapHoldsLast(all: seq<Annotation>, slot: Slot)
    ensures Get(MapOf(all), slot) == Last(all, InSlot(slot))
  {
    if all != [] {
      MapHoldsLast(all[..|all| - 1], slot);
    }
  }

  /** Ids are distinct, and a correction names an earlier annotation of its own slot. */
  ghost predicate WellEdited(all: seq<Annotation>) {
    && (forall i, j :: 0 <= i < j < |all| ==> all[i].id != all[j].id)
    && (forall j :: 0 <= j < |all| && all[j].supersedes.Some? ==> Corrects(all, j))
  }

  ghost predicate Corrects(all: seq<Annotation>, j: nat)
    requires j < |all| && all[j].supersedes.Some?
  {
    exists i :: 0 <= i < j && all[i].id == all[j].supersedes.value && SlotOf(all[i]) == SlotOf(all[j])
  }

  /** What retires an annotation comes later in the same slot. */
  lemma RetiredLater(all: seq<Annotation>, k: nat, b: Annotation) returns (j: nat)
    requires WellEdited(all) && k < |all| && b in all && b.supersedes == Some(all[k].id)
    ensures k < j < |all| && SlotOf(all[j]) == SlotOf(all[k])
  {
    j :| 0 <= j < |all| && all[j] == b;
    assert Corrects(all, j);
    var i :| 0 <= i < j && all[i].id == all[j].supersedes.value && SlotOf(all[i]) == SlotOf(all[j]);
  }

  /** The last annotation of a slot is never retired, so retiring never changes a slot's answer. */
  lemma LiveIsLast(all: seq<Annotation>, slot: Slot)
    requires WellEdited(all)
    ensures Last(all, Live(Superseded(all), slot.recordId, slot.kind, slot.rubric)) == Last(all, InSlot(slot))
  {
    var dead := Superseded(all);
    var live := Live(dead, slot.recordId, slot.kind, slot.rubric);
    LastImplied(all, live, InSlot(slot));
    if Last(all, InSlot(slot)).Some? {
      var k := LastAt(all, InSlot(slot));
      forall b | b in all && b.supersedes == Some(all[k].id)
        ensures false
      {
        var j := RetiredLater(all, k, b);
      }
      LastIs(all, live, k);
    }
  }

  /** Scoped supersession means the last-write map, for every trial, kind and rubric. */
  lemma CurrentIsLookup(all: seq<Annotation>, recordId: string, kind: string, rubric: Option<string>)
    requires WellEdited(all)
    ensures Current(all, recordId, kind, rubric) == Lookup(MapOf(all), recordId, kind, rubric)
  {
    LiveIsLast(all, Slot(recordId, kind, rubric));
    LiveIsLast(all, Slot(recordId, kind, None));
    MapHoldsLast(all, Slot(recordId, kind, rubric));
    MapHoldsLast(all, Slot(recordId, kind, None));
  }

  // ---------------------------------------------------------------- the edit command

  /** One edit, as the edit command requests it. */
  datatype Edit = Edit(recordId: string, kind: string, rubric: Option<string>, value: string, note: Option<string>,
                       author: string, created: string, id: string)

  /** The annotation an edit appends: it supersedes the current one only within its own rubric. */
  function Edited(all: seq<Annotation>, e: Edit): Annotation {
    var previous := Current(all, e.recordId, e.kind, e.rubric);
    var retired := if previous.Some? && previous.value.rubric == e.rubric then Some(previous.value.id) else None;
    Annotation(e.recordId, e.kind, e.value, e.author, "editor", e.created, e.rubric, e.note, retired, e.id)
  }

  /** A sequence of edits appended one after another. */
  function EditAll(all: seq<Annotation>, edits: seq<Edit>): seq<Annotation> {
    if edits == [] then all
    else
      var before := EditAll(all, edits[..|edits| - 1]);
      before + [Edited(before, edits[|edits| - 1])]
  }

  predicate FreshIds(all: seq<Annotation>, edits: seq<Edit>) {
    && (forall i, j :: 0 <= i < j < |edits| ==> edits[i].id != edits[j].id)
    && (forall a, e :: a in all && e in edits ==> a.id != e.id)
  }

  lemma EditKeepsWell(all: seq<Annotation>, e: Edit)
    requires WellEdited(all) && forall a :: a in all ==> a.id != e.id
    ensures WellEdited(all + [Edited(all, e)])
  {
    var a := Edited(all, e);
    var next := all + [a];
    assert forall i :: 0 <= i < |all| ==> all[i] in all && next[i] == all[i];
    forall j | 0 <= j < |next| && next[j].supersedes.Some?
      ensures Corrects(next, j)
    {
      if j < |all| {
        assert Corrects(all, j);
        var i :| 0 <= i < j && all[i].id == all[j].supersedes.value && SlotOf(all[i]) == SlotOf(all[j]);
        assert next[i].id == next[j].supersedes.value && SlotOf(next[i]) == SlotOf(next[j]);
      } else {
        var previous := Current(all, e.recordId, e.kind, e.rubric).value;
        CurrentIsMember(all, e.recordId, e.kind, e.rubric);
        var i :| 0 <= i < |all| && all[i] == previous;
        assert next[i].id == next[j].supersedes.value && SlotOf(next[i]) == SlotOf(next[j]);
      }
    }
  }

  lemma CurrentIsMember(all: seq<Annotation>, recordId: string, kind: string, rubric: Option<string>)
    ensures
      var c := Current(all, recordId, kind, rubric);
      c.Some? ==> c.value in all && c.value.recordId == recordId && c.value.kind == kind
                  && c.value.rubric in {rubric, None}
  {
    var dead := Superseded(all);
    var i := LastAt(all, Live(dead, recordId, kind, rubric));
    var j := LastAt(all, Live(dead, recordId, kind, None));
  }

  lemma {:induction false} EditedIds(all: seq<Annotation>, edits: seq<Edit>, a: Annotation)
    requires a in EditAll(all, edits)
    ensures a in all || exists i :: 0 <= i < |edits| && a.id == edits[i].id
  {
    if edits != [] {
      var front := edits[..|edits| - 1];
      var before := EditAll(all, front);
      if a in before {
        EditedIds(all, front, a);
        if a !in all {
          var i :| 0 <= i < |front| && a.id == front[i].id;
          assert edits[i] == front[i];
        }
      } else {
        assert a.id == edits[|edits| - 1].id;
      }
    }
  }

  /** Every sequence of edits keeps the log well edited, and reads as writes to the map, in order. */
  lemma {:induction false} EditsAreWrites(all: seq<Annotation>, edits: seq<Edit>)
    requires WellEdited(all) && FreshIds(all, edits)
    ensures WellEdited(EditAll(all, edits))
    ensures forall slot :: Get(MapOf(EditAll(all, edits)), slot) == Written(all, edits, slot)
  {
    if edits != [] {
      var front, e := edits[..|edits| - 1], edits[|edits| - 1];
      var before := EditAll(all, front);
      assert forall f :: f in front ==> f in edits;
      EditsAreWrites(all, front);
      forall a | a in before
        ensures a.id != e.id
      {
        EditedIds(all, front, a);
        assert e in edits;
      }
      EditKeepsWell(before, e);
      var a := Edited(before, e);
      assert (before + [a])[..|before|] == before;
      assert SlotOf(a) == Slot(e.recordId, e.kind, e.rubric);
    }
  }

  /** What a slot holds after the edits: the last of them made to exactly that slot. */
  function Written(all: seq<Annotation>, edits: seq<Edit>, slot: Slot): Option<Annotation> {
    if edits == [] then Get(MapOf(all), slot)
    else
      var e := edits[|edits| - 1];
      if Slot(e.recordId, e.kind, e.rubric) == slot then Some(Edited(EditAll(all, edits[..|edits| - 1]), e))
      else Written(all, edits[..|edits| - 1], slot)
  }

  /** After any edits, what counts is the last edit for that exact trial, kind and rubric, or else
      the last one for every rubric. */
  lemma CurrentAfterEdits(all: seq<Annotation>, edits: seq<Edit>, recordId: string, kind: string, rubric: Option<string>)
    requires WellEdited(all) && FreshIds(all, edits)
    ensures
      var own := Written(all, edits, Slot(recordId, kind, rubric));
      Current(EditAll(all, edits), recordId, kind, rubric)
      == if own.Some? then own else Written(all, edits, Slot(recordId, kind, None))
  {
    EditsAreWrites(all, edits);
    CurrentIsLookup(EditAll(all, edits), recordId, kind, rubric);
  }

  /** Whom an edit reaches: it becomes the answer for its trial and kind, for its own rubric or, when it names
      none, for every rubric that has no annotation of its own; every other answer stays. */
  lemma EditReaches(all: seq<Annotation>, e: Edit, recordId: string, kind: string, rubric: Option<string>)
    requires WellEdited(all) && forall a :: a in all ==> a.id != e.id
    ensures
      Current(all + [Edited(all, e)], recordId, kind, rubric)
      == if && recordId == e.recordId && kind == e.kind
            && (rubric == e.rubric || (e.rubric.None? && Slot(recordId, kind, rubric) !in MapOf(all)))
         then Some(Edited(all, e)) else Current(all, recordId, kind, rubric)
  {
    var a := Edited(all, e);
    EditKeepsWell(all, e);
    CurrentIsLookup(all, recordId, kind, rubric);
    CurrentIsLookup(all + [a], recordId, kind, rubric);
    assert (all + [a])[..|all|] == all;
  }
}
