/** Which rubric a trial's single verdict belongs to, and how the operator scorer reads it. */
module Scoring {
  import opened Basics

  /** `readsJudgement`: its scorer offers score_annotations. `rescoredByOperator`: that scorer is the
      built-in operator scorer, the only one a saved log can rebuild. */
  datatype Rubric = Rubric(name: string, readsJudgement: bool, rescoredByOperator: bool)

  predicate UniqueNames(rubrics: seq<Rubric>) {
    forall i, j :: 0 <= i < j < |rubrics| ==> rubrics[i].name != rubrics[j].name
  }

  /** The names of the rubrics scored from the recorded judgement, in order. */
  function JudgementNames(rubrics: seq<Rubric>): (names: seq<string>)
    ensures forall n :: n in names <==> exists r :: r in rubrics && r.readsJudgement && r.name == n
  {
    if rubrics == [] then []
    else
      var rest := JudgementNames(rubrics[1..]);
      assert rubrics == [rubrics[0]] + rubrics[1..];
      if rubrics[0].readsJudgement then [rubrics[0].name] + rest else rest
  }

  /** Rubric `i` is scored from the recorded judgement. */
  predicate ReadsAt(rubrics: seq<Rubric>, i: int) {
    0 <= i < |rubrics| && rubrics[i].readsJudgement
  }

  /** `name` is the first rubric that reads judgements. */
  ghost predicate FirstReader(rubrics: seq<Rubric>, name: string) {
    exists k :: ReadsAt(rubrics, k) && rubrics[k].name == name && forall i :: 0 <= i < k ==> !ReadsAt(rubrics, i)
  }

  /** At least two rubrics read judgements. */
  ghost predicate SeveralReaders(rubrics: seq<Rubric>) {
    exists i, j :: i < j && ReadsAt(rubrics, i) && ReadsAt(rubrics, j)
  }

  lemma {:induction false} NamesMean(rubrics: seq<Rubric>)
    ensures |JudgementNames(rubrics)| >= 1 ==> FirstReader(rubrics, JudgementNames(rubrics)[0])
    ensures |JudgementNames(rubrics)| >= 1 <==> exists i :: ReadsAt(rubrics, i)
    ensures |JudgementNames(rubrics)| >= 2 <==> SeveralReaders(rubrics)
  {
    if rubrics != [] {
      var rest := rubrics[1..];
      NamesMean(rest);
      assert forall i :: ReadsAt(rest, i) ==> ReadsAt(rubrics, i + 1);
      assert forall i :: i > 0 && ReadsAt(rubrics, i) ==> ReadsAt(rest, i - 1);
      if rubrics[0].readsJudgement {
        assert ReadsAt(rubrics, 0);
      } else {
        assert !ReadsAt(rubrics, 0);
        if SeveralReaders(rest) {
          var i, j :| i < j && ReadsAt(rest, i) && ReadsAt(rest, j);
          assert ReadsAt(rubrics, i + 1) && ReadsAt(rubrics, j + 1);
        }
        if |JudgementNames(rest)| >= 1 {
          var name := JudgementNames(rest)[0];
          var k :| ReadsAt(rest, k) && rest[k].name == name && forall i :: 0 <= i < k ==> !ReadsAt(rest, i);
          assert ReadsAt(rubrics, k + 1);
        }
      }
    }
  }

  /** The rubric a verdict counts for when several read judgements: the grading hook's choice if it names
      one of them, else the first. None when the verdict applies unscoped. */
  function JudgedRubric(rubrics: seq<Rubric>, verdict: Option<string>, hint: Option<string>): (judged: Option<string>)
    ensures judged.None? <==> verdict.None? || !SeveralReaders(rubrics)
    ensures judged.Some? ==> exists r :: r in rubrics && r.readsJudgement && r.name == judged.value
    ensures
      judged.Some? && judged != hint
      ==>
        && FirstReader(rubrics, judged.value)
        && !(hint.Some? && exists r :: r in rubrics && r.readsJudgement && r.name == hint.value)
  {
    NamesMean(rubrics);
    var names := JudgementNames(rubrics);
    if |names| < 2 || verdict.None? then None
    else if hint.Some? && hint.value in names then hint
    else assert names[0] in names; Some(names[0])
  }

  /** What a trial's epoch entry holds for a rubric: an abstention when the verdict was given for
      another judgement rubric, else its score; nothing when its scorer raised (`score` is None). */
  function EpochEntry(r: Rubric, judged: Option<string>, score: Option<Option<real>>): Option<Option<real>> {
    if judged.Some? && r.name != judged.value && r.readsJudgement then Some(None) else score
  }
}
