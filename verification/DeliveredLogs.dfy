/**
 From the evaluation to re-scoring: the log a run delivers is one that re-scores to itself.

 `Orchestrator` says which rows a delivered log holds, `RescoringLaws` what makes a saved log re-score to
 itself; here the first is shown to be an instance of the second.
 */
module DeliveredLogs {
  import opened Basics
  import opened Scoring
  import opened Rescoring
  import Orchestrator
  import RescoringLaws

  /** How the log spells a record's id and its reserved metadata. */
  datatype Spelling = Spelling(id: nat -> string, metadata: nat -> Metadata)

  /** What the log keeps besides the samples' columns. */
  datatype Frame = Frame(grader: Option<string>, completedAt: string, reducer: Option<string>,
                         reduced: nat -> map<string, Option<real>>, metrics: map<string, Option<real>>)

  /** A scene's sample as it is saved. */
  function SavedScene(scene: Orchestrator.Scene, sample: Orchestrator.Sample, reduced: map<string, Option<real>>,
                      sp: Spelling): SceneResult
  {
    var c := sample.columns;
    SceneResult(sample.sceneId, c.epochs, reduced, c.judgements, c.sources, c.notes,
                seq(|c.metadatas|, i requires 0 <= i < |c.metadatas| => Some(sp.metadata(c.metadatas[i]))),
                seq(|c.ids|, i requires 0 <= i < |c.ids| => Some(sp.id(c.ids[i]))),
                seq(|scene.rubrics|, i requires 0 <= i < |scene.rubrics| => RescoringLaws.Described(scene.rubrics[i])))
  }

  function Saved(scenes: seq<Orchestrator.Scene>, log: Orchestrator.Log, f: Frame, sp: Spelling): EvalLog
    requires |log.samples| <= |scenes|
  {
    EvalLog(f.grader, f.completedAt, f.reducer,
            seq(|log.samples|, i requires 0 <= i < |log.samples| => SavedScene(scenes[i], log.samples[i], f.reduced(i), sp)),
            f.metrics, log.abstentions)
  }

  /** A recorded trial as re-scoring sees it. */
  function TrialOf(s: Orchestrator.TrialScript, row: Orchestrator.Row, sp: Spelling): RescoringLaws.Trial {
    RescoringLaws.Trial(sp.id(row.last.id), row.record.status == Orchestrator.Success, row.verdict, row.source, row.note,
                        sp.metadata(row.last.metadata).gradingError, row.record.judgedHint,
                        (name: string) => s.scores(name).Score())
  }

  /** The trial has an id, the operator scorer answered from its verdict, and the policy's end hook left
      alone which rubric scoring recorded the verdict for. */
  ghost predicate Honest(rubrics: seq<Rubric>, s: Orchestrator.TrialScript, row: Orchestrator.Row, sp: Spelling) {
    var t := TrialOf(s, row, sp);
    && t.recordId != ""
    && (t.success ==>
          && sp.metadata(row.last.metadata).judgedRubric
             == JudgedRubric(rubrics, row.record.judgement, row.record.judgedHint)
          && forall r :: r in rubrics && r.rescoredByOperator ==> s.scores(r.name) == Orchestrator.Value(t.OperatorCall()))
  }

  /** A captured row is saved as the trial it records. */
  lemma TrialIsLogged(o: Orchestrator.Offers, scene: Orchestrator.Scene, sample: Orchestrator.Sample,
                      reduced: map<string, Option<real>>, sp: Spelling, k: nat)
    requires Orchestrator.Kept(o, scene, sample.columns, sample.rows) && k < |sample.rows|
    requires Honest(scene.rubrics, scene.trials[k], sample.rows[k], sp)
    ensures k < |sample.columns.epochs|
    ensures
      RescoringLaws.LoggedTrial(scene.rubrics, TrialOf(scene.trials[k], sample.rows[k], sp),
                                SavedScene(scene, sample, reduced, sp), k)
  {
    var rubrics, s, row := scene.rubrics, scene.trials[k], sample.rows[k];
    assert Orchestrator.AlignedAt(sample.columns, sample.rows, k);
    assert Orchestrator.CapturedRow(o, rubrics, s, row);
    if row.record.status == Orchestrator.Success {
      EntriesAreLogged(rubrics, s, row, sp);
    }
    hide JudgedRubric, JudgementNames;
  }

  lemma EntriesAreLogged(rubrics: seq<Rubric>, s: Orchestrator.TrialScript, row: Orchestrator.Row, sp: Spelling)
    requires row.record.status == Orchestrator.Success && row.verdict == row.record.judgement
    requires Honest(rubrics, s, row, sp)
    requires
      Orchestrator.Scored(rubrics, |rubrics|, JudgedRubric(rubrics, row.record.judgement, row.record.judgedHint),
                          s.scores, row.epoch)
    ensures
      var t := TrialOf(s, row, sp);
      && (forall r :: r in rubrics ==>
            && (r.name in row.epoch <==> RescoringLaws.Entry(rubrics, t, r).Some?)
            && (r.name in row.epoch ==> row.epoch[r.name] == RescoringLaws.Entry(rubrics, t, r).value))
      && (forall name :: name in row.epoch ==> exists r :: r in rubrics && r.name == name)
  {
    hide JudgedRubric;
    var t := TrialOf(s, row, sp);
    var judged := JudgedRubric(rubrics, row.record.judgement, row.record.judgedHint);
    forall r | r in rubrics
      ensures r.name in row.epoch <==> RescoringLaws.Entry(rubrics, t, r).Some?
      ensures r.name in row.epoch ==> row.epoch[r.name] == RescoringLaws.Entry(rubrics, t, r).value
    {
      var i :| 0 <= i < |rubrics| && rubrics[i] == r;
      assert Orchestrator.EntryAt(rubrics[i], judged, s.scores, row.epoch);
    }
    forall name | name in row.epoch
      ensures exists r :: r in rubrics && r.name == name
    {
      var j :| 0 <= j < |rubrics| && rubrics[j].name == name;
      assert rubrics[j] in rubrics;
    }
  }

  function TrialsOf(scene: Orchestrator.Scene, sample: Orchestrator.Sample, sp: Spelling): seq<RescoringLaws.Trial>
    requires |sample.rows| <= |scene.trials|
  {
    seq(|sample.rows|, k requires 0 <= k < |sample.rows| => TrialOf(scene.trials[k], sample.rows[k], sp))
  }

  ghost predicate AllHonest(scene: Orchestrator.Scene, sample: Orchestrator.Sample, sp: Spelling) {
    && RescoringLaws.RubricsOk(scene.rubrics) && |sample.rows| <= |scene.trials|
    && forall k :: 0 <= k < |sample.rows| ==> Honest(scene.rubrics, scene.trials[k], sample.rows[k], sp)
  }

  lemma SceneIsLogged(o: Orchestrator.Offers, scene: Orchestrator.Scene, sample: Orchestrator.Sample,
                      reduced: map<string, Option<real>>, sp: Spelling)
    requires Orchestrator.Faithful(o, scene, sample) && AllHonest(scene, sample, sp)
    ensures
      RescoringLaws.LoggedScene(scene.rubrics, TrialsOf(scene, sample, sp), SavedScene(scene, sample, reduced, sp))
  {
    hide Orchestrator.CapturedRow, Orchestrator.AlignedAt, Honest, RescoringLaws.RubricsOk, RescoringLaws.LoggedTrial;
    var trials, saved := TrialsOf(scene, sample, sp), SavedScene(scene, sample, reduced, sp);
    forall k | 0 <= k < |trials|
      ensures k < |saved.epochs| && RescoringLaws.LoggedTrial(scene.rubrics, trials[k], saved, k)
    {
      TrialIsLogged(o, scene, sample, reduced, sp, k);
    }
  }

  function ScenesOf(scenes: seq<Orchestrator.Scene>, log: Orchestrator.Log, sp: Spelling): seq<RescoringLaws.Scene>
    requires |log.samples| <= |scenes|
    requires forall i :: 0 <= i < |log.samples| ==> |log.samples[i].rows| <= |scenes[i].trials|
  {
    seq(|log.samples|, i requires 0 <= i < |log.samples| =>
      RescoringLaws.Scene(scenes[i].rubrics, TrialsOf(scenes[i], log.samples[i], sp)))
  }

  /** Every recorded trial is honest, and no two of them share an id. */
  ghost predicate RunHonest(scenes: seq<Orchestrator.Scene>, log: Orchestrator.Log, sp: Spelling) {
    && |log.samples| <= |scenes|
    && (forall i :: 0 <= i < |log.samples| ==> AllHonest(scenes[i], log.samples[i], sp))
    && forall i: nat, k: nat, j: nat, l: nat ::
         IsRow(log, i, k) && IsRow(log, j, l) && IdOf(log, sp, i, k) == IdOf(log, sp, j, l) ==> i == j && k == l
  }

  predicate IsRow(log: Orchestrator.Log, i: nat, k: nat) {
    i < |log.samples| && k < |log.samples[i].rows|
  }

  function IdOf(log: Orchestrator.Log, sp: Spelling, i: nat, k: nat): string {
    if IsRow(log, i, k) then sp.id(log.samples[i].rows[k].last.id) else ""
  }

  lemma RunIsLogged(o: Orchestrator.Offers, scenes: seq<Orchestrator.Scene>, log: Orchestrator.Log, f: Frame, sp: Spelling)
    requires RunHonest(scenes, log, sp)
    requires forall i :: 0 <= i < |log.samples| ==> Orchestrator.Faithful(o, scenes[i], log.samples[i])
    ensures RescoringLaws.LoggedRun(ScenesOf(scenes, log, sp), Saved(scenes, log, f, sp))
  {
    var trials, saved := ScenesOf(scenes, log, sp), Saved(scenes, log, f, sp);
    forall i | 0 <= i < |trials|
      ensures RescoringLaws.LoggedScene(trials[i].rubrics, trials[i].trials, saved.samples[i])
      ensures |saved.samples[i].epochs| == |log.samples[i].rows|
    {
      SceneIsLogged(o, scenes[i], log.samples[i], f.reduced(i), sp);
    }
    hide Orchestrator.Faithful, AllHonest, RescoringLaws.LoggedScene;
    forall i: nat, k: nat, j: nat, l: nat | RescoringLaws.IsTrial(saved, i, k) && RescoringLaws.IsTrial(saved, j, l)
      && RescoringLaws.TrialId(trials, i, k) == RescoringLaws.TrialId(trials, j, l)
      ensures i == j && k == l
    {
      assert IsRow(log, i, k) && IsRow(log, j, l);
      assert IdOf(log, sp, i, k) == IdOf(log, sp, j, l);
    }
  }

  /** Whatever happened in a run: the log it delivers re-scores to itself. */
  lemma DeliveredRescoresToItself(c: Orchestrator.Config, scenes: seq<Orchestrator.Scene>, run: Orchestrator.Run,
                                  f: Frame, sp: Spelling, reduce: Reducer)
    requires Orchestrator.Concluded(c, scenes, run) && Orchestrator.Delivered(run.exit).Some?
    requires RunHonest(scenes, Orchestrator.Delivered(run.exit).value, sp)
    ensures
      var saved := Saved(scenes, Orchestrator.Delivered(run.exit).value, f, sp);
      Rescored(saved, Lifted(saved), reduce) == saved
  {
    var log := Orchestrator.Delivered(run.exit).value;
    DeliveredIsFaithful(c, scenes, run);
    hide *;
    RunIsLogged(c.offers, scenes, log, f, sp);
    RescoringLaws.UneditedIsIdentity(ScenesOf(scenes, log, sp), Saved(scenes, log, f, sp), reduce);
  }

  lemma DeliveredIsFaithful(c: Orchestrator.Config, scenes: seq<Orchestrator.Scene>, run: Orchestrator.Run)
    requires Orchestrator.Concluded(c, scenes, run) && Orchestrator.Delivered(run.exit).Some?
    ensures
      var log := Orchestrator.Delivered(run.exit).value;
      |log.samples| <= |scenes|
      && forall i :: 0 <= i < |log.samples| ==> Orchestrator.Faithful(c.offers, scenes[i], log.samples[i])
  {
    hide Orchestrator.Faithful, Orchestrator.Ran, Orchestrator.Halted, Orchestrator.AllTrials, Orchestrator.Bracketed;
  }
}
