/**
 Re-scoring a saved log from its annotations.

 A log's results are rebuilt by lifting the judgements captured during the run to annotations and
 scoring each trial from the annotation that currently counts. The main results: a log with no edits
 re-scores to itself, an edited one holds what the last-write map of its annotations says, and
 re-scoring twice changes nothing more.
 */
module Rescoring {
  import opened Basics
  import opened Annotations
  import opened Scoring
  import Text

  // ---------------------------------------------------------------- the saved log

  /** The reserved trial metadata; an absent or empty grading error is not an error. */
  datatype Metadata = Metadata(judgedRubric: Option<string>, gradingError: Option<string>) {
    predicate HasGradingError() {
      gradingError.Some? && gradingError.value != ""
    }

    predicate Judges() {
      judgedRubric.Some? && judgedRubric.value != ""
    }
  }

  /** A rubric's description in the log. */
  datatype RubricRecord = RubricRecord(name: string, rescoredBy: Option<string>)

  datatype SceneResult = SceneResult(
    sceneId: string, epochs: seq<map<string, Option<real>>>, reduced: map<string, Option<real>>,
    judgements: seq<Option<string>>, sources: seq<Option<string>>, notes: seq<Option<string>>,
    metadata: seq<Option<Metadata>>, recordIds: seq<Option<string>>, rubrics: seq<RubricRecord>)

  datatype EvalLog = EvalLog(
    grader: Option<string>, completedAt: string, reducer: Option<string>, samples: seq<SceneResult>,
    metrics: map<string, Option<real>>, abstentions: map<string, nat>)

  function Parallel<T>(values: seq<Option<T>>, index: nat): Option<T> {
    if index < |values| then values[index] else None
  }

  function Decimal(n: nat): string {
    if n < 10 then ['0' + n as char] else Decimal(n / 10) + ['0' + (n % 10) as char]
  }

  /** The id annotations use for a trial. */
  function TrialKey(sample: SceneResult, index: nat): string {
    var id := Parallel(sample.recordIds, index);
    if id.Some? && id.value != "" then id.value else sample.sceneId + "/e" + Decimal(index)
  }

  // ---------------------------------------------------------------- lifting

  function RunId(key: string, kind: string): string {
    key + ":run:" + kind
  }

  function NonEmpty(s: Option<string>, default: string): string {
    if s.Some? && s.value != "" then s.value else default
  }

  /** The verdict, note and grading error of one trial, as annotations. */
  function LiftTrial(log: EvalLog, sample: SceneResult, index: nat): seq<Annotation> {
    var author := NonEmpty(log.grader, "operator");
    var key := TrialKey(sample, index);
    var judgement := Parallel(sample.judgements, index);
    var source := NonEmpty(Parallel(sample.sources, index), "run");
    var note := Parallel(sample.notes, index);
    var metadata := Parallel(sample.metadata, index);
    var failed := metadata.Some? && metadata.value.HasGradingError();
    var judged := if metadata.Some? && metadata.value.Judges() then metadata.value.judgedRubric else None;
    var make := (kind: string, value: string, rubric: Option<string>, text: Option<string>) =>
      Annotation(key, kind, value, author, source, log.completedAt, rubric, text, None, RunId(key, kind));
    (if judgement.Some? then
       [make(JUDGEMENT, judgement.value, judged, note)]
       + (if judged.Some? && !failed then [make(GRADING_ERROR, "not judged in the run", None, None)] else [])
     else if note.Some? then [make(NOTE, note.value, None, None)] else [])
    + (if failed then [make(GRADING_ERROR, metadata.value.gradingError.value, None, None)] else [])
  }

  /** The annotations lifted from the first `n` trials of a scene. */
  function LiftScene(log: EvalLog, sample: SceneResult, n: nat): seq<Annotation> {
    if n == 0 then [] else LiftScene(log, sample, n - 1) + LiftTrial(log, sample, n - 1)
  }

  /** The annotations lifted from the first `n` scenes. */
  function LiftScenes(log: EvalLog, n: nat): seq<Annotation>
    requires n <= |log.samples|
  {
    if n == 0 then []
    else LiftScenes(log, n - 1) + LiftScene(log, log.samples[n - 1], |log.samples[n - 1].epochs|)
  }

  function Lifted(log: EvalLog): seq<Annotation> {
    LiftScenes(log, |log.samples|)
  }

  /** The nested loops that lift a log. */
  method LiftAnnotations(log: EvalLog) returns (lifted: seq<Annotation>)
    ensures lifted == Lifted(log)
  {
    lifted := [];
    for i := 0 to |log.samples|
      invariant lifted == LiftScenes(log, i)
    {
      var sample := log.samples[i];
      for index := 0 to |sample.epochs|
        invariant lifted == LiftScenes(log, i) + LiftScene(log, sample, index)
      {
        lifted := lifted + LiftTrial(log, sample, index);
      }
    }
  }

  // ---------------------------------------------------------------- the operator scorer

  predicate Affirmative(verdict: string) {
    Text.Lower(Text.Strip(verdict)) in {"success", "pass", "yes", "y", "1", "true"}
  }

  function VerdictScore(verdict: Option<string>, failed: bool): Option<real> {
    match verdict
    case Some(v) => Some(if Affirmative(v) then 1.0 else 0.0)
    case None => if failed then None else Some(0.0)
  }

  /** The operator scorer on a trial's annotations. */
  function ScoreAnnotations(all: seq<Annotation>, key: string, rubric: string): Option<real> {
    var judgement := Current(all, key, JUDGEMENT, Some(rubric));
    VerdictScore(if judgement.Some? then Some(judgement.value.value) else None,
                 Current(all, key, GRADING_ERROR, Some(rubric)).Some?)
  }

  // ---------------------------------------------------------------- re-scoring

  /** Only the built-in operator scorer can be rebuilt from a log; a log that describes no rubric of
      that name resolves the result key itself. The last description of a name wins. */
  predicate Rescorable(rubrics: seq<RubricRecord>, name: string) {
    var r := Last(rubrics, (r: RubricRecord) => r.name == name);
    if r.Some? then r.value.rescoredBy == Some("operator") else name == "operator"
  }

  function RescoredEpoch(sample: SceneResult, all: seq<Annotation>, index: nat): map<string, Option<real>>
    requires index < |sample.epochs|
  {
    var stored := sample.epochs[index];
    map name | name in stored ::
      if Rescorable(sample.rubrics, name) then ScoreAnnotations(all, TrialKey(sample, index), name) else stored[name]
  }

  function RescoredEpochs(sample: SceneResult, all: seq<Annotation>): seq<map<string, Option<real>>> {
    seq(|sample.epochs|, i requires 0 <= i < |sample.epochs| => RescoredEpoch(sample, all, i))
  }

  /** The rubrics some trial's score changed for. */
  function ChangedNames(before: seq<map<string, Option<real>>>, after: seq<map<string, Option<real>>>): set<string>
    requires |before| == |after|
    requires forall k :: 0 <= k < |before| ==> before[k].Keys == after[k].Keys
  {
    set k, name | 0 <= k < |before| && name in before[k] && after[k][name] != before[k][name] :: name
  }

  function ChangedHere(sample: SceneResult, all: seq<Annotation>): set<string> {
    ChangedNames(sample.epochs, RescoredEpochs(sample, all))
  }

  function ScoresOf(epochs: seq<map<string, Option<real>>>, name: string): seq<Option<real>> {
    if epochs == [] then []
    else
      var last := epochs[|epochs| - 1];
      ScoresOf(epochs[..|epochs| - 1], name) + (if name in last then [last[name]] else [])
  }

  /** An epoch reducer by name: the reduced value, or an error it raises. */
  type Reducer = (string, seq<Option<real>>) -> Result<Option<real>, string>

  function RescoredReduced(sample: SceneResult, epochs: seq<map<string, Option<real>>>, changed: set<string>,
                           reducer: string, reduce: Reducer): map<string, Option<real>>
  {
    map name | name in sample.reduced.Keys + changed
               && (name in changed ==> reduce(reducer, ScoresOf(epochs, name)).Ok?) ::
      if name in changed then reduce(reducer, ScoresOf(epochs, name)).value else sample.reduced[name]
  }

  function RescoredSample(sample: SceneResult, all: seq<Annotation>, reducer: string, reduce: Reducer): SceneResult {
    var epochs := RescoredEpochs(sample, all);
    var changed := ChangedNames(sample.epochs, epochs);
    if changed == {} then sample
    else sample.(epochs := epochs, reduced := RescoredReduced(sample, epochs, changed, reducer, reduce))
  }

  /** One trial's re-scoring: only the values that differ are replaced. */
  method RescoreTrial(sample: SceneResult, all: seq<Annotation>, index: nat)
    returns (updated: map<string, Option<real>>, changed: set<string>)
    requires index < |sample.epochs|
    ensures updated == RescoredEpoch(sample, all, index)
    ensures changed == set n | n in sample.epochs[index] && updated[n] != sample.epochs[index][n]
  {
    var stored := sample.epochs[index];
    var names := stored.Keys;
    updated, changed := stored, {};
    while names != {}
      invariant names <= stored.Keys && updated.Keys == stored.Keys
      invariant forall n :: n in names ==> updated[n] == stored[n]
      invariant forall n :: n in stored.Keys - names ==> updated[n] == RescoredEpoch(sample, all, index)[n]
      invariant forall n :: n in changed <==> n in stored.Keys - names && updated[n] != stored[n]
    {
      var name :| name in names;
      if Rescorable(sample.rubrics, name) {
        var value := ScoreAnnotations(all, TrialKey(sample, index), name);
        if value != stored[name] {
          updated, changed := updated[name := value], changed + {name};
        }
      }
      names := names - {name};
    }
  }

  /** The trial loop of a scene's re-scoring. */
  method RescoreSample(sample: SceneResult, all: seq<Annotation>, reducer: string, reduce: Reducer)
    returns (rescored: SceneResult, changed: set<string>)
    ensures rescored == RescoredSample(sample, all, reducer, reduce)
    ensures changed == ChangedHere(sample, all)
  {
    var epochs: seq<map<string, Option<real>>> := [];
    changed := {};
    for index := 0 to |sample.epochs|
      invariant epochs == RescoredEpochs(sample, all)[..index]
      invariant changed == ChangedNames(sample.epochs[..index], epochs)
    {
      var updated, here := RescoreTrial(sample, all, index);
      ChangedPush(sample.epochs[..index], epochs, sample.epochs[index], updated);
      assert sample.epochs[..index + 1] == sample.epochs[..index] + [sample.epochs[index]];
      epochs, changed := epochs + [updated], changed + here;
    }
    assert sample.epochs[..|sample.epochs|] == sample.epochs;
    assert epochs == RescoredEpochs(sample, all);
    if changed == {} {
      return sample, changed;
    }
    rescored := sample.(epochs := epochs, reduced := RescoredReduced(sample, epochs, changed, reducer, reduce));
  }

  lemma ChangedPush(before: seq<map<string, Option<real>>>, after: seq<map<string, Option<real>>>,
                    b: map<string, Option<real>>, a: map<string, Option<real>>)
    requires |before| == |after| && b.Keys == a.Keys
    requires forall k :: 0 <= k < |before| ==> before[k].Keys == after[k].Keys
    ensures ChangedNames(before + [b], after + [a]) == ChangedNames(before, after) + set n | n in b && a[n] != b[n]
  {
    var bs, cs := before + [b], after + [a];
    forall n | n in ChangedNames(before, after) + set m | m in b && a[m] != b[m]
      ensures n in ChangedNames(bs, cs)
    {
      if n in ChangedNames(before, after) {
        var k :| 0 <= k < |before| && n in before[k] && after[k][n] != before[k][n];
        assert bs[k] == before[k] && cs[k] == after[k];
      } else {
        assert bs[|before|] == b && cs[|before|] == a;
      }
    }
  }

  // ---------------------------------------------------------------- the whole log

  function Sum(xs: seq<real>): real {
    if xs == [] then 0.0 else Sum(xs[..|xs| - 1]) + xs[|xs| - 1]
  }

  function Voted(xs: seq<Option<real>>): seq<real> {
    if xs == [] then []
    else Voted(xs[..|xs| - 1]) + (if xs[|xs| - 1].Some? then [xs[|xs| - 1].value] else [])
  }

  /** The mean of the scenes that voted, or None when none did. */
  function MeanVoted(xs: seq<Option<real>>): Option<real> {
    var voted := Voted(xs);
    if voted == [] then None else Some(Sum(voted) / |voted| as real)
  }

  function ReducedOf(samples: seq<SceneResult>, name: string): seq<Option<real>> {
    if samples == [] then []
    else
      var last := samples[|samples| - 1];
      ReducedOf(samples[..|samples| - 1], name) + (if name in last.reduced then [last.reduced[name]] else [])
  }

  function Abstaining(samples: seq<SceneResult>, name: string): nat {
    if samples == [] then 0
    else
      Abstaining(samples[..|samples| - 1], name)
      + Count(samples[|samples| - 1].epochs, (e: map<string, Option<real>>) => name in e && e[name].None?)
  }

  function ReducerOf(log: EvalLog): string {
    NonEmpty(log.reducer, "mean")
  }

  function RescoredSamples(log: EvalLog, all: seq<Annotation>, reduce: Reducer): seq<SceneResult> {
    seq(|log.samples|, i requires 0 <= i < |log.samples| => RescoredSample(log.samples[i], all, ReducerOf(log), reduce))
  }

  /** The rubrics some trial's score changed for, anywhere in the log. */
  function ChangedIn(log: EvalLog, all: seq<Annotation>): set<string> {
    set i, name | 0 <= i < |log.samples|
                  && name in ChangedHere(log.samples[i], all) :: name
  }

  function Remetered(log: EvalLog, samples: seq<SceneResult>, changed: set<string>): map<string, Option<real>> {
    map name | name in log.metrics.Keys + changed ::
      if name in changed then MeanVoted(ReducedOf(samples, name)) else log.metrics[name]
  }

  function Recounted(log: EvalLog, samples: seq<SceneResult>, changed: set<string>): map<string, nat> {
    map name | name in log.abstentions.Keys + changed && (name in changed ==> Abstaining(samples, name) > 0) ::
      if name in changed then Abstaining(samples, name) else log.abstentions[name]
  }

  /** The log with its results recomputed; only what changed is replaced. */
  function Rescored(log: EvalLog, all: seq<Annotation>, reduce: Reducer): EvalLog {
    var changed := ChangedIn(log, all);
    if changed == {} then log
    else
      var samples := RescoredSamples(log, all, reduce);
      log.(samples := samples, metrics := Remetered(log, samples, changed), abstentions := Recounted(log, samples, changed))
  }

  /** The metrics and abstention counts of the rubrics that changed. */
  method Remeasure(log: EvalLog, samples: seq<SceneResult>, changed: set<string>)
    returns (metrics: map<string, Option<real>>, abstentions: map<string, nat>)
    ensures metrics == Remetered(log, samples, changed)
    ensures abstentions == Recounted(log, samples, changed)
  {
    hide Abstaining, MeanVoted, ReducedOf, Remetered, Recounted;
    metrics, abstentions := log.metrics, log.abstentions;
    var names := changed;
    NothingMeasured(log, samples);
    assert changed - names == {};
    while names != {}
      invariant names <= changed
      invariant metrics == Remetered(log, samples, changed - names)
      invariant abstentions == Recounted(log, samples, changed - names)
    {
      var name :| name in names;
      ghost var done := changed - names;
      var abstaining := Abstaining(samples, name);
      metrics := metrics[name := MeanVoted(ReducedOf(samples, name))];
      abstentions := if abstaining > 0 then abstentions[name := abstaining] else abstentions - {name};
      names := names - {name};
      assert changed - names == done + {name};
      MeasuredNext(log, samples, done, name);
      CountedNext(log, samples, done, name);
    }
    assert changed - {} == changed;
  }

  lemma NothingMeasured(log: EvalLog, samples: seq<SceneResult>)
    ensures Remetered(log, samples, {}) == log.metrics && Recounted(log, samples, {}) == log.abstentions
  {
  }

  lemma MeasuredNext(log: EvalLog, samples: seq<SceneResult>, done: set<string>, name: string)
    ensures Remetered(log, samples, done + {name}) == Remetered(log, samples, done)[name := MeanVoted(ReducedOf(samples, name))]
  {
    hide MeanVoted, ReducedOf;
    var now, before := Remetered(log, samples, done + {name}), Remetered(log, samples, done);
    assert now.Keys == before.Keys + {name};
    assert forall n :: n in before && n != name ==> now[n] == before[n];
  }

  lemma CountedNext(log: EvalLog, samples: seq<SceneResult>, done: set<string>, name: string)
    ensures
      var abstaining, before := Abstaining(samples, name), Recounted(log, samples, done);
      Recounted(log, samples, done + {name}) == if abstaining > 0 then before[name := abstaining] else before - {name}
  {
    hide Abstaining;
    var now, before := Recounted(log, samples, done + {name}), Recounted(log, samples, done);
    forall n | n != name
      ensures AgreeAt(now, before, n)
    {
    }
    SameButOne(now, before, name, Abstaining(samples, name));
  }

  predicate AgreeAt(now: map<string, nat>, before: map<string, nat>, name: string) {
    (name in now <==> name in before) && (name in now ==> now[name] == before[name])
  }

  /** Two maps of counts that differ at one name at most, where the first holds a positive count or nothing. */
  lemma SameButOne(now: map<string, nat>, before: map<string, nat>, name: string, count: nat)
    requires forall n :: n != name ==> AgreeAt(now, before, n)
    requires (name in now <==> count > 0) && (name in now ==> now[name] == count)
    ensures now == if count > 0 then before[name := count] else before - {name}
  {
    var want := if count > 0 then before[name := count] else before - {name};
    forall n: string
      ensures n in now <==> n in want
      ensures n in now ==> now[n] == want[n]
    {
      if n != name {
        assert AgreeAt(now, before, n);
      }
    }
    assert now.Keys == want.Keys;
  }

  /** The scene loop, then the results of the rubrics that changed. */
  method Rescore(log: EvalLog, all: seq<Annotation>, reduce: Reducer) returns (rescored: EvalLog)
    ensures rescored == Rescored(log, all, reduce)
  {
    hide RescoredSample;
    hide ChangedHere;
    hide Remetered;
    hide Recounted;
    var samples, changed := [], {};
    for i := 0 to |log.samples|
      invariant samples == RescoredSamples(log, all, reduce)[..i]
      invariant forall name :: name in changed <==>
                  exists j :: 0 <= j < i && name in ChangedHere(log.samples[j], all)
    {
      var sample, here := RescoreSample(log.samples[i], all, ReducerOf(log), reduce);
      samples, changed := samples + [sample], changed + here;
    }
    assert changed == ChangedIn(log, all);
    assert samples == RescoredSamples(log, all, reduce);
    if changed == {} {
      return log;
    }
    var metrics, abstentions := Remeasure(log, samples, changed);
    rescored := log.(samples := samples, metrics := metrics, abstentions := abstentions);
  }

  // ---------------------------------------------------------------- editing a log

  /** The rubric the run's verdict for trial `key` was scoped to, among a scene's first `n` trials. */
  function JudgedInScene(sample: SceneResult, n: nat, key: string): Option<Option<string>> {
    if n == 0 then None
    else
      var metadata := Parallel(sample.metadata, n - 1);
      if metadata.Some? && TrialKey(sample, n - 1) == key then
        Some(if metadata.value.Judges() then metadata.value.judgedRubric else None)
      else JudgedInScene(sample, n - 1, key)
  }

  function JudgedIn(samples: seq<SceneResult>, key: string): Option<string> {
    if samples == [] then None
    else
      var last := samples[|samples| - 1];
      match JudgedInScene(last, |last.metadata|, key)
      case Some(judged) => judged
      case None => JudgedIn(samples[..|samples| - 1], key)
  }

  /** What the edit command asks for; a judgement with no rubric corrects the run's own verdict. */
  function Requested(log: EvalLog, e: Edit): Edit {
    if e.rubric.None? && e.kind == JUDGEMENT then e.(rubric := JudgedIn(log.samples, e.recordId)) else e
  }

  predicate HasTrial(log: EvalLog, key: string) {
    exists i, k :: 0 <= i < |log.samples| && 0 <= k < |log.samples[i].epochs| && TrialKey(log.samples[i], k) == key
  }

  /** A saved log and the annotations file beside it, which is only ever appended to. */
  class AnnotatedLog {
    const log: EvalLog
    var edits: seq<Annotation>

    constructor (log: EvalLog)
      ensures this.log == log && edits == []
    {
      this.log, edits := log, [];
    }

    function All(): seq<Annotation>
      reads this
    {
      Lifted(log) + edits
    }

    /** Appends one annotation; refuses a trial the log does not have. */
    method CmdEdit(e: Edit) returns (ok: bool)
      modifies this`edits
      ensures ok <==> HasTrial(log, e.recordId)
      ensures edits == if ok then old(edits) + [Edited(old(All()), Requested(log, e))] else old(edits)
    {
      ok := HasTrial(log, e.recordId);
      if !ok {
        return;
      }
      var rubric := e.rubric;
      if rubric.None? && e.kind == JUDGEMENT {
        var judged := JudgedIn(log.samples, e.recordId);
        if judged.Some? {
          rubric := judged;
        }
      }
      var lifted := LiftAnnotations(log);
      var previous := Current(lifted + edits, e.recordId, e.kind, rubric);
      if previous.Some? && previous.value.rubric != rubric {
        previous := None;
      }
      var annotation := Annotation(e.recordId, e.kind, e.value, e.author, "editor", e.created, rubric, e.note,
                                   if previous.Some? then Some(previous.value.id) else None, e.id);
      edits := edits + [annotation];
    }
  }
}
