/** What re-scoring promises: the laws of `Rescoring`. */
module RescoringLaws {
  import opened Basics
  import opened Annotations
  import opened Scoring
  import opened Rescoring

  // ---------------------------------------------------------------- lifted annotations, trial by trial

  lemma {:induction false} LastConcat<T>(a: seq<T>, b: seq<T>, p: T -> bool)
    ensures Last(a + b, p) == if Last(b, p).Some? then Last(b, p) else Last(a, p)
  {
    if b == [] {
      assert a + b == a;
    } else {
      assert (a + b)[..|a + b| - 1] == a + b[..|b| - 1];
      LastConcat(a, b[..|b| - 1], p);
    }
  }

  /** Every trial of the log has its own annotation key. */
  ghost predicate KeysDistinct(log: EvalLog) {
    forall i: nat, k: nat, j: nat, l: nat ::
      IsTrial(log, i, k) && IsTrial(log, j, l) && TrialKey(log.samples[i], k) == TrialKey(log.samples[j], l)
      ==> i == j && k == l
  }

  predicate IsTrial(log: EvalLog, i: nat, k: nat) {
    i < |log.samples| && k < |log.samples[i].epochs|
  }

  /** Annotations about one trial only. */
  predicate About(s: seq<Annotation>, key: string) {
    forall a :: a in s ==> a.recordId == key && a.supersedes.None?
  }

  lemma LiftTrialAbout(log: EvalLog, sample: SceneResult, k: nat)
    ensures About(LiftTrial(log, sample, k), TrialKey(sample, k))
  {
  }

  /** `p` only accepts annotations about `key`. */
  ghost predicate Only(p: Annotation -> bool, key: string) {
    forall a :: p(a) ==> a.recordId == key
  }

  lemma LastAbout(s: seq<Annotation>, key: string, other: string, p: Annotation -> bool)
    requires About(s, other) && Only(p, key) && other != key
    ensures Last(s, p).None?
  {
    LastNone(s, p);
  }

  lemma {:induction false} LastElsewhere(log: EvalLog, sample: SceneResult, n: nat, key: string, p: Annotation -> bool)
    requires Only(p, key) && forall j: nat :: j < n ==> TrialKey(sample, j) != key
    ensures Last(LiftScene(log, sample, n), p).None?
  {
    hide TrialKey;
    hide LiftTrial;
    if n > 0 {
      LastElsewhere(log, sample, n - 1, key, p);
      LastConcat(LiftScene(log, sample, n - 1), LiftTrial(log, sample, n - 1), p);
      LiftTrialAbout(log, sample, n - 1);
      LastAbout(LiftTrial(log, sample, n - 1), key, TrialKey(sample, n - 1), p);
    }
  }

  /** Within a scene, only a trial's own annotations answer for it. */
  lemma {:induction false} LastInScene(log: EvalLog, sample: SceneResult, n: nat, k: nat, p: Annotation -> bool)
    requires k < n && Only(p, TrialKey(sample, k))
    requires forall j: nat :: j < n && j != k ==> TrialKey(sample, j) != TrialKey(sample, k)
    ensures Last(LiftScene(log, sample, n), p) == Last(LiftTrial(log, sample, k), p)
  {
    hide TrialKey;
    hide LiftTrial;
    LastConcat(LiftScene(log, sample, n - 1), LiftTrial(log, sample, n - 1), p);
    if k == n - 1 {
      LastElsewhere(log, sample, n - 1, TrialKey(sample, k), p);
    } else {
      LastInScene(log, sample, n - 1, k, p);
      LiftTrialAbout(log, sample, n - 1);
      LastAbout(LiftTrial(log, sample, n - 1), TrialKey(sample, k), TrialKey(sample, n - 1), p);
    }
  }

  lemma {:induction false} LastInScenes(log: EvalLog, n: nat, i: nat, k: nat, p: Annotation -> bool)
    requires KeysDistinct(log) && n <= |log.samples|
    requires IsTrial(log, i, k) && Only(p, TrialKey(log.samples[i], k))
    ensures Last(LiftScenes(log, n), p) == if i < n then Last(LiftTrial(log, log.samples[i], k), p) else None
  {
    hide TrialKey;
    hide LiftTrial;
    hide LiftScene;
    if n > 0 {
      var sample := log.samples[n - 1];
      LastInScenes(log, n - 1, i, k, p);
      LastConcat(LiftScenes(log, n - 1), LiftScene(log, sample, |sample.epochs|), p);
      forall j: nat | j < |sample.epochs| && (i != n - 1 || j != k)
        ensures TrialKey(sample, j) != TrialKey(log.samples[i], k)
      {
        assert IsTrial(log, n - 1, j);
      }
      if i == n - 1 {
        LastInScene(log, sample, |sample.epochs|, k, p);
      } else {
        LastElsewhere(log, sample, |sample.epochs|, TrialKey(log.samples[i], k), p);
      }
    }
  }

  lemma {:induction false} NothingRetired(s: seq<Annotation>)
    requires forall a :: a in s ==> a.supersedes.None?
    ensures Superseded(s) == {}
  {
  }

  lemma {:induction false} SceneRetiresNothing(log: EvalLog, sample: SceneResult, n: nat)
    ensures forall a :: a in LiftScene(log, sample, n) ==> a.supersedes.None?
  {
    if n > 0 {
      SceneRetiresNothing(log, sample, n - 1);
    }
  }

  lemma {:induction false} LiftRetiresNothing(log: EvalLog, n: nat)
    requires n <= |log.samples|
    ensures forall a :: a in LiftScenes(log, n) ==> a.supersedes.None?
  {
    if n > 0 {
      LiftRetiresNothing(log, n - 1);
      SceneRetiresNothing(log, log.samples[n - 1], |log.samples[n - 1].epochs|);
    }
  }

  /** What counts for a trial in an unedited log is decided by that trial's lifted annotations alone. */
  lemma CurrentOfLifted(log: EvalLog, i: nat, k: nat, kind: string, rubric: Option<string>)
    requires KeysDistinct(log) && i < |log.samples| && k < |log.samples[i].epochs|
    ensures
      var key := TrialKey(log.samples[i], k);
      Current(Lifted(log), key, kind, rubric) == Current(LiftTrial(log, log.samples[i], k), key, kind, rubric)
  {
    var key, n := TrialKey(log.samples[i], k), |log.samples|;
    LiftRetiresNothing(log, n);
    LiftTrialAbout(log, log.samples[i], k);
    NothingRetired(Lifted(log));
    NothingRetired(LiftTrial(log, log.samples[i], k));
    LastInScenes(log, n, i, k, Live({}, key, kind, rubric));
    LastInScenes(log, n, i, k, Live({}, key, kind, None));
  }

  // ---------------------------------------------------------------- a log as eval writes it

  /** One trial as eval scores it: the captured verdict, source and note, the grading metadata the
      record holds, and what the scorers other than the operator scorer answered (None: it raised). */
  datatype Trial = Trial(
    recordId: string, success: bool, verdict: Option<string>, source: Option<string>, note: Option<string>,
    gradingError: Option<string>, judgedHint: Option<string>, others: string -> Option<Option<real>>)
  {
    predicate Failed() {
      gradingError.Some? && gradingError.value != ""
    }

    /** What the operator scorer answers from the record. */
    function OperatorCall(): Option<real> {
      VerdictScore(verdict, Failed())
    }
  }

  function Described(r: Rubric): RubricRecord {
    RubricRecord(r.name, if r.rescoredByOperator then Some("operator") else None)
  }

  /** Rubric names are non-empty and distinct, and the operator scorer reads judgements. */
  predicate RubricsOk(rubrics: seq<Rubric>) {
    UniqueNames(rubrics) && forall r :: r in rubrics ==> r.name != "" && (r.rescoredByOperator ==> r.readsJudgement)
  }

  /** The epoch entry eval stores for a rubric of a successful trial. */
  function Entry(rubrics: seq<Rubric>, t: Trial, r: Rubric): Option<Option<real>> {
    EpochEntry(r, JudgedRubric(rubrics, t.verdict, t.judgedHint),
               if r.rescoredByOperator then Some(t.OperatorCall()) else t.others(r.name))
  }

  /** Trial `k` of the sample is `t`, as eval records it. */
  ghost predicate LoggedTrial(rubrics: seq<Rubric>, t: Trial, sample: SceneResult, k: nat)
    requires k < |sample.epochs|
  {
    && t.recordId != "" && Parallel(sample.recordIds, k) == Some(t.recordId)
    && if t.success then
         && Parallel(sample.judgements, k) == t.verdict
         && Parallel(sample.sources, k) == t.source && Parallel(sample.notes, k) == t.note
         && Parallel(sample.metadata, k)
            == Some(Metadata(JudgedRubric(rubrics, t.verdict, t.judgedHint), t.gradingError))
         && (forall r :: r in rubrics ==>
               (r.name in sample.epochs[k] <==> Entry(rubrics, t, r).Some?)
               && (r.name in sample.epochs[k] ==> sample.epochs[k][r.name] == Entry(rubrics, t, r).value))
         && (forall name :: name in sample.epochs[k] ==> exists r :: r in rubrics && r.name == name)
       else sample.epochs[k] == map[]
  }

  ghost predicate LoggedScene(rubrics: seq<Rubric>, trials: seq<Trial>, sample: SceneResult) {
    && RubricsOk(rubrics)
    && |sample.epochs| == |trials|
    && |sample.rubrics| == |rubrics| && (forall i :: 0 <= i < |rubrics| ==> sample.rubrics[i] == Described(rubrics[i]))
    && forall k :: 0 <= k < |trials| ==> LoggedTrial(rubrics, trials[k], sample, k)
  }

  datatype Scene = Scene(rubrics: seq<Rubric>, trials: seq<Trial>)

  function TrialId(scenes: seq<Scene>, i: nat, k: nat): string {
    if i < |scenes| && k < |scenes[i].trials| then scenes[i].trials[k].recordId else ""
  }

  /** The log records these scenes, and every trial has its own record id. */
  ghost predicate LoggedRun(scenes: seq<Scene>, log: EvalLog) {
    && |log.samples| == |scenes|
    && (forall i :: 0 <= i < |scenes| ==> LoggedScene(scenes[i].rubrics, scenes[i].trials, log.samples[i]))
    && (forall i: nat, k: nat, j: nat, l: nat ::
          IsTrial(log, i, k) && IsTrial(log, j, l) && TrialId(scenes, i, k) == TrialId(scenes, j, l)
          ==> i == j && k == l)
  }

  lemma RunKeys(scenes: seq<Scene>, log: EvalLog)
    requires LoggedRun(scenes, log)
    ensures KeysDistinct(log)
    ensures forall i, k: nat :: 0 <= i < |scenes| && k < |scenes[i].trials| ==>
              TrialKey(log.samples[i], k) == scenes[i].trials[k].recordId
  {
    forall i, k: nat | 0 <= i < |scenes| && k < |scenes[i].trials|
      ensures TrialKey(log.samples[i], k) == scenes[i].trials[k].recordId
    {
      assert LoggedScene(scenes[i].rubrics, scenes[i].trials, log.samples[i]);
      assert LoggedTrial(scenes[i].rubrics, scenes[i].trials[k], log.samples[i], k);
    }
    forall i | 0 <= i < |scenes|
      ensures |log.samples[i].epochs| == |scenes[i].trials|
    {
      assert LoggedScene(scenes[i].rubrics, scenes[i].trials, log.samples[i]);
    }
  }

  // ---------------------------------------------------------------- an unedited log re-scores to itself

  /** A described rubric is found again, and only the operator scorer's are re-scored. */
  lemma RescorableAsDescribed(rubrics: seq<Rubric>, records: seq<RubricRecord>, r: Rubric)
    requires RubricsOk(rubrics) && r in rubrics
    requires |records| == |rubrics| && forall i :: 0 <= i < |rubrics| ==> records[i] == Described(rubrics[i])
    ensures Rescorable(records, r.name) <==> r.rescoredByOperator
  {
    var i :| 0 <= i < |rubrics| && rubrics[i] == r;
    var p := (x: RubricRecord) => x.name == r.name;
    LastIs(records, p, i);
  }

  lemma TwoLast(a: Annotation, b: Annotation, p: Annotation -> bool)
    ensures Last([a], p) == if p(a) then Some(a) else None
    ensures Last([a, b], p) == if p(b) then Some(b) else if p(a) then Some(a) else None
  {
    assert [a, b][..1] == [a] && [a][..0] == [];
  }

  /** From one trial's lifted annotations the operator scorer computes what eval stored. */
  lemma TrialRescoresToItself(log: EvalLog, rubrics: seq<Rubric>, t: Trial, sample: SceneResult, k: nat, r: Rubric)
    requires k < |sample.epochs| && RubricsOk(rubrics) && LoggedTrial(rubrics, t, sample, k) && t.success
    requires r in rubrics && r.rescoredByOperator
    ensures Entry(rubrics, t, r) == Some(ScoreAnnotations(LiftTrial(log, sample, k), TrialKey(sample, k), r.name))
  {
    hide Affirmative, JudgementNames, SeveralReaders, FirstReader, Superseded, TrialKey, RunId;
    var s, key := LiftTrial(log, sample, k), TrialKey(sample, k);
    NothingRetired(s);
    LiftTrialAbout(log, sample, k);
    KindsDiffer();
    var own, general := Live({}, key, JUDGEMENT, Some(r.name)), Live({}, key, JUDGEMENT, None);
    var ownError, error := Live({}, key, GRADING_ERROR, Some(r.name)), Live({}, key, GRADING_ERROR, None);
    if |s| == 1 {
      assert s == [s[0]];
      TwoLast(s[0], s[0], own);
      TwoLast(s[0], s[0], general);
      TwoLast(s[0], s[0], ownError);
      TwoLast(s[0], s[0], error);
    } else if |s| == 2 {
      assert s == [s[0], s[1]];
      TwoLast(s[0], s[1], own);
      TwoLast(s[0], s[1], general);
      TwoLast(s[0], s[1], ownError);
      TwoLast(s[0], s[1], error);
    }
  }

  lemma KindsDiffer()
    ensures JUDGEMENT != NOTE && JUDGEMENT != GRADING_ERROR && NOTE != GRADING_ERROR
  {
    assert |JUDGEMENT| == 9 && |NOTE| == 4 && |GRADING_ERROR| == 13;
  }

  lemma EpochRescoresToItself(scenes: seq<Scene>, log: EvalLog, i: nat, k: nat)
    requires LoggedRun(scenes, log) && i < |log.samples| && k < |log.samples[i].epochs|
    ensures RescoredEpoch(log.samples[i], Lifted(log), k) == log.samples[i].epochs[k]
  {
    hide LiftTrial;
    hide VerdictScore;
    hide Current;
    var sample, rubrics := log.samples[i], scenes[i].rubrics;
    assert LoggedScene(rubrics, scenes[i].trials, sample);
    var t := scenes[i].trials[k];
    assert LoggedTrial(rubrics, t, sample, k);
    RunKeys(scenes, log);
    forall name | name in sample.epochs[k] && Rescorable(sample.rubrics, name)
      ensures ScoreAnnotations(Lifted(log), TrialKey(sample, k), name) == sample.epochs[k][name]
    {
      var r :| r in rubrics && r.name == name;
      RescorableAsDescribed(rubrics, sample.rubrics, r);
      TrialRescoresToItself(log, rubrics, t, sample, k, r);
      CurrentOfLifted(log, i, k, JUDGEMENT, Some(name));
      CurrentOfLifted(log, i, k, GRADING_ERROR, Some(name));
    }
  }

  /** Re-scoring a log nobody edited returns it unchanged. */
  lemma UneditedIsIdentity(scenes: seq<Scene>, log: EvalLog, reduce: Reducer)
    requires LoggedRun(scenes, log)
    ensures Rescored(log, Lifted(log), reduce) == log
  {
    forall i | 0 <= i < |log.samples|
      ensures ChangedHere(log.samples[i], Lifted(log)) == {}
    {
      forall k: nat | k < |log.samples[i].epochs|
        ensures RescoredEpoch(log.samples[i], Lifted(log), k) == log.samples[i].epochs[k]
      {
        EpochRescoresToItself(scenes, log, i, k);
      }
    }
    assert ChangedIn(log, Lifted(log)) == {};
  }

  // ---------------------------------------------------------------- re-scoring after edits

  /** Run ids tell trials and kinds apart. */
  lemma RunIdInjective(key1: string, kind1: string, key2: string, kind2: string)
    requires kind1 in {JUDGEMENT, NOTE, GRADING_ERROR} && kind2 in {JUDGEMENT, NOTE, GRADING_ERROR}
    requires RunId(key1, kind1) == RunId(key2, kind2)
    ensures key1 == key2 && kind1 == kind2
  {
    var id1, id2 := RunId(key1, kind1), RunId(key2, kind2);
    assert id1[|id1| - 1] == kind1[|kind1| - 1];
    assert id2[|id2| - 1] == kind2[|kind2| - 1];
    assert JUDGEMENT[8] == 't' && NOTE[3] == 'e' && GRADING_ERROR[12] == 'r';
    assert kind1 == kind2;
    assert key1 == id1[..|key1|] && key2 == id2[..|key2|];
  }

  ghost predicate DistinctIds(s: seq<Annotation>) {
    forall i, j :: 0 <= i < j < |s| ==> s[i].id != s[j].id
  }

  /** Every id is the run id of a trial with one of `keys`. */
  ghost predicate IdsFrom(s: seq<Annotation>, keys: set<string>) {
    forall a :: a in s ==>
      exists key, kind :: key in keys && kind in {JUDGEMENT, NOTE, GRADING_ERROR} && a.id == RunId(key, kind)
  }

  lemma IdsApart(a: seq<Annotation>, b: seq<Annotation>, ka: set<string>, kb: set<string>)
    requires IdsFrom(a, ka) && IdsFrom(b, kb) && ka !! kb
    requires DistinctIds(a) && DistinctIds(b)
    ensures DistinctIds(a + b) && IdsFrom(a + b, ka + kb)
  {
    forall x, y | x in a && y in b
      ensures x.id != y.id
    {
      var k1, d1 :| k1 in ka && d1 in {JUDGEMENT, NOTE, GRADING_ERROR} && x.id == RunId(k1, d1);
      var k2, d2 :| k2 in kb && d2 in {JUDGEMENT, NOTE, GRADING_ERROR} && y.id == RunId(k2, d2);
      if x.id == y.id {
        RunIdInjective(k1, d1, k2, d2);
      }
    }
    forall x | x in a + b
      ensures exists key, kind ::
                key in ka + kb && kind in {JUDGEMENT, NOTE, GRADING_ERROR} && x.id == RunId(key, kind)
    {
      if x in a {
        var k, d :| k in ka && d in {JUDGEMENT, NOTE, GRADING_ERROR} && x.id == RunId(k, d);
        assert k in ka + kb;
      } else {
        var k, d :| k in kb && d in {JUDGEMENT, NOTE, GRADING_ERROR} && x.id == RunId(k, d);
        assert k in ka + kb;
      }
    }
  }

  lemma NoIds(keys: set<string>)
    ensures DistinctIds([]) && IdsFrom([], keys)
  {
  }

  lemma LiftTrialIds(log: EvalLog, sample: SceneResult, k: nat)
    ensures DistinctIds(LiftTrial(log, sample, k)) && IdsFrom(LiftTrial(log, sample, k), {TrialKey(sample, k)})
  {
    var s, key := LiftTrial(log, sample, k), TrialKey(sample, k);
    KindsDiffer();
    forall i | 0 <= i < |s|
      ensures s[i].id == RunId(key, s[i].kind) && s[i].kind in {JUDGEMENT, NOTE, GRADING_ERROR}
    {
    }
    forall i, j | 0 <= i < j < |s|
      ensures s[i].id != s[j].id
    {
      assert s[i].kind != s[j].kind;
      if s[i].id == s[j].id {
        RunIdInjective(key, s[i].kind, key, s[j].kind);
      }
    }
  }

  function SceneKeys(sample: SceneResult, n: nat): set<string> {
    set k: nat | k < n :: TrialKey(sample, k)
  }

  function RunKeySet(log: EvalLog, n: nat): set<string>
    requires n <= |log.samples|
  {
    set i, k: nat | 0 <= i < n && k < |log.samples[i].epochs| :: TrialKey(log.samples[i], k)
  }

  lemma {:induction false} LiftSceneIds(log: EvalLog, i: nat, n: nat)
    requires KeysDistinct(log) && i < |log.samples| && n <= |log.samples[i].epochs|
    ensures DistinctIds(LiftScene(log, log.samples[i], n))
    ensures IdsFrom(LiftScene(log, log.samples[i], n), SceneKeys(log.samples[i], n))
  {
    hide LiftTrial;
    hide DistinctIds;
    hide IdsFrom;
    if n == 0 {
      NoIds(SceneKeys(log.samples[i], 0));
    } else {
      var sample := log.samples[i];
      LiftSceneIds(log, i, n - 1);
      LiftTrialIds(log, sample, n - 1);
      assert forall l: nat :: l < n ==> IsTrial(log, i, l);
      IdsApart(LiftScene(log, sample, n - 1), LiftTrial(log, sample, n - 1), SceneKeys(sample, n - 1),
               {TrialKey(sample, n - 1)});
      assert SceneKeys(sample, n) == SceneKeys(sample, n - 1) + {TrialKey(sample, n - 1)};
    }
  }

  lemma KeySets(log: EvalLog, n: nat)
    requires KeysDistinct(log) && n < |log.samples|
    ensures
      var here := SceneKeys(log.samples[n], |log.samples[n].epochs|);
      RunKeySet(log, n) !! here && RunKeySet(log, n + 1) == RunKeySet(log, n) + here
  {
    var sample := log.samples[n];
    var here := SceneKeys(sample, |sample.epochs|);
    forall key | key in RunKeySet(log, n)
      ensures key !in here
    {
      var i, k: nat :| 0 <= i < n && k < |log.samples[i].epochs| && TrialKey(log.samples[i], k) == key;
      assert IsTrial(log, i, k);
      assert forall l: nat :: l < |sample.epochs| ==> IsTrial(log, n, l);
    }
  }

  lemma {:induction false} LiftScenesIds(log: EvalLog, n: nat)
    requires KeysDistinct(log) && n <= |log.samples|
    ensures DistinctIds(LiftScenes(log, n)) && IdsFrom(LiftScenes(log, n), RunKeySet(log, n))
  {
    hide LiftScene;
    hide DistinctIds;
    hide IdsFrom;
    if n == 0 {
      NoIds(RunKeySet(log, 0));
    } else {
      var sample := log.samples[n - 1];
      LiftScenesIds(log, n - 1);
      LiftSceneIds(log, n - 1, |sample.epochs|);
      KeySets(log, n - 1);
      IdsApart(LiftScenes(log, n - 1), LiftScene(log, sample, |sample.epochs|), RunKeySet(log, n - 1),
               SceneKeys(sample, |sample.epochs|));
    }
  }

  /** A lifted log is well edited, so every law about edits applies to it. */
  lemma LiftedIsWellEdited(log: EvalLog)
    requires KeysDistinct(log)
    ensures WellEdited(Lifted(log))
  {
    LiftScenesIds(log, |log.samples|);
    LiftRetiresNothing(log, |log.samples|);
    assert forall j :: 0 <= j < |Lifted(log)| ==> Lifted(log)[j] in Lifted(log);
  }

  /** The score a rubric re-scores to, read off the last-write map. */
  function MapScore(m: map<Slot, Annotation>, key: string, rubric: string): Option<real> {
    var judgement := Lookup(m, key, JUDGEMENT, Some(rubric));
    VerdictScore(if judgement.Some? then Some(judgement.value.value) else None,
                 Lookup(m, key, GRADING_ERROR, Some(rubric)).Some?)
  }

  /** After any edits, every re-scored value is the map's: the last verdict given for that trial and
      rubric, or for every rubric, decides; other scores and errored trials stay as stored. */
  lemma EditedScores(log: EvalLog, edits: seq<Edit>, i: nat, k: nat)
    requires KeysDistinct(log) && FreshIds(Lifted(log), edits)
    requires i < |log.samples| && k < |log.samples[i].epochs|
    ensures
      var all := EditAll(Lifted(log), edits);
      var sample := log.samples[i];
      && RescoredEpoch(sample, all, k).Keys == sample.epochs[k].Keys
      && forall name :: name in sample.epochs[k] ==>
           RescoredEpoch(sample, all, k)[name]
           == if Rescorable(sample.rubrics, name) then MapScore(MapOf(all), TrialKey(sample, k), name)
              else sample.epochs[k][name]
  {
    var all, sample := EditAll(Lifted(log), edits), log.samples[i];
    LiftedIsWellEdited(log);
    EditsAreWrites(Lifted(log), edits);
    forall name
      ensures ScoreAnnotations(all, TrialKey(sample, k), name) == MapScore(MapOf(all), TrialKey(sample, k), name)
    {
      CurrentIsLookup(all, TrialKey(sample, k), JUDGEMENT, Some(name));
      CurrentIsLookup(all, TrialKey(sample, k), GRADING_ERROR, Some(name));
    }
  }

  /** The trial scores of a re-scored sample are its re-scored epochs, changed or not. */
  lemma SampleEpochs(sample: SceneResult, all: seq<Annotation>, reducer: string, reduce: Reducer)
    ensures RescoredSample(sample, all, reducer, reduce).epochs == RescoredEpochs(sample, all)
    ensures
      var r := RescoredSample(sample, all, reducer, reduce);
      r == sample.(epochs := r.epochs, reduced := r.reduced)
  {
    var epochs := RescoredEpochs(sample, all);
    if ChangedNames(sample.epochs, epochs) == {} {
      Unchanged(sample.epochs, epochs);
    }
  }

  lemma ChangeIsNamed(before: seq<map<string, Option<real>>>, after: seq<map<string, Option<real>>>, k: nat, name: string)
    requires |before| == |after| && forall j :: 0 <= j < |before| ==> before[j].Keys == after[j].Keys
    requires k < |before| && name in before[k] && after[k][name] != before[k][name]
    ensures name in ChangedNames(before, after)
  {
  }

  lemma Unchanged(before: seq<map<string, Option<real>>>, after: seq<map<string, Option<real>>>)
    requires |before| == |after| && forall j :: 0 <= j < |before| ==> before[j].Keys == after[j].Keys
    requires ChangedNames(before, after) == {}
    ensures before == after
  {
    hide ChangedNames;
    forall k: nat | k < |before|
      ensures before[k] == after[k]
    {
      forall name | name in before[k]
        ensures before[k][name] == after[k][name]
      {
        if after[k][name] != before[k][name] {
          ChangeIsNamed(before, after, k, name);
        }
      }
    }
  }

  lemma SampleSettles(sample: SceneResult, all: seq<Annotation>, reducer: string, reduce: Reducer)
    ensures
      var after := RescoredSample(sample, all, reducer, reduce);
      ChangedHere(after, all) == {}
  {
    SampleEpochs(sample, all, reducer, reduce);
    var after := RescoredSample(sample, all, reducer, reduce);
    forall k: nat | k < |after.epochs|
      ensures RescoredEpoch(after, all, k) == after.epochs[k]
    {
      assert TrialKey(after, k) == TrialKey(sample, k);
      assert after.epochs[k] == RescoredEpoch(sample, all, k);
    }
  }

  /** Re-scoring a second time, from the same annotations, changes nothing. */
  lemma RescoreIdempotent(log: EvalLog, all: seq<Annotation>, reduce: Reducer)
    ensures Rescored(Rescored(log, all, reduce), all, reduce) == Rescored(log, all, reduce)
  {
    hide RescoredSample;
    hide ChangedHere;
    hide Remetered;
    hide Recounted;
    var once := Rescored(log, all, reduce);
    if ChangedIn(log, all) != {} {
      forall i | 0 <= i < |once.samples|
        ensures ChangedHere(once.samples[i], all) == {}
      {
        SampleSettles(log.samples[i], all, ReducerOf(log), reduce);
      }
      assert ChangedIn(once, all) == {};
    }
  }

  /** Results of rubrics no trial of which changed stay exactly as stored, in the log and per scene;
      nothing but results is ever touched. */
  lemma RescoreFrame(log: EvalLog, all: seq<Annotation>, reduce: Reducer, name: string)
    requires name !in ChangedIn(log, all)
    ensures
      var r := Rescored(log, all, reduce);
      && (name in r.metrics <==> name in log.metrics) && (name in r.metrics ==> r.metrics[name] == log.metrics[name])
      && (name in r.abstentions <==> name in log.abstentions)
      && (name in r.abstentions ==> r.abstentions[name] == log.abstentions[name])
      && |r.samples| == |log.samples|
      && forall i :: 0 <= i < |log.samples| ==>
           && (name in r.samples[i].reduced <==> name in log.samples[i].reduced)
           && (name in r.samples[i].reduced ==> r.samples[i].reduced[name] == log.samples[i].reduced[name])
           && r.samples[i] == log.samples[i].(epochs := r.samples[i].epochs, reduced := r.samples[i].reduced)
  {
    forall i | 0 <= i < |log.samples|
      ensures name !in ChangedHere(log.samples[i], all)
    {
      SampleEpochs(log.samples[i], all, ReducerOf(log), reduce);
    }
  }
}
