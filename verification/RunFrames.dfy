/**
 The frames of a whole run: every trial's rollout stores its observations, camera by camera, in one
 directory shared by all scenes and epochs.
 */
module RunFrames {
  import opened Basics
  import opened Frames
  import Rollout

  /** A trial's record, and what the cameras saw at each of its observations. */
  datatype Trial = Trial(record: Rollout.Record, shots: nat -> seq<Shot>)

  datatype Scene = Scene(id: Bytes, trials: seq<Trial>)

  /** The puts of the first `n` frames of a trial, */
  function TrialPuts(scene: Bytes, epoch: nat, trial: Trial, n: nat): seq<Put>
    requires n <= |trial.record.frames|
  {
    if n == 0 then []
    else
      var t := trial.record.frames[n - 1];
      TrialPuts(scene, epoch, trial, n - 1) + ShotPuts(scene, epoch, t, trial.shots(t))
  }

  /** of the first `n` epochs of a scene, */
  function ScenePuts(scene: Scene, n: nat): seq<Put>
    requires n <= |scene.trials|
  {
    if n == 0 then []
    else
      var trial := scene.trials[n - 1];
      ScenePuts(scene, n - 1) + TrialPuts(scene.id, n - 1, trial, |trial.record.frames|)
  }

  /** and of the first `n` scenes of a run. */
  function RunPuts(scenes: seq<Scene>, n: nat): seq<Put>
    requires n <= |scenes|
  {
    if n == 0 then [] else RunPuts(scenes, n - 1) + ScenePuts(scenes[n - 1], |scenes[n - 1].trials|)
  }

  /** Some rollout left this record. */
  ghost predicate IsRollout(record: Rollout.Record) {
    exists trial, script, b, asked, out :: Rollout.Settled(trial, script, b, asked, record, out)
  }

  /** The cameras of an observation have different names. */
  ghost predicate OwnCameras(shots: seq<Shot>) {
    forall i, j :: 0 <= i < j < |shots| ==> shots[i].camera != shots[j].camera
  }

  ghost predicate TrialOk(trial: Trial) {
    IsRollout(trial.record) && forall t :: OwnCameras(trial.shots(t))
  }

  /** What a task and the harness guarantee: scene ids are distinct, every record is a rollout's, and an
      observation names its cameras apart. */
  ghost predicate RunOk(scenes: seq<Scene>) {
    && (forall i, j :: 0 <= i < j < |scenes| ==> scenes[i].id != scenes[j].id)
    && forall i, e :: 0 <= i < |scenes| && 0 <= e < |scenes[i].trials| ==> TrialOk(scenes[i].trials[e])
  }

  // ---------------------------------------------------------------- every put has its own key

  lemma DistinctJoin(a: seq<Put>, b: seq<Put>)
    requires DistinctKeys(a) && DistinctKeys(b)
    requires forall p, q :: p in a && q in b ==> p.Key() != q.Key()
    ensures DistinctKeys(a + b)
  {
    var whole := a + b;
    forall i, j | 0 <= i < j < |whole|
      ensures whole[i].Key() != whole[j].Key()
    {
      if i < |a| <= j {
        assert whole[i] in a && whole[j] in b;
      }
    }
  }

  lemma NothingDistinct()
    ensures DistinctKeys([])
  {
  }

  lemma ShotsDistinct(scene: Bytes, epoch: nat, t: nat, shots: seq<Shot>)
    requires OwnCameras(shots)
    ensures DistinctKeys(ShotPuts(scene, epoch, t, shots))
  {
  }

  /** A rollout keeps each frame once, so no two puts of a trial share step and camera. */
  lemma {:induction false} TrialDistinct(scene: Bytes, epoch: nat, trial: Trial, n: nat)
    requires n <= |trial.record.frames| && trial.record.frames == Rollout.Naturals(|trial.record.frames|)
    requires forall t :: OwnCameras(trial.shots(t))
    ensures DistinctKeys(TrialPuts(scene, epoch, trial, n))
    ensures forall p :: p in TrialPuts(scene, epoch, trial, n) ==> p.scene == scene && p.epoch == epoch && p.t < n
  {
    if n > 0 {
      var t := trial.record.frames[n - 1];
      TrialDistinct(scene, epoch, trial, n - 1);
      ShotsDistinct(scene, epoch, t, trial.shots(t));
      DistinctJoin(TrialPuts(scene, epoch, trial, n - 1), ShotPuts(scene, epoch, t, trial.shots(t)));
    }
  }

  lemma RolloutFrames(record: Rollout.Record)
    requires IsRollout(record)
    ensures record.frames == Rollout.Naturals(|record.frames|)
  {
    hide Rollout.Settled;
    var trial, script, b, asked, out :| Rollout.Settled(trial, script, b, asked, record, out);
    Rollout.FramesInOrder(trial, script, b, asked, record, out);
  }

  lemma RecordDistinct(scene: Bytes, epoch: nat, trial: Trial)
    requires TrialOk(trial)
    ensures
      var puts := TrialPuts(scene, epoch, trial, |trial.record.frames|);
      DistinctKeys(puts) && forall p :: p in puts ==> p.scene == scene && p.epoch == epoch
  {
    RolloutFrames(trial.record);
    hide IsRollout;
    TrialDistinct(scene, epoch, trial, |trial.record.frames|);
  }

  lemma {:induction false} SceneDistinct(scene: Scene, n: nat)
    requires n <= |scene.trials| && forall e :: 0 <= e < n ==> TrialOk(scene.trials[e])
    ensures DistinctKeys(ScenePuts(scene, n))
    ensures forall p :: p in ScenePuts(scene, n) ==> p.scene == scene.id && p.epoch < n
  {
    hide TrialOk, TrialPuts, DistinctKeys;
    NothingDistinct();
    if n > 0 {
      var trial := scene.trials[n - 1];
      SceneDistinct(scene, n - 1);
      RecordDistinct(scene.id, n - 1, trial);
      DistinctJoin(ScenePuts(scene, n - 1), TrialPuts(scene.id, n - 1, trial, |trial.record.frames|));
    }
  }

  lemma {:induction false} RunDistinct(scenes: seq<Scene>, n: nat)
    requires n <= |scenes| && RunOk(scenes)
    ensures DistinctKeys(RunPuts(scenes, n))
    ensures forall p :: p in RunPuts(scenes, n) ==> exists i :: 0 <= i < n && p.scene == scenes[i].id
  {
    hide TrialOk, ScenePuts, DistinctKeys;
    NothingDistinct();
    if n > 0 {
      var last := scenes[n - 1];
      RunDistinct(scenes, n - 1);
      SceneDistinct(last, |last.trials|);
      DistinctJoin(RunPuts(scenes, n - 1), ScenePuts(last, |last.trials|));
      assert forall p :: p in ScenePuts(last, |last.trials|) ==> p.scene == scenes[n - 1].id;
    }
  }

  // ---------------------------------------------------------------- storing a run

  method StoreTrial(store: FrameStore, scene: Bytes, epoch: nat, trial: Trial)
    modifies store
    ensures store.files == Over(old(store.files), TrialPuts(scene, epoch, trial, |trial.record.frames|))
  {
    hide Over, TrialPuts;
    NoPuts(store.files, scene, epoch, trial);
    for k := 0 to |trial.record.frames|
      invariant store.files == Over(old(store.files), TrialPuts(scene, epoch, trial, k))
    {
      var t := trial.record.frames[k];
      OverTrial(old(store.files), scene, epoch, trial, k);
      store.StoreObservation(scene, epoch, t, trial.shots(t));
    }
  }

  lemma NoPuts(files: map<Bytes, nat>, scene: Bytes, epoch: nat, trial: Trial)
    ensures Over(files, TrialPuts(scene, epoch, trial, 0)) == files == Over(files, [])
  {
  }

  lemma OverTrial(files: map<Bytes, nat>, scene: Bytes, epoch: nat, trial: Trial, k: nat)
    requires k < |trial.record.frames|
    ensures
      var t := trial.record.frames[k];
      Over(files, TrialPuts(scene, epoch, trial, k + 1))
      == Over(Over(files, TrialPuts(scene, epoch, trial, k)), ShotPuts(scene, epoch, t, trial.shots(t)))
  {
    var t := trial.record.frames[k];
    OverConcat(files, TrialPuts(scene, epoch, trial, k), ShotPuts(scene, epoch, t, trial.shots(t)));
  }

  method StoreScene(store: FrameStore, scene: Scene)
    modifies store
    ensures store.files == Over(old(store.files), ScenePuts(scene, |scene.trials|))
  {
    for e := 0 to |scene.trials|
      invariant store.files == Over(old(store.files), ScenePuts(scene, e))
    {
      var trial := scene.trials[e];
      OverConcat(old(store.files), ScenePuts(scene, e), TrialPuts(scene.id, e, trial, |trial.record.frames|));
      StoreTrial(store, scene.id, e, trial);
    }
  }

  /** The directory of a run holds every frame of every trial under its own name, and nothing else. */
  method StoreRun(scenes: seq<Scene>) returns (store: FrameStore)
    requires RunOk(scenes)
    ensures Holds(store.files, RunPuts(scenes, |scenes|))
  {
    store := new FrameStore();
    for i := 0 to |scenes|
      invariant fresh(store) && store.files == Written(RunPuts(scenes, i))
    {
      OverConcat(map[], RunPuts(scenes, i), ScenePuts(scenes[i], |scenes[i].trials|));
      StoreScene(store, scenes[i]);
    }
    RunDistinct(scenes, |scenes|);
    NoFrameIsLost(RunPuts(scenes, |scenes|));
  }
}
