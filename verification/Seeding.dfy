/**
 Filling a session's empty state volume with its image's home directory
 (src/controller/pod.rs): the seed container runs before the worker and leaves a
 marker, across crashes, retries, suspends and resumes.
 */
module Seeding {
  import opened Basics
  import opened Pods

  /** `ran`: the worker has run on it since it was made. */
  datatype Home = Home(cloned: bool, marker: bool, ran: bool)

  datatype Stage = Initial | Copying | Seeded | Serving

  /** `seeds`: the pod has the seed container. */
  datatype Worker = Worker(seeds: bool, stage: Stage)

  /** `copiedOver` is history: a home was copied onto a volume on which the worker had run. */
  datatype Site = Site(volume: Option<Home>, pod: Option<Worker>, copiedOver: bool)

  /** The image settings a start uses: the session's, the pool's, and whether the pool has a data source. */
  datatype Settings = Settings(spec: ImageSpec, buildImage: Option<string>, hasSource: bool)

  datatype Step =
    | Prepare(settings: Settings)         // the volume is made, or found
    | CreatePod(settings: Settings)       // after a prepare
    | BeginCopy                           // the script finds no marker
    | FinishCopy                          // the copy is complete and marked
    | SkipCopy                            // the script finds the marker
    | RunWorker
    | Restart                             // the pod's containers start over, wherever they were
    | LosePod
    | LoseVolume

  function OwnImage(s: Settings): bool { ImageOverride(s.spec, s.buildImage).Some? }

  predicate Enabled(x: Site, s: Step) {
    match s
    case Prepare(settings) => x.volume.None? ==> OwnImage(settings) || settings.hasSource
    case CreatePod(_) => x.volume.Some? && x.pod.None?
    case BeginCopy => x.volume.Some? && x.pod.Some? && x.pod.value.seeds && x.pod.value.stage == Initial && !x.volume.value.marker
    case FinishCopy => x.volume.Some? && x.pod.Some? && x.pod.value.stage == Copying
    case SkipCopy => x.volume.Some? && x.pod.Some? && x.pod.value.seeds && x.pod.value.stage == Initial && x.volume.value.marker
    case RunWorker => x.volume.Some? && x.pod.Some?
                      && (x.pod.value.stage == Seeded || (!x.pod.value.seeds && x.pod.value.stage == Initial))
    case Restart => x.pod.Some?
    case LosePod => true
    case LoseVolume => x.pod.None?
  }

  function Apply(x: Site, s: Step): Site
    requires Enabled(x, s)
  {
    match s
    case Prepare(settings) => if x.volume.Some? then x else x.(volume := Some(Home(!OwnImage(settings), false, false)))
    case CreatePod(settings) => x.(pod := Some(Worker(!x.volume.value.cloned && OwnImage(settings), Initial)))
    case BeginCopy => x.(pod := Some(x.pod.value.(stage := Copying)), copiedOver := x.copiedOver || x.volume.value.ran)
    case FinishCopy => x.(pod := Some(x.pod.value.(stage := Seeded)), volume := Some(x.volume.value.(marker := true)))
    case SkipCopy => x.(pod := Some(x.pod.value.(stage := Seeded)))
    case RunWorker => x.(pod := Some(x.pod.value.(stage := Serving)), volume := Some(x.volume.value.(ran := true)))
    case Restart => x.(pod := Some(x.pod.value.(stage := Initial)))
    case LosePod => x.(pod := None)
    case LoseVolume => x.(volume := None)
  }

  /** The site after the steps; None if one of them was not enabled. */
  function Run(steps: seq<Step>): Option<Site> {
    if steps == [] then Some(Site(None, None, false))
    else
      var before, s := Run(steps[..|steps| - 1]), steps[|steps| - 1];
      if before.Some? && Enabled(before.value, s) then Some(Apply(before.value, s)) else None
  }

  /** Every start agrees on whether the session's image is its own or the pool's. */
  predicate Agree(steps: seq<Step>, own: bool) {
    forall s <- steps :: s.Prepare? || s.CreatePod? ==> OwnImage(s.settings) == own
  }

  predicate Inv(x: Site, own: bool) {
    && !x.copiedOver
    && (x.pod.Some? ==> x.volume.Some? && x.pod.value.seeds == own)
    && (x.pod.Some? && x.pod.value.stage == Copying ==> x.pod.value.seeds && !x.volume.value.ran)
    && (x.pod.Some? && x.pod.value.seeds && x.pod.value.stage in {Seeded, Serving} ==> x.volume.value.marker)
    && (x.volume.Some? ==> x.volume.value.cloned == !own)
    && (x.volume.Some? && x.volume.value.ran ==> x.volume.value.cloned || x.volume.value.marker)
  }

  /**
   While every start agrees on that, and the marker is left in place, a home is
   never copied onto a volume on which the worker has run, and a cloned volume's
   pod never copies at all, over any sequence of steps.
   */
  lemma {:induction false} SeededOnce(steps: seq<Step>, own: bool)
    requires Run(steps).Some? && Agree(steps, own)
    ensures Inv(Run(steps).value, own)
    ensures var x := Run(steps).value;
            !x.copiedOver && (x.volume.Some? && x.volume.value.cloned && x.pod.Some? ==>
                                !x.pod.value.seeds && x.pod.value.stage != Copying)
  {
    if steps != [] {
      SeededOnce(steps[..|steps| - 1], own);
    }
  }

  /** Whatever the settings of each start, a volume cloned with its home is never seeded. */
  lemma {:induction false} ClonedIsNeverSeeded(steps: seq<Step>)
    requires Run(steps).Some?
    ensures var x := Run(steps).value;
            x.pod.Some? ==> x.volume.Some? && (x.pod.value.seeds || x.pod.value.stage == Copying ==> !x.volume.value.cloned)
  {
    if steps != [] {
      ClonedIsNeverSeeded(steps[..|steps| - 1]);
    }
  }

  /** All starts use settings among `all`. */
  ghost predicate Among(steps: seq<Step>, all: iset<Settings>) {
    forall s <- steps :: s.Prepare? || s.CreatePod? ==> s.settings in all
  }

  /** No run over these settings copies over a home in use. */
  ghost predicate SeedsOnce(all: iset<Settings>) {
    forall steps :: Run(steps).Some? && Among(steps, all) ==> !Run(steps).value.copiedOver
  }

  /**
   Over any settings that may come and go, homes are seeded once if and only if
   the session has an image of its own, named by itself or built for it, under all
   of them or under none.
   */
  lemma SeededOnceExactlyWhen(all: iset<Settings>)
    ensures SeedsOnce(all) <==>
            || (forall s :: s in all ==> s.spec.image.Some? || (s.spec.imageBuild && s.buildImage.Some?))
            || (forall s :: s in all ==> s.spec.image.None? && (s.spec.imageBuild ==> s.buildImage.None?))
  {
    assert forall s :: OwnImage(s) <==> s.spec.image.Some? || (s.spec.imageBuild && s.buildImage.Some?);
    if s, t :| s in all && t in all && OwnImage(s) && !OwnImage(t) {
      var steps := ChangedSettingsCopyOver(s, t);
      assert Among(steps, all);
    } else {
      forall steps | Run(steps).Some? && Among(steps, all) ensures !Run(steps).value.copiedOver {
        var own := exists s :: s in all && OwnImage(s);
        assert Agree(steps, own);
        SeededOnce(steps, own);
      }
    }
  }

  /**
   How it happens: the volume is made empty for an image of the session's own,
   one pod starts without it and runs on the volume, and the next one seeds it.
   */
  lemma ChangedSettingsCopyOver(given: Settings, unset: Settings) returns (steps: seq<Step>)
    requires OwnImage(given) && !OwnImage(unset)
    ensures steps == [Prepare(given), CreatePod(unset), RunWorker, LosePod, CreatePod(given), BeginCopy]
    ensures Run(steps).Some? && Run(steps).value.copiedOver
  {
    steps := OneStep([], Prepare(given));
    steps := OneStep(steps, CreatePod(unset));
    steps := OneStep(steps, RunWorker);
    steps := OneStep(steps, LosePod);
    steps := OneStep(steps, CreatePod(given));
    steps := OneStep(steps, BeginCopy);
  }

  lemma OneStep(steps: seq<Step>, s: Step) returns (longer: seq<Step>)
    requires Run(steps).Some? && Enabled(Run(steps).value, s)
    ensures longer == steps + [s] && Run(longer) == Some(Apply(Run(steps).value, s))
  {
    longer := steps + [s];
    assert longer[..|steps|] == steps;
  }
}
