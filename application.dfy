/** An app of the build/deploy service (binder/app.py): its metadata, the
    pipeline that builds its notebook image, and the deployment of the app and
    its services on the cluster. Everything the pipeline hands to another
    program (git, docker, the squash-and-push script, the service objects, the
    template helpers) is an input of the model: `raw(step)` says how that step
    ended. `raw` is keyed by the step's value, so two equal steps (two services
    with the same fields, say) always end the same way. The persistent record of build states is the `AppIndex` object. */
module Application {
  import opened Common
  import opened Text
  import opened Recipe
  import opened Kubernetes

  /** The fields of the app's metadata the core reads: `meta["app"]` and `meta["path"]`.
      `services` are the service objects the `services` property resolves. */
  datatype AppMeta = AppMeta(name: string, path: string, services: seq<Service>, dependencies: seq<string>,
                             notebooks: Option<string>, repoUrl: Option<string>)

  /** `map(lambda d: d.lower(), dependencies)`: every tag lower-cased, in order. */
  function LowerAll(tags: seq<string>): (lowered: seq<string>)
    ensures |lowered| == |tags|
    ensures forall k :: 0 <= k < |tags| ==> lowered[k] == Lower(tags[k])
  {
    seq(|tags|, k requires 0 <= k < |tags| => Lower(tags[k]))
  }

  const DOCKERFILE := "dockerfile"

  /** The dependency tags decide the recipe: a "dockerfile" tag, in any
      capitalisation, selects the repository's own Dockerfile. */
  lemma DockerfileTagAnyCase(tags: seq<string>)
    ensures DOCKERFILE in LowerAll(tags) <==> exists k :: 0 <= k < |tags| && Lower(tags[k]) == DOCKERFILE
    ensures "Dockerfile" in tags ==> DOCKERFILE in LowerAll(tags)
  {
    if "Dockerfile" in tags {
      var k :| 0 <= k < |tags| && tags[k] == "Dockerfile";
      assert Lower(tags[k]) == DOCKERFILE;
      assert LowerAll(tags)[k] == DOCKERFILE;
    }
    if exists k :: 0 <= k < |tags| && Lower(tags[k]) == DOCKERFILE {
      var k :| 0 <= k < |tags| && Lower(tags[k]) == DOCKERFILE;
      assert LowerAll(tags)[k] == DOCKERFILE;
    }
  }

  /** `_get_image_name`. */
  function ImageName(registry: string, name: string): string {
    registry + "/" + name
  }

  /** `_get_base_image_name`. */
  function BaseImageName(registry: string): string {
    registry + "/binder-base"
  }

  /** The tag the app image is built under: the image name lower-cased. */
  function ImageTag(registry: string, name: string): (tag: string)
    ensures |tag| == |ImageName(registry, name)|
  {
    Lower(ImageName(registry, name))
  }

  /** The image is built under a tag that differs from the name it is pushed
      and deployed under exactly when that name has a capital letter. */
  lemma ImageTagIsPushedName(registry: string, name: string)
    ensures ImageTag(registry, name) == ImageName(registry, name)
        <==> forall i :: 0 <= i < |ImageName(registry, name)| ==> !IsUpper(ImageName(registry, name)[i])
  {
    LowerUnchanged(ImageName(registry, name));
  }

  /** A value of the parameter dictionary given to the deployment templates. */
  datatype ParamValue = Text(text: string) | Number(number: int)

  const NOTEBOOK_PORT := 8888

  /** `get_app_params`: the app's parameters, each key under the "app." namespace. */
  function AppParams(name: string, appId: string, registry: string): (params: map<string, ParamValue>)
    ensures params.Keys == {"app.name", "app.id", "app.notebooks-image", "app.notebooks-port"}
  {
    map["app.name" := Text(name), "app.id" := Text(appId),
        "app.notebooks-image" := Text(ImageName(registry, name)), "app.notebooks-port" := Number(NOTEBOOK_PORT)]
  }

  /** The deployed notebook image is the pushed image, not the lower-cased
      build tag, and the parameters carry the app's own deployment id. */
  lemma AppParamsImage(name: string, appId: string, registry: string)
    ensures AppParams(name, appId, registry)["app.notebooks-image"] == Text(ImageName(registry, name))
    ensures AppParams(name, appId, registry)["app.id"] == Text(appId)
    ensures AppParams(name, appId, registry)["app.notebooks-port"] == Number(8888)
    ensures Lower(ImageName(registry, name)) == ImageTag(registry, name)
  {
  }

  /** What `get_app` returns: every app, the named app, or None. */
  datatype Lookup = AllApps(metas: set<AppMeta>) | OneApp(meta: AppMeta) | NoApp

  /** `get_app(name)` over the index's apps (a metadata record is never empty, so always truthy). */
  function GetApp(apps: map<string, AppMeta>, name: Option<string>): (r: Lookup)
    ensures !Truthy(name) <==> r.AllApps?
    ensures r.AllApps? ==> r.metas == apps.Values
    ensures r.OneApp? ==> name.Some? && name.value in apps && r.meta == apps[name.value]
    ensures r.NoApp? <==> Truthy(name) && name.value !in apps
  {
    if !Truthy(name) then AllApps(apps.Values)
    else if name.value in apps then OneApp(apps[name.value])
    else NoApp
  }

  // ---------------------------------------------------------------------------
  // The build pipeline

  datatype BuildState = BUILDING | COMPLETED | FAILED

  /** The persistent record of every app's build state (`App.index`). */
  class AppIndex {
    var buildStates: map<string, BuildState>

    constructor (buildStates: map<string, BuildState>)
      ensures this.buildStates == buildStates
    {
      this.buildStates := buildStates;
    }

    /** `update_build_state`: records the app's new state, leaving the others as they were. */
    method UpdateBuildState(name: string, state: BuildState)
      modifies this
      ensures buildStates == old(buildStates)[name := state]
    {
      buildStates := buildStates[name := state];
    }

    /** `get_build_state`: the app's state, if a build was ever attempted. */
    function GetBuildState(name: string): (s: Option<BuildState>)
      reads this
      ensures s.Some? <==> name in buildStates
      ensures s.Some? ==> s.value == buildStates[name]
    {
      if name in buildStates then Some(buildStates[name]) else None
    }
  }

  /** The steps of `build` after the build state is recorded, each carrying
      the names the source passes to its external command. */
  datatype Step =
    | FetchRepo                                   // `_fetch_repo`
    | BuildService(service: Service)              // `service.build()`
    | FillTemplates                               // `_fill_templates`
    | BuildBaseImage(image: string)               // `_build_base_image`
    | CopyRepo                                    // `make_dir` and `copytree` of the cloned repository
    | WriteRecipe(adapted: bool)                  // writing the Dockerfile, adapted or synthesized
    | BuildAppImage(tag: string, context: string) // `docker build -t <tag> <context>`
    | PushImage(image: string)                    // `_push_image`
    | PreloadAppImage(image: string)              // `_preload_image`

  /** How an external step ended: normally, with a falsy result (a service
      build that returned False, a repository that answered 404), or raising. */
  datatype Raw = Fine | Falsy | Threw(error: Exc)

  /** A failed command becomes a `BuildFailedException` with `message`; anything else escapes. */
  function Converted(raw: Raw, message: string): (e: Option<Exc>)
    ensures e.Some? <==> raw.Threw?
    ensures raw == Threw(CalledProcessError) ==> e == Some(BuildFailedException(message))
    ensures raw.Threw? && raw.error != CalledProcessError ==> e == Some(raw.error)
  {
    if raw == Threw(CalledProcessError) then Some(BuildFailedException(message))
    else if raw.Threw? then Some(raw.error)
    else None
  }

  /** The exception a step raises, as its `try`/`except` converts it, or None when the build goes on. */
  function Effect(step: Step, raw: Raw, name: string): (e: Option<Exc>)
    ensures raw.Fine? ==> e.None?
    ensures raw.Threw? ==> e.Some?
    ensures raw.Falsy? ==> (e.Some? <==> step.FetchRepo? || step.BuildService?)
    ensures raw.Threw? && raw.error != CalledProcessError && !step.FetchRepo? ==> e == Some(raw.error)
    ensures e.Some? && !(raw.Threw? && e.value == raw.error) ==>
      step.FetchRepo? || step.BuildService? || raw == Threw(CalledProcessError)
  {
    match step
    case FetchRepo => if raw.Fine? then None else Some(BuildFailedException("could not fetch repository"))
    case BuildService(s) =>
      if raw.Threw? then Some(raw.error)
      else if raw.Falsy? then Some(BuildFailedException("could not build service " + s.fullName))
      else None
    case BuildBaseImage(_) => Converted(raw, "could not build the base image")
    case BuildAppImage(_, _) => Converted(raw, "could not build app " + name)
    case PushImage(_) => Converted(raw, "Could not push " + name + " to the private registry")
    case _ => if raw.Threw? then Some(raw.error) else None
  }

  /** `fetch`: every failure to fetch the repository, whatever it raised, fails the build. */
  lemma FetchFailureFailsBuild(raw: Raw, name: string)
    ensures Effect(FetchRepo, raw, name).Some? <==> !raw.Fine?
    ensures !raw.Fine? ==> Effect(FetchRepo, raw, name) == Some(BuildFailedException("could not fetch repository"))
  {
  }

  /** The directory `docker build` runs in: the repository with its adapted
      Dockerfile, or the app directory holding the synthesized one. */
  function AppContext(buildPath: string, adapted: bool): string {
    var appPath := Join(buildPath, "app");
    if adapted then Join(appPath, "repo") else appPath
  }

  /** The steps of the optional base image. */
  function BaseSteps(registry: string, buildBase: bool): seq<Step> {
    if buildBase then [BuildBaseImage(BaseImageName(registry))] else []
  }

  /** The image steps: copy the repository, write the recipe, build, push, then optionally preload. */
  function ImageSteps(registry: string, name: string, adapted: bool, buildPath: string, preload: bool): seq<Step> {
    [CopyRepo, WriteRecipe(adapted), BuildAppImage(ImageTag(registry, name), AppContext(buildPath, adapted)),
     PushImage(ImageName(registry, name))]
      + (if preload then [PreloadAppImage(name)] else [])
  }

  function ServiceSteps(services: seq<Service>): (steps: seq<Step>)
    ensures |steps| == |services|
    ensures forall k :: 0 <= k < |services| ==> steps[k] == BuildService(services[k])
  {
    seq(|services|, k requires 0 <= k < |services| => BuildService(services[k]))
  }

  /** The steps `build` runs, in order, when none fails. */
  function Plan(registry: string, name: string, services: seq<Service>, adapted: bool, buildPath: string,
                buildBase: bool, preload: bool): (plan: seq<Step>)
    ensures |plan| == |services| + 6 + (if buildBase then 1 else 0) + (if preload then 1 else 0)
    ensures plan[0] == FetchRepo
    ensures forall k :: 0 <= k < |services| ==> plan[1 + k] == BuildService(services[k])
    ensures plan[1 + |services|] == FillTemplates
  {
    [FetchRepo] + ServiceSteps(services) + [FillTemplates] + BaseSteps(registry, buildBase)
      + ImageSteps(registry, name, adapted, buildPath, preload)
  }

  /** The position of the step that copies the repository, after the optional base image. */
  function CopyAt(services: seq<Service>, buildBase: bool): nat {
    |services| + 2 + (if buildBase then 1 else 0)
  }

  /** Where each step of the plan stands: the base image only when asked
      for, right after the templates; the preload only when asked for, last. */
  lemma PlanLayout(registry: string, name: string, services: seq<Service>, adapted: bool, buildPath: string,
                   buildBase: bool, preload: bool)
    ensures var plan := Plan(registry, name, services, adapted, buildPath, buildBase, preload);
      var c := CopyAt(services, buildBase);
      && (buildBase ==> plan[2 + |services|] == BuildBaseImage(BaseImageName(registry)))
      && plan[c] == CopyRepo && plan[c + 1] == WriteRecipe(adapted)
      && plan[c + 2] == BuildAppImage(ImageTag(registry, name), AppContext(buildPath, adapted))
      && plan[c + 3] == PushImage(ImageName(registry, name))
      && (preload ==> plan[c + 4] == PreloadAppImage(name))
      && (forall k :: 0 <= k < |plan| && plan[k].BuildBaseImage? ==> buildBase && k == 2 + |services|)
      && (forall k :: 0 <= k < |plan| && plan[k].PreloadAppImage? ==> preload && k == c + 4)
  {
    var baseStep := BuildBaseImage(BaseImageName(registry));
    var buildStep := BuildAppImage(ImageTag(registry, name), AppContext(buildPath, adapted));
    var pushStep := PushImage(ImageName(registry, name));
    var preloadStep := PreloadAppImage(name);
    assert Plan(registry, name, services, adapted, buildPath, buildBase, preload)
        == LaidOut(services, baseStep, adapted, buildStep, pushStep, preloadStep, buildBase, preload);
    LaidOutPositions(services, baseStep, adapted, buildStep, pushStep, preloadStep, buildBase, preload);
  }

  /** The plan's shape, with the steps that carry names left as parameters. */
  function LaidOut(services: seq<Service>, baseStep: Step, adapted: bool, buildStep: Step, pushStep: Step,
                   preloadStep: Step, buildBase: bool, preload: bool): seq<Step>
  {
    [FetchRepo] + ServiceSteps(services) + [FillTemplates] + (if buildBase then [baseStep] else [])
      + ([CopyRepo, WriteRecipe(adapted), buildStep, pushStep] + (if preload then [preloadStep] else []))
  }

  lemma LaidOutPositions(services: seq<Service>, baseStep: Step, adapted: bool, buildStep: Step, pushStep: Step,
                         preloadStep: Step, buildBase: bool, preload: bool)
    requires baseStep.BuildBaseImage? && buildStep.BuildAppImage? && pushStep.PushImage? && preloadStep.PreloadAppImage?
    ensures var plan := LaidOut(services, baseStep, adapted, buildStep, pushStep, preloadStep, buildBase, preload);
      var c := CopyAt(services, buildBase);
      && |plan| == c + 4 + (if preload then 1 else 0)
      && (buildBase ==> plan[2 + |services|] == baseStep)
      && plan[c] == CopyRepo && plan[c + 1] == WriteRecipe(adapted)
      && plan[c + 2] == buildStep && plan[c + 3] == pushStep
      && (preload ==> plan[c + 4] == preloadStep)
      && (forall k :: 0 <= k < |plan| && plan[k].BuildBaseImage? ==> buildBase && k == 2 + |services|)
      && (forall k :: 0 <= k < |plan| && plan[k].PreloadAppImage? ==> preload && k == c + 4)
  {
    var plan := LaidOut(services, baseStep, adapted, buildStep, pushStep, preloadStep, buildBase, preload);
    var head := [FetchRepo] + ServiceSteps(services) + [FillTemplates];
    var base: seq<Step> := if buildBase then [baseStep] else [];
    var image := [CopyRepo, WriteRecipe(adapted), buildStep, pushStep] + (if preload then [preloadStep] else []);
    var c := CopyAt(services, buildBase);
    assert plan == head + base + image;
    assert |head| == |services| + 2 && |head| + |base| == c;
    forall k | 0 <= k < |plan|
      ensures plan[k] == (if k < |head| then head[k] else if k < c then base[k - |head|] else image[k - c])
    {
      ThreePartIndex(head, base, image, k);
    }
    forall k | 0 <= k < |head| ensures !head[k].BuildBaseImage? && !head[k].PreloadAppImage? {
      if 0 < k < |head| - 1 { assert head[k] == ServiceSteps(services)[k - 1]; }
    }
  }

  /** Indexing into three concatenated step sequences. */
  lemma ThreePartIndex(a: seq<Step>, b: seq<Step>, c: seq<Step>, k: nat)
    requires k < |a| + |b| + |c|
    ensures (a + b + c)[k] == (if k < |a| then a[k] else if k < |a| + |b| then b[k - |a|] else c[k - |a| - |b|])
  {
  }

  /** An entry of the build's trace: a state recorded in the index, or a step run. */
  datatype Event = Recorded(state: BuildState) | Ran(step: Step)

  /** The events of running `steps`, in order. */
  function RanEvents(steps: seq<Step>): (events: seq<Event>)
    ensures |events| == |steps|
    ensures forall k :: 0 <= k < |steps| ==> events[k] == Ran(steps[k])
  {
    seq(|steps|, k requires 0 <= k < |steps| => Ran(steps[k]))
  }

  /** The trace of the steps run, and the exception that stopped them. */
  datatype StepsRun = StepsRun(events: seq<Event>, stop: Option<Exc>)

  /** Running the plan from step `i` on, after the trace `events`: a step that
      raises stops the run. */
  function RunFrom(plan: seq<Step>, raw: Step -> Raw, name: string, i: nat, events: seq<Event>): StepsRun
    requires i <= |plan|
    decreases |plan| - i
  {
    if i == |plan| then StepsRun(events, None)
    else
      var e := Effect(plan[i], raw(plan[i]), name);
      if e.Some? then StepsRun(events + [Ran(plan[i])], e)
      else RunFrom(plan, raw, name, i + 1, events + [Ran(plan[i])])
  }

  /** A step that raises, as the `try` of `build` sees it. */
  predicate Raises(plan: seq<Step>, raw: Step -> Raw, name: string, k: nat)
    requires k < |plan|
  {
    Effect(plan[k], raw(plan[k]), name).Some?
  }

  /** The first step from `i` on that raises. */
  function FirstFailure(plan: seq<Step>, raw: Step -> Raw, name: string, i: nat): (r: Option<nat>)
    requires i <= |plan|
    ensures r.Some? ==> i <= r.value < |plan| && Raises(plan, raw, name, r.value)
    ensures r.Some? ==> forall k :: i <= k < r.value ==> !Raises(plan, raw, name, k)
    ensures r.None? ==> forall k :: i <= k < |plan| ==> !Raises(plan, raw, name, k)
    decreases |plan| - i
  {
    if i == |plan| then None
    else if Raises(plan, raw, name, i) then Some(i)
    else FirstFailure(plan, raw, name, i + 1)
  }

  /** The number of steps that run from step `i` on: up to and including the first that raises. */
  function RunLength(plan: seq<Step>, raw: Step -> Raw, name: string, i: nat): (n: nat)
    requires i <= |plan|
    ensures i <= n <= |plan|
  {
    var f := FirstFailure(plan, raw, name, i);
    if f.Some? then f.value + 1 else |plan|
  }

  /** The exception of the first step from `i` on that raises, if any. */
  function FirstException(plan: seq<Step>, raw: Step -> Raw, name: string, i: nat): Option<Exc>
    requires i <= |plan|
  {
    var f := FirstFailure(plan, raw, name, i);
    if f.Some? then Effect(plan[f.value], raw(plan[f.value]), name) else None
  }

  /** No step before step `n` raises. */
  predicate SucceededBefore(plan: seq<Step>, raw: Step -> Raw, name: string, n: nat)
    requires n <= |plan|
  {
    forall k :: 0 <= k < n ==> !Raises(plan, raw, name, k)
  }

  lemma SucceededNext(plan: seq<Step>, raw: Step -> Raw, name: string, at: nat)
    requires at < |plan| && SucceededBefore(plan, raw, name, at) && !Raises(plan, raw, name, at)
    ensures SucceededBefore(plan, raw, name, at + 1)
  {
  }

  lemma FailedBefore(plan: seq<Step>, raw: Step -> Raw, name: string, at: nat, m: nat)
    requires at < m <= |plan| && Raises(plan, raw, name, at)
    ensures !SucceededBefore(plan, raw, name, m)
  {
  }

  /** A step that does not raise is recorded and the run goes on with the next. */
  lemma RunFromSkip(plan: seq<Step>, raw: Step -> Raw, name: string, i: nat, events: seq<Event>)
    requires i < |plan| && !Raises(plan, raw, name, i)
    ensures RunFrom(plan, raw, name, i, events) == RunFrom(plan, raw, name, i + 1, events + [Ran(plan[i])])
    ensures RunLength(plan, raw, name, i) == RunLength(plan, raw, name, i + 1)
    ensures FirstException(plan, raw, name, i) == FirstException(plan, raw, name, i + 1)
  {
  }

  lemma RanEventsCons(plan: seq<Step>, i: nat, end: nat)
    requires i < end <= |plan|
    ensures RanEvents(plan[i..end]) == [Ran(plan[i])] + RanEvents(plan[i + 1..end])
  {
  }

  /** The steps run are the plan up to the first one that raises, in order,
      and the run stops with that step's exception. */
  lemma {:induction false} RunFromOutcome(plan: seq<Step>, raw: Step -> Raw, name: string, i: nat, events: seq<Event>)
    requires i <= |plan|
    ensures RunFrom(plan, raw, name, i, events)
         == StepsRun(events + RanEvents(plan[i..RunLength(plan, raw, name, i)]), FirstException(plan, raw, name, i))
    decreases |plan| - i
  {
    if i == |plan| {
      assert events + RanEvents(plan[i..i]) == events;
    } else if Raises(plan, raw, name, i) {
      assert plan[i..i + 1] == [plan[i]];
    } else {
      var events' := events + [Ran(plan[i])];
      var end := RunLength(plan, raw, name, i + 1);
      RunFromSkip(plan, raw, name, i, events);
      RunFromOutcome(plan, raw, name, i + 1, events');
      assert events' + RanEvents(plan[i + 1..end]) == events + RanEvents(plan[i..end]) by {
        RanEventsCons(plan, i, end);
      }
    }
  }

  /** What `build` leaves: its trace and the exception that escaped it. */
  datatype BuildRun = BuildRun(events: seq<Event>, escaped: Option<Exc>)

  /** The state the index is left in once the steps stopped with `stop`. */
  function RecordedState(stop: Option<Exc>): BuildState {
    if stop.None? then COMPLETED
    else if stop.value.BuildFailedException? then FAILED
    else BUILDING
  }

  /** The end of `build`: COMPLETED when no step raised, FAILED on a
      `BuildFailedException` (which does not escape); anything else escapes. */
  function Concluded(events: seq<Event>, stop: Option<Exc>): BuildRun {
    if stop.None? then BuildRun(events + [Recorded(COMPLETED)], None)
    else if stop.value.BuildFailedException? then BuildRun(events + [Recorded(FAILED)], None)
    else BuildRun(events, stop)
  }

  /** `build(build_base, preload)`: `makeDir` is what cleaning the build
      directory raised, if anything. */
  function BuildSpec(plan: seq<Step>, raw: Step -> Raw, name: string, makeDir: Option<Exc>): BuildRun {
    if makeDir.Some? then BuildRun([], makeDir)
    else
      var run := RunFrom(plan, raw, name, 0, [Recorded(BUILDING)]);
      Concluded(run.events, run.stop)
  }

  /** The build records BUILDING before any step runs, then runs the plan up
      to the first step that raises. It records COMPLETED exactly when no
      step raised; a `BuildFailedException` records FAILED right after the step
      that raised it, and no later step runs; any other exception escapes and
      leaves BUILDING recorded. When the build directory cannot be cleaned,
      nothing is recorded and nothing runs. */
  lemma BuildOutcome(plan: seq<Step>, raw: Step -> Raw, name: string, makeDir: Option<Exc>)
    ensures makeDir.Some? ==> BuildSpec(plan, raw, name, makeDir) == BuildRun([], makeDir)
    ensures makeDir.None? ==>
      var run := BuildSpec(plan, raw, name, makeDir);
      var ran := [Recorded(BUILDING)] + RanEvents(plan[..RunLength(plan, raw, name, 0)]);
      var stop := FirstException(plan, raw, name, 0);
      && (stop.None? <==> forall k :: 0 <= k < |plan| ==> !Raises(plan, raw, name, k))
      && run.events == ran + (if RecordedState(stop) == BUILDING then [] else [Recorded(RecordedState(stop))])
      && run.escaped == (if RecordedState(stop) == BUILDING then stop else None)
  {
    RunFromOutcome(plan, raw, name, 0, [Recorded(BUILDING)]);
    assert plan[0..] == plan;
  }

  /** Step `j` of the plan runs exactly when no step before it raises. */
  lemma StepRuns(plan: seq<Step>, raw: Step -> Raw, name: string, j: nat)
    requires j < |plan|
    ensures j < RunLength(plan, raw, name, 0) <==> forall k :: 0 <= k < j ==> !Raises(plan, raw, name, k)
  {
  }

  /** The first step that raises decides how far the run goes and how it stops. */
  lemma FirstFailureAt(plan: seq<Step>, raw: Step -> Raw, name: string, j: nat)
    requires j < |plan| && Raises(plan, raw, name, j) && SucceededBefore(plan, raw, name, j)
    ensures FirstFailure(plan, raw, name, 0) == Some(j)
    ensures RunLength(plan, raw, name, 0) == j + 1
    ensures FirstException(plan, raw, name, 0) == Effect(plan[j], raw(plan[j]), name)
  {
  }

  /** The fetch and the first `k` services, all successful, raise nothing. */
  lemma ServicesSucceeded(plan: seq<Step>, raw: Step -> Raw, name: string, services: seq<Service>, k: nat)
    requires k < |plan| && k <= |services| && plan[0] == FetchRepo
    requires forall j :: 0 <= j < k ==> plan[1 + j] == BuildService(services[j])
    requires raw(FetchRepo).Fine? && forall j :: 0 <= j < k ==> raw(BuildService(services[j])).Fine?
    ensures SucceededBefore(plan, raw, name, 1 + k)
  {
    forall j | 0 <= j < 1 + k ensures !Raises(plan, raw, name, j) {
      if j > 0 {
        assert plan[j] == BuildService(services[j - 1]);
      }
    }
  }

  /** In a plan that fetches first and then builds `services` in order,
      service `k` is built exactly when the fetch and every service before it succeeded. */
  lemma ServiceRunsAfterEarlierOnes(plan: seq<Step>, raw: Step -> Raw, name: string, services: seq<Service>, k: nat)
    requires k < |services| < |plan| && plan[0] == FetchRepo
    requires forall j :: 0 <= j < |services| ==> plan[1 + j] == BuildService(services[j])
    ensures (1 + k < RunLength(plan, raw, name, 0))
        <==> (raw(FetchRepo).Fine? && forall j :: 0 <= j < k ==> raw(BuildService(services[j])).Fine?)
  {
    StepRuns(plan, raw, name, 1 + k);
    if 1 + k < RunLength(plan, raw, name, 0) {
      forall j | 0 <= j < k ensures raw(BuildService(services[j])).Fine? {
        assert plan[1 + j] == BuildService(services[j]);
        assert !Raises(plan, raw, name, 1 + j);
      }
      assert !Raises(plan, raw, name, 0);
    } else if raw(FetchRepo).Fine? && forall j :: 0 <= j < k ==> raw(BuildService(services[j])).Fine? {
      ServicesSucceeded(plan, raw, name, services, k);
    }
  }

  /** Services are built in the order they are declared: service `k` is built
      exactly when the repository was fetched and every service before it was
      built. */
  lemma ServicesInOrder(registry: string, name: string, services: seq<Service>, adapted: bool, buildPath: string,
                        buildBase: bool, preload: bool, raw: Step -> Raw, k: nat)
    requires k < |services|
    ensures var plan := Plan(registry, name, services, adapted, buildPath, buildBase, preload);
      (1 + k < RunLength(plan, raw, name, 0))
        <==> (raw(FetchRepo).Fine? && forall j :: 0 <= j < k ==> raw(BuildService(services[j])).Fine?)
  {
    var plan := Plan(registry, name, services, adapted, buildPath, buildBase, preload);
    ServiceRunsAfterEarlierOnes(plan, raw, name, services, k);
  }

  /** The first service whose build is falsy fails the build with its full
      name, and nothing after it runs. */
  lemma FalsyServiceFails(registry: string, name: string, services: seq<Service>, adapted: bool, buildPath: string,
                          buildBase: bool, preload: bool, raw: Step -> Raw, k: nat)
    requires k < |services| && raw(FetchRepo).Fine?
    requires forall j :: 0 <= j < k ==> raw(BuildService(services[j])).Fine?
    requires raw(BuildService(services[k])).Falsy?
    ensures var plan := Plan(registry, name, services, adapted, buildPath, buildBase, preload);
      && RunLength(plan, raw, name, 0) == 2 + k
      && FirstException(plan, raw, name, 0) == Some(BuildFailedException("could not build service " + services[k].fullName))
  {
    var plan := Plan(registry, name, services, adapted, buildPath, buildBase, preload);
    ServicesSucceeded(plan, raw, name, services, k);
    assert plan[1 + k] == BuildService(services[k]);
    assert Effect(plan[1 + k], raw(plan[1 + k]), name) == Some(BuildFailedException("could not build service " + services[k].fullName));
    FirstFailureAt(plan, raw, name, 1 + k);
  }

  /** A step shows in the trace of a build exactly when it is one of the steps that ran. */
  lemma RanInRun(plan: seq<Step>, raw: Step -> Raw, name: string, s: Step)
    ensures Ran(s) in BuildSpec(plan, raw, name, None).events
        <==> exists k :: 0 <= k < RunLength(plan, raw, name, 0) && plan[k] == s
  {
    BuildOutcome(plan, raw, name, None);
    var n := RunLength(plan, raw, name, 0);
    var ran := RanEvents(plan[..n]);
    var events := BuildSpec(plan, raw, name, None).events;
    var stop := FirstException(plan, raw, name, 0);
    var tail := if RecordedState(stop) == BUILDING then [] else [Recorded(RecordedState(stop))];
    assert events == [Recorded(BUILDING)] + ran + tail;
    assert Ran(s) in events <==> Ran(s) in ran by {
      assert forall e :: e in [Recorded(BUILDING)] + tail ==> e.Recorded?;
    }
    RanEventsHas(plan[..n], s);
  }

  /** A step's event is in the trace of `steps` exactly when the step is one of them. */
  lemma RanEventsHas(steps: seq<Step>, s: Step)
    ensures Ran(s) in RanEvents(steps) <==> exists k :: 0 <= k < |steps| && steps[k] == s
  {
    var events := RanEvents(steps);
    if Ran(s) in events {
      var i :| 0 <= i < |events| && events[i] == Ran(s);
      assert steps[i] == s;
    }
    if exists k :: 0 <= k < |steps| && steps[k] == s {
      var k :| 0 <= k < |steps| && steps[k] == s;
      assert events[k] == Ran(s);
    }
  }

  /** A step that occurs once in the plan runs exactly when every step before it succeeded. */
  lemma UniqueStepRuns(plan: seq<Step>, raw: Step -> Raw, name: string, j: nat)
    requires j < |plan|
    requires forall k :: 0 <= k < |plan| && plan[k] == plan[j] ==> k == j
    ensures Ran(plan[j]) in BuildSpec(plan, raw, name, None).events <==> SucceededBefore(plan, raw, name, j)
  {
    RanInRun(plan, raw, name, plan[j]);
    StepRuns(plan, raw, name, j);
  }

  /** The base image is built exactly when asked for and every step before it
      succeeded; the same holds for the preload. */
  lemma OptionalSteps(registry: string, name: string, services: seq<Service>, adapted: bool, buildPath: string,
                      buildBase: bool, preload: bool, raw: Step -> Raw, makeDir: Option<Exc>)
    ensures var plan := Plan(registry, name, services, adapted, buildPath, buildBase, preload);
      var events := BuildSpec(plan, raw, name, makeDir).events;
      && (Ran(BuildBaseImage(BaseImageName(registry))) in events <==>
            buildBase && makeDir.None? && SucceededBefore(plan, raw, name, 2 + |services|))
      && (Ran(PreloadAppImage(name)) in events <==>
            preload && makeDir.None? && SucceededBefore(plan, raw, name, |plan| - 1))
  {
    var plan := Plan(registry, name, services, adapted, buildPath, buildBase, preload);
    PlanLayout(registry, name, services, adapted, buildPath, buildBase, preload);
    if makeDir.None? {
      var base := BuildBaseImage(BaseImageName(registry));
      if buildBase {
        UniqueStepRuns(plan, raw, name, 2 + |services|);
      } else {
        RanInRun(plan, raw, name, base);
      }
      if preload {
        UniqueStepRuns(plan, raw, name, |plan| - 1);
      } else {
        RanInRun(plan, raw, name, PreloadAppImage(name));
      }
    }
  }

  /** The recipe an app's image is built from. */
  function RecipeText(registry: string, dependencies: seq<string>, services: seq<Service>, notebooks: Option<string>,
                      repoRecipe: string, suffix: string): string {
    if DOCKERFILE in dependencies then AdaptedRecipe(BaseImageName(registry), repoRecipe, notebooks, suffix)
    else SynthesizedRecipe(BaseImageName(registry), dependencies, services, notebooks, suffix)
  }

  /** An app. Its metadata never changes; `repo` is set once the repository is cloned. */
  class App {
    const name: string
    const path: string
    const services: seq<Service>
    const dependencies: seq<string>
    const notebooks: Option<string>
    const repoUrl: Option<string>
    const appId: string
    const dir: string
    /** Where the app is built, where it is deployed from, and where its repository is cloned. */
    const buildPath: string
    const deployPath: string
    const repoPath: string
    var repo: Option<string>

    /** `App(meta)`: `appId` is the freshly minted deployment id and `dir` the
        app directory the index made for it. */
    constructor (meta: AppMeta, appId: string, dir: string)
      ensures name == meta.name && path == meta.path && services == meta.services
      ensures dependencies == LowerAll(meta.dependencies)
      ensures notebooks == meta.notebooks && repoUrl == meta.repoUrl
      ensures this.appId == appId && this.dir == dir && repo == None
      ensures buildPath == Join(path, "build") && deployPath == Join(path, "deploy") && repoPath == Join(dir, "repo")
    {
      name := meta.name;
      path := meta.path;
      services := meta.services;
      dependencies := LowerAll(meta.dependencies);
      notebooks := meta.notebooks;
      repoUrl := meta.repoUrl;
      this.appId := appId;
      this.dir := dir;
      buildPath := Join(meta.path, "build");
      deployPath := Join(meta.path, "deploy");
      repoPath := Join(dir, "repo");
      repo := None;
    }

    /** The end of `build` once a step raised `e` (or none did): records the
        final state, or lets the exception escape. */
    method Conclude(index: AppIndex, events0: seq<Event>, stop: Option<Exc>) returns (events: seq<Event>, escaped: Option<Exc>)
      modifies index
      ensures BuildRun(events, escaped) == Concluded(events0, stop)
      ensures index.buildStates ==
        if RecordedState(stop) == BUILDING then old(index.buildStates) else old(index.buildStates)[name := RecordedState(stop)]
    {
      if stop.None? {
        index.UpdateBuildState(name, COMPLETED);
        return events0 + [Recorded(COMPLETED)], None;
      }
      if stop.value.BuildFailedException? {
        index.UpdateBuildState(name, FAILED);
        return events0 + [Recorded(FAILED)], None;
      }
      return events0, stop;
    }

    /** One step of `build`'s `try` block, the plan's step `at`: when it
        raises, the build ends (FAILED recorded, or the exception escapes);
        otherwise the run goes on with the next step. */
    method Attempt(index: AppIndex, ghost plan: seq<Step>, raw: Step -> Raw, ghost at: nat, step: Step, events0: seq<Event>)
      returns (events: seq<Event>, done: bool, escaped: Option<Exc>)
      requires at < |plan| && plan[at] == step
      modifies index
      ensures done <==> Raises(plan, raw, name, at)
      ensures !done ==> && events == events0 + [Ran(step)] && escaped.None?
                        && RunFrom(plan, raw, name, at, events0) == RunFrom(plan, raw, name, at + 1, events)
                        && index.buildStates == old(index.buildStates)
      ensures done ==> var run := RunFrom(plan, raw, name, at, events0);
        && BuildRun(events, escaped) == Concluded(run.events, run.stop)
        && index.buildStates ==
             if RecordedState(run.stop) == BUILDING then old(index.buildStates)
             else old(index.buildStates)[name := RecordedState(run.stop)]
    {
      var e := Effect(step, raw(step), name);
      events := events0 + [Ran(step)];
      if e.Some? {
        events, escaped := Conclude(index, events, e);
        return events, true, escaped;
      }
      return events, false, None;
    }

    /** `build(build_base, preload)`: `makeDir` is what cleaning the build
        directory raised, `raw` how each external step ended, and `repoRecipe`
        and `suffix` the texts of the repository's and the suffix Dockerfiles.
        The recipe is written exactly when every step up to writing it succeeded. */
    method Build(index: AppIndex, registry: string, buildBase: bool, preload: bool, makeDir: Option<Exc>,
                 raw: Step -> Raw, repoRecipe: string, suffix: string)
      returns (escaped: Option<Exc>, events: seq<Event>, recipe: Option<string>)
      modifies this, index
      ensures var plan := Plan(registry, name, services, DOCKERFILE in dependencies, buildPath, buildBase, preload);
        && BuildRun(events, escaped) == BuildSpec(plan, raw, name, makeDir)
        && index.buildStates ==
             (if makeDir.Some? then old(index.buildStates)
              else old(index.buildStates)[name := RecordedState(RunFrom(plan, raw, name, 0, [Recorded(BUILDING)]).stop)])
        && (recipe.Some? <==> makeDir.None? && SucceededBefore(plan, raw, name, CopyAt(services, buildBase) + 2))
      ensures recipe.Some? ==> recipe.value == RecipeText(registry, dependencies, services, notebooks, repoRecipe, suffix)
      ensures repo == if makeDir.None? && raw(FetchRepo).Fine? then Some(repoPath) else old(repo)
    {
      if makeDir.Some? {
        return makeDir, [], None;
      }
      ghost var plan := Plan(registry, name, services, DOCKERFILE in dependencies, buildPath, buildBase, preload);
      index.UpdateBuildState(name, BUILDING);
      events, escaped, recipe := RunSteps(index, plan, registry, buildBase, preload, raw, repoRecipe, suffix);
    }

    /** The `try` block of `build` once BUILDING is recorded: the fetch, the
        services in order, then the later steps. */
    method RunSteps(index: AppIndex, ghost plan: seq<Step>, registry: string, buildBase: bool, preload: bool,
                    raw: Step -> Raw, repoRecipe: string, suffix: string)
      returns (events: seq<Event>, escaped: Option<Exc>, recipe: Option<string>)
      requires plan == Plan(registry, name, services, DOCKERFILE in dependencies, buildPath, buildBase, preload)
      modifies this, index
      ensures var run := RunFrom(plan, raw, name, 0, [Recorded(BUILDING)]);
        && BuildRun(events, escaped) == Concluded(run.events, run.stop)
        && index.buildStates ==
             (if RecordedState(run.stop) == BUILDING then old(index.buildStates)
              else old(index.buildStates)[name := RecordedState(run.stop)])
      ensures recipe.Some? <==> SucceededBefore(plan, raw, name, CopyAt(services, buildBase) + 2)
      ensures recipe.Some? ==> recipe.value == RecipeText(registry, dependencies, services, notebooks, repoRecipe, suffix)
      ensures repo == if raw(FetchRepo).Fine? then Some(repoPath) else old(repo)
    {
      recipe := None;
      ghost var c := CopyAt(services, buildBase);
      events := [Recorded(BUILDING)];
      ghost var whole := RunFrom(plan, raw, name, 0, events);
      var done;

      // fetch the repository
      events, done, escaped := Attempt(index, plan, raw, 0, FetchRepo, events);
      if done {
        FailedBefore(plan, raw, name, 0, c + 2);
        return;
      }
      repo := Some(repoPath);
      SucceededNext(plan, raw, name, 0);

      // build the services, in order
      events, done, escaped := RunServices(index, plan, raw, events);
      if done {
        return;
      }
      assert whole == RunFrom(plan, raw, name, 1 + |services|, events);
      events, escaped, recipe := RunLaterSteps(index, plan, registry, buildBase, preload, raw, repoRecipe, suffix, events);
    }

    /** The loop of `build` over the services, from the trace `events0` on:
        the services are built in order, and the first whose build raises or
        is falsy stops the build. */
    method RunServices(index: AppIndex, ghost plan: seq<Step>, raw: Step -> Raw, events0: seq<Event>)
      returns (events: seq<Event>, done: bool, escaped: Option<Exc>)
      requires |services| < |plan|
      requires forall k :: 0 <= k < |services| ==> plan[1 + k] == BuildService(services[k])
      requires SucceededBefore(plan, raw, name, 1)
      modifies index
      ensures !done ==> && escaped.None? && index.buildStates == old(index.buildStates)
                        && SucceededBefore(plan, raw, name, 1 + |services|)
                        && RunFrom(plan, raw, name, 1, events0) == RunFrom(plan, raw, name, 1 + |services|, events)
      ensures done ==> var run := RunFrom(plan, raw, name, 1, events0);
        && !SucceededBefore(plan, raw, name, 1 + |services|)
        && BuildRun(events, escaped) == Concluded(run.events, run.stop)
        && index.buildStates ==
             if RecordedState(run.stop) == BUILDING then old(index.buildStates)
             else old(index.buildStates)[name := RecordedState(run.stop)]
    {
      events, done, escaped := events0, false, None;
      for k := 0 to |services|
        invariant RunFrom(plan, raw, name, 1, events0) == RunFrom(plan, raw, name, 1 + k, events)
        invariant SucceededBefore(plan, raw, name, 1 + k)
        invariant index.buildStates == old(index.buildStates) && escaped.None? && !done
      {
        events, done, escaped := Attempt(index, plan, raw, 1 + k, BuildService(services[k]), events);
        if done {
          FailedBefore(plan, raw, name, 1 + k, 1 + |services|);
          return;
        }
        SucceededNext(plan, raw, name, 1 + k);
      }
    }

    /** The steps of `build` after the services: the templates, the optional
        base image, the copy of the repository, the recipe, the image build,
        the push and the optional preload, from the trace `events0` on. */
    method RunLaterSteps(index: AppIndex, ghost plan: seq<Step>, registry: string, buildBase: bool, preload: bool,
                         raw: Step -> Raw, repoRecipe: string, suffix: string, events0: seq<Event>)
      returns (events: seq<Event>, escaped: Option<Exc>, recipe: Option<string>)
      requires plan == Plan(registry, name, services, DOCKERFILE in dependencies, buildPath, buildBase, preload)
      requires SucceededBefore(plan, raw, name, 1 + |services|)
      modifies index
      ensures var run := RunFrom(plan, raw, name, 1 + |services|, events0);
        && BuildRun(events, escaped) == Concluded(run.events, run.stop)
        && index.buildStates ==
             (if RecordedState(run.stop) == BUILDING then old(index.buildStates)
              else old(index.buildStates)[name := RecordedState(run.stop)])
      ensures recipe.Some? <==> SucceededBefore(plan, raw, name, CopyAt(services, buildBase) + 2)
      ensures recipe.Some? ==> recipe.value == RecipeText(registry, dependencies, services, notebooks, repoRecipe, suffix)
    {
      var adapted := DOCKERFILE in dependencies;
      ghost var c := CopyAt(services, buildBase);
      PlanLayout(registry, name, services, adapted, buildPath, buildBase, preload);
      ghost var whole := RunFrom(plan, raw, name, 1 + |services|, events0);
      recipe := None;
      var done;
      // the remaining steps, each stopping the build when it raises
      ghost var at := 1 + |services|;
      events, done, escaped := Attempt(index, plan, raw, at, FillTemplates, events0);
      if done {
        FailedBefore(plan, raw, name, at, c + 2);
        return;
      }
      SucceededNext(plan, raw, name, at);
      at := at + 1;
      if buildBase {
        events, done, escaped := Attempt(index, plan, raw, at, BuildBaseImage(BaseImageName(registry)), events);
        if done {
          FailedBefore(plan, raw, name, at, c + 2);
          return;
        }
        SucceededNext(plan, raw, name, at);
        at := at + 1;
      }
      assert at == c;
      events, escaped, recipe := RunImageSteps(index, plan, c, registry, preload, raw, repoRecipe, suffix, events);
    }

    /** The steps of `build` from the copy of the repository on: the recipe
        (adapted or synthesized), the image build, the push and the optional
        preload, from the trace `events0` on. */
    method RunImageSteps(index: AppIndex, ghost plan: seq<Step>, ghost c: nat, registry: string, preload: bool,
                         raw: Step -> Raw, repoRecipe: string, suffix: string, events0: seq<Event>)
      returns (events: seq<Event>, escaped: Option<Exc>, recipe: Option<string>)
      requires |plan| == c + 4 + (if preload then 1 else 0)
      requires plan[c] == CopyRepo && plan[c + 1] == WriteRecipe(DOCKERFILE in dependencies)
      requires plan[c + 2] == BuildAppImage(ImageTag(registry, name), AppContext(buildPath, DOCKERFILE in dependencies))
      requires plan[c + 3] == PushImage(ImageName(registry, name))
      requires preload ==> plan[c + 4] == PreloadAppImage(name)
      requires SucceededBefore(plan, raw, name, c)
      modifies index
      ensures var run := RunFrom(plan, raw, name, c, events0);
        && BuildRun(events, escaped) == Concluded(run.events, run.stop)
        && index.buildStates ==
             (if RecordedState(run.stop) == BUILDING then old(index.buildStates)
              else old(index.buildStates)[name := RecordedState(run.stop)])
      ensures recipe.Some? <==> SucceededBefore(plan, raw, name, c + 2)
      ensures recipe.Some? ==> recipe.value == RecipeText(registry, dependencies, services, notebooks, repoRecipe, suffix)
    {
      var adapted := DOCKERFILE in dependencies;
      ghost var whole := RunFrom(plan, raw, name, c, events0);
      recipe := None;
      var done;
      events, done, escaped := Attempt(index, plan, raw, c, CopyRepo, events0);
      if done {
        FailedBefore(plan, raw, name, c, c + 2);
        return;
      }
      SucceededNext(plan, raw, name, c);
      var text := ComposeRecipe(registry, repoRecipe, suffix);
      events, done, escaped := Attempt(index, plan, raw, c + 1, WriteRecipe(adapted), events);
      if done {
        FailedBefore(plan, raw, name, c + 1, c + 2);
        return;
      }
      SucceededNext(plan, raw, name, c + 1);
      recipe := Some(text);
      events, escaped := RunPublishSteps(index, plan, c, registry, preload, raw, events);
    }

    /** The Dockerfile the app image is built from: the repository's own,
        adapted, when a "dockerfile" dependency is declared, else one synthesized
        from the dependencies and services. */
    method ComposeRecipe(registry: string, repoRecipe: string, suffix: string) returns (text: string)
      ensures text == RecipeText(registry, dependencies, services, notebooks, repoRecipe, suffix)
    {
      if DOCKERFILE in dependencies {
        text := WriteAdaptedRecipe(BaseImageName(registry), repoRecipe, notebooks, suffix);
      } else {
        text := WriteSynthesizedRecipe(BaseImageName(registry), dependencies, services, notebooks, suffix);
      }
    }

    /** The last steps of `build`: the image build, the push and the optional
        preload, from the trace `events0` on, and then the recorded outcome. */
    method RunPublishSteps(index: AppIndex, ghost plan: seq<Step>, ghost c: nat, registry: string, preload: bool,
                           raw: Step -> Raw, events0: seq<Event>)
      returns (events: seq<Event>, escaped: Option<Exc>)
      requires |plan| == c + 4 + (if preload then 1 else 0)
      requires plan[c + 2] == BuildAppImage(ImageTag(registry, name), AppContext(buildPath, DOCKERFILE in dependencies))
      requires plan[c + 3] == PushImage(ImageName(registry, name))
      requires preload ==> plan[c + 4] == PreloadAppImage(name)
      modifies index
      ensures var run := RunFrom(plan, raw, name, c + 2, events0);
        && BuildRun(events, escaped) == Concluded(run.events, run.stop)
        && index.buildStates ==
             (if RecordedState(run.stop) == BUILDING then old(index.buildStates)
              else old(index.buildStates)[name := RecordedState(run.stop)])
    {
      ghost var whole := RunFrom(plan, raw, name, c + 2, events0);
      var done;
      var step := BuildAppImage(ImageTag(registry, name), AppContext(buildPath, DOCKERFILE in dependencies));
      events, done, escaped := Attempt(index, plan, raw, c + 2, step, events0);
      if done {
        return;
      }
      events, done, escaped := Attempt(index, plan, raw, c + 3, PushImage(ImageName(registry, name)), events);
      if done {
        return;
      }
      if preload {
        events, done, escaped := Attempt(index, plan, raw, c + 4, PreloadAppImage(name), events);
        if done {
          return;
        }
      }
      assert whole == StepsRun(events, None) by {
        assert whole == RunFrom(plan, raw, name, |plan|, events);
      }
      events, escaped := Conclude(index, events, None);
    }

    /** `deploy(mode)`: every service is deployed, then the deployment
        directory is handed to the cluster manager. `templateFiles` gives the
        contents of the template files, `serviceDeploys(k)` how the `k`-th
        service's `deploy(mode, ...)` ended (the mode it receives is not an
        argument of `serviceDeploys`), and `listing`, `kubectl`, `describe`,
        `proxyFile`, `post` and `lookupDescribe` are what `deploy_app` sees. */
    method Deploy(holder: ClusterManager, mode: Option<string>, templateFiles: string -> Option<string>,
                  serviceDeploys: nat -> Result<bool>, listing: seq<string>, kubectl: seq<string> -> bool,
                  describe: nat -> Option<string>, proxyFile: Option<string>, post: nat -> PostOutcome,
                  lookupDescribe: Option<string>)
      returns (r: Result<Option<bool>>, modeUsed: string, run: Option<DeployRun>)
      modifies holder
      ensures modeUsed == DeployMode(mode)
      ensures var cluster := DeployAppSpec(appId, deployPath, listing, kubectl, describe, proxyFile, post, lookupDescribe);
        r == DeployResult(TemplatesSpec(templateFiles), ServicesOutcome(serviceDeploys, |services|), cluster.result)
      ensures run.Some? <==> TemplatesSpec(templateFiles).Ok? && ServicesOutcome(serviceDeploys, |services|).Ok?
      ensures run.Some? ==>
        run.value == DeployAppSpec(appId, deployPath, listing, kubectl, describe, proxyFile, post, lookupDescribe)
    {
      modeUsed := DeployMode(mode);
      var templates := LoadTemplates(templateFiles);
      if templates.Err? {
        return Err(templates.exc), modeUsed, None;
      }
      var deployed, _ := DeployServices(serviceDeploys, |services|);
      if deployed.Err? {
        return Err(deployed.exc), modeUsed, None;
      }
      var manager := holder.GetInstance();
      var cluster := manager.DeployApp(appId, deployPath, listing, kubectl, describe, proxyFile, post, lookupDescribe);
      run := Some(cluster);
      if cluster.result.Err? {
        return Err(cluster.result.exc), modeUsed, run;
      }
      if deployed.value && cluster.result.value {
        return Ok(Some(cluster.result.value)), modeUsed, run;
      }
      return Ok(None), modeUsed, run;
    }
  }

  // ---------------------------------------------------------------------------
  // Deployment

  /** `mode` defaulted: a falsy mode is single-node. */
  function DeployMode(mode: Option<string>): (m: string)
    ensures m != ""
    ensures Truthy(mode) ==> m == mode.value
    ensures !Truthy(mode) ==> m == "single-node"
  {
    if Truthy(mode) then mode.value else "single-node"
  }

  /** The template files every deployment reads. */
  const TEMPLATE_NAMES := ["namespace.json", "pod.json", "service-pod.json", "notebook.json", "controller.json", "service.json"]

  /** The templates loaded from the template files, or the IOError of a missing one. */
  function TemplatesSpec(files: string -> Option<string>): (r: Result<map<string, string>>)
    ensures r.Ok? <==> forall n :: n in TEMPLATE_NAMES ==> files(n).Some?
    ensures r.Err? ==> r.exc == IOError
    ensures r.Ok? ==> r.value.Keys == set n | n in TEMPLATE_NAMES
    ensures r.Ok? ==> forall n :: n in TEMPLATE_NAMES ==> r.value[n] == files(n).value
  {
    if forall n :: n in TEMPLATE_NAMES ==> files(n).Some? then
      Ok(map n | n in TEMPLATE_NAMES :: files(n).value)
    else Err(IOError)
  }

  /** The loop that reads every template file into the `templates` dictionary. */
  method LoadTemplates(files: string -> Option<string>) returns (r: Result<map<string, string>>)
    ensures r == TemplatesSpec(files)
  {
    var templates: map<string, string> := map[];
    for i := 0 to |TEMPLATE_NAMES|
      invariant forall n :: n in TEMPLATE_NAMES[..i] ==> files(n).Some?
      invariant templates == map n | n in TEMPLATE_NAMES[..i] :: files(n).value
    {
      var name := TEMPLATE_NAMES[i];
      var text := files(name);
      if text.None? {
        assert name in TEMPLATE_NAMES;
        return Err(IOError);
      }
      assert TEMPLATE_NAMES[..i + 1] == TEMPLATE_NAMES[..i] + [name];
      templates := templates[name := text.value];
    }
    assert TEMPLATE_NAMES[..|TEMPLATE_NAMES|] == TEMPLATE_NAMES;
    return Ok(templates);
  }

  /** The services' deployments after the first `n`: each is called even when
      an earlier one failed; the first that raises stops the loop. */
  function ServicesOutcome(deploys: nat -> Result<bool>, n: nat): Result<bool> {
    if n == 0 then Ok(true)
    else
      var before := ServicesOutcome(deploys, n - 1);
      if before.Err? then before
      else if deploys(n - 1).Err? then deploys(n - 1)
      else Ok(before.value && deploys(n - 1).value)
  }

  /** Without an exception, the services succeed exactly when every one of
      them does; with one, it is the exception of the first service that raised. */
  lemma {:induction false} ServicesOutcomeIff(deploys: nat -> Result<bool>, n: nat)
    ensures ServicesOutcome(deploys, n).Ok? <==> forall k :: 0 <= k < n ==> deploys(k).Ok?
    ensures ServicesOutcome(deploys, n) == Ok(true) <==> forall k :: 0 <= k < n ==> deploys(k) == Ok(true)
    ensures ServicesOutcome(deploys, n).Err? ==>
      exists k :: 0 <= k < n && deploys(k) == ServicesOutcome(deploys, n) && forall j :: 0 <= j < k ==> deploys(j).Ok?
  {
    if n > 0 {
      ServicesOutcomeIff(deploys, n - 1);
    }
  }

  /** Once a service's deployment raised, the exception is the outcome however many services follow. */
  lemma {:induction false} ServicesOutcomeStops(deploys: nat -> Result<bool>, k: nat, n: nat)
    requires k <= n && ServicesOutcome(deploys, k).Err?
    ensures ServicesOutcome(deploys, n) == ServicesOutcome(deploys, k)
    decreases n
  {
    if k < n {
      ServicesOutcomeStops(deploys, k, n - 1);
    }
  }

  /** The loop over the services of `deploy`: `called` counts the calls made. */
  method DeployServices(deploys: nat -> Result<bool>, n: nat) returns (r: Result<bool>, called: nat)
    ensures r == ServicesOutcome(deploys, n)
    ensures r.Ok? ==> called == n
    ensures r.Err? ==> 1 <= called <= n && deploys(called - 1) == r
  {
    var success := true;
    called := 0;
    for k := 0 to n
      invariant called == k && ServicesOutcome(deploys, k) == Ok(success)
    {
      var deployed := deploys(k);
      called := called + 1;
      if deployed.Err? {
        ServicesOutcomeStops(deploys, k + 1, n);
        return deployed, called;
      }
      if !deployed.value {
        success := false;
      }
    }
    return Ok(success), called;
  }

  /** What `deploy` returns: what `deploy_app` returned when the services and
      the cluster deployment all succeeded, None otherwise; an exception
      from the templates, a service or `deploy_app` escapes. */
  function DeployResult(templates: Result<map<string, string>>, services: Result<bool>, cluster: Result<bool>)
    : Result<Option<bool>> {
    if templates.Err? then Err(templates.exc)
    else if services.Err? then Err(services.exc)
    else if cluster.Err? then Err(cluster.exc)
    else if services.value && cluster.value then Ok(Some(cluster.value))
    else Ok(None)
  }

  /** `deploy` reports success (True) exactly when every service deployed and
      the cluster deployment returned True; it never returns False. */
  lemma DeploySucceedsIff(templates: Result<map<string, string>>, services: Result<bool>, cluster: Result<bool>)
    ensures DeployResult(templates, services, cluster) == Ok(Some(true))
        <==> templates.Ok? && services == Ok(true) && cluster == Ok(true)
    ensures DeployResult(templates, services, cluster) != Ok(Some(false))
  {
  }
}
