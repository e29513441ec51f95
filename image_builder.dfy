/**
  image_builder.py: the `ImageBuilder` that turns a Debian container into YunoHost images,
  and the variant table of its command line.

  Names and arguments (instance name, image alias, recipe command line, image properties)
  are functions. `ImageBuilder` drives the shared `Incus.Engine`; each of its methods is
  proved to leave the engine in a stated state and to have issued a stated command log,
  given by the `...Log` functions below. The current date is a parameter.
 */
module Builder {
  import opened Wrappers
  import Strings
  import opened Incus
  import Streams

  // ---------------------------------------------------------------------------
  // Names
  // ---------------------------------------------------------------------------

  /** The choices the command line accepts for the Debian release and the distribution. */
  const DebianVersions: seq<string> := ["bullseye", "bookworm"]
  const Distributions: seq<string> := ["stable", "testing", "unstable"]

  function InstanceName(debianVersion: string, distribution: string): string
  {
    "ynh-builder-" + debianVersion + "-" + distribution
  }

  /** Reads the release and the distribution back from an instance name. */
  function ParseInstanceName(name: string): Option<(string, string)>
  {
    if |name| < 12 || name[..12] != "ynh-builder-" then None
    else
      var rest := name[12..];
      var i := Strings.IndexOf(rest, '-');
      if i == |rest| then None else Some((rest[..i], rest[i + 1..]))
  }

  /** A release name holds no `-`, so the instance name determines both of its parts. */
  lemma InstanceNameRoundTrip(debianVersion: string, distribution: string)
    requires '-' !in debianVersion
    ensures ParseInstanceName(InstanceName(debianVersion, distribution)) == Some((debianVersion, distribution))
  {
    var rest := debianVersion + ['-'] + distribution;
    var name := InstanceName(debianVersion, distribution);
    assert name == "ynh-builder-" + rest;
    assert name[..12] == "ynh-builder-" && name[12..] == rest;
    Strings.SplitAtSeparator(debianVersion, '-', distribution);
  }

  /** Two builders made from different command-line choices never share an instance. */
  lemma InstanceNamesDistinct(dv1: string, dist1: string, dv2: string, dist2: string)
    requires dv1 in DebianVersions && dv2 in DebianVersions
    ensures InstanceName(dv1, dist1) == InstanceName(dv2, dist2) <==> dv1 == dv2 && dist1 == dist2
  {
    if InstanceName(dv1, dist1) == InstanceName(dv2, dist2) {
      InstanceNameRoundTrip(dv1, dist1);
      InstanceNameRoundTrip(dv2, dist2);
    }
  }

  function ImageAlias(debianVersion: string, distribution: string, shortName: string): string
  {
    "yunohost/" + debianVersion + "-" + distribution + "/" + shortName
  }

  /** Reads the release, the distribution and the short name back from an image alias. */
  function ParseImageAlias(alias: string): Option<(string, string, string)>
  {
    if |alias| < 9 || alias[..9] != "yunohost/" then None
    else
      var rest := alias[9..];
      var i := Strings.IndexOf(rest, '-');
      if i == |rest| then None
      else
        var tail := rest[i + 1..];
        var j := Strings.IndexOf(tail, '/');
        if j == |tail| then None else Some((rest[..i], tail[..j], tail[j + 1..]))
  }

  lemma ImageAliasRoundTrip(debianVersion: string, distribution: string, shortName: string)
    requires '-' !in debianVersion && '/' !in distribution
    ensures ParseImageAlias(ImageAlias(debianVersion, distribution, shortName))
         == Some((debianVersion, distribution, shortName))
  {
    var tail := distribution + ['/'] + shortName;
    var rest := debianVersion + ['-'] + tail;
    var alias := ImageAlias(debianVersion, distribution, shortName);
    assert alias == "yunohost/" + rest;
    assert alias[..9] == "yunohost/" && alias[9..] == rest;
    Strings.SplitAtSeparator(debianVersion, '-', tail);
    Strings.SplitAtSeparator(distribution, '/', shortName);
  }

  /**
    Aliases of different builders, or of different variants of one builder, never collide:
    publishing one variant never replaces another.
   */
  lemma ImageAliasesDistinct(dv1: string, dist1: string, short1: string, dv2: string, dist2: string, short2: string)
    requires dv1 in DebianVersions && dv2 in DebianVersions
    requires dist1 in Distributions && dist2 in Distributions
    ensures ImageAlias(dv1, dist1, short1) == ImageAlias(dv2, dist2, short2)
        <==> dv1 == dv2 && dist1 == dist2 && short1 == short2
  {
    if ImageAlias(dv1, dist1, short1) == ImageAlias(dv2, dist2, short2) {
      ImageAliasRoundTrip(dv1, dist1, short1);
      ImageAliasRoundTrip(dv2, dist2, short2);
    }
  }

  // ---------------------------------------------------------------------------
  // Recipes and image properties
  // ---------------------------------------------------------------------------

  /** The YunoHost branch installed on a release: `dev` for bookworm, the release itself otherwise. */
  function GitBranch(debianVersion: string): string
  {
    if debianVersion == "bookworm" then "dev" else debianVersion
  }

  /** The variables `env` sets for a recipe, in command-line order. */
  function RecipeEnv(debianVersion: string, distribution: string): Properties
  {
    [("RELEASE", distribution), ("DEBIAN_VERSION", debianVersion), ("gitbranch", GitBranch(debianVersion))]
  }

  /** `env RELEASE=… DEBIAN_VERSION=… gitbranch=… /root/recipes <name>`, run inside the instance. */
  function RecipeCommand(debianVersion: string, distribution: string, script: string): seq<string>
  {
    ["env"] + PropertyArgs(RecipeEnv(debianVersion, distribution)) + ["/root/recipes", script]
  }

  /** The command spelled out argument by argument, as the builder writes it. */
  lemma RecipeCommandSpelled(debianVersion: string, distribution: string, script: string)
    ensures RecipeCommand(debianVersion, distribution, script)
         == ["env", "RELEASE=" + distribution, "DEBIAN_VERSION=" + debianVersion,
             "gitbranch=" + GitBranch(debianVersion), "/root/recipes", script]
  {
    var env := RecipeEnv(debianVersion, distribution);
    assert PropertyArgs(env)[0] == "RELEASE=" + distribution;
    assert PropertyArgs(env)[1] == "DEBIAN_VERSION=" + debianVersion;
    assert PropertyArgs(env)[2] == "gitbranch=" + GitBranch(debianVersion);
  }

  /**
    The environment the recipe sees: each of the three `KEY=value` arguments splits back into
    its variable, and the recipe file and the function asked for come last.
   */
  lemma RecipeEnvironment(debianVersion: string, distribution: string, script: string)
    ensures var cmd := RecipeCommand(debianVersion, distribution, script);
      && |cmd| == 6 && cmd[0] == "env" && cmd[4] == "/root/recipes" && cmd[5] == script
      && SplitProperty(cmd[1]) == Some(("RELEASE", distribution))
      && SplitProperty(cmd[2]) == Some(("DEBIAN_VERSION", debianVersion))
      && SplitProperty(cmd[3]) == Some(("gitbranch", GitBranch(debianVersion)))
  {
    var env := RecipeEnv(debianVersion, distribution);
    var cmd := RecipeCommand(debianVersion, distribution, script);
    forall k | 0 <= k < 3 ensures SplitProperty(cmd[k + 1]) == Some(env[k]) {
      assert cmd[k + 1] == PropertyArgs(env)[k];
      PropertyArgRoundTrip(env, k);
    }
    assert SplitProperty(cmd[1]) == Some(env[0]);
    assert SplitProperty(cmd[2]) == Some(env[1]);
    assert SplitProperty(cmd[3]) == Some(env[2]);
  }

  /** The image description; `date` is the `%Y%m%d` rendering of the publication time. */
  function Description(debianVersion: string, distribution: string, shortName: string, arch: string, date: string): string
  {
    "YunoHost " + debianVersion + " " + distribution + " ynh-" + shortName + " " + arch + " (" + date + ")"
  }

  /** The property bag `publish` attaches to the image, in dict order. */
  function PublishProperties(debianVersion: string, distribution: string, shortName: string, arch: string, date: string): Properties
  {
    [ ("description", Description(debianVersion, distribution, shortName, arch, date)),
      ("os", "yunohost"),
      ("release", debianVersion + "-" + distribution),
      ("variant", shortName),
      ("architecture", arch) ]
  }

  /** The image carries exactly these five properties, in this order. */
  lemma PublishPropertyKeys(debianVersion: string, distribution: string, shortName: string, arch: string, date: string)
    ensures Streams.Keys(PublishProperties(debianVersion, distribution, shortName, arch, date))
         == ["description", "os", "release", "variant", "architecture"]
  {
  }

  /** Each `key=value` argument of the publish command reads back as its property. */
  lemma PublishPropertiesRoundTrip(debianVersion: string, distribution: string, shortName: string, arch: string, date: string)
    ensures var props := PublishProperties(debianVersion, distribution, shortName, arch, date);
      forall k :: 0 <= k < |props| ==> SplitProperty(PropertyArgs(props)[k]) == Some(props[k])
  {
    var props := PublishProperties(debianVersion, distribution, shortName, arch, date);
    PropertyArgsRoundTrip(props);
  }

  /** The image's alias is recovered from its `release` and `variant` properties. */
  lemma AliasFromProperties(debianVersion: string, distribution: string, shortName: string, arch: string, date: string)
    ensures var props := PublishProperties(debianVersion, distribution, shortName, arch, date);
      props[2].0 == "release" && props[3].0 == "variant"
      && ImageAlias(debianVersion, distribution, shortName) == "yunohost/" + props[2].1 + "/" + props[3].1
  {
  }

  // ---------------------------------------------------------------------------
  // The commands of each builder step
  // ---------------------------------------------------------------------------

  /** The constants of one builder: release, distribution, repository, and the scripts' directory. */
  datatype Settings = Settings(debianVersion: string, distribution: string, ssRepo: Option<string>, scriptDir: string)

  function Instance(s: Settings): string
  {
    InstanceName(s.debianVersion, s.distribution)
  }

  function Alias(s: Settings, shortName: string): string
  {
    ImageAlias(s.debianVersion, s.distribution, shortName)
  }

  /** Where a repository import stages exported images: `images/` beside the scripts. */
  function CacheDir(s: Settings): string
  {
    Strings.Child(s.scriptDir, "images")
  }

  const Dhclient: seq<string> := ["dhclient", "eth0"]
  const RecipesTarget: string := "/root/recipes"
  const RunnerTarget: string := "/root/gitlab-runner-light.deb"

  /** The run-state of an instance, or None when there is no such instance. */
  function StateOf(instances: map<string, RunState>, name: string): Option<RunState>
  {
    if name in instances then Some(instances[name]) else None
  }

  /** `clear`: list; when the instance exists, `instance_stopped` (list, info), stop if running, delete. */
  function ClearLog(name: string, state: Option<RunState>): seq<Call>
  {
    match state
    case None => [ListCall]
    case Some(Running) => [ListCall, ListCall, InfoCall(name), StopCall(name), DeleteCall(name)]
    case Some(Stopped) => [ListCall, ListCall, InfoCall(name), DeleteCall(name)]
  }

  /** `clear` deletes exactly an existing instance, and stops it first exactly when it runs. */
  lemma ClearLogCommands(name: string, state: Option<RunState>)
    ensures DeleteCall(name) in ClearLog(name, state) <==> state.Some?
    ensures StopCall(name) in ClearLog(name, state) <==> state == Some(Running)
    ensures forall k :: 0 <= k < |ClearLog(name, state)| ==> ClearLog(name, state)[k] != StartCall(name)
    ensures state.Some? ==> ClearLog(name, state)[|ClearLog(name, state)| - 1] == DeleteCall(name)
  {
    assert DeleteCall(name).argv[1] == "delete";
    assert StopCall(name).argv[1] == "stop";
    assert StartCall(name).argv[1] == "start";
    assert ListCall.argv[1] == "list" && InfoCall(name).argv[1] == "info";
  }

  /**
    `clear` twice is `clear` once: the second finds no instance, issues only the listing,
    and leaves the instances as the first left them.
   */
  lemma ClearIdempotent(instances: map<string, RunState>, name: string)
    ensures StateOf(instances - {name}, name) == None
    ensures ClearLog(name, StateOf(instances - {name}, name)) == [ListCall]
    ensures (instances - {name}) - {name} == instances - {name}
  {
  }

  /** `start`: clear, launch the base image, then `dhclient eth0` inside the instance. */
  function StartLog(name: string, state: Option<RunState>, image: string): seq<Call>
  {
    ClearLog(name, state) + [LaunchCall(image, name), ExecCall(name, Dhclient)]
  }

  /** `run_script`: push the recipes, run the recipe function, remove the recipes. */
  function RunScriptLog(s: Settings, script: string): seq<Call>
  {
    [ PushCall(Instance(s), Strings.Child(s.scriptDir, "recipes"), RecipesTarget),
      ExecCall(Instance(s), RecipeCommand(s.debianVersion, s.distribution, script)),
      ExecCall(Instance(s), ["rm", RecipesTarget]) ]
  }

  /**
    `publish`, from the `incus publish` on: replace an existing image of that alias, stop
    a running instance, publish, import into the repository when there is one, and
    restart the instance when it was stopped here.
   */
  function PublishTail(s: Settings, shortName: string, arch: string, date: string, present: bool, running: bool): seq<Call>
  {
    var name := Instance(s);
    var alias := Alias(s, shortName);
    [ImageListCall]
    + (if present then [ImageDeleteCall(alias)] else [])
    + [ListCall, InfoCall(name)]
    + (if running then [StopCall(name)] else [])
    + [PublishCall(name, alias, PublishProperties(s.debianVersion, s.distribution, shortName, arch, date))]
    + (if s.ssRepo.Some? then Streams.ImportLog(s.ssRepo.value, CacheDir(s), alias, alias) else [])
    + (if running then [StartCall(name), ExecCall(name, Dhclient)] else [])
  }

  /** `publish`: the slimify recipe, then, unless the host architecture is unknown, the rest. */
  function PublishLog(s: Settings, shortName: string, arch: Result<string, string>, date: string, present: bool, running: bool): seq<Call>
  {
    RunScriptLog(s, "slimify")
    + (if arch.Failure? then [] else PublishTail(s, shortName, arch.value, date, present, running))
  }

  /**
    An image is published from a stopped instance (stopped first when running); the
    repository import follows the publication directly, and a running instance is
    started again only after both.
   */
  lemma PublishOrder(s: Settings, shortName: string, arch: string, date: string, present: bool, running: bool)
    ensures var tail := PublishTail(s, shortName, arch, date, present, running);
      var p := if present then 2 else 1;
      var q := if running then p + 3 else p + 2;
      && tail[p..p + 2] == [ListCall, InfoCall(Instance(s))]
      && (running ==> tail[p + 2] == StopCall(Instance(s)) && tail[|tail| - 2] == StartCall(Instance(s)))
      && tail[q] == PublishCall(Instance(s), Alias(s, shortName), PublishProperties(s.debianVersion, s.distribution, shortName, arch, date))
      && (s.ssRepo.Some? ==> tail[q + 1..q + 3] == Streams.ImportLog(s.ssRepo.value, CacheDir(s), Alias(s, shortName), Alias(s, shortName)))
      && |tail| == q + 1 + (if s.ssRepo.Some? then 2 else 0) + (if running then 2 else 0)
  {
  }

  /** The images after a `publish`: the alias now names the new image, unless the architecture is unknown. */
  function PublishedImages(images: map<string, Properties>, s: Settings, shortName: string,
                           arch: Result<string, string>, date: string): map<string, Properties>
  {
    if arch.Failure? then images
    else images[Alias(s, shortName) := PublishProperties(s.debianVersion, s.distribution, shortName, arch.value, date)]
  }

  /** The host files after a `publish`: the staged archive is gone when there is a repository. */
  function PublishedFiles(files: set<string>, s: Settings, shortName: string, arch: Result<string, string>): set<string>
  {
    if arch.Success? && s.ssRepo.Some? then files - {Streams.StagedFile(CacheDir(s), Alias(s, shortName))}
    else files
  }

  // ---------------------------------------------------------------------------
  // The variants of the command line
  // ---------------------------------------------------------------------------

  datatype Variant = BuildAndLint | BeforeInstall | AppciOnly | All | Demo

  /** The name of each variant on the command line. */
  function VariantName(v: Variant): string
  {
    match v
    case BuildAndLint => "build-and-lint"
    case BeforeInstall => "before-install"
    case AppciOnly => "appci-only"
    case All => "all"
    case Demo => "demo"
  }

  /** The command-line choice, or None for a name the parser rejects. */
  function ParseVariant(name: string): Option<Variant>
  {
    if name == "build-and-lint" then Some(BuildAndLint)
    else if name == "before-install" then Some(BeforeInstall)
    else if name == "appci-only" then Some(AppciOnly)
    else if name == "all" then Some(All)
    else if name == "demo" then Some(Demo)
    else None
  }

  lemma ParseVariantIff(name: string, v: Variant)
    ensures ParseVariant(name) == Some(v) <==> VariantName(v) == name
  {
  }

  /** What an image is built from: the Debian release from the `images:` remote, or a local image. */
  datatype Base = Debian | LocalImage(shortName: string)

  /** One recipe run followed by the publication of the result under a short name. */
  datatype Stage = Stage(script: string, shortName: string)

  /** The steps of a variant: the base, whether the runner package is pushed, the stages. */
  datatype Plan = Plan(base: Base, pushRunner: bool, stages: seq<Stage>)

  /** The branches of `main`, as data. */
  function PlanOf(v: Variant): Plan
  {
    match v
    case BuildAndLint => Plan(Debian, true, [Stage("build_and_lint", "build-and-lint")])
    case BeforeInstall => Plan(Debian, true, [Stage("before_install", "before-install")])
    case All => Plan(Debian, true, [Stage("dev", "dev"), Stage("appci", "appci"), Stage("core_tests", "core-tests")])
    case AppciOnly => Plan(LocalImage("dev"), false, [Stage("appci", "appci")])
    case Demo => Plan(LocalImage("before-install"), false, [Stage("demo", "demo")])
  }

  /** A variant that starts from a local image starts from one that a Debian-based variant publishes. */
  lemma LocalBasesArePublished(v: Variant)
    requires PlanOf(v).base.LocalImage?
    ensures exists w, k :: w != v && PlanOf(w).base == Debian && 0 <= k < |PlanOf(w).stages|
                        && PlanOf(w).stages[k].shortName == PlanOf(v).base.shortName
  {
    if v == AppciOnly {
      assert PlanOf(All).stages[0].shortName == "dev";
    } else {
      assert PlanOf(BeforeInstall).stages[0].shortName == "before-install";
    }
  }

  /** Every variant publishes at least one image, each stage under its own short name. */
  lemma PlanStagesDistinct(v: Variant)
    ensures |PlanOf(v).stages| >= 1
    ensures forall i, j :: 0 <= i < j < |PlanOf(v).stages| ==> PlanOf(v).stages[i].shortName != PlanOf(v).stages[j].shortName
  {
  }

  /** The image a base stands for. */
  function BaseImage(s: Settings, base: Base): string
  {
    match base
    case Debian => "images:debian/" + s.debianVersion
    case LocalImage(shortName) => Alias(s, shortName)
  }

  /** The commands of one stage: its recipe, then the publication of the result. */
  function StageLog(s: Settings, script: string, shortName: string, arch: Result<string, string>, date: string,
                    present: bool, running: bool): seq<Call>
  {
    RunScriptLog(s, script) + PublishLog(s, shortName, arch, date, present, running)
  }

  /** The commands of the stages of a build, up to the first publication that fails. */
  function StagesLog(s: Settings, stages: seq<Stage>, arch: Result<string, string>, clock: seq<string>,
                     images: map<string, Properties>): seq<Call>
    requires |clock| >= |stages|
    decreases |stages|
  {
    if stages == [] then []
    else
      var st := stages[0];
      StageLog(s, st.script, st.shortName, arch, clock[0], Alias(s, st.shortName) in images, true)
      + (if arch.Failure? then []
         else StagesLog(s, stages[1..], arch, clock[1..], PublishedImages(images, s, st.shortName, arch, clock[0])))
  }

  /** The images after the stages of a build. */
  function StagesImages(s: Settings, stages: seq<Stage>, arch: Result<string, string>, clock: seq<string>,
                        images: map<string, Properties>): map<string, Properties>
    requires |clock| >= |stages|
    decreases |stages|
  {
    if stages == [] || arch.Failure? then images
    else StagesImages(s, stages[1..], arch, clock[1..], PublishedImages(images, s, stages[0].shortName, arch, clock[0]))
  }

  /** The host files after the stages of a build. */
  function StagesFiles(files: set<string>, s: Settings, stages: seq<Stage>, arch: Result<string, string>): set<string>
    decreases |stages|
  {
    if stages == [] || arch.Failure? then files
    else StagesFiles(PublishedFiles(files, s, stages[0].shortName, arch), s, stages[1..], arch)
  }

  /**
    With a repository, a build removes exactly the staged archive of each stage from the
    host; without one, or on an unknown architecture, it leaves the host files alone.
   */
  lemma {:induction false} StagesFilesRemoved(files: set<string>, s: Settings, stages: seq<Stage>, arch: Result<string, string>)
    ensures StagesFiles(files, s, stages, arch)
         == if arch.Success? && s.ssRepo.Some?
            then files - (set k | 0 <= k < |stages| :: Streams.StagedFile(CacheDir(s), Alias(s, stages[k].shortName)))
            else files
    decreases |stages|
  {
    if stages != [] && arch.Success? {
      var next := PublishedFiles(files, s, stages[0].shortName, arch);
      StagesFilesRemoved(next, s, stages[1..], arch);
      if s.ssRepo.Some? {
        var staged := set k | 0 <= k < |stages| :: Streams.StagedFile(CacheDir(s), Alias(s, stages[k].shortName));
        var rest := set k | 0 <= k < |stages[1..]| :: Streams.StagedFile(CacheDir(s), Alias(s, stages[1..][k].shortName));
        assert staged == {Streams.StagedFile(CacheDir(s), Alias(s, stages[0].shortName))} + rest by {
          forall f | f in staged ensures f in {Streams.StagedFile(CacheDir(s), Alias(s, stages[0].shortName))} + rest {
            var k :| 0 <= k < |stages| && f == Streams.StagedFile(CacheDir(s), Alias(s, stages[k].shortName));
            if k > 0 { assert stages[1..][k - 1] == stages[k]; }
          }
          forall f | f in rest ensures f in staged {
            var k :| 0 <= k < |stages[1..]| && f == Streams.StagedFile(CacheDir(s), Alias(s, stages[1..][k].shortName));
            assert stages[1..][k] == stages[k + 1];
          }
        }
      }
    }
  }

  /** The commands of one branch of `main`: start, push the runner package when the variant needs it, the stages. */
  function BranchLog(s: Settings, v: Variant, arch: Result<string, string>, clock: seq<string>,
                     state: Option<RunState>, images: map<string, Properties>): seq<Call>
    requires |clock| >= |PlanOf(v).stages|
  {
    var plan := PlanOf(v);
    var started := StartLog(Instance(s), state, BaseImage(s, plan.base));
    (if plan.pushRunner then started + [PushCall(Instance(s), Strings.Child(s.scriptDir, "gitlab-runner-light.deb"), RunnerTarget)]
     else started)
    + StagesLog(s, plan.stages, arch, clock, images)
  }

  /**
    The commands of a whole run of the script for one variant: its branch, then the
    final `clear` — which is not reached when a publication fails.
   */
  function BuildLog(s: Settings, v: Variant, arch: Result<string, string>, clock: seq<string>,
                    state: Option<RunState>, images: map<string, Properties>): seq<Call>
    requires |clock| >= |PlanOf(v).stages|
  {
    BranchLog(s, v, arch, clock, state, images)
    + (if arch.Success? then ClearLog(Instance(s), Some(Running)) else [])
  }

  /**
    After a build on a known architecture, every stage's alias names an image carrying
    that stage's properties; on an unknown one no image changed.
   */
  lemma {:induction false} StagesImagesPublished(s: Settings, stages: seq<Stage>, arch: Result<string, string>,
                                                clock: seq<string>, images: map<string, Properties>, k: nat)
    requires |clock| >= |stages| && k < |stages|
    requires forall i, j :: 0 <= i < j < |stages| ==> Alias(s, stages[i].shortName) != Alias(s, stages[j].shortName)
    ensures arch.Success? ==>
      var out := StagesImages(s, stages, arch, clock, images);
      Alias(s, stages[k].shortName) in out
      && out[Alias(s, stages[k].shortName)]
         == PublishProperties(s.debianVersion, s.distribution, stages[k].shortName, arch.value, clock[k])
    ensures arch.Failure? ==> StagesImages(s, stages, arch, clock, images) == images
    decreases |stages|
  {
    if arch.Success? {
      var next := PublishedImages(images, s, stages[0].shortName, arch, clock[0]);
      if k == 0 {
        StagesImagesKeep(s, stages[1..], arch, clock[1..], next, Alias(s, stages[0].shortName));
      } else {
        StagesImagesPublished(s, stages[1..], arch, clock[1..], next, k - 1);
      }
    }
  }

  /** The stages never touch an alias none of them publishes. */
  lemma {:induction false} StagesImagesKeep(s: Settings, stages: seq<Stage>, arch: Result<string, string>,
                                           clock: seq<string>, images: map<string, Properties>, alias: string)
    requires |clock| >= |stages|
    requires forall i :: 0 <= i < |stages| ==> Alias(s, stages[i].shortName) != alias
    ensures alias in StagesImages(s, stages, arch, clock, images) <==> alias in images
    ensures alias in images ==> StagesImages(s, stages, arch, clock, images)[alias] == images[alias]
    decreases |stages|
  {
    if stages != [] && arch.Success? {
      StagesImagesKeep(s, stages[1..], arch, clock[1..], PublishedImages(images, s, stages[0].shortName, arch, clock[0]), alias);
    }
  }

  // ---------------------------------------------------------------------------
  // The builder
  // ---------------------------------------------------------------------------

  /** A build of a single stage. */
  lemma OneStage(s: Settings, st: Stage, arch: Result<string, string>, clock: seq<string>,
                 images: map<string, Properties>, files: set<string>)
    requires |clock| >= 1
    ensures StagesLog(s, [st], arch, clock, images)
         == StageLog(s, st.script, st.shortName, arch, clock[0], Alias(s, st.shortName) in images, true)
    ensures StagesImages(s, [st], arch, clock, images) == PublishedImages(images, s, st.shortName, arch, clock[0])
    ensures StagesFiles(files, s, [st], arch) == PublishedFiles(files, s, st.shortName, arch)
  {
    assert [st][1..] == [];
  }

  /** Aliases of one build differ exactly where the short names do. */
  lemma AliasInjective(s: Settings, a: string, b: string)
    ensures Alias(s, a) == Alias(s, b) <==> a == b
  {
    var prefix := "yunohost/" + s.debianVersion + "-" + s.distribution + "/";
    assert Alias(s, a) == prefix + a && Alias(s, b) == prefix + b;
    if Alias(s, a) == Alias(s, b) {
      assert (prefix + a)[|prefix|..] == a;
      assert (prefix + b)[|prefix|..] == b;
    }
  }

  /**
    A build of any variant on a known architecture leaves every stage of its plan
    published under its alias, with that stage's properties and date.
   */
  lemma VariantStagesPublished(s: Settings, v: Variant, arch: string, clock: seq<string>,
                               images: map<string, Properties>, k: nat)
    requires |clock| >= |PlanOf(v).stages| && k < |PlanOf(v).stages|
    ensures var stage := PlanOf(v).stages[k];
      var out := StagesImages(s, PlanOf(v).stages, Success(arch), clock, images);
      Alias(s, stage.shortName) in out
      && out[Alias(s, stage.shortName)] == PublishProperties(s.debianVersion, s.distribution, stage.shortName, arch, clock[k])
  {
    var stages := PlanOf(v).stages;
    PlanStagesDistinct(v);
    forall i, j | 0 <= i < j < |stages| ensures Alias(s, stages[i].shortName) != Alias(s, stages[j].shortName) {
      AliasInjective(s, stages[i].shortName, stages[j].shortName);
    }
    StagesImagesPublished(s, stages, Success(arch), clock, images, k);
  }

  /** A build of three stages, as the `all` variant has. */
  lemma ThreeStages(s: Settings, stages: seq<Stage>, arch: Result<string, string>, clock: seq<string>,
                    images: map<string, Properties>, files: set<string>)
    requires |stages| == 3 && |clock| >= 3
    ensures var i1 := PublishedImages(images, s, stages[0].shortName, arch, clock[0]);
      var i2 := PublishedImages(i1, s, stages[1].shortName, arch, clock[1]);
      var p1 := StageLog(s, stages[0].script, stages[0].shortName, arch, clock[0], Alias(s, stages[0].shortName) in images, true);
      var p2 := StageLog(s, stages[1].script, stages[1].shortName, arch, clock[1], Alias(s, stages[1].shortName) in i1, true);
      var p3 := StageLog(s, stages[2].script, stages[2].shortName, arch, clock[2], Alias(s, stages[2].shortName) in i2, true);
      && StagesLog(s, stages, arch, clock, images) == (if arch.Failure? then p1 else p1 + p2 + p3)
      && StagesImages(s, stages, arch, clock, images)
         == (if arch.Failure? then images else PublishedImages(i2, s, stages[2].shortName, arch, clock[2]))
      && StagesFiles(files, s, stages, arch)
         == (if arch.Failure? then files
             else PublishedFiles(PublishedFiles(PublishedFiles(files, s, stages[0].shortName, arch),
                                                s, stages[1].shortName, arch), s, stages[2].shortName, arch))
  {
    StagesCons(s, stages, arch, clock, images, files);
    if arch.Success? {
      var i1 := PublishedImages(images, s, stages[0].shortName, arch, clock[0]);
      var f1 := PublishedFiles(files, s, stages[0].shortName, arch);
      StagesCons(s, stages[1..], arch, clock[1..], i1, f1);
      var i2 := PublishedImages(i1, s, stages[1].shortName, arch, clock[1]);
      var f2 := PublishedFiles(f1, s, stages[1].shortName, arch);
      assert stages[1..][1..] == [stages[2]];
      assert clock[1..][1..] == clock[2..];
      OneStage(s, stages[2], arch, clock[2..], i2, f2);
      var p1 := StageLog(s, stages[0].script, stages[0].shortName, arch, clock[0], Alias(s, stages[0].shortName) in images, true);
      var p2 := StageLog(s, stages[1].script, stages[1].shortName, arch, clock[1], Alias(s, stages[1].shortName) in i1, true);
      var p3 := StageLog(s, stages[2].script, stages[2].shortName, arch, clock[2], Alias(s, stages[2].shortName) in i2, true);
      assert StagesLog(s, stages, arch, clock, images) == p1 + (p2 + p3);
    } else {
      assert StagesLog(s, stages, arch, clock, images)
          == StageLog(s, stages[0].script, stages[0].shortName, arch, clock[0], Alias(s, stages[0].shortName) in images, true) + [];
    }
  }

  /** The first stage of a build, and the rest of the stages after it. */
  lemma StagesCons(s: Settings, stages: seq<Stage>, arch: Result<string, string>, clock: seq<string>,
                   images: map<string, Properties>, files: set<string>)
    requires |stages| >= 1 && |clock| >= |stages|
    ensures StagesLog(s, stages, arch, clock, images)
         == StageLog(s, stages[0].script, stages[0].shortName, arch, clock[0], Alias(s, stages[0].shortName) in images, true)
            + (if arch.Failure? then []
               else StagesLog(s, stages[1..], arch, clock[1..], PublishedImages(images, s, stages[0].shortName, arch, clock[0])))
    ensures StagesImages(s, stages, arch, clock, images)
         == if arch.Failure? then images
            else StagesImages(s, stages[1..], arch, clock[1..], PublishedImages(images, s, stages[0].shortName, arch, clock[0]))
    ensures StagesFiles(files, s, stages, arch)
         == if arch.Failure? then files
            else StagesFiles(PublishedFiles(files, s, stages[0].shortName, arch), s, stages[1..], arch)
  {
  }

  /** The log of `publish` after the architecture is known, assembled from its steps. */
  lemma PublishTailPieces(s: Settings, shortName: string, arch: string, date: string,
                          present: bool, running: bool,
                          ab: seq<Call>, cd: seq<Call>, e: seq<Call>, f: seq<Call>, g: seq<Call>)
    requires ab == [ImageListCall] + (if present then [ImageDeleteCall(Alias(s, shortName))] else [])
    requires cd == [ListCall, InfoCall(Instance(s))] + (if running then [StopCall(Instance(s))] else [])
    requires e == [PublishCall(Instance(s), Alias(s, shortName), PublishProperties(s.debianVersion, s.distribution, shortName, arch, date))]
    requires f == if s.ssRepo.Some? then Streams.ImportLog(s.ssRepo.value, CacheDir(s), Alias(s, shortName), Alias(s, shortName)) else []
    requires g == if running then [StartCall(Instance(s)), ExecCall(Instance(s), Dhclient)] else []
    ensures ab + cd + e + f + g == PublishTail(s, shortName, arch, date, present, running)
  {
  }

  /** What `publish` amounts to on an unknown architecture: the slimify recipe and nothing else. */
  lemma PublishFailed(s: Settings, shortName: string, arch: Result<string, string>, date: string,
                      present: bool, running: bool, images: map<string, Properties>, files: set<string>)
    requires arch.Failure?
    ensures PublishLog(s, shortName, arch, date, present, running) == RunScriptLog(s, "slimify")
    ensures PublishedImages(images, s, shortName, arch, date) == images
    ensures PublishedFiles(files, s, shortName, arch) == files
  {
    assert RunScriptLog(s, "slimify") + [] == RunScriptLog(s, "slimify");
  }

  /** What `publish` amounts to on a known architecture. */
  lemma PublishSucceeded(s: Settings, shortName: string, arch: string, date: string,
                         present: bool, running: bool, images: map<string, Properties>)
    ensures PublishLog(s, shortName, Success(arch), date, present, running)
         == RunScriptLog(s, "slimify") + PublishTail(s, shortName, arch, date, present, running)
    ensures PublishedImages(images, s, shortName, Success(arch), date)
         == images[Alias(s, shortName) := PublishProperties(s.debianVersion, s.distribution, shortName, arch, date)]
  {
  }

  /** Stopping an instance and starting it again exactly when it was running restores the instances. */
  lemma RunStateRestored(instances: map<string, RunState>, name: string)
    requires name in instances
    ensures var stopped := instances[name := Stopped];
      (if instances[name] == Running then stopped[name := Running] else stopped) == instances
  {
  }

  /** Deleting an alias and then publishing under it is publishing under it. */
  lemma AliasReplaced(images: map<string, Properties>, alias: string, props: Properties)
    ensures (images - {alias})[alias := props] == images[alias := props]
  {
  }

  /** The commands of a run: the branch, then the final `clear` exactly when the architecture is known. */
  lemma BuildLogSplit(s: Settings, v: Variant, arch: Result<string, string>, clock: seq<string>,
                      state: Option<RunState>, images: map<string, Properties>)
    requires |clock| >= |PlanOf(v).stages|
    ensures arch.Success? ==> BuildLog(s, v, arch, clock, state, images)
                              == BranchLog(s, v, arch, clock, state, images) + ClearLog(Instance(s), Some(Running))
    ensures arch.Failure? ==> BuildLog(s, v, arch, clock, state, images) == BranchLog(s, v, arch, clock, state, images)
  {
    assert BranchLog(s, v, arch, clock, state, images) + [] == BranchLog(s, v, arch, clock, state, images);
  }

  /** After a launch the instance runs; deleting it then leaves what deleting it before would have. */
  lemma Relaunched(instances: map<string, RunState>, name: string)
    ensures StateOf(instances[name := Running], name) == Some(Running)
    ensures instances[name := Running] - {name} == instances - {name}
  {
  }

  lemma Regroup(head: seq<Call>, p1: seq<Call>, p2: seq<Call>, p3: seq<Call>)
    ensures head + p1 + p2 + p3 == head + (p1 + p2 + p3)
  {
  }

  /** Appending to a log one piece at a time. */
  lemma Extend(log: seq<Call>, done: seq<Call>, piece: seq<Call>, now: seq<Call>)
    requires now == log + done + piece
    ensures now == log + (done + piece)
  {
  }

  class ImageBuilder {
    /** The module-level `incus` the builder drives. */
    const engine: Engine
    /** The directory of the script: recipes, runner package, and the staging directory. */
    const scriptDir: string
    const debianVersion: string
    const distribution: string
    const instanceName: string
    /** The simplestreams repository to import into, when one was given. */
    const ssRepo: Option<string>

    constructor (engine: Engine, scriptDir: string, debianVersion: string, distribution: string, ssRepo: Option<string>)
      ensures Valid()
      ensures this.engine == engine && this.scriptDir == scriptDir && this.ssRepo == ssRepo
      ensures this.debianVersion == debianVersion && this.distribution == distribution
    {
      this.engine := engine;
      this.scriptDir := scriptDir;
      this.debianVersion := debianVersion;
      this.distribution := distribution;
      this.instanceName := InstanceName(debianVersion, distribution);
      this.ssRepo := ssRepo;
    }

    /** The instance the builder works in is named after its release and distribution. */
    predicate Valid()
    {
      instanceName == InstanceName(debianVersion, distribution)
    }

    function Config(): Settings
    {
      Settings(debianVersion, distribution, ssRepo, scriptDir)
    }

    /** Deletes the builder's instance if there is one, stopping it first when it runs. */
    method Clear()
      requires Valid()
      modifies engine`instances, engine`log
      ensures engine.instances == old(engine.instances) - {instanceName}
      ensures engine.images == old(engine.images) && engine.files == old(engine.files)
      ensures engine.log == old(engine.log) + ClearLog(instanceName, StateOf(old(engine.instances), instanceName))
    {
      var present := engine.InstanceExists(instanceName);
      if !present {
        return;
      }
      var stopped := engine.InstanceStopped(instanceName);
      if !stopped {
        engine.InstanceStop(instanceName);
      }
      engine.InstanceDelete(instanceName);
    }

    /** A fresh running instance from `base`, or from the Debian release when there is none. */
    method Start(base: Option<string>)
      requires Valid()
      requires base.Some? ==> IsRemoteImage(base.value) || base.value in engine.images
      modifies engine`instances, engine`log
      ensures engine.instances == old(engine.instances)[instanceName := Running]
      ensures engine.log == old(engine.log)
        + StartLog(instanceName, StateOf(old(engine.instances), instanceName),
                   if base.None? then "images:debian/" + debianVersion else base.value)
    {
      var image := if base.None? then "images:debian/" + debianVersion else base.value;
      assert base.None? ==> image[..7] == "images:";
      Clear();
      engine.Launch(image, instanceName);
      engine.Execute(instanceName, Dhclient);
    }

    method PutFile(file: string, destFile: string)
      requires instanceName in engine.instances
      modifies engine`log
      ensures engine.log == old(engine.log) + [PushCall(instanceName, file, destFile)]
    {
      engine.PushFile(instanceName, file, destFile);
    }

    /** `ls -lah` inside the instance. */
    method Run()
      requires instanceName in engine.instances && engine.instances[instanceName] == Running
      modifies engine`log
      ensures engine.log == old(engine.log) + [ExecCall(instanceName, ["ls", "-lah"])]
    {
      engine.Execute(instanceName, ["ls", "-lah"]);
    }

    /** Pushes the recipes, runs recipe function `name` with the build's environment, removes them. */
    method RunScript(name: string)
      requires Valid() && instanceName in engine.instances && engine.instances[instanceName] == Running
      modifies engine`log
      ensures engine.log == old(engine.log) + RunScriptLog(Config(), name)
    {
      PutFile(Strings.Child(scriptDir, "recipes"), RecipesTarget);
      var gitbranch := if debianVersion == "bookworm" then "dev" else debianVersion;
      var command := ["env", "RELEASE=" + distribution, "DEBIAN_VERSION=" + debianVersion,
                      "gitbranch=" + gitbranch, "/root/recipes", name];
      RecipeCommandSpelled(debianVersion, distribution, name);
      engine.Execute(instanceName, command);
      engine.Execute(instanceName, ["rm", RecipesTarget]);
    }

    /**
      Slims the instance and publishes it as the image `shortName`, replacing an image of
      the same alias, and imports it into the repository when there is one. The instance
      runs again afterwards. Fails, after the slimify recipe, on an unknown host
      architecture. The slimify recipe runs through `incus exec`, so the instance is running.
     */
    method Publish(shortName: string, date: string) returns (r: Outcome<string>)
      requires Valid() && instanceName in engine.instances && engine.instances[instanceName] == Running
      modifies engine`instances, engine`images, engine`files, engine`log
      ensures r.Pass? <==> Arch(engine.machine).Success?
      ensures r.Fail? ==> r.error == Arch(engine.machine).error
      ensures engine.instances == old(engine.instances)
      ensures engine.images == PublishedImages(old(engine.images), Config(), shortName, Arch(engine.machine), date)
      ensures engine.files == PublishedFiles(old(engine.files), Config(), shortName, Arch(engine.machine))
      ensures engine.log == old(engine.log)
        + PublishLog(Config(), shortName, Arch(engine.machine), date, Alias(Config(), shortName) in old(engine.images), true)
    {
      ghost var present := Alias(Config(), shortName) in old(engine.images);
      ghost var running := true;
      RunScript("slimify");

      var imageAlias := ImageAlias(debianVersion, distribution, shortName);
      var arch := engine.GetArch();
      if arch.Failure? {
        PublishFailed(Config(), shortName, arch, date, present, running, old(engine.images), old(engine.files));
        return Fail(arch.error);
      }
      PublishAs(imageAlias, shortName, arch.value, date);
      PublishSucceeded(Config(), shortName, arch.value, date, present, running, old(engine.images));
      Extend(old(engine.log), RunScriptLog(Config(), "slimify"),
             PublishTail(Config(), shortName, arch.value, date, present, running), engine.log);
      r := Pass;
    }

    /**
      One run of the script for variant `v`: the branch of `main` for it, then `clear`.
      `clock[k]` is the date the `k`-th publication reads. A failed publication ends the
      run: the instance is left running and nothing else is issued.
     */
    method Build(v: Variant, clock: seq<string>) returns (r: Outcome<string>)
      requires Valid()
      requires |clock| >= |PlanOf(v).stages|
      requires PlanOf(v).base.LocalImage? ==> Alias(Config(), PlanOf(v).base.shortName) in engine.images
      modifies engine`instances, engine`images, engine`files, engine`log
      ensures r.Pass? <==> Arch(engine.machine).Success?
      ensures r.Fail? ==> r.error == Arch(engine.machine).error
      ensures engine.instances
           == if r.Pass? then old(engine.instances) - {instanceName} else old(engine.instances)[instanceName := Running]
      ensures engine.images == StagesImages(Config(), PlanOf(v).stages, Arch(engine.machine), clock, old(engine.images))
      ensures engine.files == StagesFiles(old(engine.files), Config(), PlanOf(v).stages, Arch(engine.machine))
      ensures engine.log == old(engine.log)
        + BuildLog(Config(), v, Arch(engine.machine), clock, StateOf(old(engine.instances), instanceName), old(engine.images))
    {
      r := Branch(v, clock);
      ghost var branched := BranchLog(Config(), v, Arch(engine.machine), clock,
                                      StateOf(old(engine.instances), instanceName), old(engine.images));
      BuildLogSplit(Config(), v, Arch(engine.machine), clock, StateOf(old(engine.instances), instanceName), old(engine.images));
      if r.Pass? {
        Relaunched(old(engine.instances), instanceName);
        Clear();
        Extend(old(engine.log), branched, ClearLog(instanceName, Some(Running)), engine.log);
      }
    }

    /** The if-chain of `main` on the variant. */
    method Branch(v: Variant, clock: seq<string>) returns (r: Outcome<string>)
      requires Valid()
      requires |clock| >= |PlanOf(v).stages|
      requires PlanOf(v).base.LocalImage? ==> Alias(Config(), PlanOf(v).base.shortName) in engine.images
      modifies engine`instances, engine`images, engine`files, engine`log
      ensures Branched(v, clock, r)
    {
      match v {
        case BuildAndLint => r := BuildAndLintBranch(clock);
        case BeforeInstall => r := BeforeInstallBranch(clock);
        case All => r := AllBranch(clock);
        case AppciOnly => r := AppciOnlyBranch(clock);
        case Demo => r := DemoBranch(clock);
      }
    }

    /** What a branch of `main` leaves behind: the instance running, the stages' images, files and commands. */
    twostate predicate Branched(v: Variant, clock: seq<string>, new r: Outcome<string>)
      requires |clock| >= |PlanOf(v).stages|
      reads this, engine
    {
      && (r.Pass? <==> Arch(engine.machine).Success?)
      && (r.Fail? ==> r.error == Arch(engine.machine).error)
      && engine.instances == old(engine.instances)[instanceName := Running]
      && engine.images == StagesImages(Config(), PlanOf(v).stages, Arch(engine.machine), clock, old(engine.images))
      && engine.files == StagesFiles(old(engine.files), Config(), PlanOf(v).stages, Arch(engine.machine))
      && engine.log == old(engine.log)
         + BranchLog(Config(), v, Arch(engine.machine), clock, StateOf(old(engine.instances), instanceName), old(engine.images))
    }

    method BuildAndLintBranch(clock: seq<string>) returns (r: Outcome<string>)
      requires Valid() && |clock| >= 1
      modifies engine`instances, engine`images, engine`files, engine`log
      ensures Branched(BuildAndLint, clock, r)
    {
      Start(None);
      PutFile(Strings.Child(scriptDir, "gitlab-runner-light.deb"), RunnerTarget);
      ghost var startLog := StartLog(instanceName, StateOf(old(engine.instances), instanceName), BaseImage(Config(), Debian));
      ghost var push := [PushCall(instanceName, Strings.Child(scriptDir, "gitlab-runner-light.deb"), RunnerTarget)];
      Extend(old(engine.log), startLog, push, engine.log);
      ghost var head := startLog + push;
      r := RunStage("build_and_lint", "build-and-lint", clock[0]);
      Extend(old(engine.log), head, StageLog(Config(), "build_and_lint", "build-and-lint", Arch(engine.machine), clock[0],
             Alias(Config(), "build-and-lint") in old(engine.images), true), engine.log);
      OneStage(Config(), PlanOf(BuildAndLint).stages[0], Arch(engine.machine), clock, old(engine.images), old(engine.files));
    }

    method BeforeInstallBranch(clock: seq<string>) returns (r: Outcome<string>)
      requires Valid() && |clock| >= 1
      modifies engine`instances, engine`images, engine`files, engine`log
      ensures Branched(BeforeInstall, clock, r)
    {
      Start(None);
      PutFile(Strings.Child(scriptDir, "gitlab-runner-light.deb"), RunnerTarget);
      ghost var startLog := StartLog(instanceName, StateOf(old(engine.instances), instanceName), BaseImage(Config(), Debian));
      ghost var push := [PushCall(instanceName, Strings.Child(scriptDir, "gitlab-runner-light.deb"), RunnerTarget)];
      Extend(old(engine.log), startLog, push, engine.log);
      ghost var head := startLog + push;
      r := RunStage("before_install", "before-install", clock[0]);
      Extend(old(engine.log), head, StageLog(Config(), "before_install", "before-install", Arch(engine.machine), clock[0],
             Alias(Config(), "before-install") in old(engine.images), true), engine.log);
      OneStage(Config(), PlanOf(BeforeInstall).stages[0], Arch(engine.machine), clock, old(engine.images), old(engine.files));
    }

    method AllBranch(clock: seq<string>) returns (r: Outcome<string>)
      requires Valid() && |clock| >= 3
      modifies engine`instances, engine`images, engine`files, engine`log
      ensures Branched(All, clock, r)
    {
      ghost var s := Config();
      ghost var arch := Arch(engine.machine);
      ghost var i0 := engine.images;
      Start(None);
      PutFile(Strings.Child(scriptDir, "gitlab-runner-light.deb"), RunnerTarget);
      ghost var startLog := StartLog(instanceName, StateOf(old(engine.instances), instanceName), BaseImage(s, Debian));
      ghost var push := [PushCall(instanceName, Strings.Child(scriptDir, "gitlab-runner-light.deb"), RunnerTarget)];
      Extend(old(engine.log), startLog, push, engine.log);
      ghost var head := startLog + push;
      r := RunStage("dev", "dev", clock[0]);
      ghost var p1 := StageLog(s, "dev", "dev", arch, clock[0], Alias(s, "dev") in i0, true);
      Extend(old(engine.log), head, p1, engine.log);
      ghost var stages := PlanOf(All).stages;
      assert stages == [Stage("dev", "dev"), Stage("appci", "appci"), Stage("core_tests", "core-tests")];
      ThreeStages(s, stages, arch, clock, i0, old(engine.files));
      if r.Fail? {
        assert engine.images == i0 == StagesImages(s, stages, arch, clock, i0);
        assert engine.files == old(engine.files) == StagesFiles(old(engine.files), s, stages, arch);
      } else {
        ghost var i1 := engine.images;
        r := RunStage("appci", "appci", clock[1]);
        ghost var p2 := StageLog(s, "appci", "appci", arch, clock[1], Alias(s, "appci") in i1, true);
        Extend(old(engine.log), head + p1, p2, engine.log);
        ghost var i2 := engine.images;
        r := RunStage("core_tests", "core-tests", clock[2]);
        ghost var p3 := StageLog(s, "core_tests", "core-tests", arch, clock[2], Alias(s, "core-tests") in i2, true);
        Extend(old(engine.log), head + p1 + p2, p3, engine.log);
        Regroup(head, p1, p2, p3);
      }
    }

    method AppciOnlyBranch(clock: seq<string>) returns (r: Outcome<string>)
      requires Valid() && |clock| >= 1
      requires Alias(Config(), "dev") in engine.images
      modifies engine`instances, engine`images, engine`files, engine`log
      ensures Branched(AppciOnly, clock, r)
    {
      Start(Some(ImageAlias(debianVersion, distribution, "dev")));
      ghost var head := StartLog(instanceName, StateOf(old(engine.instances), instanceName), BaseImage(Config(), PlanOf(AppciOnly).base));
      r := RunStage("appci", "appci", clock[0]);
      Extend(old(engine.log), head, StageLog(Config(), "appci", "appci", Arch(engine.machine), clock[0],
             Alias(Config(), "appci") in old(engine.images), true), engine.log);
      OneStage(Config(), PlanOf(AppciOnly).stages[0], Arch(engine.machine), clock, old(engine.images), old(engine.files));
    }

    method DemoBranch(clock: seq<string>) returns (r: Outcome<string>)
      requires Valid() && |clock| >= 1
      requires Alias(Config(), "before-install") in engine.images
      modifies engine`instances, engine`images, engine`files, engine`log
      ensures Branched(Demo, clock, r)
    {
      Start(Some(ImageAlias(debianVersion, distribution, "before-install")));
      ghost var head := StartLog(instanceName, StateOf(old(engine.instances), instanceName), BaseImage(Config(), PlanOf(Demo).base));
      r := RunStage("demo", "demo", clock[0]);
      Extend(old(engine.log), head, StageLog(Config(), "demo", "demo", Arch(engine.machine), clock[0],
             Alias(Config(), "demo") in old(engine.images), true), engine.log);
      OneStage(Config(), PlanOf(Demo).stages[0], Arch(engine.machine), clock, old(engine.images), old(engine.files));
    }

    /** `run_script(script)` followed by `publish(shortName)`: one stage of a variant. */
    method RunStage(script: string, shortName: string, date: string) returns (r: Outcome<string>)
      requires Valid() && instanceName in engine.instances && engine.instances[instanceName] == Running
      modifies engine`instances, engine`images, engine`files, engine`log
      ensures r.Pass? <==> Arch(engine.machine).Success?
      ensures r.Fail? ==> r.error == Arch(engine.machine).error
      ensures engine.instances == old(engine.instances)
      ensures engine.images == PublishedImages(old(engine.images), Config(), shortName, Arch(engine.machine), date)
      ensures engine.files == PublishedFiles(old(engine.files), Config(), shortName, Arch(engine.machine))
      ensures engine.log == old(engine.log)
        + StageLog(Config(), script, shortName, Arch(engine.machine), date, Alias(Config(), shortName) in old(engine.images), true)
    {
      RunScript(script);
      ghost var ran := RunScriptLog(Config(), script);
      r := Publish(shortName, date);
      Extend(old(engine.log), ran, PublishLog(Config(), shortName, Arch(engine.machine), date,
             Alias(Config(), shortName) in old(engine.images), true), engine.log);
    }

    /** `SimpleStreams(incus, repo, SCRIPT_DIR / "images").import_from_incus(alias, alias)`. */
    method ImportInto(repo: string, imageAlias: string)
      requires imageAlias in engine.images
      modifies engine`files, engine`log
      ensures engine.files == old(engine.files) - {Streams.StagedFile(CacheDir(Config()), imageAlias)}
      ensures engine.log == old(engine.log) + Streams.ImportLog(repo, CacheDir(Config()), imageAlias, imageAlias)
    {
      var ss := new Streams.SimpleStreams(engine, repo, Strings.Child(scriptDir, "images"));
      ss.ImportFromIncus(imageAlias, imageAlias);
    }

    /** The part of `publish` after the architecture is known. */
    method PublishAs(imageAlias: string, shortName: string, arch: string, date: string)
      requires Valid() && instanceName in engine.instances
      requires imageAlias == Alias(Config(), shortName)
      modifies engine`instances, engine`images, engine`files, engine`log
      ensures engine.instances == old(engine.instances)
      ensures engine.images == old(engine.images)[imageAlias := PublishProperties(debianVersion, distribution, shortName, arch, date)]
      ensures engine.files == PublishedFiles(old(engine.files), Config(), shortName, Success(arch))
      ensures engine.log == old(engine.log)
        + PublishTail(Config(), shortName, arch, date, imageAlias in old(engine.images), old(engine.instances)[instanceName] == Running)
    {
      ghost var ab := [ImageListCall] + (if imageAlias in engine.images then [ImageDeleteCall(imageAlias)] else []);
      RunStateRestored(engine.instances, instanceName);
      AliasReplaced(engine.images, imageAlias, PublishProperties(debianVersion, distribution, shortName, arch, date));
      ReplaceImage(imageAlias);
      var shouldRestart := StopForPublish();
      ghost var cd := [ListCall, InfoCall(instanceName)] + (if shouldRestart then [StopCall(instanceName)] else []);
      Extend(old(engine.log), ab, cd, engine.log);
      var properties := PublishProperties(debianVersion, distribution, shortName, arch, date);
      engine.Publish(instanceName, imageAlias, properties);
      ghost var e := [PublishCall(instanceName, imageAlias, properties)];
      Extend(old(engine.log), ab + cd, e, engine.log);
      ghost var f := if ssRepo.Some? then Streams.ImportLog(ssRepo.value, CacheDir(Config()), imageAlias, imageAlias) else [];
      ImportIfRepository(imageAlias);
      Extend(old(engine.log), ab + cd + e, f, engine.log);
      ghost var g := if shouldRestart then [StartCall(instanceName), ExecCall(instanceName, Dhclient)] else [];
      RestartIf(shouldRestart);
      Extend(old(engine.log), ab + cd + e + f, g, engine.log);
      PublishTailPieces(Config(), shortName, arch, date, imageAlias in old(engine.images), shouldRestart, ab, cd, e, f, g);
    }

    /** `if self.ss_repo:` import the image into the repository. */
    method ImportIfRepository(imageAlias: string)
      requires imageAlias in engine.images
      modifies engine`files, engine`log
      ensures engine.files == if ssRepo.Some? then old(engine.files) - {Streams.StagedFile(CacheDir(Config()), imageAlias)}
                              else old(engine.files)
      ensures engine.log == old(engine.log)
        + if ssRepo.Some? then Streams.ImportLog(ssRepo.value, CacheDir(Config()), imageAlias, imageAlias) else []
    {
      if ssRepo.Some? {
        ImportInto(ssRepo.value, imageAlias);
      }
    }

    /** `if should_restart:` start the instance again and renew its address. */
    method RestartIf(shouldRestart: bool)
      requires instanceName in engine.instances && engine.instances[instanceName] == Stopped
      modifies engine`instances, engine`log
      ensures engine.instances == if shouldRestart then old(engine.instances)[instanceName := Running] else old(engine.instances)
      ensures engine.log == old(engine.log)
        + if shouldRestart then [StartCall(instanceName), ExecCall(instanceName, Dhclient)] else []
    {
      if shouldRestart {
        engine.InstanceStart(instanceName);
        engine.Execute(instanceName, Dhclient);
      }
    }

    /** `image_exists`, and `image_delete` when it does. */
    method ReplaceImage(imageAlias: string)
      modifies engine`images, engine`log
      ensures engine.images == old(engine.images) - {imageAlias}
      ensures engine.log == old(engine.log) + [ImageListCall]
                            + (if imageAlias in old(engine.images) then [ImageDeleteCall(imageAlias)] else [])
    {
      var present := engine.ImageExists(imageAlias);
      if present {
        engine.ImageDelete(imageAlias);
      }
    }

    /** `instance_stopped`, and `instance_stop` when it is not: tells whether it has to be restarted. */
    method StopForPublish() returns (shouldRestart: bool)
      requires instanceName in engine.instances
      modifies engine`instances, engine`log
      ensures shouldRestart <==> old(engine.instances)[instanceName] == Running
      ensures engine.instances == old(engine.instances)[instanceName := Stopped]
      ensures engine.log == old(engine.log) + [ListCall, InfoCall(instanceName)] + (if shouldRestart then [StopCall(instanceName)] else [])
    {
      shouldRestart := false;
      var stopped := engine.InstanceStopped(instanceName);
      if !stopped {
        shouldRestart := true;
        engine.InstanceStop(instanceName);
      }
    }
  }
}
