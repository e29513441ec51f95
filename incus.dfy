/**
  The `Incus` wrapper of incuslib/incus.py.

  Its pure part (platform to architecture tag, membership in parsed listings, the
  arguments of `incus publish` and `incus exec`, the exit-status rule) is written as
  functions. Its commands become the methods of `Engine`, an abstract stand-in for the
  incus daemon: the instances and images it holds, the files of the host, and a log of
  every external command the scripts start, in order. The preconditions of the
  state-changing methods are the conditions under which incus accepts the command.
 */
module Incus {
  import opened Wrappers
  import Strings

  // ---------------------------------------------------------------------------
  // Commands
  // ---------------------------------------------------------------------------

  /** One external command: its argument vector, and the directory it runs in (None: inherited). */
  datatype Call = Call(argv: seq<string>, cwd: Option<string>)

  /** Every command the wrapper runs is `incus` followed by its arguments. */
  function IncusCommand(args: seq<string>): seq<string>
  {
    ["incus"] + args
  }

  /** `execute` runs its arguments inside the instance: `incus exec <instance> -- <args>`. */
  function ExecCommand(instance: string, args: seq<string>): (cmd: seq<string>)
    ensures |cmd| == |args| + 4
    ensures cmd[..4] == ["incus", "exec", instance, "--"] && cmd[4..] == args
  {
    IncusCommand(["exec", instance, "--"] + args)
  }

  /**
    The exit-status rule of `_run_logged_prefixed`: status 0 is success, any other
    status raises with the command line in the message.
   */
  function CheckExit(cmd: seq<string>, exitCode: int): (r: Outcome<string>)
    ensures r.Pass? <==> exitCode == 0
    ensures r.Fail? ==> r.error == "Could not run " + Strings.Join(cmd, " ")
  {
    if exitCode != 0 then Fail("Could not run " + Strings.Join(cmd, " ")) else Pass
  }

  /** The fixed words of an `incus exec` command, joined by spaces. */
  lemma ExecPrefixJoined(instance: string)
    ensures Strings.Join(["incus", "exec", instance, "--"], " ") == "incus exec " + instance + " --"
  {
    var head := ["incus", "exec", instance, "--"];
    assert head[1..] == ["exec", instance, "--"] && head[1..][1..] == [instance, "--"] && head[1..][1..][1..] == ["--"];
    assert Strings.Join(head[1..][1..], " ") == instance + " --";
    assert Strings.Join(head[1..], " ") == "exec" + " " + (instance + " --");
    assert "incus" + " " + ("exec" + " " + (instance + " --")) == "incus exec " + instance + " --";
  }

  /**
    A command run inside an instance that exits non-zero fails naming the instance and the
    arguments, separated by spaces after `--`.
   */
  lemma ExecFailureNamesCommand(instance: string, args: seq<string>, exitCode: int)
    requires exitCode != 0
    ensures CheckExit(ExecCommand(instance, args), exitCode)
         == Fail("Could not run incus exec " + instance + " --" + (if args == [] then "" else " " + Strings.Join(args, " ")))
  {
    var head := ["incus", "exec", instance, "--"];
    var prefix := "incus exec " + instance + " --";
    ExecPrefixJoined(instance);
    assert "Could not run " + prefix == "Could not run incus exec " + instance + " --";
    assert ExecCommand(instance, args) == head + args;
    if args != [] {
      Strings.JoinAppend(head, args, " ");
      assert "Could not run " + (prefix + " " + Strings.Join(args, " ")) == "Could not run " + prefix + (" " + Strings.Join(args, " "));
    } else {
      assert head + args == head;
      assert "Could not run " + prefix == "Could not run " + prefix + "";
    }
  }

  // ---------------------------------------------------------------------------
  // Host architecture
  // ---------------------------------------------------------------------------

  const ArchitectureTags: set<string> := {"amd64", "arm64", "armhf"}
  const KnownMachines: set<string> := {"x86_64", "amd64", "arm64", "aarch64", "armhf"}

  /** Maps `platform.machine()` to an image architecture tag, or fails on an unknown machine. */
  function Arch(machine: string): (r: Result<string, string>)
    ensures r.Success? <==> machine in KnownMachines
    ensures r.Success? ==> r.value in ArchitectureTags
    ensures r.Success? ==> (r.value == "amd64" <==> machine in {"x86_64", "amd64"})
    ensures r.Success? ==> (r.value == "arm64" <==> machine in {"arm64", "aarch64"})
    ensures r.Success? ==> (r.value == "armhf" <==> machine == "armhf")
    ensures r.Failure? ==> r.error == "Unknown platform " + machine + "!"
  {
    if machine in ["x86_64", "amd64"] then Success("amd64")
    else if machine in ["arm64", "aarch64"] then Success("arm64")
    else if machine in ["armhf"] then Success("armhf")
    else Failure("Unknown platform " + machine + "!")
  }

  // ---------------------------------------------------------------------------
  // Parsed listings
  // ---------------------------------------------------------------------------

  datatype RunState = Running | Stopped

  /** The `Status` that `incus info` prints for a run-state. */
  function StatusText(s: RunState): string
  {
    match s
    case Running => "RUNNING"
    case Stopped => "STOPPED"
  }

  /** One entry of `incus list -f yaml`: only its `name` is read. */
  datatype InstanceEntry = InstanceEntry(name: string)

  /** The part of `incus info <name>` that is read. */
  datatype InstanceInfo = InstanceInfo(status: string)

  /** One entry of `incus image list -f yaml`: the names of its aliases. */
  datatype ImageEntry = ImageEntry(aliases: seq<string>)

  function InstanceNames(listing: seq<InstanceEntry>): (names: seq<string>)
    ensures |names| == |listing|
    ensures forall k :: 0 <= k < |listing| ==> names[k] == listing[k].name
  {
    seq(|listing|, k requires 0 <= k < |listing| => listing[k].name)
  }

  /** `instance_exists`: the name is among the listed names. */
  predicate InstanceListed(listing: seq<InstanceEntry>, name: string)
  {
    name in InstanceNames(listing)
  }

  lemma InstanceListedIff(listing: seq<InstanceEntry>, name: string)
    ensures InstanceListed(listing, name) <==> exists k :: 0 <= k < |listing| && listing[k].name == name
  {
    if InstanceListed(listing, name) {
      var k :| 0 <= k < |listing| && InstanceNames(listing)[k] == name;
    }
  }

  /**
    `instance_stopped`: fails (the assertion) unless the instance is listed; otherwise
    tells whether `incus info` reports it STOPPED.
   */
  function InstanceStoppedIn(listing: seq<InstanceEntry>, info: InstanceInfo, name: string): (r: Result<bool, string>)
    ensures r.Success? <==> InstanceListed(listing, name)
    ensures r.Success? ==> (r.value <==> info.status == "STOPPED")
  {
    if !InstanceListed(listing, name) then Failure("AssertionError")
    else Success(info.status == "STOPPED")
  }

  /** The flattened alias names of all images, in listing order. */
  function ImageAliases(listing: seq<ImageEntry>): (aliases: seq<string>)
    ensures forall a :: a in aliases <==> exists k :: 0 <= k < |listing| && a in listing[k].aliases
  {
    if listing == [] then []
    else
      var rest := ImageAliases(listing[1..]);
      assert forall k :: 1 <= k < |listing| ==> listing[k] == listing[1..][k - 1];
      listing[0].aliases + rest
  }

  /** `image_exists`: the alias is among the flattened alias lists. */
  predicate ImageListed(listing: seq<ImageEntry>, alias: string)
  {
    alias in ImageAliases(listing)
  }

  /** `incus list` describes the engine's instances: the same names. */
  ghost predicate ListsInstances(listing: seq<InstanceEntry>, instances: map<string, RunState>)
  {
    && (forall k :: 0 <= k < |listing| ==> listing[k].name in instances)
    && (forall n :: n in instances ==> InstanceListed(listing, n))
  }

  /** `incus image list` describes the engine's images: the same aliases. */
  ghost predicate ListsImages(listing: seq<ImageEntry>, images: map<string, Properties>)
  {
    forall a :: ImageListed(listing, a) <==> a in images
  }

  /**
    The listing-based queries agree with the engine state they describe; this is what
    `Engine.InstanceExists`, `Engine.InstanceStopped` and `Engine.ImageExists` return.
   */
  lemma ListingsAgreeWithEngine(instListing: seq<InstanceEntry>, instances: map<string, RunState>,
                                imgListing: seq<ImageEntry>, images: map<string, Properties>,
                                name: string, alias: string)
    requires ListsInstances(instListing, instances) && ListsImages(imgListing, images)
    ensures InstanceListed(instListing, name) <==> name in instances
    ensures name in instances ==>
      InstanceStoppedIn(instListing, InstanceInfo(StatusText(instances[name])), name) == Success(instances[name] == Stopped)
    ensures ImageListed(imgListing, alias) <==> alias in images
  {
    InstanceListedIff(instListing, name);
  }

  // ---------------------------------------------------------------------------
  // `incus publish` arguments
  // ---------------------------------------------------------------------------

  /** A property bag in insertion order, as the Python dict keeps it. */
  type Properties = seq<(string, string)>

  /** One `key=value` argument per property, in property order. */
  function PropertyArgs(props: Properties): (args: seq<string>)
    ensures |args| == |props|
    ensures forall k :: 0 <= k < |props| ==> args[k] == props[k].0 + "=" + props[k].1
  {
    seq(|props|, k requires 0 <= k < |props| => props[k].0 + "=" + props[k].1)
  }

  /** Splits `key=value` at its first `=`. */
  function SplitProperty(arg: string): Option<(string, string)>
  {
    var i := Strings.IndexOf(arg, '=');
    if i == |arg| then None else Some((arg[..i], arg[i + 1..]))
  }

  /** `key=value` splits back into its key and value when the key holds no `=`. */
  lemma SplitPropertyRoundTrip(key: string, value: string)
    requires '=' !in key
    ensures SplitProperty(key + "=" + value) == Some((key, value))
  {
    var arg := key + "=" + value;
    assert arg == key + ['='] + value;
    Strings.IndexOfSeparator(key, '=', value);
    assert arg[..|key|] == key;
    assert arg[|key| + 1..] == value;
  }

  /** A property whose key holds no `=` is read back from its argument unchanged. */
  lemma PropertyArgRoundTrip(props: Properties, k: nat)
    requires k < |props| && '=' !in props[k].0
    ensures SplitProperty(PropertyArgs(props)[k]) == Some(props[k])
  {
    SplitPropertyRoundTrip(props[k].0, props[k].1);
  }

  /** Every argument reads back as its property when no key holds an `=`. */
  lemma PropertyArgsRoundTrip(props: Properties)
    requires forall k :: 0 <= k < |props| ==> '=' !in props[k].0
    ensures forall k :: 0 <= k < |props| ==> SplitProperty(PropertyArgs(props)[k]) == Some(props[k])
  {
    forall k | 0 <= k < |props| ensures SplitProperty(PropertyArgs(props)[k]) == Some(props[k]) {
      PropertyArgRoundTrip(props, k);
    }
  }

  function PublishCommand(instance: string, alias: string, props: Properties): seq<string>
  {
    IncusCommand(["publish", instance, "--alias", alias] + PropertyArgs(props))
  }

  /** The arguments after the alias are exactly the property arguments. */
  lemma PublishCommandShape(instance: string, alias: string, props: Properties)
    ensures |PublishCommand(instance, alias, props)| == 5 + |props|
    ensures PublishCommand(instance, alias, props)[..5] == ["incus", "publish", instance, "--alias", alias]
    ensures PublishCommand(instance, alias, props)[5..] == PropertyArgs(props)
  {
  }

  // The commands of the wrapper's methods, as the engine logs them.

  const ListCall: Call := Call(IncusCommand(["list", "-f", "yaml"]), None)
  const ImageListCall: Call := Call(IncusCommand(["image", "list", "-f", "yaml"]), None)

  function InfoCall(name: string): Call { Call(IncusCommand(["info", name]), None) }
  function StartCall(name: string): Call { Call(IncusCommand(["start", name]), None) }
  function StopCall(name: string): Call { Call(IncusCommand(["stop", name]), None) }
  function DeleteCall(name: string): Call { Call(IncusCommand(["delete", name]), None) }
  function LaunchCall(image: string, name: string): Call { Call(IncusCommand(["launch", image, name]), None) }
  function PushCall(name: string, file: string, target: string): Call
  {
    Call(IncusCommand(["file", "push", file, name + target]), None)
  }
  function ExecCall(name: string, args: seq<string>): Call { Call(ExecCommand(name, args), None) }
  function PublishCall(name: string, alias: string, props: Properties): Call
  {
    Call(PublishCommand(name, alias, props), None)
  }
  function ExportCall(alias: string, target: string, dir: string): Call
  {
    Call(IncusCommand(["image", "export", alias, target]), Some(dir))
  }
  function ImageDeleteCall(alias: string): Call { Call(IncusCommand(["image", "delete", alias]), None) }

  /** The file `incus image export <alias> <target>` writes in its working directory. */
  function ExportedFile(dir: string, target: string): string
  {
    Strings.Child(dir, target + ".tar.gz")
  }

  /** An image reference incus fetches from the `images:` remote rather than the local store. */
  predicate IsRemoteImage(image: string)
  {
    |image| >= 7 && image[..7] == "images:"
  }

  // ---------------------------------------------------------------------------
  // The engine
  // ---------------------------------------------------------------------------

  class Engine {
    /** Instances by name, with their run-state. */
    var instances: map<string, RunState>
    /** Local images by alias, with the property bag they were published with. */
    var images: map<string, Properties>
    /** Paths of the files on the host. */
    var files: set<string>
    /** Every external command started so far, oldest first. */
    var log: seq<Call>
    /** What `platform.machine()` reports on this host. */
    const machine: string

    constructor (machine: string, instances: map<string, RunState>, images: map<string, Properties>, files: set<string>)
      ensures this.machine == machine && this.instances == instances && this.images == images
      ensures this.files == files && this.log == []
    {
      this.machine := machine;
      this.instances := instances;
      this.images := images;
      this.files := files;
      this.log := [];
    }

    /** The entries of `dir.iterdir()` among the host files. */
    function Entries(dir: string): (entries: set<string>)
      reads this
      ensures entries <= files
      ensures forall f :: f in entries <==> f in files && Strings.InDir(dir, f)
    {
      set f | f in files && Strings.InDir(dir, f)
    }

    method GetArch() returns (r: Result<string, string>)
      ensures r == Arch(machine)
    {
      r := Arch(machine);
    }

    method InstanceExists(name: string) returns (b: bool)
      modifies this`log
      ensures b <==> name in instances
      ensures log == old(log) + [ListCall]
    {
      b := name in instances;
      log := log + [ListCall];
    }

    method InstanceStopped(name: string) returns (b: bool)
      requires name in instances
      modifies this`log
      ensures b <==> instances[name] == Stopped
      ensures log == old(log) + [ListCall, InfoCall(name)]
    {
      b := instances[name] == Stopped;
      log := log + [ListCall, InfoCall(name)];
    }

    method InstanceStart(name: string)
      requires name in instances && instances[name] == Stopped
      modifies this`instances, this`log
      ensures instances == old(instances)[name := Running]
      ensures log == old(log) + [StartCall(name)]
    {
      instances := instances[name := Running];
      log := log + [StartCall(name)];
    }

    method InstanceStop(name: string)
      requires name in instances && instances[name] == Running
      modifies this`instances, this`log
      ensures instances == old(instances)[name := Stopped]
      ensures log == old(log) + [StopCall(name)]
    {
      instances := instances[name := Stopped];
      log := log + [StopCall(name)];
    }

    method InstanceDelete(name: string)
      requires name in instances && instances[name] == Stopped
      modifies this`instances, this`log
      ensures instances == old(instances) - {name}
      ensures log == old(log) + [DeleteCall(name)]
    {
      instances := instances - {name};
      log := log + [DeleteCall(name)];
    }

    method Launch(image: string, name: string)
      requires name !in instances
      requires IsRemoteImage(image) || image in images
      modifies this`instances, this`log
      ensures instances == old(instances)[name := Running]
      ensures log == old(log) + [LaunchCall(image, name)]
    {
      instances := instances[name := Running];
      log := log + [LaunchCall(image, name)];
    }

    method PushFile(name: string, file: string, target: string)
      requires name in instances
      modifies this`log
      ensures log == old(log) + [PushCall(name, file, target)]
    {
      log := log + [PushCall(name, file, target)];
    }

    /** `incus exec` needs a running instance. */
    method Execute(name: string, args: seq<string>)
      requires name in instances && instances[name] == Running
      modifies this`log
      ensures log == old(log) + [ExecCall(name, args)]
    {
      log := log + [ExecCall(name, args)];
    }

    method Publish(name: string, alias: string, props: Properties)
      requires name in instances && instances[name] == Stopped
      requires alias !in images
      modifies this`images, this`log
      ensures images == old(images)[alias := props]
      ensures log == old(log) + [PublishCall(name, alias, props)]
    {
      images := images[alias := props];
      log := log + [PublishCall(name, alias, props)];
    }

    method ImageExport(alias: string, target: string, dir: string)
      requires alias in images
      modifies this`files, this`log
      ensures files == old(files) + {ExportedFile(dir, target)}
      ensures log == old(log) + [ExportCall(alias, target, dir)]
    {
      files := files + {ExportedFile(dir, target)};
      log := log + [ExportCall(alias, target, dir)];
    }

    method ImageExists(alias: string) returns (b: bool)
      modifies this`log
      ensures b <==> alias in images
      ensures log == old(log) + [ImageListCall]
    {
      b := alias in images;
      log := log + [ImageListCall];
    }

    method ImageDelete(alias: string)
      requires alias in images
      modifies this`images, this`log
      ensures images == old(images) - {alias}
      ensures log == old(log) + [ImageDeleteCall(alias)]
    {
      images := images - {alias};
      log := log + [ImageDeleteCall(alias)];
    }

    /** A command of another tool (`incus-simplestreams`); only its invocation is recorded. */
    method RunTool(argv: seq<string>, cwd: string)
      modifies this`log
      ensures log == old(log) + [Call(argv, Some(cwd))]
    {
      log := log + [Call(argv, Some(cwd))];
    }

    /** `Path.unlink`: the file must exist. */
    method Unlink(path: string)
      requires path in files
      modifies this`files
      ensures files == old(files) - {path}
    {
      files := files - {path};
    }
  }
}
