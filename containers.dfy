/** The runtime and the containers it runs, as objects: the runtime holds
    the observable state and the log of issued `docker` invocations; a
    container holds its description and the cached runtime id. */
module Containers {
  import opened Results
  import opened Strings
  import Volumes
  import RunArgs
  import opened Lifecycle

  /** The first `|`-separated segment that is not the no-value sentinel,
      or the empty string when every segment is the sentinel. */
  function FirstId(ids: seq<string>): (r: string)
    ensures r != Volumes.NoValue
    ensures r == "" || r in ids
  {
    if |ids| == 0 then ""
    else if ids[0] != Volumes.NoValue then ids[0]
    else FirstId(ids[1..])
  }

  lemma {:induction false} FirstIdPicksFirst(ids: seq<string>, k: nat)
    requires k < |ids| && ids[k] != Volumes.NoValue
    requires forall j :: 0 <= j < k ==> ids[j] == Volumes.NoValue
    ensures FirstId(ids) == ids[k]
  {
    if k > 0 {
      assert forall j :: 0 <= j < k - 1 ==> ids[1..][j] == ids[j + 1];
      FirstIdPicksFirst(ids[1..], k - 1);
    }
  }

  /** What the id query's output resolves to. */
  function IdFromOutput(output: string): string
  {
    FirstId(Split(output, '|'))
  }

  /** A runtime-assigned id: non-empty, a single segment, not the sentinel. */
  predicate IdToken(id: string)
  {
    id != "" && '|' !in id && id != Volumes.NoValue
  }

  lemma TokenResolvesToItself(id: string)
    requires IdToken(id)
    ensures IdFromOutput(id) == id
  {
    SplitJoin([id], '|');
  }

  /** The runtime's ids are well formed and distinct, and what the id query
      prints for a missing container never resolves to a listed id. */
  ghost predicate IdsWellFormed(idOf: string -> string, missingOutput: string -> string)
  {
    && (forall n :: IdToken(idOf(n)))
    && (forall a, b :: idOf(a) == idOf(b) ==> a == b)
    && (forall a, b :: IdFromOutput(missingOutput(a)) != idOf(b))
  }

  class Runtime {
    var containers: map<string, Status>
    var images: set<string>
    /** Every `docker` invocation issued through `executeCommand`. */
    var log: seq<seq<string>>
    /** The names whose id was queried with `docker inspect --format={{.Id}}`. */
    var inspected: seq<string>

    /** The id the runtime assigns to a container of each name. */
    const idOf: string -> string
    /** What the id query prints for a name that is not a container. */
    const missingOutput: string -> string
    /** Which invocations exit non-zero. */
    const fails: seq<string> -> bool
    /** The output of `inspect --format={{.Volumes}}` (`None`: it failed). */
    const volumesOf: string -> Option<string>
    /** The answer of `inspect --format={{json .Mounts}}`. */
    const mountsOf: string -> Volumes.MountsAnswer

    constructor (containers: map<string, Status>, images: set<string>, idOf: string -> string,
                 missingOutput: string -> string, fails: seq<string> -> bool,
                 volumesOf: string -> Option<string>, mountsOf: string -> Volumes.MountsAnswer)
      ensures this.containers == containers && this.images == images
      ensures this.idOf == idOf && this.missingOutput == missingOutput && this.fails == fails
      ensures this.volumesOf == volumesOf && this.mountsOf == mountsOf
      ensures log == [] && inspected == []
    {
      this.containers, this.images := containers, images;
      this.idOf, this.missingOutput, this.fails := idOf, missingOutput, fails;
      this.volumesOf, this.mountsOf := volumesOf, mountsOf;
      log, inspected := [], [];
    }

    ghost predicate Valid()
    {
      IdsWellFormed(idOf, missingOutput)
    }

    function World(): World
      reads this
    {
      Lifecycle.World(containers, images)
    }

    /** The output of the id query for `name`. */
    function InspectOutput(name: string): string
      reads this
    {
      if name in containers then idOf(name) else missingOutput(name)
    }

    /** The ids `docker ps --quiet --no-trunc` lists (`--all`: also stopped). */
    function Listing(all: bool): set<string>
      reads this
    {
      set n | n in containers && (all || containers[n] == Running) :: idOf(n)
    }

    /** The volume-source resolver over this runtime's inspection answers. */
    function Resolve(): RunArgs.Resolver
    {
      (from: string, volume: string) => Volumes.SourceForVolume(volumesOf(from), mountsOf(from), volume)
    }

    lemma ListedIff(name: string, all: bool)
      requires Valid()
      ensures idOf(name) in Listing(all) <==> name in containers && (all || containers[name] == Running)
    {
      if name in containers && (all || containers[name] == Running) {
        assert idOf(name) in Listing(all);
      }
    }

    lemma MissingNotListed(name: string, all: bool)
      requires Valid()
      ensures IdFromOutput(missingOutput(name)) !in Listing(all)
    {
    }

    method InspectId(name: string) returns (output: string)
      modifies this`inspected
      ensures output == InspectOutput(name)
      ensures inspected == old(inspected) + [name]
    {
      output := InspectOutput(name);
      inspected := inspected + [name];
    }

    /** A listing piped through `grep -wF id`: whether `id` is listed. */
    method Listed(all: bool, id: string) returns (found: bool)
      ensures found == (id in Listing(all))
    {
      found := id in Listing(all);
    }

    /** `docker images --no-trunc` piped through `grep -wF image`. */
    method ImageListed(image: string) returns (found: bool)
      ensures found == (image in images)
    {
      found := image in images;
    }

    /** `executeCommand("docker", cmd)`: logs the invocation; on success the
        runtime moves to `next`. */
    method Execute(cmd: seq<string>, next: World) returns (outcome: Outcome)
      modifies this`containers, this`images, this`log
      ensures Exec(old(World()), cmd, next, fails) == Step(World(), [cmd], outcome)
      ensures log == old(log) + [cmd]
    {
      log := log + [cmd];
      if fails(cmd) {
        outcome := Failed(ExecFailed(cmd));
      } else {
        containers, images := next.containers, next.images;
        outcome := Done;
      }
    }
  }

  /** Only `name` was inspected since `before`. */
  ghost predicate InspectedOnly(before: seq<string>, after: seq<string>, name: string)
  {
    |before| <= |after| && after[..|before|] == before &&
    forall k :: |before| <= k < |after| ==> after[k] == name
  }

  lemma InspectedOnlyTrans(a: seq<string>, b: seq<string>, c: seq<string>, name: string)
    requires InspectedOnly(a, b, name) && InspectedOnly(b, c, name)
    ensures InspectedOnly(a, c, name)
  {
    assert c[..|a|] == c[..|b|][..|a|];
  }

  class Container {
    /** The cached runtime id; empty until resolved. */
    var id: string
    const config: Config

    constructor (id: string, config: Config)
      ensures this.id == id && this.config == config
    {
      this.id, this.config := id, config;
    }

    /** A copy of the struct, as a value receiver gets. */
    method Copy() returns (c: Container)
      ensures fresh(c) && c.id == id && c.config == config
    {
      c := new Container(id, config);
    }

    /** The cache holds nothing, the true id, or (for an absent container)
        what the id query printed. */
    ghost predicate CacheSound(rt: Runtime)
      reads this, rt
    {
      || id == ""
      || id == rt.idOf(config.name)
      || (config.name !in rt.containers && id == IdFromOutput(rt.missingOutput(config.name)))
    }

    /** `getId`: the cached id, or the first segment of the id query that is
        not the sentinel, which is then cached. The query's own failure is
        not checked: its output is parsed like any other. */
    method GetId(rt: Runtime) returns (r: string)
      modifies this`id, rt`inspected
      ensures old(id) != "" ==> r == old(id) && rt.inspected == old(rt.inspected)
      ensures old(id) == "" ==>
        r == IdFromOutput(rt.InspectOutput(config.name)) && rt.inspected == old(rt.inspected) + [config.name]
      ensures id == r
    {
      if |id| > 0 {
        return id;
      }
      var output := rt.InspectId(config.name);
      var ids := Split(output, '|');
      var i := 0;
      while i < |ids|
        invariant 0 <= i <= |ids|
        invariant FirstId(ids[i..]) == FirstId(ids)
      {
        if ids[i] != Volumes.NoValue {
          r := ids[i];
          id := ids[i];
          return;
        }
        assert ids[i..][1..] == ids[i + 1..];
        i := i + 1;
      }
      r := "";
    }

    /** `exists`: the id is in the listing of all containers. */
    method Exists(rt: Runtime) returns (b: bool)
      requires rt.Valid() && CacheSound(rt)
      modifies this`id, rt`inspected
      ensures b == Present(rt.World(), config.name)
      ensures b ==> id == rt.idOf(config.name)
      ensures CacheSound(rt)
      ensures rt.inspected == old(rt.inspected) + (if old(id) == "" then [config.name] else [])
      ensures id == if old(id) != "" then old(id) else IdFromOutput(rt.InspectOutput(config.name))
    {
      ghost var was := id;
      var i := GetId(rt);
      ProbeFacts(rt, was, i);
      if |i| == 0 {
        return false;
      }
      b := rt.Listed(true, i);
    }

    /** `running`: the id is in the listing of running containers. */
    method Running(rt: Runtime) returns (b: bool)
      requires rt.Valid() && CacheSound(rt)
      modifies this`id, rt`inspected
      ensures b == IsRunning(rt.World(), config.name)
      ensures CacheSound(rt)
      ensures rt.inspected == old(rt.inspected) + (if old(id) == "" then [config.name] else [])
      ensures id == if old(id) != "" then old(id) else IdFromOutput(rt.InspectOutput(config.name))
    {
      ghost var was := id;
      var i := GetId(rt);
      ProbeFacts(rt, was, i);
      if |i| == 0 {
        return false;
      }
      b := rt.Listed(false, i);
    }

    /** What a resolved id says about the runtime's listings. */
    lemma ProbeFacts(rt: Runtime, was: string, i: string)
      requires rt.Valid() && id == i
      requires was == "" ==> i == IdFromOutput(rt.InspectOutput(config.name))
      requires was != "" ==> i == was
      requires was == "" || was == rt.idOf(config.name)
        || (config.name !in rt.containers && was == IdFromOutput(rt.missingOutput(config.name)))
      ensures CacheSound(rt)
      ensures forall all: bool :: i != "" && i in rt.Listing(all) <==>
        config.name in rt.containers && (all || rt.containers[config.name] == Status.Running)
      ensures config.name in rt.containers ==> i == rt.idOf(config.name)
    {
      var n := config.name;
      if n in rt.containers && was == "" {
        TokenResolvesToItself(rt.idOf(n));
      }
      forall all: bool
        ensures i != "" && i in rt.Listing(all) <==> n in rt.containers && (all || rt.containers[n] == Status.Running)
      {
        rt.ListedIff(n, all);
        rt.MissingNotListed(n, all);
      }
    }

    /** `imageExists`. */
    method ImageExists(rt: Runtime) returns (b: bool)
      ensures b == (config.image in rt.images)
    {
      b := rt.ImageListed(config.image);
    }
  
    // -------------------------------------------------------------------
    // The lifecycle. The source's methods take the container by value, so
    // each works on a copy: what the probes cache is dropped afterwards.
    // -------------------------------------------------------------------

    /** `pullImage`. */
    method PullImage(rt: Runtime) returns (outcome: Outcome)
      modifies rt`containers, rt`images, rt`log
      ensures var s := Lifecycle.PullImage(old(rt.World()), config, rt.fails);
        rt.World() == s.world && rt.log == old(rt.log) + s.issued && outcome == s.outcome
    {
      outcome := rt.Execute(["pull", config.image], rt.World().(images := rt.images + {config.image}));
    }

    /** `buildImage`. */
    method BuildImage(rt: Runtime, expand: string -> string) returns (outcome: Outcome)
      modifies rt`containers, rt`images, rt`log
      ensures var s := Lifecycle.BuildImage(old(rt.World()), config, expand, rt.fails);
        rt.World() == s.world && rt.log == old(rt.log) + s.issued && outcome == s.outcome
    {
      var cmd := ["build", "--rm", "--tag=" + config.image, expand(config.dockerfile)];
      outcome := rt.Execute(cmd, rt.World().(images := rt.images + {config.image}));
    }

    /** `provision`. */
    method Provision(rt: Runtime, force: bool, expand: string -> string) returns (outcome: Outcome)
      modifies rt`containers, rt`images, rt`log
      ensures var s := Lifecycle.Provision(old(rt.World()), config, force, expand, rt.fails);
        rt.World() == s.world && rt.log == old(rt.log) + s.issued && outcome == s.outcome
    {
      var present := ImageExists(rt);
      if force || !present {
        if |config.dockerfile| > 0 {
          outcome := BuildImage(rt, expand);
        } else {
          outcome := PullImage(rt);
        }
      } else {
        outcome := Done;
      }
    }

    /** `pull`. */
    method Pull(rt: Runtime, force: bool) returns (outcome: Outcome)
      modifies rt`containers, rt`images, rt`log
      ensures var s := Lifecycle.Pull(old(rt.World()), config, force, rt.fails);
        rt.World() == s.world && rt.log == old(rt.log) + s.issued && outcome == s.outcome
    {
      var present := ImageExists(rt);
      if force || !present {
        outcome := PullImage(rt);
      } else {
        outcome := Done;
      }
    }

    /** `start`. */
    method Start(rt: Runtime, manualTargeting: bool) returns (outcome: Outcome)
      requires rt.Valid() && CacheSound(rt)
      modifies rt`containers, rt`images, rt`log, rt`inspected
      ensures var s := Lifecycle.Start(old(rt.World()), config, manualTargeting, rt.fails);
        rt.World() == s.world && rt.log == old(rt.log) + s.issued && outcome == s.outcome
      ensures InspectedOnly(old(rt.inspected), rt.inspected, config.name)
    {
      if !manualTargeting && config.manual {
        return Done;
      }
      var self := Copy();
      var present := self.Exists(rt);
      if !present {
        return Failed(NoSuchContainer(config.name));
      }
      var running := self.Running(rt);
      if running {
        return Done;
      }
      outcome := rt.Execute(["start", config.name], SetStatus(rt.World(), config.name, Status.Running));
    }

    /** `run`. */
    method Run(rt: Runtime, manualTargeting: bool, env: RunArgs.ProcessEnv) returns (outcome: Outcome)
      requires rt.Valid() && CacheSound(rt)
      modifies rt`containers, rt`images, rt`log, rt`inspected
      ensures var s := Lifecycle.Run(old(rt.World()), config, manualTargeting, env, rt.Resolve(), rt.fails);
        rt.World() == s.world && rt.log == old(rt.log) + s.issued && outcome == s.outcome
      ensures InspectedOnly(old(rt.inspected), rt.inspected, config.name)
    {
      if !manualTargeting && config.manual {
        return Done;
      }
      var self := Copy();
      var present := self.Exists(rt);
      if present {
        var running := self.Running(rt);
        if !running {
          ghost var mid := rt.inspected;
          outcome := self.Start(rt, manualTargeting);
          InspectedOnlyTrans(old(rt.inspected), mid, rt.inspected, config.name);
        } else {
          outcome := Done;
        }
      } else {
        outcome := Create(rt, env);
      }
    }

    /** The creating branch of `run`: assemble the arguments, then issue them. */
    method Create(rt: Runtime, env: RunArgs.ProcessEnv) returns (outcome: Outcome)
      modifies rt`containers, rt`images, rt`log
      ensures var s := Lifecycle.Create(old(rt.World()), config, env, rt.Resolve(), rt.fails);
        rt.World() == s.world && rt.log == old(rt.log) + s.issued && outcome == s.outcome
    {
      var args := RunArgs.BuildRunArgs(config.name, config.image, config.run, env, rt.Resolve());
      if args.Err? {
        return Failed(CompileFailed(args.error));
      }
      outcome := rt.Execute(args.value, SetStatus(rt.World(), config.name, Status.Running));
    }

    /** `runOrStart`. */
    method RunOrStart(rt: Runtime, manualTargeting: bool, env: RunArgs.ProcessEnv) returns (outcome: Outcome)
      requires rt.Valid() && CacheSound(rt)
      modifies rt`containers, rt`images, rt`log, rt`inspected
      ensures var s := Lifecycle.RunOrStart(old(rt.World()), config, manualTargeting, env, rt.Resolve(), rt.fails);
        rt.World() == s.world && rt.log == old(rt.log) + s.issued && outcome == s.outcome
      ensures InspectedOnly(old(rt.inspected), rt.inspected, config.name)
    {
      var self := Copy();
      var present := self.Exists(rt);
      ghost var mid := rt.inspected;
      if present {
        outcome := self.Start(rt, manualTargeting);
      } else {
        outcome := self.Run(rt, manualTargeting, env);
      }
      InspectedOnlyTrans(old(rt.inspected), mid, rt.inspected, config.name);
    }

    /** `kill`. */
    method Kill(rt: Runtime) returns (outcome: Outcome)
      requires rt.Valid() && CacheSound(rt)
      modifies rt`containers, rt`images, rt`log, rt`inspected
      ensures var s := Lifecycle.Kill(old(rt.World()), config, rt.fails);
        rt.World() == s.world && rt.log == old(rt.log) + s.issued && outcome == s.outcome
      ensures InspectedOnly(old(rt.inspected), rt.inspected, config.name)
    {
      var self := Copy();
      var running := self.Running(rt);
      if running {
        outcome := rt.Execute(["kill", config.name], SetStatus(rt.World(), config.name, Stopped));
      } else {
        outcome := Done;
      }
    }

    /** `stop`. */
    method Stop(rt: Runtime) returns (outcome: Outcome)
      requires rt.Valid() && CacheSound(rt)
      modifies rt`containers, rt`images, rt`log, rt`inspected
      ensures var s := Lifecycle.Stop(old(rt.World()), config, rt.fails);
        rt.World() == s.world && rt.log == old(rt.log) + s.issued && outcome == s.outcome
      ensures InspectedOnly(old(rt.inspected), rt.inspected, config.name)
    {
      var self := Copy();
      var running := self.Running(rt);
      if running {
        outcome := rt.Execute(["stop", config.name], SetStatus(rt.World(), config.name, Stopped));
      } else {
        outcome := Done;
      }
    }

    /** `rm`. */
    method Rm(rt: Runtime) returns (outcome: Outcome)
      requires rt.Valid() && CacheSound(rt)
      modifies rt`containers, rt`images, rt`log, rt`inspected
      ensures var s := Lifecycle.Rm(old(rt.World()), config, rt.fails);
        rt.World() == s.world && rt.log == old(rt.log) + s.issued && outcome == s.outcome
      ensures InspectedOnly(old(rt.inspected), rt.inspected, config.name)
    {
      var self := Copy();
      var present := self.Exists(rt);
      if present {
        var running := self.Running(rt);
        if running {
          outcome := Failed(RunningCannotBeRemoved(config.name));
        } else {
          var w := rt.World();
          outcome := rt.Execute(["rm", config.name], w.(containers := w.containers - {config.name}));
        }
      } else {
        outcome := Done;
      }
    }
  }
}
