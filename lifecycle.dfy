/** The per-container lifecycle as a state machine over the runtime's
    observable state: which containers exist, which run, which images are
    present. Each operation yields the new state, the `docker` invocations
    it issues (at most one) and its outcome. */
module Lifecycle {
  import opened Results
  import RunArgs

  datatype Status = Stopped | Running

  /** The runtime's state: a container is absent when its name is not a key. */
  datatype World = World(containers: map<string, Status>, images: set<string>)

  /** A container description: the fields the configuration supplies. */
  datatype Config = Config(name: string, dockerfile: string, image: string, manual: bool, run: RunArgs.RunParameters)

  datatype Failure =
    | ExecFailed(cmd: seq<string>)          // an issued command exited non-zero
    | NoSuchContainer(name: string)         // start of an absent container
    | RunningCannotBeRemoved(name: string)  // rm of a running container
    | CompileFailed(cause: RunArgs.CompileError)

  datatype Outcome = Done | Failed(failure: Failure)

  datatype Step = Step(world: World, issued: seq<seq<string>>, outcome: Outcome)

  predicate Present(w: World, name: string)
  {
    name in w.containers
  }

  predicate IsRunning(w: World, name: string)
  {
    name in w.containers && w.containers[name] == Running
  }

  /** A manual container is left alone unless it is explicitly targeted. */
  predicate Skipped(c: Config, manualTargeting: bool)
  {
    !manualTargeting && c.manual
  }

  /** Nothing but the named container's entry changed. */
  predicate OnlyTouches(w: World, w': World, name: string)
  {
    w'.images == w.images && w'.containers - {name} == w.containers - {name}
  }

  function SetStatus(w: World, name: string, st: Status): World
  {
    w.(containers := w.containers[name := st])
  }

  /** A step that issued a command ended as that command did: `Done` in
      `next` when it succeeded, `Failed` with the world unchanged when it
      failed (a non-zero exit is fatal). */
  predicate EndsAsIssued(w: World, s: Step, next: World, fails: seq<string> -> bool)
  {
    s.issued != [] ==>
      && (s.outcome.Done? <==> !fails(s.issued[0]))
      && s.world == if fails(s.issued[0]) then w else next
  }

  function NoOp(w: World): Step
  {
    Step(w, [], Done)
  }

  /** Issuing one command: it is logged either way; the runtime moves to
      `next` when it succeeds, and the failure is fatal otherwise. */
  function Exec(w: World, cmd: seq<string>, next: World, fails: seq<string> -> bool): (s: Step)
    ensures s.issued == [cmd]
    ensures s.outcome.Done? <==> !fails(cmd)
    ensures s.world == if fails(cmd) then w else next
  {
    if fails(cmd) then Step(w, [cmd], Failed(ExecFailed(cmd))) else Step(next, [cmd], Done)
  }

  /** `pullImage`: one `pull`; on success the image is present. */
  function PullImage(w: World, c: Config, fails: seq<string> -> bool): (s: Step)
    ensures s.issued == [["pull", c.image]]
    ensures s.outcome.Done? <==> !fails(["pull", c.image])
    ensures s.world == if s.outcome.Done? then w.(images := w.images + {c.image}) else w
  {
    Exec(w, ["pull", c.image], w.(images := w.images + {c.image}), fails)
  }

  /** `buildImage`: one `build` of the expanded Dockerfile path, tagged with
      the image; on success the image is present. */
  function BuildImage(w: World, c: Config, expand: string -> string, fails: seq<string> -> bool): (s: Step)
    ensures s.issued == [["build", "--rm", "--tag=" + c.image, expand(c.dockerfile)]]
    ensures s.outcome.Done? <==> !fails(["build", "--rm", "--tag=" + c.image, expand(c.dockerfile)])
    ensures s.world == if s.outcome.Done? then w.(images := w.images + {c.image}) else w
  {
    Exec(w, ["build", "--rm", "--tag=" + c.image, expand(c.dockerfile)], w.(images := w.images + {c.image}), fails)
  }

  /** `provision`: act only when forced or the image is missing; build when
      a Dockerfile is given, pull otherwise. */
  function Provision(w: World, c: Config, force: bool, expand: string -> string, fails: seq<string> -> bool): (s: Step)
    ensures s.issued != [] <==> force || c.image !in w.images
    ensures |s.issued| <= 1
    ensures s.issued != [] ==>
      s.issued[0] == (if c.dockerfile != "" then ["build", "--rm", "--tag=" + c.image, expand(c.dockerfile)]
                      else ["pull", c.image])
    ensures !(force || c.image !in w.images) ==> s == NoOp(w)
    ensures s.outcome.Done? ==> s.world.images == w.images + {c.image}
    ensures s.world.containers == w.containers
    ensures EndsAsIssued(w, s, w.(images := w.images + {c.image}), fails)
  {
    if force || c.image !in w.images then
      if |c.dockerfile| > 0 then BuildImage(w, c, expand, fails) else PullImage(w, c, fails)
    else NoOp(w)
  }

  /** `pull`: the same guard as `provision`, always pulling. */
  function Pull(w: World, c: Config, force: bool, fails: seq<string> -> bool): (s: Step)
    ensures s.issued == if force || c.image !in w.images then [["pull", c.image]] else []
    ensures !(force || c.image !in w.images) ==> s == NoOp(w)
    ensures s.outcome.Done? ==> s.world.images == w.images + {c.image}
    ensures s.world.containers == w.containers
    ensures EndsAsIssued(w, s, w.(images := w.images + {c.image}), fails)
  {
    if force || c.image !in w.images then PullImage(w, c, fails) else NoOp(w)
  }

  /** `start`: a stopped container is started, a running one left alone,
      an absent one is an error. */
  function Start(w: World, c: Config, manualTargeting: bool, fails: seq<string> -> bool): (s: Step)
    ensures Skipped(c, manualTargeting) || IsRunning(w, c.name) ==> s == NoOp(w)
    ensures !Skipped(c, manualTargeting) && !Present(w, c.name) ==>
      s == Step(w, [], Failed(NoSuchContainer(c.name)))
    ensures !Skipped(c, manualTargeting) && Present(w, c.name) && !IsRunning(w, c.name) ==>
      s.issued == [["start", c.name]]
    ensures s.outcome.Done? && !Skipped(c, manualTargeting) ==> IsRunning(s.world, c.name)
    ensures OnlyTouches(w, s.world, c.name)
    ensures EndsAsIssued(w, s, SetStatus(w, c.name, Running), fails)
  {
    if Skipped(c, manualTargeting) then NoOp(w)
    else if Present(w, c.name) then
      if IsRunning(w, c.name) then NoOp(w)
      else Exec(w, ["start", c.name], SetStatus(w, c.name, Running), fails)
    else Step(w, [], Failed(NoSuchContainer(c.name)))
  }

  /** `run`: an absent container is created from its compiled arguments, a
      stopped one is started instead, a running one is left alone. */
  function Run(w: World, c: Config, manualTargeting: bool, env: RunArgs.ProcessEnv, resolve: RunArgs.Resolver,
               fails: seq<string> -> bool): (s: Step)
    ensures Skipped(c, manualTargeting) || IsRunning(w, c.name) ==> s == NoOp(w)
    ensures !Skipped(c, manualTargeting) && !Present(w, c.name) ==>
      var args := RunArgs.Compile(c.name, c.image, c.run, env, resolve);
      && (args.Err? ==> s == Step(w, [], Failed(CompileFailed(args.error))))
      && (args.Ok? ==> s.issued == [args.value] && args.value[0] == "run")
    ensures !Skipped(c, manualTargeting) && Present(w, c.name) && !IsRunning(w, c.name) ==>
      s.issued == [["start", c.name]]
    ensures s.outcome.Done? && !Skipped(c, manualTargeting) ==> IsRunning(s.world, c.name)
    ensures OnlyTouches(w, s.world, c.name)
    ensures EndsAsIssued(w, s, SetStatus(w, c.name, Running), fails)
  {
    if Skipped(c, manualTargeting) then NoOp(w)
    else if Present(w, c.name) then
      if IsRunning(w, c.name) then NoOp(w) else Start(w, c, manualTargeting, fails)
    else Create(w, c, env, resolve, fails)
  }

  /** The creating branch of `run`: compile the arguments and issue them;
      a compilation failure issues nothing. */
  function Create(w: World, c: Config, env: RunArgs.ProcessEnv, resolve: RunArgs.Resolver, fails: seq<string> -> bool): (s: Step)
    ensures var args := RunArgs.Compile(c.name, c.image, c.run, env, resolve);
      && (args.Err? ==> s == Step(w, [], Failed(CompileFailed(args.error))))
      && (args.Ok? ==> s.issued == [args.value] && args.value[0] == "run")
    ensures OnlyTouches(w, s.world, c.name)
    ensures EndsAsIssued(w, s, SetStatus(w, c.name, Running), fails)
  {
    match RunArgs.Compile(c.name, c.image, c.run, env, resolve)
    case Err(e) => Step(w, [], Failed(CompileFailed(e)))
    case Ok(args) =>
      RunArgs.CompileShape(c.name, c.image, c.run, env, resolve);
      Exec(w, args, SetStatus(w, c.name, Running), fails)
  }

  /** `runOrStart`: start an existing container, run an absent one. It
      behaves exactly as `run`, which starts a stopped container itself. */
  function RunOrStart(w: World, c: Config, manualTargeting: bool, env: RunArgs.ProcessEnv, resolve: RunArgs.Resolver,
                      fails: seq<string> -> bool): (s: Step)
    ensures s == Run(w, c, manualTargeting, env, resolve, fails)
  {
    if Present(w, c.name) then Start(w, c, manualTargeting, fails)
    else Run(w, c, manualTargeting, env, resolve, fails)
  }

  /** `kill` and `stop` (`verb`): issued only for a running container,
      which is stopped afterwards. */
  function Halt(w: World, c: Config, verb: string, fails: seq<string> -> bool): (s: Step)
    ensures s.issued != [] <==> IsRunning(w, c.name)
    ensures s.issued != [] ==> s.issued == [[verb, c.name]]
    ensures !IsRunning(w, c.name) ==> s == NoOp(w)
    ensures s.outcome.Done? || s.world == w
    ensures s.outcome.Done? ==> !IsRunning(s.world, c.name)
    ensures OnlyTouches(w, s.world, c.name)
    ensures EndsAsIssued(w, s, SetStatus(w, c.name, Stopped), fails)
  {
    if IsRunning(w, c.name) then Exec(w, [verb, c.name], SetStatus(w, c.name, Stopped), fails) else NoOp(w)
  }

  /** `kill`: `kill` for a running container, nothing otherwise. */
  function Kill(w: World, c: Config, fails: seq<string> -> bool): (s: Step)
    ensures s.issued == if IsRunning(w, c.name) then [["kill", c.name]] else []
    ensures s.outcome.Done? ==> !IsRunning(s.world, c.name)
    ensures IsRunning(w, c.name) ==> (s.outcome.Done? <==> !fails(["kill", c.name]))
    ensures IsRunning(w, c.name) && s.outcome.Done? ==> s.world == SetStatus(w, c.name, Stopped)
    ensures !IsRunning(w, c.name) ==> s == NoOp(w)
  {
    Halt(w, c, "kill", fails)
  }

  /** `stop`: `stop` for a running container, nothing otherwise. */
  function Stop(w: World, c: Config, fails: seq<string> -> bool): (s: Step)
    ensures s.issued == if IsRunning(w, c.name) then [["stop", c.name]] else []
    ensures s.outcome.Done? ==> !IsRunning(s.world, c.name)
    ensures IsRunning(w, c.name) ==> (s.outcome.Done? <==> !fails(["stop", c.name]))
    ensures IsRunning(w, c.name) && s.outcome.Done? ==> s.world == SetStatus(w, c.name, Stopped)
    ensures !IsRunning(w, c.name) ==> s == NoOp(w)
  {
    Halt(w, c, "stop", fails)
  }

  /** `rm`: nothing for an absent container, a refusal for a running one,
      one removal for a stopped one. */
  function Rm(w: World, c: Config, fails: seq<string> -> bool): (s: Step)
    ensures !Present(w, c.name) ==> s == NoOp(w)
    ensures IsRunning(w, c.name) ==> s == Step(w, [], Failed(RunningCannotBeRemoved(c.name)))
    ensures Present(w, c.name) && !IsRunning(w, c.name) ==> s.issued == [["rm", c.name]]
    ensures EndsAsIssued(w, s, w.(containers := w.containers - {c.name}), fails)
    ensures s.outcome.Done? ==> !Present(s.world, c.name)
    ensures OnlyTouches(w, s.world, c.name)
  {
    if Present(w, c.name) then
      if IsRunning(w, c.name) then Step(w, [], Failed(RunningCannotBeRemoved(c.name)))
      else Exec(w, ["rm", c.name], w.(containers := w.containers - {c.name}), fails)
    else NoOp(w)
  }

  // ---------------------------------------------------------------------
  // Properties relating several operations.
  // ---------------------------------------------------------------------

  /** A second `run` after a successful one issues nothing. */
  lemma RunIdempotent(w: World, c: Config, mt: bool, env: RunArgs.ProcessEnv, resolve: RunArgs.Resolver, fails: seq<string> -> bool)
    requires Run(w, c, mt, env, resolve, fails).outcome.Done?
    ensures var w1 := Run(w, c, mt, env, resolve, fails).world;
      Run(w1, c, mt, env, resolve, fails) == NoOp(w1)
  {
  }

  /** Running an absent container twice creates it exactly once. */
  lemma RunTwiceCreatesOnce(w: World, c: Config, mt: bool, env: RunArgs.ProcessEnv, resolve: RunArgs.Resolver, fails: seq<string> -> bool)
    requires !Skipped(c, mt) && !Present(w, c.name)
    requires RunArgs.Compile(c.name, c.image, c.run, env, resolve).Ok?
    requires !fails(RunArgs.Compile(c.name, c.image, c.run, env, resolve).value)
    ensures var s1 := Run(w, c, mt, env, resolve, fails);
      var s2 := Run(s1.world, c, mt, env, resolve, fails);
      s1.issued + s2.issued == [RunArgs.Compile(c.name, c.image, c.run, env, resolve).value]
  {
  }

  /** A container that was stopped successfully is then removed with one
      `rm`, and a second `stop` issues nothing. */
  lemma StopThenRm(w: World, c: Config, fails: seq<string> -> bool)
    requires Present(w, c.name)
    requires Stop(w, c, fails).outcome.Done?
    ensures var w1 := Stop(w, c, fails).world;
      Stop(w1, c, fails) == NoOp(w1) && Rm(w1, c, fails).issued == [["rm", c.name]]
  {
  }
}
