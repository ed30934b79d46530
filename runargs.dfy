/** The run-argument compiler: a container's run parameters become the
    argument list of `docker run`. */
module RunArgs {
  import opened Results
  import opened Strings
  import Volumes

  /** An element of a command list as the configuration loader decoded it. */
  datatype Item = StrItem(s: string) | OtherItem

  /** The polymorphic `cmd` field: absent (nil), a string, a list, or a
      value of any other shape. */
  datatype Command = NoCommand | StringCommand(s: string) | ListCommand(items: seq<Item>) | OtherCommand

  datatype RunParameters = RunParameters(
    rawAddHost: seq<string>,
    rawOther: seq<string>,
    cidfile: string,
    cpuShares: int,
    detach: bool,
    dns: seq<string>,
    entrypoint: string,
    env: seq<string>,
    expose: seq<string>,
    hostname: string,
    interactive: bool,
    link: seq<string>,
    lxcConf: seq<string>,
    mappedVolumesFrom: seq<string>,
    memory: string,
    rawNet: string,
    privileged: bool,
    publish: seq<string>,
    publishAll: bool,
    rm: bool,
    tty: bool,
    user: string,
    volume: seq<string>,
    volumesFrom: seq<string>,
    workdir: string,
    command: Command)

  /** The process environment: `os.ExpandEnv` and `os.Getwd`. */
  datatype ProcessEnv = ProcessEnv(expand: string -> string, cwd: string)

  /** Resolves (source container, volume path) to the backing path. */
  type Resolver = (string, string) -> Result<string, Volumes.ResolveError>

  datatype CompileError =
    | MalformedMappedVolume(entry: string)   // fewer than three `:`-segments
    | VolumeSourceFailed(from: string, volume: string, cause: Volumes.ResolveError)
    | NonStringCommandItem
    | UnknownCommandType

  /** `f` applied to every element, in order. */
  function MapAll(f: string -> string, xs: seq<string>): (r: seq<string>)
    ensures |r| == |xs|
  {
    if |xs| == 0 then [] else MapAll(f, xs[..|xs| - 1]) + [f(xs[|xs| - 1])]
  }

  lemma {:induction false} MapAllAt(f: string -> string, xs: seq<string>)
    ensures forall i :: 0 <= i < |xs| ==> MapAll(f, xs)[i] == f(xs[i])
  {
    if |xs| > 0 {
      var init := xs[..|xs| - 1];
      MapAllAt(f, init);
      assert forall i :: 0 <= i < |init| ==> init[i] == xs[i];
    }
  }

  lemma {:induction false} MapAllIdentity(f: string -> string, xs: seq<string>)
    requires forall x :: f(x) == x
    ensures MapAll(f, xs) == xs
  {
    MapAllAt(f, xs);
  }

  /** `flag v0 flag v1 ...`: one flag and value per element. */
  function Repeated(flag: string, values: seq<string>): (r: seq<string>)
    ensures |r| == 2 * |values|
  {
    if |values| == 0 then [] else Repeated(flag, values[..|values| - 1]) + [flag, values[|values| - 1]]
  }

  /** Position `2i` holds the flag and `2i + 1` the `i`-th value. */
  lemma {:induction false} RepeatedAt(flag: string, values: seq<string>)
    ensures forall i :: 0 <= i < |values| ==>
      Repeated(flag, values)[2 * i] == flag && Repeated(flag, values)[2 * i + 1] == values[i]
  {
    if |values| > 0 {
      var init := values[..|values| - 1];
      RepeatedAt(flag, init);
      assert forall i :: 0 <= i < |init| ==> init[i] == values[i];
    }
  }

  /** The token counts of an optional flag with a value, and of one without. */
  function Pair(present: bool): nat
  {
    if present then 2 else 0
  }

  function Single(present: bool): nat
  {
    if present then 1 else 0
  }

  /** A scalar flag: emitted with its expanded value when the value is set. */
  function IfSet(flag: string, value: string, expand: string -> string): (r: seq<string>)
    ensures |r| == Pair(value != "")
  {
    if |value| > 0 then [flag, expand(value)] else []
  }

  /** A boolean flag: one token when set. */
  function IfTrue(b: bool, flag: string): (r: seq<string>)
    ensures |r| == Single(b)
  {
    if b then [flag] else []
  }

  /** `RunParameters.Net`: the network mode, `bridge` when none is given. */
  function Net(p: RunParameters, expand: string -> string): (r: string)
    ensures p.rawNet == "" ==> r == "bridge"
    ensures p.rawNet != "" ==> r == expand(p.rawNet)
  {
    if |p.rawNet| == 0 then "bridge" else expand(p.rawNet)
  }

  /** A `volume` entry: expanded, then a relative host path (the first
      `:`-segment) is made absolute against the working directory. */
  function VolumeArg(env: ProcessEnv, v: string): (r: string)
    ensures !IsAbs(Split(env.expand(v), ':')[0]) ==> |r| > |env.cwd| && r[..|env.cwd| + 1] == env.cwd + "/"
    ensures IsAbs(env.cwd) ==> IsAbs(r)
  {
    var paths := Split(env.expand(v), ':');
    var head := if IsAbs(paths[0]) then paths[0] else env.cwd + "/" + paths[0];
    JoinStartsWithHead([head] + paths[1..], ':');
    Join([head] + paths[1..], ':')
  }

  /** A `mapped-volumes-from` entry `from:volume:dest` becomes the bind
      mount `source:dest`, where `source` backs `volume` in `from`. */
  function MappedVolumeArg(env: ProcessEnv, resolve: Resolver, entry: string): (r: Result<string, CompileError>)
    ensures var x := Split(env.expand(entry), ':');
      && (|x| < 3 ==> r == Err(MalformedMappedVolume(entry)))
      && (|x| >= 3 ==> (r.Ok? <==> resolve(x[0], x[1]).Ok?))
      && (|x| >= 3 && r.Err? ==> r.error == VolumeSourceFailed(x[0], x[1], resolve(x[0], x[1]).error))
      && (r.Ok? && ':' !in resolve(x[0], x[1]).value ==> Split(r.value, ':') == [resolve(x[0], x[1]).value, x[2]])
  {
    var x := Split(env.expand(entry), ':');
    if |x| < 3 then Err(MalformedMappedVolume(entry))
    else
      match resolve(x[0], x[1])
      case Err(e) => Err(VolumeSourceFailed(x[0], x[1], e))
      case Ok(src) =>
        SplitPiecesFree(env.expand(entry), ':');
        assert Join([src, x[2]], ':') == src + ":" + x[2];
        if ':' !in src then SplitJoin([src, x[2]], ':'); Ok(src + ":" + x[2])
        else Ok(src + ":" + x[2])
  }

  /** `--volume` pairs for all mapped entries; the first failing entry
      decides the error. */
  function MappedVolumeArgs(env: ProcessEnv, resolve: Resolver, entries: seq<string>): (r: Result<seq<string>, CompileError>)
    ensures r.Ok? <==> forall i :: 0 <= i < |entries| ==> MappedVolumeArg(env, resolve, entries[i]).Ok?
    ensures r.Ok? ==> |r.value| == 2 * |entries|
    ensures r.Ok? ==> forall i :: 0 <= i < |entries| ==>
      r.value[2 * i] == "--volume" && Ok(r.value[2 * i + 1]) == MappedVolumeArg(env, resolve, entries[i])
  {
    if |entries| == 0 then Ok([])
    else
      var init := entries[..|entries| - 1];
      assert forall i :: 0 <= i < |init| ==> init[i] == entries[i];
      match MappedVolumeArgs(env, resolve, init)
      case Err(e) => Err(e)
      case Ok(done) =>
        match MappedVolumeArg(env, resolve, entries[|entries| - 1])
        case Err(e) => Err(e)
        case Ok(a) => Ok(done + ["--volume", a])
  }

  /** The strings of a command list; any non-string element is an error. */
  function ItemStrings(items: seq<Item>): (r: Result<seq<string>, CompileError>)
    ensures r.Ok? <==> forall i :: 0 <= i < |items| ==> items[i].StrItem?
    ensures r.Ok? ==> |r.value| == |items| && forall i :: 0 <= i < |items| ==> r.value[i] == items[i].s
  {
    if |items| == 0 then Ok([])
    else
      var init := items[..|items| - 1];
      assert forall i :: 0 <= i < |init| ==> init[i] == items[i];
      match ItemStrings(init)
      case Err(e) => Err(e)
      case Ok(done) =>
        match items[|items| - 1]
        case OtherItem => Err(NonStringCommandItem)
        case StrItem(s) => Ok(done + [s])
  }

  /** The trailing command tokens. */
  function CommandTokens(cmd: Command): (r: Result<seq<string>, CompileError>)
    ensures cmd.NoCommand? ==> r == Ok([])
    ensures cmd.StringCommand? ==> r == Ok(if cmd.s == "" then [] else [cmd.s])
    ensures cmd.ListCommand? ==> (r.Ok? <==> forall i :: 0 <= i < |cmd.items| ==> cmd.items[i].StrItem?)
    ensures cmd.ListCommand? && r.Ok? ==>
      |r.value| == |cmd.items| && forall i :: 0 <= i < |cmd.items| ==> r.value[i] == cmd.items[i].s
    ensures cmd.OtherCommand? ==> r.Err?
  {
    match cmd
    case NoCommand => Ok([])
    case StringCommand(s) => if |s| > 0 then Ok([s]) else Ok([])
    case ListCommand(items) => ItemStrings(items)
    case OtherCommand => Err(UnknownCommandType)
  }

  /** `run` and the flags that precede the mapped volumes, in order:
      add-host, net, other, cidfile, cpu-shares, detach, dns, entrypoint,
      env, expose, hostname, interactive, link, lxc-conf. */
  function LeadingArgs(p: RunParameters, e: ProcessEnv): (r: seq<string>)
    ensures |r| >= 1 && r[0] == "run"
  {
    var x := e.expand;
    ["run"]
    + Repeated("--add-host", MapAll(x, p.rawAddHost))
    + (if Net(p, x) != "bridge" then ["--net", Net(p, x)] else [])
    + MapAll(x, p.rawOther)
    + IfSet("--cidfile", p.cidfile, x)
    + (if p.cpuShares > 0 then ["--cpu-shares", x(PositiveToString(p.cpuShares))] else [])
    + IfTrue(p.detach, "--detach")
    + Repeated("--dns", MapAll(x, p.dns))
    + IfSet("--entrypoint", p.entrypoint, x)
    + Repeated("--env", MapAll(x, p.env))
    + Repeated("--expose", MapAll(x, p.expose))
    + IfSet("--hostname", p.hostname, x)
    + IfTrue(p.interactive, "--interactive")
    + Repeated("--link", p.link)
    + Repeated("--lxc-conf", MapAll(x, p.lxcConf))
  }

  /** One token for `run`, two per add-host, dns, env, expose, link and
      lxc-conf value, one per pass-through entry, two per set scalar, one
      per set boolean. */
  lemma LeadingArgsLength(p: RunParameters, e: ProcessEnv)
    ensures |LeadingArgs(p, e)| == 1 + 2 * (|p.rawAddHost| + |p.dns| + |p.env| + |p.expose| + |p.link| + |p.lxcConf|)
      + Pair(Net(p, e.expand) != "bridge") + |p.rawOther|
      + Pair(p.cidfile != "") + Pair(p.cpuShares > 0) + Single(p.detach)
      + Pair(p.entrypoint != "") + Pair(p.hostname != "") + Single(p.interactive)
  {
  }

  /** The flags that follow the mapped volumes, in order: memory,
      privileged, publish, publish-all, rm, tty, user, volume,
      volumes-from, workdir. */
  function TrailingFlags(p: RunParameters, e: ProcessEnv): (r: seq<string>)
    ensures |r| == 2 * (|p.publish| + |p.volume| + |p.volumesFrom|)
      + Pair(p.memory != "") + Pair(p.user != "") + Pair(p.workdir != "")
      + Single(p.privileged) + Single(p.publishAll) + Single(p.rm) + Single(p.tty)
  {
    var x := e.expand;
    IfSet("--memory", p.memory, x)
    + IfTrue(p.privileged, "--privileged")
    + Repeated("--publish", MapAll(x, p.publish))
    + IfTrue(p.publishAll, "--publish-all")
    + IfTrue(p.rm, "--rm")
    + IfTrue(p.tty, "--tty")
    + IfSet("--user", p.user, x)
    + Repeated("--volume", MapAll(v => VolumeArg(e, v), p.volume))
    + Repeated("--volumes-from", MapAll(x, p.volumesFrom))
    + IfSet("--workdir", p.workdir, x)
  }

  /** The argument list of `docker run` for a container, or the reason it
      cannot be compiled (a mapped volume first, then the command). */
  function Compile(name: string, image: string, p: RunParameters, e: ProcessEnv, resolve: Resolver): (r: Result<seq<string>, CompileError>)
    ensures r.Ok? <==> MappedVolumeArgs(e, resolve, p.mappedVolumesFrom).Ok? && CommandTokens(p.command).Ok?
    ensures MappedVolumeArgs(e, resolve, p.mappedVolumesFrom).Err? ==>
      r == Err(MappedVolumeArgs(e, resolve, p.mappedVolumesFrom).error)
    ensures MappedVolumeArgs(e, resolve, p.mappedVolumesFrom).Ok? && CommandTokens(p.command).Err? ==>
      r == Err(CommandTokens(p.command).error)
  {
    match MappedVolumeArgs(e, resolve, p.mappedVolumesFrom)
    case Err(err) => Err(err)
    case Ok(mapped) =>
      match CommandTokens(p.command)
      case Err(err) => Err(err)
      case Ok(cmd) => Ok(LeadingArgs(p, e) + mapped + TrailingFlags(p, e) + ["--name", name, image] + cmd)
  }

  // ---------------------------------------------------------------------
  // Properties of the compiled list.
  // ---------------------------------------------------------------------

  /** Compilation fails exactly when a mapped volume or the command does;
      otherwise the list starts with `run`, ends in `--name <name> <image>`
      followed by the command tokens, and every flag comes before `--name`. */
  lemma CompileShape(name: string, image: string, p: RunParameters, e: ProcessEnv, resolve: Resolver)
    ensures Compile(name, image, p, e, resolve).Ok? ==>
      var r := Compile(name, image, p, e, resolve).value;
      var cmd := CommandTokens(p.command).value;
      var n := |r| - |cmd|;
      && n >= 4 && r[0] == "run"
      && r[n - 3..n] == ["--name", name, image]
      && r[n..] == cmd
  {
    var r := Compile(name, image, p, e, resolve);
    if r.Ok? {
      var mapped := MappedVolumeArgs(e, resolve, p.mappedVolumesFrom).value;
      var cmd := CommandTokens(p.command).value;
      var flags := LeadingArgs(p, e) + mapped + TrailingFlags(p, e);
      assert LeadingArgs(p, e)[0] == "run";
      assert r.value == flags + ["--name", name, image] + cmd;
      assert flags[0] == "run";
    }
  }

  /** All parameters at their defaults. */
  predicate Minimal(p: RunParameters)
  {
    && p.rawAddHost == [] && p.rawOther == [] && p.dns == [] && p.env == [] && p.expose == []
    && p.link == [] && p.lxcConf == [] && p.mappedVolumesFrom == [] && p.publish == []
    && p.volume == [] && p.volumesFrom == []
    && !p.detach && !p.interactive && !p.privileged && !p.publishAll && !p.rm && !p.tty
    && p.cidfile == "" && p.entrypoint == "" && p.hostname == "" && p.memory == ""
    && p.user == "" && p.workdir == "" && p.rawNet == ""
    && p.cpuShares <= 0 && p.command == NoCommand
  }

  /** The minimal invocation: with every parameter at its default the
      network mode is `bridge` and the list is `run --name <name> <image>`. */
  lemma MinimalInvocation(name: string, image: string, p: RunParameters, e: ProcessEnv, resolve: Resolver)
    requires Minimal(p)
    ensures Net(p, e.expand) == "bridge"
    ensures Compile(name, image, p, e, resolve) == Ok(["run", "--name", name, image])
  {
    assert LeadingArgs(p, e) == ["run"];
    assert TrailingFlags(p, e) == [];
    assert MappedVolumeArgs(e, resolve, p.mappedVolumesFrom) == Ok([]);
    assert ["run"] + [] + [] + ["--name", name, image] + [] == ["run", "--name", name, image];
  }

  /** An absolute host path passes through a volume entry unchanged. */
  lemma {:induction false} VolumeArgAbsolute(e: ProcessEnv, v: string)
    requires IsAbs(Split(e.expand(v), ':')[0])
    ensures VolumeArg(e, v) == e.expand(v)
  {
    var paths := Split(e.expand(v), ':');
    assert [paths[0]] + paths[1..] == paths;
    JoinSplit(e.expand(v), ':');
  }

  /** Re-splitting a volume argument gives the rewritten host path followed
      by the entry's other segments (destination, mode) unchanged, provided
      the working directory contains no `:`. */
  lemma {:induction false} VolumeArgSegments(e: ProcessEnv, v: string)
    requires ':' !in e.cwd
    ensures var paths := Split(e.expand(v), ':');
      Split(VolumeArg(e, v), ':') ==
        [if IsAbs(paths[0]) then paths[0] else e.cwd + "/" + paths[0]] + paths[1..]
  {
    var paths := Split(e.expand(v), ':');
    var head := if IsAbs(paths[0]) then paths[0] else e.cwd + "/" + paths[0];
    var parts := [head] + paths[1..];
    SplitPiecesFree(e.expand(v), ':');
    assert ':' !in head;
    forall i | 0 <= i < |parts| ensures ':' !in parts[i] {
      if i > 0 { assert parts[i] == paths[i]; }
    }
    SplitJoin(parts, ':');
  }

  // ---------------------------------------------------------------------
  // The compiler as the source writes it: appends in loops.
  // ---------------------------------------------------------------------

  /** `RunParameters.AddHost`: every raw add-host entry, expanded. */
  method AddHost(p: RunParameters, e: ProcessEnv) returns (addHost: seq<string>)
    ensures addHost == MapAll(e.expand, p.rawAddHost)
  {
    addHost := [];
    for i := 0 to |p.rawAddHost|
      invariant addHost == MapAll(e.expand, p.rawAddHost[..i])
    {
      assert p.rawAddHost[..i + 1][..i] == p.rawAddHost[..i];
      addHost := addHost + [e.expand(p.rawAddHost[i])];
    }
    assert p.rawAddHost[..|p.rawAddHost|] == p.rawAddHost;
  }

  /** `RunParameters.Other`: every raw pass-through entry, expanded. */
  method Other(p: RunParameters, e: ProcessEnv) returns (other: seq<string>)
    ensures other == MapAll(e.expand, p.rawOther)
  {
    other := [];
    for i := 0 to |p.rawOther|
      invariant other == MapAll(e.expand, p.rawOther[..i])
    {
      assert p.rawOther[..i + 1][..i] == p.rawOther[..i];
      other := other + [e.expand(p.rawOther[i])];
    }
    assert p.rawOther[..|p.rawOther|] == p.rawOther;
  }

  /** The loop `for _, v := range values { args = append(args, flag, f(v)) }`. */
  method AppendRepeated(args: seq<string>, flag: string, values: seq<string>, f: string -> string)
    returns (r: seq<string>)
    ensures r == args + Repeated(flag, MapAll(f, values))
  {
    r := args;
    for i := 0 to |values|
      invariant r == args + Repeated(flag, MapAll(f, values[..i]))
    {
      assert values[..i + 1][..i] == values[..i];
      r := r + [flag, f(values[i])];
    }
    assert values[..|values|] == values;
  }

  /** The flags before the mapped volumes, appended group by group; each
      optional group is the source's `if` around one `append`. */
  method BuildLeading(p: RunParameters, e: ProcessEnv) returns (args: seq<string>)
    ensures args == LeadingArgs(p, e)
  {
    var x := e.expand;
    var same := (s: string) => s;
    args := ["run"];
    var addHost := AddHost(p, e);
    MapAllIdentity(same, addHost);
    args := AppendRepeated(args, "--add-host", addHost, same);
    var net := Net(p, x);
    args := args + (if net != "bridge" then ["--net", net] else []);
    var other := Other(p, e);
    args := args + other;
    args := args + IfSet("--cidfile", p.cidfile, x);
    args := args + (if p.cpuShares > 0 then ["--cpu-shares", x(PositiveToString(p.cpuShares))] else []);
    args := args + IfTrue(p.detach, "--detach");
    args := AppendRepeated(args, "--dns", p.dns, x);
    args := args + IfSet("--entrypoint", p.entrypoint, x);
    args := AppendRepeated(args, "--env", p.env, x);
    args := AppendRepeated(args, "--expose", p.expose, x);
    args := args + IfSet("--hostname", p.hostname, x);
    args := args + IfTrue(p.interactive, "--interactive");
    MapAllIdentity(same, p.link);
    args := AppendRepeated(args, "--link", p.link, same);
    args := AppendRepeated(args, "--lxc-conf", p.lxcConf, x);
  }

  /** The mapped-volumes loop: stops at the first entry that fails. */
  method AppendMapped(args: seq<string>, e: ProcessEnv, resolve: Resolver, entries: seq<string>)
    returns (r: Result<seq<string>, CompileError>)
    ensures MappedVolumeArgs(e, resolve, entries).Err? ==> r == Err(MappedVolumeArgs(e, resolve, entries).error)
    ensures MappedVolumeArgs(e, resolve, entries).Ok? ==> r == Ok(args + MappedVolumeArgs(e, resolve, entries).value)
  {
    var acc := args;
    for i := 0 to |entries|
      invariant MappedVolumeArgs(e, resolve, entries[..i]).Ok?
      invariant acc == args + MappedVolumeArgs(e, resolve, entries[..i]).value
    {
      assert entries[..i + 1][..i] == entries[..i];
      var x := Split(e.expand(entries[i]), ':');
      if |x| < 3 {
        MappedErrorPersists(e, resolve, entries, i + 1);
        return Err(MalformedMappedVolume(entries[i]));
      }
      var src := resolve(x[0], x[1]);
      if src.Err? {
        MappedErrorPersists(e, resolve, entries, i + 1);
        return Err(VolumeSourceFailed(x[0], x[1], src.error));
      }
      acc := acc + ["--volume", src.value + ":" + x[2]];
    }
    assert entries[..|entries|] == entries;
    r := Ok(acc);
  }

  /** Once a prefix of the entries fails, every longer prefix fails alike. */
  lemma {:induction false} MappedErrorPersists(e: ProcessEnv, resolve: Resolver, entries: seq<string>, k: nat)
    requires k <= |entries|
    requires MappedVolumeArgs(e, resolve, entries[..k]).Err?
    ensures MappedVolumeArgs(e, resolve, entries) == MappedVolumeArgs(e, resolve, entries[..k])
    decreases |entries| - k
  {
    if k < |entries| {
      assert entries[..k + 1][..k] == entries[..k];
      MappedErrorPersists(e, resolve, entries, k + 1);
    } else {
      assert entries[..k] == entries;
    }
  }

  lemma AppendAssoc(a: seq<string>, b: seq<string>, c: seq<string>)
    ensures a + b + c == a + (b + c)
  {
  }

  method BuildTrailing(args: seq<string>, p: RunParameters, e: ProcessEnv) returns (r: seq<string>)
    ensures r == args + TrailingFlags(p, e)
  {
    var x := e.expand;
    r := args;
    r := r + IfSet("--memory", p.memory, x);
    ghost var flags := IfSet("--memory", p.memory, x);
    AppendAssoc(args, flags, IfTrue(p.privileged, "--privileged"));
    r := r + IfTrue(p.privileged, "--privileged");
    flags := flags + IfTrue(p.privileged, "--privileged");
    AppendAssoc(args, flags, Repeated("--publish", MapAll(x, p.publish)));
    r := AppendRepeated(r, "--publish", p.publish, x);
    flags := flags + Repeated("--publish", MapAll(x, p.publish));
    AppendAssoc(args, flags, IfTrue(p.publishAll, "--publish-all"));
    r := r + IfTrue(p.publishAll, "--publish-all");
    flags := flags + IfTrue(p.publishAll, "--publish-all");
    AppendAssoc(args, flags, IfTrue(p.rm, "--rm"));
    r := r + IfTrue(p.rm, "--rm");
    flags := flags + IfTrue(p.rm, "--rm");
    AppendAssoc(args, flags, IfTrue(p.tty, "--tty"));
    r := r + IfTrue(p.tty, "--tty");
    flags := flags + IfTrue(p.tty, "--tty");
    AppendAssoc(args, flags, IfSet("--user", p.user, x));
    r := r + IfSet("--user", p.user, x);
    flags := flags + IfSet("--user", p.user, x);
    AppendAssoc(args, flags, Repeated("--volume", MapAll(v => VolumeArg(e, v), p.volume)));
    r := AppendRepeated(r, "--volume", p.volume, v => VolumeArg(e, v));
    flags := flags + Repeated("--volume", MapAll(v => VolumeArg(e, v), p.volume));
    AppendAssoc(args, flags, Repeated("--volumes-from", MapAll(x, p.volumesFrom)));
    r := AppendRepeated(r, "--volumes-from", p.volumesFrom, x);
    flags := flags + Repeated("--volumes-from", MapAll(x, p.volumesFrom));
    AppendAssoc(args, flags, IfSet("--workdir", p.workdir, x));
    r := r + IfSet("--workdir", p.workdir, x);
    flags := flags + IfSet("--workdir", p.workdir, x);
    assert r == args + flags;
    assert flags == TrailingFlags(p, e);
  }

  /** The switch on the command's shape; a list is converted element by
      element and a non-string element stops the conversion. */
  method CommandArgs(cmd: Command) returns (r: Result<seq<string>, CompileError>)
    ensures r == CommandTokens(cmd)
  {
    match cmd {
      case NoCommand => r := Ok([]);
      case StringCommand(s) =>
        if |s| > 0 { r := Ok([s]); } else { r := Ok([]); }
      case ListCommand(items) =>
        var cmds: seq<string> := [];
        for i := 0 to |items|
          invariant ItemStrings(items[..i]) == Ok(cmds)
        {
          assert items[..i + 1][..i] == items[..i];
          if items[i].OtherItem? {
            ItemErrorPersists(items, i + 1);
            return Err(NonStringCommandItem);
          }
          cmds := cmds + [items[i].s];
        }
        assert items[..|items|] == items;
        r := Ok(cmds);
      case OtherCommand => r := Err(UnknownCommandType);
    }
  }

  lemma {:induction false} ItemErrorPersists(items: seq<Item>, k: nat)
    requires k <= |items|
    requires ItemStrings(items[..k]).Err?
    ensures ItemStrings(items) == ItemStrings(items[..k])
    decreases |items| - k
  {
    if k < |items| {
      assert items[..k + 1][..k] == items[..k];
      ItemErrorPersists(items, k + 1);
    } else {
      assert items[..k] == items;
    }
  }

  /** `Container.run`'s argument assembly. */
  method BuildRunArgs(name: string, image: string, p: RunParameters, e: ProcessEnv, resolve: Resolver)
    returns (r: Result<seq<string>, CompileError>)
    ensures r == Compile(name, image, p, e, resolve)
  {
    var args := BuildLeading(p, e);
    var withMapped := AppendMapped(args, e, resolve, p.mappedVolumesFrom);
    if withMapped.Err? {
      return Err(withMapped.error);
    }
    args := BuildTrailing(withMapped.value, p, e);
    ghost var flags := args;
    args := args + ["--name", name];
    args := args + [image];
    assert args == flags + ["--name", name, image];
    var cmd := CommandArgs(p.command);
    if cmd.Err? {
      return Err(cmd.error);
    }
    r := Ok(args + cmd.value);
  }
}
