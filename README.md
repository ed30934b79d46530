# crane container core, modelled in Dafny

This project models the container core of crane, a tool that drives the
`docker` command line from a declarative description of containers
(`container.go`). It covers four parts. First, the run-argument compiler,
which turns a container's run parameters into the argument list of
`docker run`. Second, the id cache and the existence and running probes.
Third, the volume-source resolver, which reads either the legacy
`{{.Volumes}}` map display or the structured `{{json .Mounts}}` list.
Fourth, the per-container lifecycle: provision, pull, run, start,
runOrStart, kill, stop and rm.

Files, one module each:

- `results.dfy`: `Option` and `Result`.
- `strings.dfy`: Go's `strings.Split` and `strings.Join` for a
  one-character separator, `path.IsAbs`, and `strconv.Itoa` for positive
  numbers, with the split/join round-trip lemmas.
- `volumes.dfy`: `getSourceForVolume*`, as specification functions, as
  loop methods proved equal to them, and the lemma that both formats agree.
- `runargs.dfy`: `RunParameters`, the polymorphic command, and the
  compiler. `Compile` is the specification function; `BuildRunArgs` and its
  helpers are the append loops of `Container.run`, proved equal to it.
- `lifecycle.dfy`: the lifecycle as pure transitions over a `World`. A
  `World` is a map from container name to `Stopped`/`Running` (absent
  names are not keys) plus a set of images. Each transition gives the new
  world, the `docker` invocations issued and an outcome.
- `containers.dfy`: class `Runtime` holds the runtime state, the log of
  issued invocations and the names whose id was queried. Class `Container`
  holds the description and the mutable `id` cache. Its methods (`GetId`,
  `Exists`, `Running`, the lifecycle methods) are proved against
  `lifecycle.dfy`.

How external behaviour is modelled:

- `os.ExpandEnv` and `os.Getwd` are a function `expand` and a string `cwd`
  (`RunArgs.ProcessEnv`).
- Which invocations exit non-zero is a function `fails` of the argument list.
- The id the runtime assigns is a function `idOf`. What the id query prints
  for a name that is not a container is a function `missingOutput`.
- The two volume inspections are the functions `volumesOf` and `mountsOf`.
  `mountsOf` gives an already decoded list, or says that the query or the
  decoding failed.
- `grep -wF` over a listing is membership of the id (or image) in a set.

Two details of the code are kept as written, though they look unintended:

- `getId` checks the named result `err` (container.go:86), which is never
  assigned. The inspection's failure is therefore never reported: its
  output is parsed like any other.
- `Link` values are not environment-expanded (container.go:276). The other
  repeatable fields are.

Each lifecycle method of the source takes the container by value. The id
cached during one operation is therefore dropped when it returns. The
model does the same: each lifecycle method works on a `Copy()` and leaves
the receiver unchanged. A lifecycle method called from another one (`run`
calling `start`) gets a copy that carries what the caller cached so far.

## Model

| member | source | states |
|---|---|---|
| `Volumes.MatchFrom` | container.go:452-453 | finds the leftmost position where `map[[](.*)[]]$` matches, or shows that none matches |
| `Volumes.MapInner` | container.go:452-453 | a captured group exists iff the pattern matches somewhere, and it is the text between `map[` at the leftmost match and the final `]` |
| `Volumes.LookupPairs` | container.go:454-461 | a success is the host path of some pair naming the volume; a failure is not-found or a malformed pair taken from the list |
| `Volumes.LegacySource` | container.go:449-462 | fails with no-map iff the display does not match `map[...]`; a success is the host path of a space-separated pair of the capture that names the volume; the only other failures are a malformed pair or not-found |
| `Volumes.LookupPairsFindsFirst` | container.go:454-460 | the legacy parser returns the second segment of the first pair whose first segment is the volume, when every earlier pair is well formed |
| `Volumes.LookupPairsOnlyFirst` | container.go:454-461 | every success comes from such a first matching pair |
| `Volumes.SourceFromVolumes` | container.go:449-462 | the loop with early return equals the legacy specification, including the no-map, malformed-pair and not-found failures |
| `Volumes.LookupMounts` | container.go:441-446 | the scan succeeds iff some mount's destination is the volume; otherwise it fails with not-found |
| `Volumes.LookupMountsFirst` | container.go:441-446 | the scan returns the source of the first mount with that destination |
| `Volumes.MountsSource` | container.go:429-447 | a failed query and an undecodable answer are their own errors; it succeeds iff the answer decoded and some mount's destination is the volume |
| `Volumes.SourceFromMounts` | container.go:429-447 | the loop equals the mount specification; a failed query and an undecodable answer are fatal |
| `Volumes.SourceForVolume` | container.go:411-418 | the legacy display is used unless its query failed or printed `<no value>`, in which case the mounts are scanned |
| `Volumes.GetSourceForVolume` | container.go:411-418 | the method equals `SourceForVolume` |
| `Volumes.FormatsAgree` | container.go:411-462 | for the same bindings (paths without `:`, space or newline), the legacy display and the mount list give the same host path, or both fail; for no bindings both fail |
| `Strings.JoinSplit` | container.go:321-326 | joining the `:`-segments of a volume entry gives back the entry |
| `Strings.SplitJoin` | container.go:285-288 | splitting a join of separator-free pieces gives back the pieces |
| `RunArgs.Net` | container.go:69-76 | the network mode is `bridge` when none is given, otherwise the expanded value |
| `RunArgs.VolumeArg` | container.go:320-327 | a relative host path is prefixed with the working directory and `/`; with an absolute working directory every emitted host path is absolute |
| `RunArgs.MappedVolumeArg` | container.go:283-290 | an entry with fewer than three `:`-segments is malformed; otherwise it compiles iff the source resolves, carrying the resolver's error; a resolved source without `:` re-splits into exactly source and destination |
| `RunArgs.LeadingArgs` | container.go:224-281 | the flags before the mapped volumes start with `run` |
| `RunArgs.LeadingArgsLength` | container.go:224-281 | one token for `run`, two per add-host, dns, env, expose, link and lxc-conf value, one per pass-through entry, two per set scalar (net only when not `bridge`, cpu-shares only when positive), one per true boolean |
| `RunArgs.TrailingFlags` | container.go:291-335 | two tokens per publish, volume and volumes-from value and per set memory, user and workdir; one per true privileged, publish-all, rm and tty |
| `RunArgs.Compile` | container.go:222-357 | compiles iff the mapped volumes and the command do; a mapped-volume failure takes precedence over a command failure |
| `RunArgs.RepeatedAt` | container.go:251-253 | a repeatable field emits flag and value at positions `2i` and `2i+1`, for each element in order |
| `RunArgs.MappedVolumeArgs` | container.go:283-290 | mapped volumes compile iff every entry does; each entry gives `--volume` and `source:dest` for its resolved source |
| `RunArgs.ItemStrings` | container.go:348-353 | a command list converts iff every element is a string, and gives those strings in order |
| `RunArgs.CommandTokens` | container.go:342-357 | nil and `""` give no tokens, a non-empty string gives exactly itself, a list gives its elements, and any other shape is an error |
| `RunArgs.CompileShape` | container.go:224-357 | the compiled list starts with `run`, and `--name <name> <image>` is followed only by the command tokens |
| `RunArgs.MinimalInvocation` | container.go:224-340 | with every parameter at its default (including `CpuShares <= 0` and an empty net), the network mode is `bridge` and the list is `run --name <name> <image>` |
| `RunArgs.VolumeArgAbsolute` | container.go:320-327 | a volume entry whose host path is absolute is emitted as its expansion, unchanged |
| `RunArgs.VolumeArgSegments` | container.go:320-327 | re-splitting an emitted volume gives the host path made `cwd/`-relative when it was relative, followed by the original destination and mode segments |
| `RunArgs.AddHost` | container.go:54-60 | every raw add-host entry, expanded, in order |
| `RunArgs.Other` | container.go:62-68 | every raw pass-through entry, expanded, in order |
| `RunArgs.AppendRepeated` | container.go:251-253 | the append loop adds one flag and value pair per element |
| `RunArgs.BuildLeading` | container.go:224-281 | the flags from add-host through lxc-conf in the source's order: net only when not `bridge`, cpu-shares only when positive, link unexpanded |
| `RunArgs.AppendMapped` | container.go:283-290 | the mapped-volume loop stops with the first failing entry's error |
| `RunArgs.BuildTrailing` | container.go:291-335 | the flags from memory through workdir in the source's order |
| `RunArgs.CommandArgs` | container.go:342-357 | the command switch equals `CommandTokens` |
| `RunArgs.BuildRunArgs` | container.go:222-357 | the assembled argument list equals `Compile` |
| `Lifecycle.Exec` | main.go:150-162 | an issued command is logged; if it fails, the world is unchanged and the outcome is fatal; otherwise the world moves on |
| `Lifecycle.PullImage` | container.go:168-172 | issues `pull <image>`; the outcome is `Done` iff it exits zero; on success the image is added, on failure nothing changes |
| `Lifecycle.BuildImage` | container.go:175-179 | issues `build --rm --tag=<image> <expanded Dockerfile>`; the outcome is `Done` iff it exits zero; on success the image is added, on failure nothing changes |
| `Lifecycle.Provision` | container.go:181-191 | issues one command iff forced or the image is missing: a build iff a Dockerfile is set, otherwise a pull; otherwise it is a successful no-op; on success the images gain exactly this image; when it issues a command, the outcome is `Done` iff that command exits zero, and the world is unchanged on failure |
| `Lifecycle.Pull` | container.go:193-199 | issues one pull iff forced or the image is missing, otherwise it is a successful no-op; on success the images gain exactly this image; when it issues a command, the outcome is `Done` iff that command exits zero, and the world is unchanged on failure |
| `Lifecycle.Start` | container.go:364-378 | a skipped manual or running container issues nothing; an absent one is an error with no command; a stopped one gets exactly one `start`; only that container's entry changes; when it issues a command, the outcome is `Done` iff that command exits zero; the container is then running on success and unchanged on failure |
| `Lifecycle.Run` | container.go:211-361 | a skipped manual or running container issues nothing; an absent one gets exactly its compiled `run` (no command when compilation fails); a stopped one gets one `start`; on success the container runs; when it issues a command, the outcome is `Done` iff that command exits zero, and the world is unchanged on failure |
| `Lifecycle.Create` | container.go:221-360 | the creating branch of `run`: a compilation failure issues nothing and is fatal; otherwise exactly the compiled list, starting with `run`, is issued; the outcome is `Done` iff it exits zero, after which the container runs; on failure the world is unchanged |
| `Lifecycle.Halt` | container.go:381-396 | `kill` and `stop` issue their command iff the container is running, the outcome is `Done` iff that command exits zero, after which the container is `Stopped`, and the world is unchanged on failure; a container that is not running is a successful no-op |
| `Lifecycle.Kill` | container.go:381-387 | issues `kill <name>` iff the container is running, otherwise it is a successful no-op; the outcome is then `Done` iff `kill` exits zero, after which the container is `Stopped` |
| `Lifecycle.Stop` | container.go:390-396 | issues `stop <name>` iff the container is running, otherwise it is a successful no-op; the outcome is then `Done` iff `stop` exits zero, after which the container is `Stopped` |
| `Lifecycle.Rm` | container.go:399-409 | absent: nothing; running: a refusal with no command; stopped: exactly one `rm`; its outcome is `Done` iff it exits zero, after which the container is absent, and the world is unchanged on failure |
| `Lifecycle.RunIdempotent` | container.go:211-221 | after a successful `run`, a second `run` issues nothing and changes nothing |
| `Lifecycle.RunTwiceCreatesOnce` | container.go:216-222 | two `run`s on an absent container issue exactly one `docker run` in total |
| `Lifecycle.RunOrStart` | container.go:202-208 | `runOrStart` behaves exactly as `run` on every input |
| `Lifecycle.StopThenRm` | container.go:390-409 | after a successful stop, a second stop issues nothing and `rm` issues exactly one removal |
| `Containers.FirstId` | container.go:87-94 | the chosen segment is never `<no value>`; it is one of the segments, or empty |
| `Containers.FirstIdPicksFirst` | container.go:87-94 | the first segment that is not `<no value>` is the one chosen |
| `Containers.Runtime.ListedIff` | container.go:108-116 | a container's id is in the listing iff the container exists (and runs, for the running listing) |
| `Containers.Runtime.InspectId` | container.go:84-85 | the query's output is the runtime's answer for that name, and the name is recorded as inspected |
| `Containers.Runtime.Listed` | container.go:108-116 | the abstraction of `docker ps` piped through `grep -wF id`: the pipeline finds the id iff it is in the set `Listing` (an assumption about the runtime, not a proved property) |
| `Containers.Runtime.ImageListed` | container.go:143-154 | the abstraction of `docker images` piped through `grep -wF image`: found iff the image is in the runtime's image set (an assumption, not a proved property) |
| `Containers.Runtime.Execute` | main.go:150-162 | logs the invocation and moves the runtime exactly as `Lifecycle.Exec` says |
| `Containers.Container.GetId` | container.go:78-100 | a non-empty cached id is returned with no query; otherwise one query is made, and its first non-`<no value>` segment is returned and cached |
| `Containers.Container.Exists` | container.go:102-120 | true iff the container is present; the cache then holds the old id if there was one, else the resolved query output, which is the true id when the container exists |
| `Containers.Container.Running` | container.go:122-140 | true iff the container is present and running; the cache is updated as for `Exists` |
| `Containers.Container.Copy` | container.go:202-208 | a value receiver is a fresh copy with the same description and cached id, so what it caches does not reach the caller |
| `Containers.Container.ImageExists` | container.go:142-155 | true iff the image is in the runtime's image set |
| `Containers.Container.PullImage` | container.go:168-172 | issues `pull <image>`, as `Lifecycle.PullImage` says |
| `Containers.Container.BuildImage` | container.go:175-179 | issues `build --rm --tag=<image> <expanded Dockerfile>` |
| `Containers.Container.Provision` | container.go:181-191 | the runtime and the log change exactly as `Lifecycle.Provision` says |
| `Containers.Container.Pull` | container.go:193-199 | the runtime and the log change exactly as `Lifecycle.Pull` says |
| `Containers.Container.Start` | container.go:364-378 | the runtime and the log change exactly as `Lifecycle.Start` says; only this container's id is queried |
| `Containers.Container.Run` | container.go:211-361 | the runtime and the log change exactly as `Lifecycle.Run` says |
| `Containers.Container.Create` | container.go:221-360 | assembles the arguments with `BuildRunArgs` and issues them; the runtime and the log change exactly as `Lifecycle.Create` says |
| `Containers.Container.RunOrStart` | container.go:202-208 | the runtime and the log change exactly as `Lifecycle.RunOrStart` says |
| `Containers.Container.Kill` | container.go:381-387 | the runtime and the log change exactly as `Lifecycle.Kill` says |
| `Containers.Container.Stop` | container.go:390-396 | the runtime and the log change exactly as `Lifecycle.Stop` says |
| `Containers.Container.Rm` | container.go:399-409 | the runtime and the log change exactly as `Lifecycle.Rm` says |

## Left out

- main.go is not modelled: the cobra command wiring, coloured printing and panic recovery. `executeCommand` becomes `Runtime.Execute`: log the invocation, fail as `fails` says. `commandOutput` and `pipedCommandOutput` become the runtime's query functions.
- `status` is left out. It formats a table with tabwriter, a presentation concern.
- The group orchestrator (`lift`, group-wide `run`, `rm`, …), `getContainers` and `isManualTargetting` are not part of this model. Manual targeting is a parameter.
- `print.Notice` messages and console output are not modelled. `print.Error` becomes a `Failed` outcome with no further command for that container.
- Shell placeholder syntax is not modelled. `os.ExpandEnv` is an opaque function.
- `json.Unmarshal` is not modelled: the mounts arrive decoded, or as "undecodable".
- `grep -wF` word matching is modelled as equality with a listed id or image name. The column layout of `docker images` is not modelled.
- The listing commands are taken to succeed. In the source, their failure also reads as "not found".
- Outputs are given already trimmed, as `commandOutput` returns them.
- The state after a successful command is fixed. `docker run` and `start` leave the container running, `stop` and `kill` leave it stopped, `rm` removes it. The effect of `--rm`, of a non-detached container that exits, and of partial failures is not modelled.
- Containers.Container.Start: this and the other probing lifecycle methods require the cache to be empty, the container's true id, or (for an absent container) what the id query printed. A cache holding some other container's id is not covered.
- Containers.Container.GetId: an inspection whose process fails is not a separate case of its own. Its output is parsed like any other, because the source checks a variable that is never set.
- Containers.Runtime.InspectOutput: the id query of an existing container is taken to succeed and to print that container's id. A failing `docker inspect` of an existing container, whose error text the source would cache as the id, is not modelled. The swallowed error is reached only for names that are not containers (`missingOutput`).
- Go's `int` width for `CpuShares` is not modelled. The value is only compared with zero and printed.
