# dynamodb-localhost: launch commands and the instance registry

This project models the two deterministic parts of dynamodb-localhost, a
library that installs DynamoDB Local (a Java emulator of Amazon DynamoDB)
and runs it for tests:

- **Command-line construction.** `start` spreads the caller's options over
  a defaults record. It then builds the process to spawn: JVM heap flags,
  a library-path flag, `-jar <jar> -port <port>` and the emulator flags.
  The command runs either as `java` in the install folder or as
  `docker run`. The legacy `starter.start` does the same job from loosely
  typed options and a configuration record, with slightly different rules.
- **The instance registry.** A process-wide map from port to the options
  an instance was started with and its child process. `start` registers an
  instance, `stop` kills it and removes it, and `restart` does a lookup,
  then a stop, then a start with the stored options.

Layout, one module per file:

- `js.dfy` (`Js`): optional properties, JavaScript truthiness for strings,
  numbers and booleans, and `String(n)` for a port together with its
  inverse.
- `commandline.dfy` (`CommandLine`): the spawned `Command`. Emulator
  options are a list of `Flag`s rendered into argument strings, with a
  parser that reads them back. The six conditional emulator pushes both
  builders share are also here, with their fixed order.
- `options.dfy` (`Options`): `StartOptions`, the defaults and the spread
  merge.
- `launch.dfy` (`Launch`): the builder of `src/start.ts`. It has a
  specification function `CommandFor` and the imperative `BuildCommand`,
  which pushes step by step as the source does.
- `starter.dfy` (`Starter`): the legacy builder of `dynamodb/starter.js`,
  written the same way.
- `instances.dfy` (`Instances`): the `Registry` class, holding the map plus
  ghost logs of spawned commands and sent kills.
- `lifecycle.dfy` (`Lifecycle`): `Start`, `Stop` and `Restart` on a
  registry, each proved equal to a step function on the map. Lemmas relate
  the steps to each other.

Modelling choices:

- A string option counts as absent when it is the empty string. A number
  counts as absent when it is 0. This is JavaScript truthiness, written as
  the predicates `TruthyStr`, `TruthyNat` and `TruthyBool`.
- `install_path ?? installPath` is not truthiness: an `install_path`
  defined as `""` still wins.
- `path.resolve` and the jar file name are parameters of the model
  (`Launch.Platform`). The module that defines the jar name and the default
  install path, `src/constants.ts`, is not part of this model. The default
  install path is taken as `.dynamodb`, as the option's documentation
  gives it at src/start.ts:50.
- Spawning is an oracle. Each call that reaches the spawn receives
  `Some(handle)` when the child got a pid and `None` when it did not, which
  throws. A handle it returns is new: no record holds it and no kill was
  sent to it (`Registry.Unused`), as every `spawn` creates a new child.
  The registry invariant keeps one process per port and no killed process
  registered.
- `restart` awaits neither `stop` nor `start`. `restart` settles as `Done`
  once the port was found. How its inner `start` settles is returned
  separately, because a failure there becomes an unhandled rejection
  rather than a failure of `restart`.

## Model

| member | source | states |
|---|---|---|
| Js.NatToString | src/start.ts:117 | `String(port)` is non-empty, all decimal digits, and has no leading zero |
| Js.ParseNatToString | src/start.ts:117 | reading the decimal text of a port back gives the port |
| Js.NatToStringInjective | src/start.ts:117 | different ports never produce the same `-port` argument |
| CommandLine.ParseRender | src/start.ts:96-117 | the model's reader, applied to a rendered list of well-formed flags, gives back exactly those flags |
| CommandLine.RenderParse | src/start.ts:96-117 | the reverse: a list the model's reader accepts is exactly the rendering of the well-formed flags it returns, so stating a command's flags fixes its argument strings |
| CommandLine.EmulatorFlagsOrdered | src/start.ts:96-115 | emulator flags come in the fixed order dbPath/inMemory, sharedDb, cors, delayTransientStatuses, optimizeDbBeforeStartup, help; each name appears at most once; `-dbPath` and `-inMemory` never appear together |
| CommandLine.EmulatorFlagsStorage | src/start.ts:96-100 | `-dbPath p` appears iff a path is given; `-inMemory` appears iff none is |
| CommandLine.EmulatorFlagsSwitches | src/start.ts:101-115 | each of `-sharedDb`, `-cors v`, `-delayTransientStatuses`, `-optimizeDbBeforeStartup`, `-help` appears iff its setting is on (for cors: non-empty) |
| CommandLine.RenderEmulatorFlags | src/start.ts:96-115 | the rendered emulator flags are the six conditional pushes concatenated in source order |
| Options.Merge | src/start.ts:57-76 | each key the caller supplies wins; each missing key takes its default (8000, `*`, true, undefined, true, true, true, false, undefined, undefined, false, `docker`, `amazon/dynamodb-local`, `.dynamodb`, undefined) |
| Options.MergeComplete | src/start.ts:76 | spreading a complete options object over the defaults gives it back unchanged |
| Options.MergeIdempotent | src/start.ts:76 | merging already-merged options again is the identity |
| Options.MergeNothing | src/start.ts:57-76 | `start()` with no argument runs on exactly the defaults |
| Launch.PushEmulatorArgs | src/start.ts:96-115 | the step-by-step `dynamoDbArgs` pushes equal the rendered emulator flags of the merged options |
| Launch.BuildCommand | src/start.ts:86-127 | the step-by-step build of jvmArgs, commonArgs, dockerArgs and the install path yields exactly `CommandFor(o)` |
| Launch.RenderLaunchFlags | src/start.ts:117 | the launch arguments are `-jar jar -port String(port)` followed by the emulator arguments |
| Launch.CommandShape | src/start.ts:117-127 | docker mode: executable `dockerPath`, no cwd, five `run -d -p P:P image` arguments, then exactly jar/port plus emulator flags, with no JVM flag; otherwise: `java` in the install folder with the JVM flags first |
| Launch.JvmArgsShape | src/start.ts:90-123 | JVM args are `-Xms h` and `-Xmx m` only when given, in that order, then exactly one trailing library-path flag; a defined `install_path` overrides `installPath` |
| Launch.StorageFlag | src/start.ts:96-100 | `-dbPath p` without `-inMemory` when dbPath is non-empty; otherwise `-inMemory` and no dbPath flag |
| Launch.OptimizeNeedsDbPath | src/start.ts:110-112 | `-optimizeDbBeforeStartup` appears iff the option is on and a non-empty dbPath is given |
| Launch.InMemoryIgnored | src/start.ts:78-80 | the `inMemory` option never changes the spawned command; a conflict only warns |
| Launch.PortArgument | src/start.ts:117 | the argument after `-port` is `String(options.port)`, and it reads back as the port |
| Launch.DefaultCommand | src/start.ts:57-127 | with no options: `java <libpath> -jar jar -port 8000 -inMemory -sharedDb -cors * -delayTransientStatuses` in the resolved `.dynamodb` folder |
| Starter.PushHeapArgs | dynamodb/starter.js:15-20 | the `-Xms`/`-Xmx` pushes give the heap flags, each only when truthy |
| Starter.PushAdditionalArgs | dynamodb/starter.js:21-40 | the `additionalArgs` pushes equal the rendered emulator flags of the legacy settings |
| Starter.ChooseLauncher | dynamodb/starter.js:46-53 | docker: `DOCKER_PATH` or `docker`, `preArgs` replaced by `run -d -p P:P image`, no cwd; otherwise `java`, heap flags then the library path, cwd the install dir |
| Starter.BuildLegacyCommand | dynamodb/starter.js:9-55 | the step-by-step build yields exactly `LegacyCommand`, with args `preArgs ++ [-jar, jar, -port, port] ++ additionalArgs` |
| Starter.Start | dynamodb/starter.js:7-73 | spawning no pid throws naming the executable; otherwise returns the child and the effective port |
| Starter.LegacyCommandShape | dynamodb/starter.js:42-55 | docker: executable `DOCKER_PATH` or `docker`, image `DOCKER_IMAGE` or `amazon/dynamodb-local`, heap flags dropped, no cwd; otherwise `java` in the install dir with the heap flags before the library path; the rest parses back to jar/port plus emulator flags |
| Starter.ReturnedPortIsUsed | dynamodb/starter.js:11-73 | the returned port is the one passed after `-port`; it is `options.port` unless that is missing or 0, when it is `config.start.port` |
| Starter.LegacyOptimizeFlag | dynamodb/starter.js:21-37 | `-optimizeDbBeforeStartup` appears iff the option is truthy, with no dbPath requirement; `-dbPath p` or `-inMemory` is chosen by dbPath |
| Starter.BuildersDiffer | dynamodb/starter.js:35-37 | for the same request the two builders emit identical emulator flags iff it does not ask for optimize without a dbPath; when they differ, only the legacy list has `-optimizeDbBeforeStartup` |
| Instances.OneRecordPerPort | src/instances.ts:9 | no two records in the registry claim the same port |
| Instances.Registry.constructor | src/instances.ts:9 | the registry starts empty, with nothing spawned or killed |
| Lifecycle.StartStep | src/start.ts:82-129 | a registered port is rejected before any spawn, leaving the map unchanged; otherwise the command is spawned once; success registers `{merged options, child}` under the port; a failed spawn throws `SpawnFailed` naming the executable and registers nothing; existing records are never altered; a fresh handle keeps one process per port |
| Lifecycle.StopStep | src/stop.ts:3-11 | an unknown port throws with the map unchanged and nothing killed; otherwise exactly that record's process gets SIGKILL and only that key is removed; one process per port is kept |
| Lifecycle.RestartStep | src/restart.ts:7-16 | an unknown port throws before anything is stopped or started; otherwise restart completes with one kill and at most one spawn, and the map keeps every record under its own port |
| Lifecycle.Start | src/start.ts:75-131 | given a new child handle, the registry changes exactly as `StartStep` says, the spawn is logged, and the invariant (records under their own port, one process per port, none killed) is kept |
| Lifecycle.Stop | src/stop.ts:3-11 | the registry changes exactly as `StopStep` says, and the kill is logged; no process still registered has ever been killed |
| Lifecycle.StopSparesOthers | src/stop.ts:9-10 | `stop(p)` sends SIGKILL to `p`'s process only: every record left holds a different process |
| Lifecycle.Restart | src/restart.ts:7-16 | the registry changes exactly as `RestartStep` says, by calling `Stop` and then `Start` with the stored options |
| Lifecycle.StartAfterStop | src/stop.ts:10 | a start on a registered port is rejected; after `stop` on it, the same start succeeds and registers the new child |
| Lifecycle.RestartKeepsOptions | src/restart.ts:10-15 | restart kills exactly the old process, spawns the command the stored options give, and re-registers the port with the same options and the new child; nothing else changes |
| Lifecycle.RestartLosesInstance | src/restart.ts:14-15 | when the inner start gets no pid, restart still completes, but the port is left unregistered |
| Lifecycle.RestartTwice | src/restart.ts:10-15 | two successful restarts leave the stored options untouched |
| Lifecycle.StartStopStart | src/start.ts:82-129 | on a fresh registry: start, a duplicate start (rejected), stop, then start again all settle as expected |
| Lifecycle.NothingToStop | src/stop.ts:4-7 | on a fresh registry, stop and restart on any port throw and register nothing |

## Left out

- Installing, downloading, extracting and removing DynamoDB Local (src/install.ts, src/remove.ts, dynamodb/installer.js, the `dynamodb/utils.js` directory helpers) are network and filesystem I/O.
- The readiness wait (`waitFor` and the HTTP probe, src/start.ts:131, 158-175) is an unbounded asynchronous poll over the network. `Lifecycle.Start` ends where that wait begins, after `instances.set`.
- The `deprecation` warnings (both inMemory and dbPath set, `install_path` used, `restart` called) and the child's `close` logging are console output.
- The child's `error` handler (src/start.ts:145-147, dynamodb/starter.js:66-68) and a child that exits on its own are not modelled. No event removes a record except `stop`.
- The real `spawn`, `kill` and the environment passed to the child are I/O. Spawn is an oracle answer, and kills are a ghost log.
- Interleavings of concurrent asynchronous calls are out of scope; each operation runs to completion in the model.
- `src/constants.ts` is not part of this model. The jar file name is a parameter, and the default install path is `.dynamodb`.
- A key present in the caller's options but holding `undefined`, for keys not typed `string | undefined`, is not modelled. The spread would copy that `undefined`.
- Js.NatToString: a port is a JavaScript number, taken in the model as a whole number (`Options.StartOptions.port` and the legacy port are `nat`). Negative or fractional ports are not modelled, and neither are numbers of 1e21 or more, whose `String` is exponent notation rather than plain digits.
- How DynamoDB Local and `java` themselves read the argument list is not part of the source. `CommandLine.Parse` is the model's own reader, the inverse of `CommandLine.Render`. It shows which strings are passed, not how the emulator interprets a value such as a cors list beginning with `-`.
- Legacy option types: each legacy option has one JavaScript type (port a number, the switches booleans, paths strings). Other values are reduced to their truthiness, and the port is a whole number. A string port, which `options.port || config.start.port` would also pass through, is not modelled.
- The folder of the legacy launcher's own file, `path.dirname(__filename)`, is the parameter `Env.moduleDir`.
- Lifecycle.RestartStep: its own contract states the number of spawns, not which command. The exact command and the re-registered record are stated, under the registry invariant, by `Lifecycle.RestartKeepsOptions`.
