/**
 * The legacy launcher: `starter.start(options, config)` builds the same
 * kind of command as `start` from loosely typed options, a configuration
 * record and two environment variables, spawns it and returns the child
 * with the port it used.
 */
module Starter {
  import opened Js
  import opened CommandLine
  import Options
  import Launch

  /** The caller's options; every key may be missing, and each is read by truthiness. */
  datatype LegacyOptions = LegacyOptions(
    port: Option<nat>,
    install_path: Option<string>,
    heapInitial: Option<string>,
    heapMax: Option<string>,
    dbPath: Option<string>,
    sharedDb: Option<bool>,
    cors: Option<string>,
    delayTransientStatuses: Option<bool>,
    optimizeDbBeforeStartup: Option<bool>,
    help: Option<bool>,
    docker: Option<bool>)

  /** `config.setup.jar`, `config.setup.install_path` and `config.start.port`. */
  datatype Config = Config(setupJar: string, setupInstallPath: string, startPort: nat)

  /**
   * The environment variables `DOCKER_PATH` and `DOCKER_IMAGE`, and the
   * folder holding the launcher's own source file, against which relative
   * setup paths are taken.
   */
  datatype Env = Env(dockerPath: Option<string>, dockerImage: Option<string>, moduleDir: string)

  /** The returned `{ proc, port }`. */
  datatype Started = Started(proc: Handle, port: nat)

  /** Either the started child, or the error thrown when spawn yields no pid. */
  datatype StartResult = Running(started: Started) | Unable(executable: string)

  /** `options.port || config.start.port`: a missing port or port 0 falls back to the configuration. */
  function EffectivePort(options: LegacyOptions, config: Config): nat {
    if TruthyNat(options.port) then options.port.value else config.startPort
  }

  /** `utils.absPath`: a path relative to the launcher's folder. */
  function AbsPath(env: Env, relPath: string): string {
    env.moduleDir + "/" + relPath
  }

  /** `options.install_path || utils.absPath(config.setup.install_path)`. */
  function DbDir(options: LegacyOptions, config: Config, env: Env): string {
    OrElse(options.install_path, AbsPath(env, config.setupInstallPath))
  }

  /** The emulator settings the launcher derives; `-optimizeDbBeforeStartup` needs no `dbPath` here. */
  function LegacySettings(options: LegacyOptions): EmulatorSettings {
    EmulatorSettings(
      dbPath := OrElse(options.dbPath, ""),
      sharedDb := TruthyBool(options.sharedDb),
      cors := OrElse(options.cors, ""),
      delayTransientStatuses := TruthyBool(options.delayTransientStatuses),
      optimizeDbBeforeStartup := TruthyBool(options.optimizeDbBeforeStartup),
      help := TruthyBool(options.help))
  }

  function LegacyFlags(options: LegacyOptions, config: Config): seq<Flag> {
    JarAndPort(config.setupJar, EffectivePort(options, config)) + EmulatorFlags(LegacySettings(options))
  }

  /** The final `preArgs`: replaced wholesale by `docker run ...` in docker mode. */
  function PreArgs(options: LegacyOptions, config: Config, env: Env): seq<string> {
    if TruthyBool(options.docker) then
      DockerRunArgs(NatToString(EffectivePort(options, config)), OrElse(env.dockerImage, "amazon/dynamodb-local"))
    else
      HeapArgs(options.heapInitial, options.heapMax) + [LibraryPathArg(DbDir(options, config, env))]
  }

  /** The process the launcher spawns. */
  function LegacyCommand(options: LegacyOptions, config: Config, env: Env): Command {
    var args := PreArgs(options, config, env) + Render(LegacyFlags(options, config));
    if TruthyBool(options.docker) then Command(OrElse(env.dockerPath, "docker"), args, None)
    else Command("java", args, Some(DbDir(options, config, env)))
  }

  /** The `additionalArgs` pushes, one conditional at a time. */
  method PushAdditionalArgs(options: LegacyOptions) returns (additionalArgs: seq<string>)
    ensures additionalArgs == Render(EmulatorFlags(LegacySettings(options)))
  {
    ghost var s := LegacySettings(options);
    additionalArgs := [];
    if TruthyStr(options.dbPath) {
      additionalArgs := additionalArgs + ["-dbPath", options.dbPath.value];
    } else {
      additionalArgs := additionalArgs + ["-inMemory"];
    }
    assert additionalArgs == SlotArgs(s, 0);
    if TruthyBool(options.sharedDb) {
      additionalArgs := additionalArgs + ["-sharedDb"];
    }
    assert additionalArgs == SlotArgs(s, 0) + SlotArgs(s, 1);
    if TruthyStr(options.cors) {
      additionalArgs := additionalArgs + ["-cors", options.cors.value];
    }
    assert additionalArgs == SlotArgs(s, 0) + SlotArgs(s, 1) + SlotArgs(s, 2);
    if TruthyBool(options.delayTransientStatuses) {
      additionalArgs := additionalArgs + ["-delayTransientStatuses"];
    }
    assert additionalArgs == SlotArgs(s, 0) + SlotArgs(s, 1) + SlotArgs(s, 2) + SlotArgs(s, 3);
    if TruthyBool(options.optimizeDbBeforeStartup) {
      additionalArgs := additionalArgs + ["-optimizeDbBeforeStartup"];
    }
    assert additionalArgs == SlotArgs(s, 0) + SlotArgs(s, 1) + SlotArgs(s, 2) + SlotArgs(s, 3) + SlotArgs(s, 4);
    if TruthyBool(options.help) {
      additionalArgs := additionalArgs + ["-help"];
    }
    assert additionalArgs == SlotArgs(s, 0) + SlotArgs(s, 1) + SlotArgs(s, 2) + SlotArgs(s, 3) + SlotArgs(s, 4) + SlotArgs(s, 5);
    RenderEmulatorFlags(s);
  }

  /** The `-Xms`/`-Xmx` pushes onto `preArgs`. */
  method PushHeapArgs(options: LegacyOptions) returns (preArgs: seq<string>)
    ensures preArgs == HeapArgs(options.heapInitial, options.heapMax)
  {
    preArgs := [];
    if TruthyStr(options.heapInitial) {
      preArgs := preArgs + ["-Xms" + options.heapInitial.value];
    }
    if TruthyStr(options.heapMax) {
      preArgs := preArgs + ["-Xmx" + options.heapMax.value];
    }
  }

  /**
   * The docker-or-java choice: docker replaces `preArgs` and sets no working
   * folder; java appends the library path to the heap flags and runs in
   * the install folder.
   */
  method ChooseLauncher(options: LegacyOptions, config: Config, env: Env, heapArgs: seq<string>)
    returns (executable: string, preArgs: seq<string>, cwd: Option<string>)
    requires heapArgs == HeapArgs(options.heapInitial, options.heapMax)
    ensures preArgs == PreArgs(options, config, env)
    ensures executable == LegacyCommand(options, config, env).executable
    ensures cwd == LegacyCommand(options, config, env).cwd
  {
    var port := EffectivePort(options, config);
    var dbDir := OrElse(options.install_path, AbsPath(env, config.setupInstallPath));
    if TruthyBool(options.docker) {
      executable := OrElse(env.dockerPath, "docker");
      preArgs := ["run", "-d", "-p", NatToString(port) + ":" + NatToString(port),
                  OrElse(env.dockerImage, "amazon/dynamodb-local")];
      cwd := None;
    } else {
      executable := "java";
      preArgs := heapArgs + ["-Djava.library.path=" + dbDir + "/DynamoDBLocal_lib"];
      cwd := Some(dbDir);
    }
  }

  /** The first half of `starter.start`: the executable, arguments and folder it spawns. */
  method BuildLegacyCommand(options: LegacyOptions, config: Config, env: Env) returns (cmd: Command)
    ensures cmd == LegacyCommand(options, config, env)
  {
    var port := EffectivePort(options, config);
    var jar := config.setupJar;
    var heapArgs := PushHeapArgs(options);
    var additionalArgs := PushAdditionalArgs(options);
    var args := ["-jar", jar, "-port", NatToString(port)];
    var executable, preArgs, cwd := ChooseLauncher(options, config, env, heapArgs);
    args := preArgs + (args + additionalArgs);
    ghost var emulator := EmulatorFlags(LegacySettings(options));
    RenderAppend(JarAndPort(jar, port), emulator);
    assert Render(JarAndPort(jar, port)) == ["-jar", jar, "-port", NatToString(port)];
    assert args == PreArgs(options, config, env) + Render(LegacyFlags(options, config));
    cmd := Command(executable, args, cwd);
  }

  /**
   * `starter.start`: builds the command, spawns it, throws when no pid comes
   * back, and otherwise returns the child together with the port it was
   * told to listen on.
   */
  method Start(options: LegacyOptions, config: Config, env: Env, spawn: Command -> Option<Handle>)
    returns (r: StartResult)
    ensures var cmd := LegacyCommand(options, config, env);
      && (spawn(cmd).None? ==> r == Unable(cmd.executable))
      && (spawn(cmd).Some? ==> r == Running(Started(spawn(cmd).value, EffectivePort(options, config))))
  {
    var cmd := BuildLegacyCommand(options, config, env);
    var child := spawn(cmd);
    if child.None? {
      r := Unable(cmd.executable);
    } else {
      r := Running(Started(child.value, EffectivePort(options, config)));
    }
  }

  /**
   * The shape of the legacy command. In docker mode the executable is
   * `DOCKER_PATH` or `docker`, the image is `DOCKER_IMAGE` or
   * `amazon/dynamodb-local`, there is no working directory, and after the
   * five `docker run` arguments the rest reads back as exactly `-jar`,
   * `-port` and the emulator flags, so the heap flags are dropped. Otherwise
   * the executable is `java` run in the install folder, and the heap flags
   * come first with the library-path flag after them.
   */
  lemma LegacyCommandShape(options: LegacyOptions, config: Config, env: Env)
    ensures var cmd, k := LegacyCommand(options, config, env), |PreArgs(options, config, env)|;
      var port := NatToString(EffectivePort(options, config));
      && k <= |cmd.args|
      && Parse(cmd.args[k..]) == Some(LegacyFlags(options, config))
      && (TruthyBool(options.docker) ==>
            && cmd.executable == (if TruthyStr(env.dockerPath) then env.dockerPath.value else "docker")
            && cmd.cwd == None && k == 5
            && cmd.args[..k] == ["run", "-d", "-p", port + ":" + port,
                                 if TruthyStr(env.dockerImage) then env.dockerImage.value else "amazon/dynamodb-local"])
      && (!TruthyBool(options.docker) ==>
            && cmd.executable == "java" && cmd.cwd == Some(DbDir(options, config, env))
            && cmd.args[..k] ==
                 HeapArgs(options.heapInitial, options.heapMax) + [LibraryPathArg(DbDir(options, config, env))])
  {
    var cmd, k := LegacyCommand(options, config, env), |PreArgs(options, config, env)|;
    EmulatorFlagsRanked(LegacySettings(options));
    var fs := LegacyFlags(options, config);
    assert forall i :: 2 <= i < |fs| ==> fs[i] in EmulatorFlags(LegacySettings(options));
    ParseRender(fs);
    assert cmd.args[k..] == Render(fs);
  }

  /**
   * The port the launcher returns is the one it passed after `-port`, and
   * it is `options.port` unless that is missing or 0, in which case it is
   * `config.start.port`.
   */
  lemma ReturnedPortIsUsed(options: LegacyOptions, config: Config, env: Env)
    ensures var cmd, k := LegacyCommand(options, config, env), |PreArgs(options, config, env)|;
      && k + 4 <= |cmd.args|
      && cmd.args[k] == "-jar" && cmd.args[k + 1] == config.setupJar && cmd.args[k + 2] == "-port"
      && cmd.args[k + 3] == NatToString(EffectivePort(options, config))
      && ParseNat(NatToString(EffectivePort(options, config))) == EffectivePort(options, config)
    ensures TruthyNat(options.port) ==> EffectivePort(options, config) == options.port.value
    ensures options.port == None || options.port == Some(0) ==> EffectivePort(options, config) == config.startPort
  {
    var port := EffectivePort(options, config);
    RenderAppend(JarAndPort(config.setupJar, port), EmulatorFlags(LegacySettings(options)));
    ParseNatToString(port);
  }

  /**
   * `-optimizeDbBeforeStartup` appears whenever the option is truthy, with or
   * without a database path; `-dbPath p` and `-inMemory` are still chosen by
   * `dbPath` alone.
   */
  lemma LegacyOptimizeFlag(options: LegacyOptions)
    ensures var fs := EmulatorFlags(LegacySettings(options));
      && (Switch(OptimizeDbBeforeStartup) in fs <==> TruthyBool(options.optimizeDbBeforeStartup))
      && (TruthyStr(options.dbPath) ==> Valued(DbPath, options.dbPath.value) in fs && Switch(InMemory) !in fs)
      && (!TruthyStr(options.dbPath) ==> Switch(InMemory) in fs)
  {
    var s := LegacySettings(options);
    EmulatorFlagsSwitches(s);
    EmulatorFlagsStorage(s);
  }

  /** The legacy options that ask for the same launch as the merged options `o`. */
  function AsLegacy(o: Options.StartOptions): LegacyOptions {
    LegacyOptions(
      port := Some(o.port),
      install_path := o.install_path,
      heapInitial := o.heapInitial,
      heapMax := o.heapMax,
      dbPath := o.dbPath,
      sharedDb := Some(o.sharedDb),
      cors := Some(o.cors),
      delayTransientStatuses := Some(o.delayTransientStatuses),
      optimizeDbBeforeStartup := Some(o.optimizeDbBeforeStartup),
      help := Some(o.help),
      docker := Some(o.docker))
  }

  /**
   * Where the two launchers part: for the same request they emit the same
   * emulator flags exactly when it does not ask for
   * `-optimizeDbBeforeStartup` without a database path; in that case only
   * the legacy launcher passes the flag.
   */
  lemma BuildersDiffer(o: Options.StartOptions)
    ensures var legacy, current := EmulatorFlags(LegacySettings(AsLegacy(o))), EmulatorFlags(Launch.Settings(o));
      && (legacy == current <==> !(o.optimizeDbBeforeStartup && !TruthyStr(o.dbPath)))
      && (legacy != current ==>
            Switch(OptimizeDbBeforeStartup) in legacy && Switch(OptimizeDbBeforeStartup) !in current)
  {
    var ls, cs := LegacySettings(AsLegacy(o)), Launch.Settings(o);
    EmulatorFlagsSwitches(ls);
    EmulatorFlagsSwitches(cs);
    if !(o.optimizeDbBeforeStartup && !TruthyStr(o.dbPath)) {
      assert ls == cs;
    }
  }
}
