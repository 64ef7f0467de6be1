/**
 * How `start` turns merged options into the process it spawns: JVM flags,
 * the `-jar`/`-port` pair and the emulator flags, launched either with
 * `java` in the install folder or with `docker run`.
 */
module Launch {
  import opened Js
  import opened CommandLine
  import opened Options

  /**
   * Facts about the host that the builder reads but does not decide: the jar
   * file name shipped in the archive and `path.resolve`.
   */
  datatype Platform = Platform(jarFilename: string, resolve: string -> string)

  /** The emulator settings `start` derives, applying JavaScript truthiness. */
  function Settings(o: StartOptions): EmulatorSettings {
    EmulatorSettings(
      dbPath := OrElse(o.dbPath, ""),
      sharedDb := o.sharedDb,
      cors := o.cors,
      delayTransientStatuses := o.delayTransientStatuses,
      optimizeDbBeforeStartup := o.optimizeDbBeforeStartup && TruthyStr(o.dbPath),
      help := o.help)
  }

  /** `resolve(install_path ?? installPath)`: the alias wins whenever it is defined, even if empty. */
  function InstallDir(o: StartOptions, platform: Platform): string {
    platform.resolve(if o.install_path.Some? then o.install_path.value else o.installPath)
  }

  function JvmArgs(o: StartOptions, platform: Platform): seq<string> {
    HeapArgs(o.heapInitial, o.heapMax) + [LibraryPathArg(InstallDir(o, platform))]
  }

  /** The jar/port pair followed by the emulator flags. */
  function LaunchFlags(o: StartOptions, platform: Platform): seq<Flag> {
    JarAndPort(platform.jarFilename, o.port) + EmulatorFlags(Settings(o))
  }

  /** The argument list before the launch flags: `docker run ...` or the JVM flags. */
  function Prefix(o: StartOptions, platform: Platform): seq<string> {
    if o.docker then DockerRunArgs(NatToString(o.port), o.dockerImage) else JvmArgs(o, platform)
  }

  /** The process `start` spawns for the merged options `o`. */
  function CommandFor(o: StartOptions, platform: Platform): Command {
    var args := Prefix(o, platform) + Render(LaunchFlags(o, platform));
    if o.docker then Command(o.dockerPath, args, None)
    else Command("java", args, Some(InstallDir(o, platform)))
  }

  /** The `dynamoDbArgs` pushes of `start`, one conditional at a time. */
  method PushEmulatorArgs(o: StartOptions) returns (dynamoDbArgs: seq<string>)
    ensures dynamoDbArgs == Render(EmulatorFlags(Settings(o)))
  {
    ghost var s := Settings(o);
    dynamoDbArgs := [];
    if TruthyStr(o.dbPath) {
      dynamoDbArgs := dynamoDbArgs + ["-dbPath", o.dbPath.value];
    } else {
      dynamoDbArgs := dynamoDbArgs + ["-inMemory"];
    }
    assert dynamoDbArgs == SlotArgs(s, 0);
    if o.sharedDb {
      dynamoDbArgs := dynamoDbArgs + ["-sharedDb"];
    }
    assert dynamoDbArgs == SlotArgs(s, 0) + SlotArgs(s, 1);
    if o.cors != "" {
      dynamoDbArgs := dynamoDbArgs + ["-cors", o.cors];
    }
    assert dynamoDbArgs == SlotArgs(s, 0) + SlotArgs(s, 1) + SlotArgs(s, 2);
    if o.delayTransientStatuses {
      dynamoDbArgs := dynamoDbArgs + ["-delayTransientStatuses"];
    }
    assert dynamoDbArgs == SlotArgs(s, 0) + SlotArgs(s, 1) + SlotArgs(s, 2) + SlotArgs(s, 3);
    if o.optimizeDbBeforeStartup && TruthyStr(o.dbPath) {
      dynamoDbArgs := dynamoDbArgs + ["-optimizeDbBeforeStartup"];
    }
    assert dynamoDbArgs == SlotArgs(s, 0) + SlotArgs(s, 1) + SlotArgs(s, 2) + SlotArgs(s, 3) + SlotArgs(s, 4);
    if o.help {
      dynamoDbArgs := dynamoDbArgs + ["-help"];
    }
    assert dynamoDbArgs == SlotArgs(s, 0) + SlotArgs(s, 1) + SlotArgs(s, 2) + SlotArgs(s, 3) + SlotArgs(s, 4) + SlotArgs(s, 5);
    RenderEmulatorFlags(s);
  }

  /** The argument building of `start`: JVM flags, then the emulator flags, then the spawn arguments. */
  method BuildCommand(o: StartOptions, platform: Platform) returns (cmd: Command)
    ensures cmd == CommandFor(o, platform)
  {
    var jvmArgs: seq<string> := [];
    if TruthyStr(o.heapInitial) {
      jvmArgs := jvmArgs + ["-Xms" + o.heapInitial.value];
    }
    if TruthyStr(o.heapMax) {
      jvmArgs := jvmArgs + ["-Xmx" + o.heapMax.value];
    }
    assert jvmArgs == HeapArgs(o.heapInitial, o.heapMax);
    var dynamoDbArgs := PushEmulatorArgs(o);
    var port := NatToString(o.port);
    var commonArgs := ["-jar", platform.jarFilename, "-port", port];
    var dockerArgs := ["run", "-d", "-p", port + ":" + port, o.dockerImage];
    var installPath := platform.resolve(if o.install_path.Some? then o.install_path.value else o.installPath);
    jvmArgs := jvmArgs + ["-Djava.library.path=" + installPath + "/DynamoDBLocal_lib"];

    assert installPath == InstallDir(o, platform);
    assert jvmArgs == JvmArgs(o, platform);
    RenderLaunchFlags(o, platform);
    ghost var launch := Render(LaunchFlags(o, platform));
    assert commonArgs + dynamoDbArgs == launch;
    if o.docker {
      assert dockerArgs == Prefix(o, platform);
      cmd := Command(o.dockerPath, dockerArgs + (commonArgs + dynamoDbArgs), None);
      assert cmd.args == Prefix(o, platform) + launch;
    } else {
      assert jvmArgs == Prefix(o, platform);
      cmd := Command("java", jvmArgs + (commonArgs + dynamoDbArgs), Some(installPath));
      assert cmd.args == Prefix(o, platform) + launch;
    }
  }

  lemma RenderLaunchFlags(o: StartOptions, platform: Platform)
    ensures Render(LaunchFlags(o, platform)) ==
      ["-jar", platform.jarFilename, "-port", NatToString(o.port)] + Render(EmulatorFlags(Settings(o)))
  {
    RenderAppend(JarAndPort(platform.jarFilename, o.port), EmulatorFlags(Settings(o)));
  }

  /**
   * The shape of the spawned command. In docker mode the executable is
   * `dockerPath`, there is no working directory, and after the five
   * `run -d -p P:P image` arguments the rest reads back as exactly
   * `-jar`, `-port` and the emulator flags, so no JVM flag is passed.
   * Otherwise the executable is `java`, the working directory is the install
   * folder, and the JVM flags come first.
   */
  lemma CommandShape(o: StartOptions, platform: Platform)
    ensures var cmd, k := CommandFor(o, platform), |Prefix(o, platform)|;
      && k <= |cmd.args|
      && Parse(cmd.args[k..]) == Some(LaunchFlags(o, platform))
      && (o.docker ==>
            && cmd.executable == o.dockerPath && cmd.cwd == None && k == 5
            && cmd.args[..k] == ["run", "-d", "-p", NatToString(o.port) + ":" + NatToString(o.port), o.dockerImage])
      && (!o.docker ==>
            && cmd.executable == "java" && cmd.cwd == Some(InstallDir(o, platform))
            && cmd.args[..k] == JvmArgs(o, platform))
  {
    var cmd, k := CommandFor(o, platform), |Prefix(o, platform)|;
    EmulatorFlagsRanked(Settings(o));
    var fs := LaunchFlags(o, platform);
    assert forall i :: 2 <= i < |fs| ==> fs[i] in EmulatorFlags(Settings(o));
    ParseRender(fs);
    assert cmd.args[k..] == Render(fs);
  }

  /**
   * The JVM flags: `-Xms` and `-Xmx` only when given, in that order, then
   * exactly one library-path flag naming `<installDir>/DynamoDBLocal_lib`,
   * where the deprecated `install_path` overrides `installPath` whenever it
   * is defined.
   */
  lemma JvmArgsShape(o: StartOptions, platform: Platform)
    ensures var jvm := JvmArgs(o, platform);
      && |jvm| == (if TruthyStr(o.heapInitial) then 1 else 0) + (if TruthyStr(o.heapMax) then 1 else 0) + 1
      && jvm[|jvm| - 1] == LibraryPathArg(InstallDir(o, platform))
      && (TruthyStr(o.heapInitial) ==> jvm[0] == "-Xms" + o.heapInitial.value)
      && (TruthyStr(o.heapMax) ==> jvm[|jvm| - 2] == "-Xmx" + o.heapMax.value)
    ensures o.install_path.Some? ==> InstallDir(o, platform) == platform.resolve(o.install_path.value)
    ensures o.install_path.None? ==> InstallDir(o, platform) == platform.resolve(o.installPath)
  {
  }

  /**
   * `-dbPath <p>` when a non-empty `dbPath` is given and `-inMemory`
   * otherwise, never both; the `inMemory` option plays no part.
   */
  lemma StorageFlag(o: StartOptions)
    ensures var fs := EmulatorFlags(Settings(o));
      && (TruthyStr(o.dbPath) ==> Valued(DbPath, o.dbPath.value) in fs && Switch(InMemory) !in fs)
      && (!TruthyStr(o.dbPath) ==> Switch(InMemory) in fs && forall f :: f in fs ==> f.name != DbPath)
  {
    var s := Settings(o);
    EmulatorFlagsStorage(s);
    SlotRank(s, 0);
    InSlotOfRank(s, Valued(DbPath, s.dbPath));
    forall f | f in EmulatorFlags(s) && f.name == DbPath
      ensures s.dbPath != ""
    {
      EmulatorFlagsRanked(s);
      InSlotOfRank(s, f);
    }
  }

  /** `-optimizeDbBeforeStartup` appears exactly when the option is on and a non-empty `dbPath` is given. */
  lemma OptimizeNeedsDbPath(o: StartOptions)
    ensures Switch(OptimizeDbBeforeStartup) in EmulatorFlags(Settings(o)) <==>
      o.optimizeDbBeforeStartup && TruthyStr(o.dbPath)
  {
    EmulatorFlagsSwitches(Settings(o));
  }

  /** The `inMemory` option never changes the spawned command (a conflict with `dbPath` only warns). */
  lemma InMemoryIgnored(o: StartOptions, b: bool, platform: Platform)
    ensures CommandFor(o.(inMemory := b), platform) == CommandFor(o, platform)
  {
  }

  /** The emulator is told to listen on `options.port`: the `-port` value reads back as the port. */
  lemma PortArgument(o: StartOptions, platform: Platform)
    ensures var cmd, k := CommandFor(o, platform), |Prefix(o, platform)|;
      && k + 4 <= |cmd.args|
      && cmd.args[k] == "-jar" && cmd.args[k + 1] == platform.jarFilename
      && cmd.args[k + 2] == "-port"
      && cmd.args[k + 3] == NatToString(o.port)
      && ParseNat(NatToString(o.port)) == o.port
  {
    var fs := LaunchFlags(o, platform);
    RenderAppend(JarAndPort(platform.jarFilename, o.port), EmulatorFlags(Settings(o)));
    ParseNatToString(o.port);
  }

  /** The emulator settings of the defaults: in memory, shared, cors `*`, delayed statuses, nothing else. */
  lemma DefaultSettings()
    ensures Settings(Defaults) == EmulatorSettings("", true, "*", true, false, false)
  {
  }

  lemma DefaultEmulatorArgs()
    ensures Render(EmulatorFlags(EmulatorSettings("", true, "*", true, false, false))) ==
      ["-inMemory", "-sharedDb", "-cors", "*", "-delayTransientStatuses"]
  {
    RenderEmulatorFlags(EmulatorSettings("", true, "*", true, false, false));
  }

  lemma DefaultPortText()
    ensures NatToString(8000) == "8000"
  {
    assert NatToString(8) == "8";
    assert NatToString(80) == "80";
    assert NatToString(800) == "800";
  }

  /** The launch arguments of the defaults. */
  lemma DefaultLaunchArgs(platform: Platform)
    ensures Render(LaunchFlags(Defaults, platform)) ==
      ["-jar", platform.jarFilename, "-port", "8000",
       "-inMemory", "-sharedDb", "-cors", "*", "-delayTransientStatuses"]
  {
    DefaultSettings();
    DefaultEmulatorArgs();
    DefaultPortText();
    RenderLaunchFlags(Defaults, platform);
  }

  /**
   * With no options, `start` runs `java` in the resolved default folder with
   * `-inMemory -sharedDb -cors * -delayTransientStatuses`, and without
   * `-optimizeDbBeforeStartup` although that option defaults to true.
   */
  lemma DefaultCommand(platform: Platform)
    ensures var dir := platform.resolve(".dynamodb");
      CommandFor(Merge(NoOptions), platform) ==
        Command("java",
                [LibraryPathArg(dir)] +
                ["-jar", platform.jarFilename, "-port", "8000",
                 "-inMemory", "-sharedDb", "-cors", "*", "-delayTransientStatuses"],
                Some(dir))
  {
    MergeNothing();
    DefaultsCommand(platform);
  }

  lemma DefaultsCommand(platform: Platform)
    ensures var dir := platform.resolve(".dynamodb");
      CommandFor(Defaults, platform) ==
        Command("java",
                [LibraryPathArg(dir)] +
                ["-jar", platform.jarFilename, "-port", "8000",
                 "-inMemory", "-sharedDb", "-cors", "*", "-delayTransientStatuses"],
                Some(dir))
  {
    DefaultLaunchArgs(platform);
    DefaultPrefix(platform);
  }

  /** Without docker or heap flags, only the library-path flag precedes the launch flags. */
  lemma DefaultPrefix(platform: Platform)
    ensures InstallDir(Defaults, platform) == platform.resolve(".dynamodb")
    ensures Prefix(Defaults, platform) == [LibraryPathArg(platform.resolve(".dynamodb"))]
  {
  }
}
