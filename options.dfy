/**
 * The options of `start` and their defaults. A caller passes a partial
 * record; `start` spreads it over the defaults, so every key the caller
 * supplies wins and every other key keeps its default.
 */
module Options {
  import opened Js

  /**
   * The merged options. Keys typed `string | undefined` are `Option<string>`;
   * `install_path` is the deprecated alias of `installPath`.
   */
  datatype StartOptions = StartOptions(
    port: nat,
    cors: string,
    inMemory: bool,
    dbPath: Option<string>,
    sharedDb: bool,
    delayTransientStatuses: bool,
    optimizeDbBeforeStartup: bool,
    help: bool,
    heapInitial: Option<string>,
    heapMax: Option<string>,
    docker: bool,
    dockerPath: string,
    dockerImage: string,
    installPath: string,
    install_path: Option<string>)

  /**
   * The caller's options: `None` where a key is absent. For the keys typed
   * `string | undefined`, a present key may itself hold `undefined`, which
   * is `Some(None)`.
   */
  datatype PartialOptions = PartialOptions(
    port: Option<nat>,
    cors: Option<string>,
    inMemory: Option<bool>,
    dbPath: Option<Option<string>>,
    sharedDb: Option<bool>,
    delayTransientStatuses: Option<bool>,
    optimizeDbBeforeStartup: Option<bool>,
    help: Option<bool>,
    heapInitial: Option<Option<string>>,
    heapMax: Option<Option<string>>,
    docker: Option<bool>,
    dockerPath: Option<string>,
    dockerImage: Option<string>,
    installPath: Option<string>,
    install_path: Option<Option<string>>)

  /** The default install folder, as the option's documentation gives it. */
  const DefaultInstallPath: string := ".dynamodb"

  const Defaults: StartOptions := StartOptions(
    port := 8000,
    cors := "*",
    inMemory := true,
    dbPath := None,
    sharedDb := true,
    delayTransientStatuses := true,
    optimizeDbBeforeStartup := true,
    help := false,
    heapInitial := None,
    heapMax := None,
    docker := false,
    dockerPath := "docker",
    dockerImage := "amazon/dynamodb-local",
    installPath := DefaultInstallPath,
    install_path := None)

  /** `start()` called without an argument: no key is supplied. */
  const NoOptions: PartialOptions := PartialOptions(
    None, None, None, None, None, None, None, None, None, None, None, None, None, None, None)

  /** The value of one key after the spread: the caller's if supplied, else the default. */
  function Pick<T>(given: Option<T>, default: T): T {
    if given.Some? then given.value else default
  }

  /** `{ ...defaultOptions, ...customOptions }`. */
  function Merge(custom: PartialOptions): (o: StartOptions)
    ensures o.port == if custom.port.Some? then custom.port.value else 8000
    ensures o.cors == if custom.cors.Some? then custom.cors.value else "*"
    ensures o.inMemory == if custom.inMemory.Some? then custom.inMemory.value else true
    ensures o.dbPath == if custom.dbPath.Some? then custom.dbPath.value else None
    ensures o.sharedDb == if custom.sharedDb.Some? then custom.sharedDb.value else true
    ensures o.delayTransientStatuses ==
      if custom.delayTransientStatuses.Some? then custom.delayTransientStatuses.value else true
    ensures o.optimizeDbBeforeStartup ==
      if custom.optimizeDbBeforeStartup.Some? then custom.optimizeDbBeforeStartup.value else true
    ensures o.help == if custom.help.Some? then custom.help.value else false
    ensures o.heapInitial == if custom.heapInitial.Some? then custom.heapInitial.value else None
    ensures o.heapMax == if custom.heapMax.Some? then custom.heapMax.value else None
    ensures o.docker == if custom.docker.Some? then custom.docker.value else false
    ensures o.dockerPath == if custom.dockerPath.Some? then custom.dockerPath.value else "docker"
    ensures o.dockerImage ==
      if custom.dockerImage.Some? then custom.dockerImage.value else "amazon/dynamodb-local"
    ensures o.installPath == if custom.installPath.Some? then custom.installPath.value else ".dynamodb"
    ensures o.install_path == if custom.install_path.Some? then custom.install_path.value else None
  {
    StartOptions(
      Pick(custom.port, Defaults.port),
      Pick(custom.cors, Defaults.cors),
      Pick(custom.inMemory, Defaults.inMemory),
      Pick(custom.dbPath, Defaults.dbPath),
      Pick(custom.sharedDb, Defaults.sharedDb),
      Pick(custom.delayTransientStatuses, Defaults.delayTransientStatuses),
      Pick(custom.optimizeDbBeforeStartup, Defaults.optimizeDbBeforeStartup),
      Pick(custom.help, Defaults.help),
      Pick(custom.heapInitial, Defaults.heapInitial),
      Pick(custom.heapMax, Defaults.heapMax),
      Pick(custom.docker, Defaults.docker),
      Pick(custom.dockerPath, Defaults.dockerPath),
      Pick(custom.dockerImage, Defaults.dockerImage),
      Pick(custom.installPath, Defaults.installPath),
      Pick(custom.install_path, Defaults.install_path))
  }

  /** A merged options object passed back in as caller options: every key is present. */
  function ToPartial(o: StartOptions): (p: PartialOptions) {
    PartialOptions(
      Some(o.port), Some(o.cors), Some(o.inMemory), Some(o.dbPath), Some(o.sharedDb),
      Some(o.delayTransientStatuses), Some(o.optimizeDbBeforeStartup), Some(o.help),
      Some(o.heapInitial), Some(o.heapMax), Some(o.docker), Some(o.dockerPath),
      Some(o.dockerImage), Some(o.installPath), Some(o.install_path))
  }

  /** Merging a complete options object gives it back unchanged. */
  lemma MergeComplete(o: StartOptions)
    ensures Merge(ToPartial(o)) == o
  {
  }

  /** Merging an already merged object again changes nothing. */
  lemma MergeIdempotent(custom: PartialOptions)
    ensures Merge(ToPartial(Merge(custom))) == Merge(custom)
  {
    MergeComplete(Merge(custom));
  }

  /** With no options at all, `start` runs on the defaults. */
  lemma MergeNothing()
    ensures Merge(NoOptions) == Defaults
  {
  }
}
