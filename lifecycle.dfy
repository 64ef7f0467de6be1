/**
 * `start`, `stop` and `restart` acting on the shared registry. Each
 * operation is a method on the registry, proved equal to a step function
 * on the registry's contents; the lemmas relate the steps to each other.
 *
 * Spawning is an oracle: each call that reaches the spawn is handed the
 * spawn's answer, `Some(handle)` when the child got a pid and `None` when
 * it did not (which throws).
 */
module Lifecycle {
  import opened Js
  import opened CommandLine
  import opened Options
  import opened Launch
  import opened Instances

  /** The errors the operations throw. */
  datatype Error =
    | AlreadyRunning(port: nat)      // `DynamoDB Local instance already running on port ...`
    | SpawnFailed(executable: string) // `Unable to start DynamoDB Local. Make sure you have ... in your path.`
    | NoInstance(port: nat)          // `No managed DynamoDB instance on port ...`

  /** How a call settles: it completes, or it throws. */
  datatype Outcome = Done | Threw(error: Error)

  /**
   * What one operation does: the registry's new contents, the commands it
   * spawned and the kills it sent (both in order), and how it settles.
   */
  datatype Step = Step(instances: InstanceMap, spawned: seq<Command>, killed: seq<Kill>, outcome: Outcome)

  /**
   * `start(custom)` up to the readiness wait: merge, reject a port that is
   * already registered, build and spawn the command, and register the
   * child under its port.
   */
  function StartStep(m: InstanceMap, custom: PartialOptions, platform: Platform, pid: Option<Handle>): (s: Step)
    ensures WellKeyed(m) ==> WellKeyed(s.instances)
    ensures s.killed == []
    ensures s.outcome == Done <==> Merge(custom).port !in m && pid.Some?
    ensures Merge(custom).port in m ==> s.outcome == Threw(AlreadyRunning(Merge(custom).port)) && s.spawned == []
    ensures Merge(custom).port !in m ==> s.spawned == [CommandFor(Merge(custom), platform)]
    ensures s.outcome == Done ==> s.instances == m[Merge(custom).port := InstanceDefinition(Merge(custom), pid.value)]
    ensures Merge(custom).port !in m && pid.None? ==>
      s.outcome == Threw(SpawnFailed(CommandFor(Merge(custom), platform).executable))
    ensures s.outcome != Done ==> s.instances == m
    ensures forall q :: q in m ==> q in s.instances && s.instances[q] == m[q]
    ensures DistinctHandles(m) && (pid.Some? ==> forall q :: q in m ==> m[q].process != pid.value) ==>
      DistinctHandles(s.instances)
  {
    var o := Merge(custom);
    if o.port in m then Step(m, [], [], Threw(AlreadyRunning(o.port)))
    else
      var cmd := CommandFor(o, platform);
      if pid.None? then Step(m, [cmd], [], Threw(SpawnFailed(cmd.executable)))
      else Step(m[o.port := InstanceDefinition(o, pid.value)], [cmd], [], Done)
  }

  /** `stop(port)`: reject an unknown port; otherwise kill its process and drop the record. */
  function StopStep(m: InstanceMap, port: nat): (s: Step)
    ensures WellKeyed(m) ==> WellKeyed(s.instances)
    ensures s.spawned == []
    ensures s.outcome == Done <==> port in m
    ensures port !in m ==> s.outcome == Threw(NoInstance(port)) && s.instances == m && s.killed == []
    ensures port in m ==> s.killed == [Kill(m[port].process, SIGKILL)]
    ensures port !in s.instances
    ensures forall q :: q in s.instances ==> q in m
    ensures forall q :: q in m && q != port ==> q in s.instances && s.instances[q] == m[q]
    ensures DistinctHandles(m) ==> DistinctHandles(s.instances)
  {
    if port !in m then Step(m, [], [], Threw(NoInstance(port)))
    else Step(m - {port}, [], [Kill(m[port].process, SIGKILL)], Done)
  }

  /**
   * What `restart(port)` does: its own outcome and effects, and, when it got
   * past the lookup, how the inner `start` settles. `restart` awaits neither
   * `stop` nor `start`, so a failing inner `start` does not make `restart`
   * throw.
   */
  datatype Restarted = Restarted(step: Step, startOutcome: Option<Outcome>)

  /** `restart(port)`: reject an unknown port; otherwise stop it and start again with the stored options. */
  function RestartStep(m: InstanceMap, port: nat, platform: Platform, pid: Option<Handle>): (r: Restarted)
    ensures port !in m ==> r == Restarted(Step(m, [], [], Threw(NoInstance(port))), None)
    ensures port in m ==> r.step.outcome == Done && r.startOutcome.Some?
    ensures port in m ==> r.step.killed == [Kill(m[port].process, SIGKILL)]
    ensures port in m ==> |r.step.spawned| <= 1
    ensures WellKeyed(m) ==> WellKeyed(r.step.instances)
  {
    if port !in m then Restarted(Step(m, [], [], Threw(NoInstance(port))), None)
    else
      var stored := m[port].options;
      var stopped := StopStep(m, port);
      var started := StartStep(stopped.instances, ToPartial(stored), platform, pid);
      Restarted(Step(started.instances, stopped.spawned + started.spawned, stopped.killed + started.killed, Done),
                Some(started.outcome))
  }

  /** `start`: the registry ends as `StartStep` says, and the spawn is logged. */
  method Start(reg: Registry, custom: PartialOptions, platform: Platform, pid: Option<Handle>) returns (r: Outcome)
    requires reg.Valid()
    requires pid.Some? ==> reg.Unused(pid.value)
    modifies reg
    ensures reg.Valid()
    ensures var s := StartStep(old(reg.instances), custom, platform, pid);
      && reg.instances == s.instances && r == s.outcome
      && reg.spawned == old(reg.spawned) + s.spawned && reg.killed == old(reg.killed) + s.killed
  {
    var options := Merge(custom);
    if options.port in reg.instances {
      return Threw(AlreadyRunning(options.port));
    }
    var cmd := BuildCommand(options, platform);
    reg.spawned := reg.spawned + [cmd];
    if pid.None? {
      return Threw(SpawnFailed(cmd.executable));
    }
    reg.instances := reg.instances[options.port := InstanceDefinition(options, pid.value)];
    r := Done;
  }

  /**
   * `stop`: the registry ends as `StopStep` says, and the kill is logged;
   * no process still registered has ever been sent a kill.
   */
  method Stop(reg: Registry, port: nat) returns (r: Outcome)
    requires reg.Valid()
    modifies reg
    ensures reg.Valid()
    ensures Unkilled(reg.instances, reg.killed)
    ensures var s := StopStep(old(reg.instances), port);
      && reg.instances == s.instances && r == s.outcome
      && reg.spawned == old(reg.spawned) + s.spawned && reg.killed == old(reg.killed) + s.killed
  {
    if port !in reg.instances {
      return Threw(NoInstance(port));
    }
    var instance := reg.instances[port];
    reg.killed := reg.killed + [Kill(instance.process, SIGKILL)];
    reg.instances := reg.instances - {port};
    r := Done;
  }

  /** `restart`: lookup, then `stop`, then `start` with the options stored for the port. */
  method Restart(reg: Registry, port: nat, platform: Platform, pid: Option<Handle>)
    returns (r: Outcome, startOutcome: Option<Outcome>)
    requires reg.Valid()
    requires pid.Some? ==> reg.Unused(pid.value)
    modifies reg
    ensures reg.Valid()
    ensures var x := RestartStep(old(reg.instances), port, platform, pid);
      && reg.instances == x.step.instances && r == x.step.outcome && startOutcome == x.startOutcome
      && reg.spawned == old(reg.spawned) + x.step.spawned && reg.killed == old(reg.killed) + x.step.killed
  {
    if port !in reg.instances {
      return Threw(NoInstance(port)), None;
    }
    var instance := reg.instances[port];
    var stopped := Stop(reg, port);
    assert pid.Some? ==> reg.Unused(pid.value);
    var started := Start(reg, ToPartial(instance.options), platform, pid);
    r, startOutcome := Done, Some(started);
  }

  /**
   * Once `stop(p)` has completed, the duplicate check in `start` no longer
   * blocks `p`: a `start` on the same port that gets a pid registers the
   * new child there.
   */
  lemma StartAfterStop(m: InstanceMap, custom: PartialOptions, platform: Platform, h: Handle)
    requires Merge(custom).port in m
    ensures var stopped := StopStep(m, Merge(custom).port);
      var started := StartStep(stopped.instances, custom, platform, Some(h));
      && StartStep(m, custom, platform, Some(h)).outcome == Threw(AlreadyRunning(Merge(custom).port))
      && stopped.outcome == Done
      && started.outcome == Done
      && started.instances == m[Merge(custom).port := InstanceDefinition(Merge(custom), h)]
  {
    var p := Merge(custom).port;
    var stopped := StopStep(m, p);
    assert m[p := InstanceDefinition(Merge(custom), h)] == stopped.instances[p := InstanceDefinition(Merge(custom), h)];
  }

  /**
   * On a registered port whose restart gets a pid, `restart` kills exactly
   * the old process, spawns the command the stored options give, and leaves
   * the port registered with the same options and the new child; nothing
   * else in the registry changes.
   */
  lemma RestartKeepsOptions(m: InstanceMap, port: nat, platform: Platform, h: Handle)
    requires WellKeyed(m) && port in m
    ensures var x := RestartStep(m, port, platform, Some(h));
      && x.startOutcome == Some(Done)
      && x.step.outcome == Done
      && x.step.killed == [Kill(m[port].process, SIGKILL)]
      && x.step.spawned == [CommandFor(m[port].options, platform)]
      && x.step.instances == m[port := InstanceDefinition(m[port].options, h)]
  {
    var stored := m[port].options;
    MergeComplete(stored);
    var stopped := StopStep(m, port);
    assert stopped.instances[port := InstanceDefinition(stored, h)] == m[port := InstanceDefinition(stored, h)];
  }

  /**
   * When the inner `start` gets no pid, `restart` still completes, but the
   * old instance is gone and nothing takes its place.
   */
  lemma RestartLosesInstance(m: InstanceMap, port: nat, platform: Platform)
    requires WellKeyed(m) && port in m
    ensures var x := RestartStep(m, port, platform, None);
      && x.step.outcome == Done
      && x.startOutcome == Some(Threw(SpawnFailed(CommandFor(m[port].options, platform).executable)))
      && x.step.instances == m - {port}
  {
    MergeComplete(m[port].options);
  }

  /** Restarting the same port twice, both times with a pid, leaves the stored options untouched. */
  lemma RestartTwice(m: InstanceMap, port: nat, platform: Platform, h1: Handle, h2: Handle)
    requires WellKeyed(m) && port in m
    ensures var once := RestartStep(m, port, platform, Some(h1)).step.instances;
      && port in once
      && RestartStep(once, port, platform, Some(h2)).step.instances == m[port := InstanceDefinition(m[port].options, h2)]
  {
    RestartKeepsOptions(m, port, platform, h1);
    var once := m[port := InstanceDefinition(m[port].options, h1)];
    RestartKeepsOptions(once, port, platform, h2);
    assert once[port := InstanceDefinition(m[port].options, h2)] == m[port := InstanceDefinition(m[port].options, h2)];
  }

  /**
   * `stop(p)` signals only `p`'s own process: when no two ports share a
   * process, every record left behind holds a process other than the one
   * killed.
   */
  lemma StopSparesOthers(m: InstanceMap, port: nat)
    requires DistinctHandles(m) && port in m
    ensures var s := StopStep(m, port);
      && s.killed == [Kill(m[port].process, SIGKILL)]
      && forall q :: q in s.instances ==> s.instances[q].process != m[port].process
  {
  }

  /**
   * A fresh registry runs `start`, a second `start` on the same port,
   * `stop`, and `start` again: with pids available the duplicate is
   * rejected and the rest complete, and the port ends registered with the
   * last child.
   */
  method StartStopStart(custom: PartialOptions, platform: Platform, h1: Handle, h2: Handle, h3: Handle)
    returns (first: Outcome, duplicate: Outcome, stopped: Outcome, again: Outcome)
    requires h2 != h1 && h3 != h1
    ensures first == Done && stopped == Done && again == Done
    ensures duplicate == Threw(AlreadyRunning(Merge(custom).port))
  {
    var reg := new Registry();
    first := Start(reg, custom, platform, Some(h1));
    duplicate := Start(reg, custom, platform, Some(h2));
    stopped := Stop(reg, Merge(custom).port);
    again := Start(reg, custom, platform, Some(h3));
    assert reg.instances == map[Merge(custom).port := InstanceDefinition(Merge(custom), h3)];
  }

  /** A fresh registry rejects `stop` and `restart` on every port, and neither registers anything. */
  method NothingToStop(port: nat, platform: Platform, pid: Option<Handle>)
    returns (stopped: Outcome, restarted: Outcome, registered: nat)
    ensures stopped == Threw(NoInstance(port)) && restarted == Threw(NoInstance(port))
    ensures registered == 0
  {
    var reg := new Registry();
    stopped := Stop(reg, port);
    var inner;
    restarted, inner := Restart(reg, port, platform, pid);
    registered := |reg.instances|;
  }
}
