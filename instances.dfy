/**
 * The registry of running emulators: one shared, mutable map from port to
 * the options the instance was started with and its child process.
 */
module Instances {
  import opened Js
  import opened CommandLine
  import opened Options

  /** One registered instance: the merged options `start` used, and the child it spawned. */
  datatype InstanceDefinition = InstanceDefinition(options: StartOptions, process: Handle)

  /** The only signal the library sends. */
  datatype Signal = SIGKILL

  /** One `process.kill(signal)` call. */
  datatype Kill = Kill(process: Handle, signal: Signal)

  /** The registry's contents. */
  type InstanceMap = map<nat, InstanceDefinition>

  /** Every record is filed under the port its own options name. */
  ghost predicate WellKeyed(m: InstanceMap) {
    forall p :: p in m ==> m[p].options.port == p
  }

  /** No two ports hold the same child process. */
  ghost predicate DistinctHandles(m: InstanceMap) {
    forall p, q :: p in m && q in m && m[p].process == m[q].process ==> p == q
  }

  /** No registered process has been sent a kill. */
  ghost predicate Unkilled(m: InstanceMap, killed: seq<Kill>) {
    forall p, i :: p in m && 0 <= i < |killed| ==> killed[i].process != m[p].process
  }

  /** Under `WellKeyed`, two records never claim the same port. */
  lemma OneRecordPerPort(m: InstanceMap, p: nat, q: nat)
    requires WellKeyed(m)
    requires p in m && q in m && m[p].options.port == m[q].options.port
    ensures p == q
  {
  }

  /**
   * The module-level `instances` map. The spawn and kill logs record the
   * effects the operations have on the outside world, in order.
   */
  class Registry {
    var instances: InstanceMap
    ghost var spawned: seq<Command>
    ghost var killed: seq<Kill>

    ghost predicate Valid()
      reads this
    {
      WellKeyed(instances) && DistinctHandles(instances) && Unkilled(instances, killed)
    }

    /**
     * A handle the registry has never seen: no record holds it and no kill
     * was sent to it. Every child a spawn returns is such a handle.
     */
    ghost predicate Unused(h: Handle)
      reads this
    {
      && (forall p :: p in instances ==> instances[p].process != h)
      && (forall i :: 0 <= i < |killed| ==> killed[i].process != h)
    }

    /** The registry starts empty, with nothing spawned and nothing killed. */
    constructor ()
      ensures Valid()
      ensures instances == map[] && spawned == [] && killed == []
    {
      instances := map[];
      spawned := [];
      killed := [];
    }
  }
}
