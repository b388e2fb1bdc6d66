/**
 * Properties of the rbd-chaos handler that relate several calls: the storage-class parameters
 * a sequence of calls leaves behind, the Service selecting the DaemonSet's pods, and
 * `Resources` giving the same objects when called twice.
 */
module ChaosProperties {
  import opened Base
  import opened Kube
  import opened Rainbond
  import opened ChaosHandler

  /** A call that changes the handler's fields, with the outcomes of the lookups `Before` makes. */
  datatype Call =
    | BeforeCall(dbInfo: Result<Database, string>, secret: Result<Option<Secret>, string>,
                 storageClass: Result<Option<PvcParameters>, string>)
    | SetStorageClassCall(parameters: Option<PvcParameters>)

  /**
   * The argument with which `call` invokes `SetStorageClassNameRWX`, if it does: the setter
   * itself, or a `Before` whose three lookups all succeed.
   */
  function SetterArgument(call: Call): Option<Option<PvcParameters>>
  {
    match call
    case SetStorageClassCall(p) => Some(p)
    case BeforeCall(Success(_), Success(_), Success(p)) => Some(p)
    case BeforeCall(_, _, _) => None
  }

  /** The handler's fields after `call`, as `Chaos.Before` and `Chaos.SetStorageClassNameRWX` leave them. */
  function Step(s: HandlerState, defaultDbName: string, call: Call): (t: HandlerState)
    ensures SetterArgument(call).Some? ==> t.pvcParametersRWX == SetterArgument(call).value
    ensures SetterArgument(call).None? ==> t.pvcParametersRWX == s.pvcParametersRWX
  {
    match call
    case BeforeCall(d, e, sc) => BeforeStep(s, defaultDbName, d, e, sc).0
    case SetStorageClassCall(p) => s.(pvcParametersRWX := p)
  }

  /** The handler's fields after the calls, in order. */
  function Run(s: HandlerState, defaultDbName: string, calls: seq<Call>): HandlerState
  {
    if calls == [] then s
    else Step(Run(s, defaultDbName, calls[..|calls| - 1]), defaultDbName, calls[|calls| - 1])
  }

  /** The argument of the most recent setter invocation among the calls, if there was one. */
  function LastSetterArgument(calls: seq<Call>): Option<Option<PvcParameters>>
  {
    if calls == [] then None
    else if SetterArgument(calls[|calls| - 1]).Some? then SetterArgument(calls[|calls| - 1])
    else LastSetterArgument(calls[..|calls| - 1])
  }

  /**
   * After any sequence of calls, the handler holds the parameters most recently passed to the
   * setter, or what it held before when the setter was never invoked.
   */
  lemma {:induction false} RunKeepsLastSetterArgument(s: HandlerState, defaultDbName: string, calls: seq<Call>)
    ensures Run(s, defaultDbName, calls).pvcParametersRWX ==
      match LastSetterArgument(calls) case Some(p) => p case None => s.pvcParametersRWX
  {
    if calls != [] {
      RunKeepsLastSetterArgument(s, defaultDbName, calls[..|calls| - 1]);
    }
  }

  /**
   * A freshly constructed handler, after the calls, holds the parameters most recently passed
   * to the setter, and none if it was never invoked; both claims of
   * `ResourcesCreateIfNotExists` carry these.
   */
  lemma FreshHandlerHoldsLastSetterArgument(defaultDbName: string, calls: seq<Call>)
    ensures Run(INITIAL_STATE, defaultDbName, calls).pvcParametersRWX ==
      match LastSetterArgument(calls) case Some(p) => p case None => None
  {
    RunKeepsLastSetterArgument(INITIAL_STATE, defaultDbName, calls);
  }

  /** Makes the calls on the handler `c`, in order: its fields then follow `Run`. */
  method RunCalls(c: Chaos, calls: seq<Call>)
    modifies c
    ensures c.State() == Run(old(c.State()), c.ext.regionDatabaseName, calls)
  {
    var i := 0;
    while i < |calls|
      invariant 0 <= i <= |calls|
      invariant c.State() == Run(old(c.State()), c.ext.regionDatabaseName, calls[..i])
    {
      assert calls[..i + 1][..i] == calls[..i];
      match calls[i] {
        case BeforeCall(d, e, sc) =>
          var err := c.Before(d, e, sc);
        case SetStorageClassCall(p) =>
          c.SetStorageClassNameRWX(p);
      }
      i := i + 1;
    }
    assert calls[..|calls|] == calls;
  }

  /**
   * A new handler driven through the calls returns, from `ResourcesCreateIfNotExists`, two
   * claims that both carry the parameters most recently passed to the setter, and none if the
   * setter was never invoked.
   */
  method FreshHandlerClaims(component: Component, cluster: Cluster, ext: Externals, calls: seq<Call>)
    returns (claims: seq<Object>)
    ensures |claims| == 2
    ensures forall k :: 0 <= k < |claims| ==>
      claims[k].ClaimObject?
      && claims[k].claim.parameters == match LastSetterArgument(calls) case Some(p) => p case None => None
  {
    var c := new Chaos(component, cluster, ext);
    RunCalls(c, calls);
    FreshHandlerHoldsLastSetterArgument(ext.regionDatabaseName, calls);
    claims := c.ResourcesCreateIfNotExists();
  }

  /**
   * The Service routes its single port to the pods the DaemonSet creates: it selects the pod
   * template's labels, and its target port is the port the container's readiness probe checks.
   */
  lemma ServiceSelectsDaemonSetPods(c: Chaos, db: Database, etcdSecret: Option<Secret>)
    ensures var ds := DaemonSetOf(c.component, c.cluster, c.labels, c.ext, db, etcdSecret);
      var svc := c.Service();
      && svc.selector == ds.template.labels && svc.namespace == ds.namespace
      && |svc.ports| == 1 && svc.ports[0].targetPort == ds.template.spec.containers[0].readinessProbe.port
  {
  }

  /**
   * Building the resources changes no field of the handler, so two calls in a row give the
   * same objects: nothing accumulates from one call to the next.
   */
  method ResourcesAreRepeatable(c: Chaos) returns (first: seq<Object>, second: seq<Object>)
    requires c.db.Some?
    ensures first == second
  {
    first := c.Resources();
    second := c.Resources();
  }
}
