/** The broker's persistent state as a plain map (internal/broker/statestore.go), which the
    custom-resource store has to agree with. */
module StateStore {
  import opened Wrappers
  import opened Json
  import opened Api

  datatype Context = Context(
    platform: string, organizationGuid: string, spaceGuid: string, organizationName: string,
    spaceName: string, clusterId: string, ns: string, originatingIdentity: string)

  datatype Instance = Instance(
    id: string, serviceId: string, planId: string, context: Context, parameters: Params,
    dashboardUrl: string, ready: bool, ns: string,
    appliedObjects: seq<string>, appliedRefs: seq<Key>, maintenanceVersion: string)

  datatype Binding = Binding(
    id: string, instanceId: string, serviceId: string, planId: string, appGuid: string,
    context: Context, parameters: Params, credentials: Params,
    syslogDrainUrl: string, routeServiceUrl: string, volumeMounts: seq<Value>, ready: bool)

  /** What the memory store holds. */
  datatype Mem = Mem(instances: map<string, Instance>, bindings: map<string, Binding>)

  class MemoryStateStore {
    var instances: map<string, Instance>
    var bindings: map<string, Binding>

    function M(): Mem
      reads this
    {
      Mem(instances, bindings)
    }

    constructor ()
      ensures M() == Mem(map[], map[])
    {
      instances, bindings := map[], map[];
    }

    method PutInstance(i: Instance)
      modifies this
      ensures M() == old(M()).(instances := old(instances)[i.id := i])
    {
      instances := instances[i.id := i];
    }

    method GetInstance(id: string) returns (r: Option<Instance>)
      ensures r == if id in instances then Some(instances[id]) else None
    {
      if id !in instances {
        return None;
      }
      r := Some(instances[id]);
    }

    method DeleteInstance(id: string)
      modifies this
      ensures M() == old(M()).(instances := old(instances) - {id})
    {
      instances := instances - {id};
    }

    method PutBinding(b: Binding)
      modifies this
      ensures M() == old(M()).(bindings := old(bindings)[b.id := b])
    {
      bindings := bindings[b.id := b];
    }

    method GetBinding(id: string) returns (r: Option<Binding>)
      ensures r == if id in bindings then Some(bindings[id]) else None
    {
      if id !in bindings {
        return None;
      }
      r := Some(bindings[id]);
    }

    method DeleteBinding(id: string)
      modifies this
      ensures M() == old(M()).(bindings := old(bindings) - {id})
    {
      bindings := bindings - {id};
    }

    /** ListBindingsByInstance: a full scan, in whatever order the map is ranged over. Each
        binding of the instance is listed as often as the map holds it, and no other. */
    method ListBindingsByInstance(instanceId: string) returns (out: seq<Binding>)
      ensures forall b :: multiset(out)[b] == if b.instanceId == instanceId then |Holding(bindings, bindings.Keys, b)| else 0
    {
      out := [];
      var keys := bindings.Keys;
      ghost var seen: set<string> := {};
      while keys != {}
        invariant seen <= bindings.Keys && seen !! keys && forall id :: id in bindings <==> id in keys || id in seen
        invariant forall b :: multiset(out)[b] == if b.instanceId == instanceId then |Holding(bindings, seen, b)| else 0
        decreases |keys|
      {
        var id :| id in keys;
        HoldingGrows(bindings, seen, id);
        keys := keys - {id};
        seen := seen + {id};
        if bindings[id].instanceId == instanceId {
          out := out + [bindings[id]];
        }
      }
      assert seen == bindings.Keys;
    }
  }

  /** The ids among `ids` under which `b` is stored. */
  function Holding(bindings: map<string, Binding>, ids: set<string>, b: Binding): set<string> {
    set id | id in ids && id in bindings && bindings[id] == b
  }

  lemma HoldingGrows(bindings: map<string, Binding>, ids: set<string>, id: string)
    requires id in bindings && id !in ids
    ensures forall b :: |Holding(bindings, ids + {id}, b)| == |Holding(bindings, ids, b)| + if bindings[id] == b then 1 else 0
  {
    forall b ensures |Holding(bindings, ids + {id}, b)| == |Holding(bindings, ids, b)| + if bindings[id] == b then 1 else 0 {
      assert Holding(bindings, ids + {id}, b) == Holding(bindings, ids, b) + if bindings[id] == b then {id} else {};
    }
  }
}
