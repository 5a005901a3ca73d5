/** The Kubernetes API client as the controller, the gRPC handlers and the cleanup job use it. */
module Api {
  import opened Functions
  import opened Options
  import Cluster

  /** The client half of the store: one method per API call, each applied to the current world at once. */
  class ApiServer {
    var world: Cluster.World

    method GetFunction(key: Key) returns (found: Option<Function>)
      ensures found == if key in world.functions then Some(world.functions[key]) else None
    {
      found := if key in world.functions then Some(world.functions[key]) else None;
    }

    /** All Functions of a namespace, in whatever order the server returns them. */
    method ListFunctions(namespace: string) returns (items: seq<Function>)
      requires forall k :: k in world.functions ==> world.functions[k].key == k
      ensures forall i :: 0 <= i < |items| ==>
        items[i].key in world.functions && world.functions[items[i].key] == items[i] &&
          items[i].key.namespace == namespace
      ensures forall k :: k in world.functions && k.namespace == namespace ==> world.functions[k] in items
      ensures forall i, j :: 0 <= i < j < |items| ==> items[i].key != items[j].key
    {
      items := [];
      var todo := set k | k in world.functions && k.namespace == namespace;
      while todo != {}
        invariant forall k :: k in todo ==> k in world.functions && k.namespace == namespace
        invariant forall i :: 0 <= i < |items| ==>
          items[i].key in world.functions && world.functions[items[i].key] == items[i]
          && items[i].key.namespace == namespace && items[i].key !in todo
        invariant forall k :: k in world.functions && k.namespace == namespace ==>
          k in todo || world.functions[k] in items
        invariant forall i, j :: 0 <= i < j < |items| ==> items[i].key != items[j].key
        decreases todo
      {
        var k :| k in todo;
        todo := todo - {k};
        items := items + [world.functions[k]];
      }
    }

    method CreateFunction(f: Function) returns (outcome: Cluster.Outcome)
      modifies this
      ensures Cluster.Reply(world, outcome) == Cluster.CreateFunction(old(world), f)
    {
      var reply := Cluster.CreateFunction(world, f);
      world, outcome := reply.world, reply.outcome;
    }

    method UpdateFunction(f: Function) returns (outcome: Cluster.Outcome)
      modifies this
      ensures Cluster.Reply(world, outcome) == Cluster.UpdateFunction(old(world), f)
    {
      var reply := Cluster.UpdateFunction(world, f);
      world, outcome := reply.world, reply.outcome;
    }

    method PatchInactive(key: Key) returns (outcome: Cluster.Outcome)
      modifies this
      ensures Cluster.Reply(world, outcome) == Cluster.PatchInactive(old(world), key)
    {
      var reply := Cluster.PatchInactive(world, key);
      world, outcome := reply.world, reply.outcome;
    }

    method GetDeployment(key: Key) returns (found: Option<Cluster.Deployment>)
      ensures found == if key in world.deployments then Some(world.deployments[key]) else None
    {
      found := if key in world.deployments then Some(world.deployments[key]) else None;
    }

    method CreateDeployment(t: DeploymentTemplate) returns (outcome: Cluster.Outcome)
      modifies this
      ensures Cluster.Reply(world, outcome) == Cluster.CreateDeployment(old(world), t)
    {
      var reply := Cluster.CreateDeployment(world, t);
      world, outcome := reply.world, reply.outcome;
    }

    method UpdateDeployment(t: DeploymentTemplate, version: nat) returns (outcome: Cluster.Outcome)
      modifies this
      ensures Cluster.Reply(world, outcome) == Cluster.UpdateDeployment(old(world), t, version)
    {
      var reply := Cluster.UpdateDeployment(world, t, version);
      world, outcome := reply.world, reply.outcome;
    }

    method DeleteDeployment(key: Key) returns (outcome: Cluster.Outcome)
      modifies this
      ensures Cluster.Reply(world, outcome) == Cluster.DeleteDeployment(old(world), key)
    {
      var reply := Cluster.DeleteDeployment(world, key);
      world, outcome := reply.world, reply.outcome;
    }

    method GetService(key: Key) returns (found: Option<Cluster.Service>)
      ensures found == if key in world.services then Some(world.services[key]) else None
    {
      found := if key in world.services then Some(world.services[key]) else None;
    }

    method CreateService(t: ServiceTemplate) returns (outcome: Cluster.Outcome)
      modifies this
      ensures Cluster.Reply(world, outcome) == Cluster.CreateService(old(world), t)
    {
      var reply := Cluster.CreateService(world, t);
      world, outcome := reply.world, reply.outcome;
    }

    method UpdateService(t: ServiceTemplate, clusterIP: nat, version: nat) returns (outcome: Cluster.Outcome)
      modifies this
      ensures Cluster.Reply(world, outcome) == Cluster.UpdateService(old(world), t, clusterIP, version)
    {
      var reply := Cluster.UpdateService(world, t, clusterIP, version);
      world, outcome := reply.world, reply.outcome;
    }

    method DeleteService(key: Key) returns (outcome: Cluster.Outcome)
      modifies this
      ensures Cluster.Reply(world, outcome) == Cluster.DeleteService(old(world), key)
    {
      var reply := Cluster.DeleteService(world, key);
      world, outcome := reply.world, reply.outcome;
    }
  }
}
