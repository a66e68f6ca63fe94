/**
 The part of a Kubernetes cluster that a Consumer switch can observe or change: Deployments
 and the Pods their controllers keep running.  Each kubectl call is one function on a cluster.
 */
module Cluster {
  import opened Wrappers

  // `template` stands for everything in a spec but the replica count.
  datatype Spec = Spec(replicas: Option<nat>, template: int)

  datatype Deployment = Deployment(uid: nat, owned: bool, spec: Spec)

  datatype Cluster = Cluster(deployments: map<string, Deployment>, pods: map<string, nat>, nextUid: nat)

  // A spec without a replica count runs one Pod.
  function Desired(spec: Spec): nat {
    if spec.replicas.Some? then spec.replicas.value else 1
  }

  predicate Wants(c: Cluster, name: string) {
    name in c.deployments && Desired(c.deployments[name].spec) > 0
  }

  function PodsOf(c: Cluster, name: string): nat {
    if name in c.pods then c.pods[name] else 0
  }

  // Pods run now, or the controller may start some at any moment.
  predicate MayRun(c: Cluster, name: string) {
    Wants(c, name) || PodsOf(c, name) > 0
  }

  // Nothing that was at rest came to life, except perhaps `name`.
  ghost predicate QuietBut(c: Cluster, c': Cluster, name: Option<string>) {
    forall n :: name != Some(n) && !MayRun(c, n) ==> !MayRun(c', n)
  }

  // What controllers may do between two calls: Pods come and go under a Deployment that
  // wants replicas, and nothing else comes to life.
  ghost predicate Drifts(c: Cluster, c': Cluster) {
    c'.deployments == c.deployments && c'.nextUid == c.nextUid && QuietBut(c, c', None)
  }

  function Scaled(c: Cluster, name: string, replicas: nat): Cluster {
    if name !in c.deployments then c
    else
      var d := c.deployments[name];
      c.(deployments := c.deployments[name := d.(spec := d.spec.(replicas := Some(replicas)))])
  }

  // Apply replaces labels and spec and keeps the identity of an existing object.
  function Applied(c: Cluster, name: string, owned: bool, spec: Spec): Cluster {
    var uid := if name in c.deployments then c.deployments[name].uid else c.nextUid;
    Cluster(c.deployments[name := Deployment(uid, owned, spec)], c.pods,
            if name in c.deployments then c.nextUid else c.nextUid + 1)
  }

  function Deleted(c: Cluster, name: string): Cluster {
    c.(deployments := c.deployments - {name})
  }
}
