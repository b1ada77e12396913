/**
 * The explicit dependency graph the construct wires with `node.add_dependency`: each
 * resource names the logical ids it must wait for. A graph whose every edge leads to a
 * strictly lower layer has no cycle.
 */
module Graph {

  /** A resource and the logical ids it depends on. */
  datatype Vertex = Vertex(id: string, dependsOn: set<string>)

  /** `a` depends on `b`. */
  predicate Edge(vs: seq<Vertex>, a: string, b: string)
  {
    exists i :: 0 <= i < |vs| && vs[i].id == a && b in vs[i].dependsOn
  }

  /** `path` follows dependency edges and comes back to where it started. */
  ghost predicate IsCycle(vs: seq<Vertex>, path: seq<string>)
  {
    && |path| >= 2
    && path[0] == path[|path| - 1]
    && forall i :: 0 <= i < |path| - 1 ==> Edge(vs, path[i], path[i + 1])
  }

  ghost predicate Acyclic(vs: seq<Vertex>)
  {
    forall path :: !IsCycle(vs, path)
  }

  /** Every dependency lies on a strictly lower layer than the resource that waits for it. */
  ghost predicate Layered(vs: seq<Vertex>, layer: string -> nat)
  {
    forall i, b :: 0 <= i < |vs| && b in vs[i].dependsOn ==> layer(b) < layer(vs[i].id)
  }

  /** Along a walk in a layered graph the layer strictly decreases. */
  lemma {:induction false} WalkDescends(vs: seq<Vertex>, layer: string -> nat, path: seq<string>, k: nat)
    requires Layered(vs, layer)
    requires forall i :: 0 <= i < |path| - 1 ==> Edge(vs, path[i], path[i + 1])
    requires 0 < k < |path|
    ensures layer(path[k]) < layer(path[0])
    decreases k
  {
    assert Edge(vs, path[k - 1], path[k]);
    var i :| 0 <= i < |vs| && vs[i].id == path[k - 1] && path[k] in vs[i].dependsOn;
    if k > 1 {
      WalkDescends(vs, layer, path, k - 1);
    }
  }

  /** A layered graph is acyclic. */
  lemma LayeredIsAcyclic(vs: seq<Vertex>, layer: string -> nat)
    requires Layered(vs, layer)
    ensures Acyclic(vs)
  {
    forall path | IsCycle(vs, path)
      ensures false
    {
      WalkDescends(vs, layer, path, |path| - 1);
    }
  }
}
