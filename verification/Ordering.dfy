/** Go's string order, and sorting a plan's nodes by id. */
module Ordering {
  import opened ExecutionTypes

  /** Lexicographic order by code point, which is Go's byte order on UTF-8. */
  predicate Leq(a: string, b: string)
    decreases |a|
  {
    a == "" || (b != "" && (a[0] < b[0] || (a[0] == b[0] && Leq(a[1..], b[1..]))))
  }

  lemma {:induction false} LeqTotal(a: string, b: string)
    ensures Leq(a, b) || Leq(b, a)
    decreases |a|
  {
    if a != "" && b != "" && a[0] == b[0] { LeqTotal(a[1..], b[1..]); }
  }

  lemma {:induction false} LeqTransitive(a: string, b: string, c: string)
    requires Leq(a, b) && Leq(b, c)
    ensures Leq(a, c)
    decreases |a|
  {
    if a != "" && a[0] == b[0] == c[0] { LeqTransitive(a[1..], b[1..], c[1..]); }
  }

  predicate SortedById(nodes: seq<PlanNode>) {
    forall i, j | 0 <= i < j < |nodes| :: Leq(nodes[i].id, nodes[j].id)
  }

  method InsertById(nodes: seq<PlanNode>, node: PlanNode) returns (r: seq<PlanNode>)
    requires SortedById(nodes)
    ensures SortedById(r) && multiset(r) == multiset(nodes) + multiset{node}
  {
    hide Leq;
    var k := |nodes|;
    while k > 0 && !Leq(nodes[k - 1].id, node.id)
      invariant 0 <= k <= |nodes|
      invariant forall j | k <= j < |nodes| :: Leq(node.id, nodes[j].id)
    {
      LeqTotal(nodes[k - 1].id, node.id);
      k := k - 1;
    }
    forall i | 0 <= i < k ensures Leq(nodes[i].id, node.id) {
      if i < k - 1 { LeqTransitive(nodes[i].id, nodes[k - 1].id, node.id); }
    }
    r := nodes[..k] + [node] + nodes[k..];
    assert nodes == nodes[..k] + nodes[k..];
  }

  /** sort.Slice(nodes, by id) on a copy of the plan's nodes. */
  method SortById(nodes: seq<PlanNode>) returns (r: seq<PlanNode>)
    ensures SortedById(r) && multiset(r) == multiset(nodes)
  {
    r := [];
    for i := 0 to |nodes|
      invariant SortedById(r) && multiset(r) == multiset(nodes[..i])
    {
      r := InsertById(r, nodes[i]);
      assert nodes[..i + 1] == nodes[..i] + [nodes[i]];
    }
    assert nodes[..|nodes|] == nodes;
  }
}
