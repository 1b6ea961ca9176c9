/** Directed graphs as sets of arcs, and the descendants of a node. */
module Graph {

  type Arcs = set<(string, string)>

  ghost predicate Walk(arcs: Arcs, p: seq<string>) {
    p != [] && forall i :: 0 <= i < |p| - 1 ==> (p[i], p[i + 1]) in arcs
  }

  /** There is a walk, possibly of no arc, from `a` to `b`. */
  ghost predicate Reaches(arcs: Arcs, a: string, b: string) {
    exists p :: Walk(arcs, p) && p[0] == a && p[|p| - 1] == b
  }

  /** `v` lies on a cycle: some arc leaves it on a way back to it. */
  ghost predicate OnCycle(arcs: Arcs, v: string) {
    exists w :: (v, w) in arcs && Reaches(arcs, w, v)
  }

  ghost predicate Acyclic(arcs: Arcs) {
    forall v :: !OnCycle(arcs, v)
  }

  lemma ReachesSelf(arcs: Arcs, a: string)
    ensures Reaches(arcs, a, a)
  {
    assert Walk(arcs, [a]);
  }

  lemma ReachesStep(arcs: Arcs, a: string, b: string, c: string)
    requires Reaches(arcs, a, b) && (b, c) in arcs
    ensures Reaches(arcs, a, c)
  {
    var p :| Walk(arcs, p) && p[0] == a && p[|p| - 1] == b;
    var q := p + [c];
    assert Walk(arcs, q) && q[0] == a && q[|q| - 1] == c;
  }

  lemma ReachesTransitive(arcs: Arcs, a: string, b: string, c: string)
    requires Reaches(arcs, a, b) && Reaches(arcs, b, c)
    ensures Reaches(arcs, a, c)
  {
    var p :| Walk(arcs, p) && p[0] == a && p[|p| - 1] == b;
    var q :| Walk(arcs, q) && q[0] == b && q[|q| - 1] == c;
    var r := p + q[1..];
    assert Walk(arcs, r) && r[0] == a && r[|r| - 1] == c;
  }

  /** A set closed under the arcs contains every node of a walk that starts in it. */
  lemma {:induction false} WalkStaysIn(arcs: Arcs, s: set<string>, p: seq<string>)
    requires forall v, w :: v in s && (v, w) in arcs ==> w in s
    requires Walk(arcs, p) && p[0] in s
    ensures p[|p| - 1] in s
  {
    if |p| > 1 {
      assert (p[0], p[1]) in arcs;
      WalkStaysIn(arcs, s, p[1..]);
    }
  }

  /** Every node other than `source` that `source` reaches, found with a worklist. */
  method Descendants(arcs: Arcs, source: string) returns (found: set<string>)
    ensures forall v :: v in found <==> v != source && Reaches(arcs, source, v)
  {
    var seen, frontier := {source}, {source};
    ghost var universe := {source} + set a | a in arcs :: a.1;
    ReachesSelf(arcs, source);
    while frontier != {}
      invariant source in seen && frontier <= seen <= universe
      invariant forall v :: v in seen ==> Reaches(arcs, source, v)
      invariant forall v, w :: v in seen - frontier && (v, w) in arcs ==> w in seen
      decreases universe - seen, frontier
    {
      var v :| v in frontier;
      var next := (set a | a in arcs && a.0 == v :: a.1) - seen;
      forall w | w in next
        ensures Reaches(arcs, source, w)
      {
        assert (v, w) in arcs;
        ReachesStep(arcs, source, v, w);
      }
      forall w | (v, w) in arcs
        ensures w in seen + next
      {
        assert (v, w).0 == v && (v, w).1 == w;
      }
      frontier, seen := frontier - {v} + next, seen + next;
    }
    forall v | Reaches(arcs, source, v)
      ensures v in seen
    {
      var p :| Walk(arcs, p) && p[0] == source && p[|p| - 1] == v;
      WalkStaysIn(arcs, seen, p);
    }
    found := seen - {source};
  }
}
