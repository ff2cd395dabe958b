/** Chains of edges in a finite directed graph. */
module Graphs {
  type Graph = map<string, set<string>>

  predicate Edge(g: Graph, a: string, b: string) {
    a in g && b in g[a]
  }

  ghost predicate Path(g: Graph, p: seq<string>) {
    p != [] && forall i | 0 <= i < |p| - 1 :: Edge(g, p[i], p[i + 1])
  }

  ghost predicate Leads(g: Graph, a: string, b: string) {
    exists p :: Path(g, p) && p[0] == a && p[|p| - 1] == b
  }

  ghost predicate OnCycle(g: Graph, m: string) {
    exists n :: Edge(g, m, n) && Leads(g, n, m)
  }

  ghost predicate Acyclic(g: Graph) {
    forall m | m in g :: !OnCycle(g, m)
  }

  lemma PathCons(g: Graph, a: string, q: seq<string>)
    requires Path(g, q)
    ensures Path(g, [a] + q) <==> Edge(g, a, q[0])
  {
    var p := [a] + q;
    if Path(g, p) {
      assert Edge(g, p[0], p[0 + 1]);
    }
    if Edge(g, a, q[0]) {
      forall i | 0 <= i < |p| - 1 ensures Edge(g, p[i], p[i + 1]) {
        assert i > 0 ==> Edge(g, q[i - 1], q[i - 1 + 1]);
      }
    }
  }

  lemma PathRest(g: Graph, p: seq<string>)
    requires Path(g, p) && |p| > 1
    ensures Path(g, p[1..]) && Edge(g, p[0], p[1])
  {
    forall i | 0 <= i < |p[1..]| - 1 ensures Edge(g, p[1..][i], p[1..][i + 1]) {
      assert Edge(g, p[i + 1], p[i + 1 + 1]);
    }
    assert Edge(g, p[0], p[0 + 1]);
  }

  lemma PathSegment(g: Graph, p: seq<string>, i: nat, j: nat)
    requires Path(g, p) && i <= j < |p|
    ensures Path(g, p[i..j + 1]) && Leads(g, p[i], p[j])
  {
    var q := p[i..j + 1];
    forall k | 0 <= k < |q| - 1 ensures Edge(g, q[k], q[k + 1]) {
      assert Edge(g, p[i + k], p[i + k + 1]);
    }
    assert q[0] == p[i] && q[|q| - 1] == p[j];
  }

  lemma PathConcat(g: Graph, p: seq<string>, q: seq<string>)
    requires Path(g, p) && Path(g, q) && Edge(g, p[|p| - 1], q[0])
    ensures Path(g, p + q)
  {
    var r := p + q;
    forall i | 0 <= i < |r| - 1 ensures Edge(g, r[i], r[i + 1]) {
      if i >= |p| {
        assert Edge(g, q[i - |p|], q[i - |p| + 1]);
      } else if i + 1 < |p| {
        assert Edge(g, p[i], p[i + 1]);
      }
    }
  }

  /** Leading somewhere is being there already, or first taking one edge. */
  lemma LeadsStep(g: Graph, a: string, b: string)
    ensures Leads(g, a, b) <==> a == b || exists n :: Edge(g, a, n) && Leads(g, n, b)
  {
    if a == b {
      assert Path(g, [a]);
    } else if Leads(g, a, b) {
      var p :| Path(g, p) && p[0] == a && p[|p| - 1] == b;
      PathRest(g, p);
      assert p[1..][|p| - 2] == b;
      assert Leads(g, p[1], b);
    }
    forall n | Edge(g, a, n) && Leads(g, n, b) ensures Leads(g, a, b) {
      var q :| Path(g, q) && q[0] == n && q[|q| - 1] == b;
      PathCons(g, a, q);
      assert ([a] + q)[|q|] == b;
    }
  }

  lemma LeadsTransitive(g: Graph, a: string, b: string, c: string)
    requires Leads(g, a, b) && Leads(g, b, c)
    ensures Leads(g, a, c)
  {
    var p :| Path(g, p) && p[0] == a && p[|p| - 1] == b;
    LeadsAlong(g, p, c);
  }

  lemma {:induction false} LeadsAlong(g: Graph, p: seq<string>, c: string)
    requires Path(g, p) && Leads(g, p[|p| - 1], c)
    ensures Leads(g, p[0], c)
    decreases |p|
  {
    if |p| <= 1 {
    } else {
      PathRest(g, p);
      LeadsAlong(g, p[1..], c);
      LeadsStep(g, p[0], c);
    }
  }

  /** Every edge points back to an earlier element of the list. */
  ghost predicate Topological(g: Graph, order: seq<string>) {
    forall i | 0 <= i < |order| :: forall b | Edge(g, order[i], b) :: b in order[..i]
  }

  /** Only an acyclic graph can be put in such an order. */
  lemma TopologicalIsAcyclic(g: Graph, order: seq<string>)
    requires Topological(g, order) && (forall a | a in g :: a in order)
    requires forall i, j | 0 <= i < j < |order| :: order[i] != order[j]
    ensures Acyclic(g)
  {
    forall m | m in g ensures !OnCycle(g, m) {
      var i :| 0 <= i < |order| && order[i] == m;
      forall n | Edge(g, m, n) ensures !Leads(g, n, m) {
        var j :| 0 <= j < i && order[j] == n;
        forall p | Path(g, p) && p[0] == n ensures p[|p| - 1] in order[..j + 1] {
          StaysEarlier(g, order, p, j);
        }
        assert m !in order[..j + 1];
      }
    }
  }

  lemma {:induction false} StaysEarlier(g: Graph, order: seq<string>, p: seq<string>, j: nat)
    requires Topological(g, order) && Path(g, p) && j < |order| && p[0] == order[j]
    ensures p[|p| - 1] in order[..j + 1]
    decreases |p|
  {
    if |p| <= 1 {
    } else {
      PathRest(g, p);
      var k :| 0 <= k < j && order[k] == p[1];
      StaysEarlier(g, order, p[1..], k);
      assert order[..k + 1] <= order[..j + 1];
    }
  }
}
