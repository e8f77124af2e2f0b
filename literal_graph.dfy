/** The edge construction of `dimacs2graph` (src/utils.py): a graph on 2n+m nodes,
    literals x1..xn, then their negations, then one node per clause; each literal is
    joined to its negation and each clause to its literals, every edge together
    with its reverse. */
module LiteralGraph {
  import opened Common
  import opened ClauseEval

  datatype Edge = Edge(src: int, dst: int)

  function Reverse(e: Edge): Edge { Edge(e.dst, e.src) }

  /** Node of a literal: v is node v-1, -v is node v+n-1. */
  function LiteralNode(lit: int, n: nat): (u: nat)
    requires LiteralOk(lit, n)
    ensures u < 2 * n
    ensures lit > 0 <==> u < n
  {
    if lit > 0 then lit - 1 else -lit + n - 1
  }

  /** The literal a literal node stands for: the inverse of LiteralNode. */
  function NodeLiteral(u: nat, n: nat): (lit: int)
    requires u < 2 * n
    ensures LiteralOk(lit, n)
  {
    if u < n then u + 1 else -(u - n + 1)
  }

  /** LiteralNode is a bijection between the 2n literals and the nodes 0..2n-1,
      and node u + n is the negation of node u. */
  lemma LiteralNodeBijective(lit: int, u: nat, n: nat)
    requires LiteralOk(lit, n) && u < n
    ensures NodeLiteral(LiteralNode(lit, n), n) == lit
    ensures LiteralNode(NodeLiteral(u, n), n) == u
    ensures LiteralNode(NodeLiteral(u + n, n), n) == u + n
    ensures NodeLiteral(u + n, n) == -NodeLiteral(u, n)
  {
  }

  /** Number of literal occurrences in a formula. */
  function TotalLiterals(formula: Formula): nat
  {
    if formula == [] then 0 else TotalLiterals(formula[..|formula| - 1]) + |formula[|formula| - 1]|
  }

  /** Index of the first edge of clause c: after the 2n negation edges and two edges
      per literal of the clauses before c. */
  function ClauseStart(formula: Formula, n: nat, c: nat): nat
    requires c <= |formula|
  {
    2 * n + 2 * TotalLiterals(formula[..c])
  }

  predicate ReversePairs(edges: seq<Edge>)
  {
    |edges| % 2 == 0 && forall k | 0 <= k < |edges| && k % 2 == 0 :: edges[k + 1] == Reverse(edges[k])
  }

  /** The inner loop of `dimacs2graph`: an edge from the clause node to each of the
      clause's literal nodes, each followed by its reverse. */
  method LinkClause(edges: seq<Edge>, n: nat, clauseNode: nat, clause: Clause) returns (linked: seq<Edge>)
    requires ClauseOk(clause, n)
    ensures |linked| == |edges| + 2 * |clause|
    ensures linked[..|edges|] == edges
    ensures forall j | 0 <= j < |clause| ::
              && linked[|edges| + 2 * j] == Edge(clauseNode, LiteralNode(clause[j], n))
              && linked[|edges| + 2 * j + 1] == Edge(LiteralNode(clause[j], n), clauseNode)
  {
    linked := edges;
    for j := 0 to |clause|
      invariant |linked| == |edges| + 2 * j
      invariant linked[..|edges|] == edges
      invariant forall j' | 0 <= j' < j ::
                  && linked[|edges| + 2 * j'] == Edge(clauseNode, LiteralNode(clause[j'], n))
                  && linked[|edges| + 2 * j' + 1] == Edge(LiteralNode(clause[j'], n), clauseNode)
    {
      var lit := clause[j];
      var literalNode := if lit > 0 then lit - 1 else -lit + n - 1;
      linked := linked + [Edge(clauseNode, literalNode), Edge(literalNode, clauseNode)];
    }
  }

  /** The edges of clause c sit at ClauseStart(c), ClauseStart(c) + 2, ... */
  ghost predicate ClauseLinked(edges: seq<Edge>, formula: Formula, n: nat, c: nat)
    requires c < |formula| && WellFormed(formula, n)
  {
    forall j | 0 <= j < |formula[c]| ::
      && ClauseStart(formula, n, c) + 2 * j < |edges|
      && edges[ClauseStart(formula, n, c) + 2 * j] == Edge(2 * n + c, LiteralNode(formula[c][j], n))
  }

  ghost predicate NodesBelow(edges: seq<Edge>, bound: int)
  {
    forall k | 0 <= k < |edges| :: 0 <= edges[k].src < bound && 0 <= edges[k].dst < bound
  }

  lemma ClauseLinkedKept(before: seq<Edge>, edges: seq<Edge>, formula: Formula, n: nat, c: nat)
    requires c < |formula| && WellFormed(formula, n)
    requires |before| <= |edges| && edges[..|before|] == before
    requires ClauseLinked(before, formula, n, c)
    ensures ClauseLinked(edges, formula, n, c)
  {
    forall j | 0 <= j < |formula[c]|
      ensures edges[ClauseStart(formula, n, c) + 2 * j] == Edge(2 * n + c, LiteralNode(formula[c][j], n))
    {
      var k := ClauseStart(formula, n, c) + 2 * j;
      assert k < |before|;
      assert edges[k] == edges[..|before|][k];
    }
  }

  /** The edges clause c appends: clause node to literal node, then back. */
  ghost predicate AppendsClause(before: seq<Edge>, edges: seq<Edge>, formula: Formula, n: nat, c: nat)
    requires c < |formula| && WellFormed(formula, n)
  {
    && |edges| == |before| + 2 * |formula[c]| && edges[..|before|] == before
    && forall j | 0 <= j < |formula[c]| ::
         && edges[|before| + 2 * j] == Edge(2 * n + c, LiteralNode(formula[c][j], n))
         && edges[|before| + 2 * j + 1] == Edge(LiteralNode(formula[c][j], n), 2 * n + c)
  }

  lemma LinkStepReverse(before: seq<Edge>, edges: seq<Edge>, formula: Formula, n: nat, c: nat)
    requires c < |formula| && WellFormed(formula, n)
    requires ReversePairs(before) && AppendsClause(before, edges, formula, n, c)
    ensures ReversePairs(edges)
  {
    forall k | 0 <= k < |edges| && k % 2 == 0 ensures edges[k + 1] == Reverse(edges[k]) {
      if k >= |before| {
        var j := (k - |before|) / 2;
        assert k == |before| + 2 * j && j < |formula[c]|;
        assert edges[|before| + 2 * j] == Edge(2 * n + c, LiteralNode(formula[c][j], n));
      } else {
        assert k + 1 < |before| && before[k + 1] == Reverse(before[k]);
        assert edges[k] == edges[..|before|][k] && edges[k + 1] == edges[..|before|][k + 1];
      }
    }
  }

  lemma LinkStepNodes(before: seq<Edge>, edges: seq<Edge>, formula: Formula, n: nat, c: nat)
    requires c < |formula| && WellFormed(formula, n)
    requires NodesBelow(before, 2 * n + c) && AppendsClause(before, edges, formula, n, c)
    ensures NodesBelow(edges, 2 * n + c + 1)
  {
    forall k | 0 <= k < |edges| ensures 0 <= edges[k].src < 2 * n + c + 1 && 0 <= edges[k].dst < 2 * n + c + 1 {
      if k >= |before| {
        var j := (k - |before|) / 2;
        assert k == |before| + 2 * j || k == |before| + 2 * j + 1;
        assert j < |formula[c]|;
        assert edges[|before| + 2 * j] == Edge(2 * n + c, LiteralNode(formula[c][j], n));
      } else {
        assert edges[k] == edges[..|before|][k];
      }
    }
  }

  lemma LinkStepLinked(before: seq<Edge>, edges: seq<Edge>, formula: Formula, n: nat, c: nat)
    requires c < |formula| && WellFormed(formula, n)
    requires |before| == ClauseStart(formula, n, c)
    requires forall c' | 0 <= c' < c :: ClauseLinked(before, formula, n, c')
    requires AppendsClause(before, edges, formula, n, c)
    ensures forall c' | 0 <= c' < c + 1 :: ClauseLinked(edges, formula, n, c')
  {
    forall c' | 0 <= c' < c + 1 ensures ClauseLinked(edges, formula, n, c') {
      if c' < c {
        ClauseLinkedKept(before, edges, formula, n, c');
      }
    }
  }

  /** One round of the clause loop keeps the builder's invariants. */
  lemma LinkStep(before: seq<Edge>, edges: seq<Edge>, formula: Formula, n: nat, c: nat)
    requires c < |formula| && WellFormed(formula, n)
    requires |before| == ClauseStart(formula, n, c) && ReversePairs(before) && NodesBelow(before, 2 * n + c)
    requires forall c' | 0 <= c' < c :: ClauseLinked(before, formula, n, c')
    requires |edges| == |before| + 2 * |formula[c]| && edges[..|before|] == before
    requires forall j | 0 <= j < |formula[c]| ::
               && edges[|before| + 2 * j] == Edge(2 * n + c, LiteralNode(formula[c][j], n))
               && edges[|before| + 2 * j + 1] == Edge(LiteralNode(formula[c][j], n), 2 * n + c)
    ensures |edges| == ClauseStart(formula, n, c + 1)
    ensures ReversePairs(edges) && NodesBelow(edges, 2 * n + c + 1)
    ensures forall c' | 0 <= c' < c + 1 :: ClauseLinked(edges, formula, n, c')
  {
    assert AppendsClause(before, edges, formula, n, c);
    LinkStepReverse(before, edges, formula, n, c);
    LinkStepNodes(before, edges, formula, n, c);
    LinkStepLinked(before, edges, formula, n, c);
    assert formula[..c + 1][..c] == formula[..c];
  }

  /** The first loop of `dimacs2graph`: each literal x_u joined to its negation. */
  method LinkNegations(n: nat) returns (edges: seq<Edge>)
    ensures |edges| == 2 * n
    ensures ReversePairs(edges)
    ensures forall k | 0 <= k < 2 * n && k % 2 == 0 :: edges[k] == Edge(k / 2, k / 2 + n)
    ensures NodesBelow(edges, 2 * n)
  {
    edges := [];
    for u := 0 to n
      invariant |edges| == 2 * u
      invariant ReversePairs(edges)
      invariant forall k | 0 <= k < 2 * u && k % 2 == 0 :: edges[k] == Edge(k / 2, k / 2 + n)
      invariant NodesBelow(edges, 2 * n)
    {
      edges := edges + [Edge(u, u + n), Edge(u + n, u)];
    }
  }

  /** `dimacs2graph` after the formula has been read: the node list and the edge list. */
  method Dimacs2Graph(n: nat, m: nat, formula: Formula) returns (nodes: seq<nat>, edges: seq<Edge>)
    requires WellFormed(formula, n)
    ensures |nodes| == 2 * n + m && forall u | 0 <= u < |nodes| :: nodes[u] == u
    ensures |edges| == 2 * n + 2 * TotalLiterals(formula)
    ensures ReversePairs(edges)
    ensures forall k | 0 <= k < 2 * n && k % 2 == 0 :: edges[k] == Edge(k / 2, k / 2 + n)
    ensures forall c | 0 <= c < |formula| :: ClauseLinked(edges, formula, n, c)
    ensures NodesBelow(edges, 2 * n + |formula|)
  {
    nodes := seq(2 * n + m, u requires 0 <= u < 2 * n + m => u);
    edges := LinkNegations(n);
    for c := 0 to |formula|
      invariant |edges| == ClauseStart(formula, n, c)
      invariant ReversePairs(edges)
      invariant forall k | 0 <= k < 2 * n && k % 2 == 0 :: edges[k] == Edge(k / 2, k / 2 + n)
      invariant forall c' | 0 <= c' < c :: ClauseLinked(edges, formula, n, c')
      invariant NodesBelow(edges, 2 * n + c)
    {
      ghost var before := edges;
      edges := LinkClause(edges, n, 2 * n + c, formula[c]);
      LinkStep(before, edges, formula, n, c);
      assert forall k | 0 <= k < 2 * n :: edges[k] == edges[..|before|][k];
    }
    assert formula[..|formula|] == formula;
  }
}
