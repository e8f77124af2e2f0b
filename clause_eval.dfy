/** The clause evaluator of src/utils.py: `num_sat_clauses`, its batched form
    `num_sat_clauses_tensor`, and the best-of-batch selection `sampled_sol`. */
module ClauseEval {
  import opened Common

  /** A clause is a sequence of non-zero literals; the sign is the polarity and the
      magnitude the 1-based variable index. A formula is a sequence of clauses. */
  type Clause = seq<int>
  type Formula = seq<Clause>

  predicate LiteralOk(lit: int, numVariables: nat) { lit != 0 && Abs(lit) <= numVariables }

  predicate ClauseOk(clause: Clause, numVariables: nat)
  {
    forall j | 0 <= j < |clause| :: LiteralOk(clause[j], numVariables)
  }

  /** Every literal is non-zero and names one of the variables 1..numVariables. */
  predicate WellFormed(formula: Formula, numVariables: nat)
  {
    forall i | 0 <= i < |formula| :: ClauseOk(formula[i], numVariables)
  }

  /** A literal's truth under an assignment, with Python truthiness:
      `-v` holds when the value of v is 0, `v` when it is not 0. */
  predicate LiteralTrue(lit: int, assignment: seq<int>)
    requires LiteralOk(lit, |assignment|)
  {
    if lit < 0 then assignment[Abs(lit) - 1] == 0 else assignment[Abs(lit) - 1] != 0
  }

  predicate ClauseSatisfied(clause: Clause, assignment: seq<int>)
    requires ClauseOk(clause, |assignment|)
  {
    exists j | 0 <= j < |clause| :: LiteralTrue(clause[j], assignment)
  }

  /** The per-clause flags: one entry per clause, in formula order. */
  function EvalFormula(formula: Formula, assignment: seq<int>): seq<bool>
    requires WellFormed(formula, |assignment|)
  {
    seq(|formula|, i requires 0 <= i < |formula| => ClauseSatisfied(formula[i], assignment))
  }

  /** Python's `sum` over a list of booleans. */
  function CountTrue(s: seq<bool>): nat
  {
    if s == [] then 0 else CountTrue(s[..|s| - 1]) + (if s[|s| - 1] then 1 else 0)
  }

  /** Python's `any` and `all`. */
  predicate Any(s: seq<bool>) { exists i | 0 <= i < |s| :: s[i] }
  predicate All(s: seq<bool>) { forall i | 0 <= i < |s| :: s[i] }

  /** Number of clauses the assignment satisfies. */
  function NumSat(formula: Formula, assignment: seq<int>): nat
    requires WellFormed(formula, |assignment|)
  {
    CountTrue(EvalFormula(formula, assignment))
  }

  /** The count of one batch row per row. */
  function Counts(formula: Formula, rows: seq<seq<int>>): seq<nat>
    requires forall b | 0 <= b < |rows| :: WellFormed(formula, |rows[b]|)
  {
    seq(|rows|, b requires 0 <= b < |rows| => NumSat(formula, rows[b]))
  }

  // ---------------------------------------------------------------
  // Properties of the count
  // ---------------------------------------------------------------

  /** A count of true flags lies between 0 and the number of flags, and reaches the
      number of flags exactly when every flag is true. */
  lemma {:induction false} CountTrueBounds(s: seq<bool>)
    ensures CountTrue(s) <= |s|
    ensures CountTrue(s) == |s| <==> All(s)
  {
    if s != [] {
      var init := s[..|s| - 1];
      CountTrueBounds(init);
      if All(s) {
        assert All(init) by {
          forall i | 0 <= i < |init| ensures init[i] { assert init[i] == s[i]; }
        }
      }
      if CountTrue(s) == |s| {
        assert CountTrue(init) == |init| && s[|s| - 1];
        forall i | 0 <= i < |s| ensures s[i] {
          if i < |s| - 1 { assert s[i] == init[i]; }
        }
      }
    }
  }

  /** The count of a formula lies between 0 and its number of clauses; the formula
      is satisfied (every clause has a true literal) exactly when the count is
      the number of clauses. */
  lemma NumSatBounds(formula: Formula, assignment: seq<int>)
    requires WellFormed(formula, |assignment|)
    ensures NumSat(formula, assignment) <= |formula|
    ensures NumSat(formula, assignment) == |formula| <==>
              forall i | 0 <= i < |formula| :: ClauseSatisfied(formula[i], assignment)
  {
    var flags := EvalFormula(formula, assignment);
    CountTrueBounds(flags);
    assert All(flags) <==> forall i | 0 <= i < |formula| :: ClauseSatisfied(formula[i], assignment) by {
      assert forall i | 0 <= i < |formula| :: flags[i] == ClauseSatisfied(formula[i], assignment);
    }
  }

  /** An empty clause is never satisfied, so a formula holding one is never satisfied. */
  lemma EmptyClauseUnsatisfied(formula: Formula, assignment: seq<int>, i: nat)
    requires WellFormed(formula, |assignment|)
    requires i < |formula| && formula[i] == []
    ensures !ClauseSatisfied(formula[i], assignment)
    ensures NumSat(formula, assignment) < |formula|
  {
    NumSatBounds(formula, assignment);
  }

  /** Polarity: under any assignment exactly one of the unit clauses [v] and [-v]
      is satisfied. */
  lemma UnitClausesComplementary(v: int, assignment: seq<int>)
    requires 1 <= v <= |assignment|
    ensures ClauseSatisfied([v], assignment) != ClauseSatisfied([-v], assignment)
  {
    assert LiteralTrue([v][0], assignment) != LiteralTrue([-v][0], assignment);
  }

  /** The formula (x1 or x2) and (not x1 or x2) and (x1 or not x2): the assignment
      [1, 1] satisfies all three clauses, [0, 0] the second and the third. */
  lemma SmallFormulaCounts()
    ensures NumSat([[1, 2], [-1, 2], [1, -2]], [1, 1]) == 3
    ensures NumSat([[1, 2], [-1, 2], [1, -2]], [0, 0]) == 2
  {
    var f: Formula := [[1, 2], [-1, 2], [1, -2]];
    assert LiteralTrue(f[0][0], [1, 1]) && LiteralTrue(f[1][1], [1, 1]) && LiteralTrue(f[2][0], [1, 1]);
    assert EvalFormula(f, [1, 1]) == [true, true, true];
    assert [true, true, true][..2] == [true, true] && [true, true][..1] == [true] && [true][..0] == [];
    assert !LiteralTrue(f[0][0], [0, 0]) && !LiteralTrue(f[0][1], [0, 0]);
    assert LiteralTrue(f[1][0], [0, 0]) && LiteralTrue(f[2][1], [0, 0]);
    assert EvalFormula(f, [0, 0]) == [false, true, true];
    assert [false, true, true][..2] == [false, true] && [false, true][..1] == [false] && [false][..0] == [];
  }

  // ---------------------------------------------------------------
  // The evaluator itself
  // ---------------------------------------------------------------

  /** `num_sat_clauses`: evaluates every clause in order and reports whether all
      hold, how many hold, and the per-clause flags. */
  method NumSatClauses(formula: Formula, assignment: seq<int>)
    returns (isSat: bool, numSat: nat, evalFormula: seq<bool>)
    requires WellFormed(formula, |assignment|)
    ensures |evalFormula| == |formula|
    ensures forall i | 0 <= i < |formula| :: evalFormula[i] == ClauseSatisfied(formula[i], assignment)
    ensures numSat == NumSat(formula, assignment) && numSat <= |formula|
    ensures isSat <==> numSat == |formula|
    ensures isSat <==> forall i | 0 <= i < |formula| :: ClauseSatisfied(formula[i], assignment)
  {
    evalFormula := [];
    for i := 0 to |formula|
      invariant |evalFormula| == i
      invariant forall k | 0 <= k < i :: evalFormula[k] == ClauseSatisfied(formula[k], assignment)
    {
      var clause := formula[i];
      var evalClause: seq<bool> := [];
      for j := 0 to |clause|
        invariant |evalClause| == j
        invariant forall k | 0 <= k < j :: evalClause[k] == LiteralTrue(clause[k], assignment)
      {
        var lit := clause[j];
        var evalLiteral := if lit < 0 then assignment[Abs(lit) - 1] == 0 else assignment[Abs(lit) - 1] != 0;
        evalClause := evalClause + [evalLiteral];
      }
      evalFormula := evalFormula + [Any(evalClause)];
    }
    assert evalFormula == EvalFormula(formula, assignment);
    isSat := All(evalFormula);
    numSat := CountTrue(evalFormula);
    CountTrueBounds(evalFormula);
  }

  /** `num_sat_clauses_tensor`: one count per batch row, each the count of that row.
      Its type check never raises (it asserts an exception object, which is truthy),
      so the model has no error path. */
  method NumSatClausesTensor(formula: Formula, rows: seq<seq<int>>) returns (counts: seq<nat>)
    requires forall b | 0 <= b < |rows| :: WellFormed(formula, |rows[b]|)
    ensures |counts| == |rows|
    ensures forall b | 0 <= b < |rows| :: counts[b] == NumSat(formula, rows[b]) && counts[b] <= |formula|
  {
    counts := [];
    for b := 0 to |rows|
      invariant |counts| == b
      invariant forall k | 0 <= k < b :: counts[k] == NumSat(formula, rows[k]) && counts[k] <= |formula|
    {
      var _, numSat, _ := NumSatClauses(formula, rows[b]);
      counts := counts + [numSat];
    }
  }

  /** `sampled_sol`: the largest count over the batch and the first row reaching it
      (strict comparison), or (0, None) when no row satisfies any clause. */
  method SampledSol(formula: Formula, rows: seq<seq<int>>)
    returns (bestNumSat: nat, bestAssignment: Option<seq<int>>)
    requires forall b | 0 <= b < |rows| :: WellFormed(formula, |rows[b]|)
    ensures forall b | 0 <= b < |rows| :: NumSat(formula, rows[b]) <= bestNumSat
    ensures bestAssignment.None? <==> bestNumSat == 0
    ensures bestAssignment.Some? ==>
              exists k | 0 <= k < |rows| ::
                && rows[k] == bestAssignment.value
                && NumSat(formula, rows[k]) == bestNumSat
                && forall j | 0 <= j < k :: NumSat(formula, rows[j]) < bestNumSat
  {
    bestNumSat, bestAssignment := 0, None;
    ghost var bestIndex := 0;
    for b := 0 to |rows|
      invariant forall j | 0 <= j < b :: NumSat(formula, rows[j]) <= bestNumSat
      invariant bestAssignment.None? <==> bestNumSat == 0
      invariant bestAssignment.Some? ==>
                  && bestIndex < b
                  && rows[bestIndex] == bestAssignment.value
                  && NumSat(formula, rows[bestIndex]) == bestNumSat
                  && forall j | 0 <= j < bestIndex :: NumSat(formula, rows[j]) < bestNumSat
    {
      var _, numSat, _ := NumSatClauses(formula, rows[b]);
      if numSat > bestNumSat {
        bestNumSat, bestAssignment := numSat, Some(rows[b]);
        bestIndex := b;
      }
    }
  }
}
