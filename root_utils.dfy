/** The top-level utils.py: `assignment_verifier` and its own copy of `dimacs2list`. */
module RootUtils {
  import opened Common
  import opened ClauseEval
  import Dimacs

  /** `assignment_verifier`: the same evaluation as `num_sat_clauses`, written again
      in this file. The formula is satisfied exactly when every clause has a true
      literal; the empty formula is satisfied with count 0. */
  method AssignmentVerifier(formula: Formula, assignment: seq<int>)
    returns (isSat: bool, numSat: nat, evalFormula: seq<bool>)
    requires WellFormed(formula, |assignment|)
    ensures evalFormula == EvalFormula(formula, assignment)
    ensures numSat == NumSat(formula, assignment)
    ensures isSat <==> forall i | 0 <= i < |formula| :: ClauseSatisfied(formula[i], assignment)
    ensures formula == [] ==> isSat && numSat == 0
  {
    evalFormula := [];
    for i := 0 to |formula|
      invariant |evalFormula| == i
      invariant forall k | 0 <= k < i :: evalFormula[k] == ClauseSatisfied(formula[k], assignment)
    {
      var clause := formula[i];
      var evalClause: seq<bool> := [];
      for j := 0 to |clause|
        invariant |evalClause| == j
        invariant forall k | 0 <= k < j :: evalClause[k] == LiteralTrue(clause[k], assignment)
      {
        var literal := clause[j];
        var evalLiteral;
        if literal < 0 {
          evalLiteral := assignment[Abs(literal) - 1] == 0;
        } else {
          evalLiteral := assignment[Abs(literal) - 1] != 0;
        }
        evalClause := evalClause + [evalLiteral];
      }
      evalFormula := evalFormula + [Any(evalClause)];
    }
    assert evalFormula == EvalFormula(formula, assignment);
    isSat := All(evalFormula);
    numSat := CountTrue(evalFormula);
  }

  /** `dimacs2list` of utils.py. It tests the `p` line with a separate `if` rather
      than an `elif` chain, which reads every line the same way as the copy in
      src/utils.py: both reach `line[0]` before any length test. */
  method Dimacs2List(lines: seq<Dimacs.Line>) returns (r: Result<Dimacs.Cnf, Dimacs.ParseError>)
    ensures r == Dimacs.Parse(lines)
  {
    var header: Option<(int, int)> := None;
    var formula: seq<seq<int>> := [];
    var i := 0;
    while i < |lines|
      invariant 0 <= i <= |lines|
      invariant Dimacs.Parse(lines) == Dimacs.ParseFrom(lines[i..], header, formula)
    {
      var line := lines[i];
      assert lines[i..][0] == line && lines[i..][1..] == lines[i + 1..];
      if |line| == 0 {
        return Failure(Dimacs.IndexError);
      }
      if line[0] == "p" {
        if |line| < 3 { return Failure(Dimacs.IndexError); }
        var n := ParseInt(line[2]);
        if n.None? { return Failure(Dimacs.ValueError(line[2])); }
        if |line| < 4 { return Failure(Dimacs.IndexError); }
        var m := ParseInt(line[3]);
        if m.None? { return Failure(Dimacs.ValueError(line[3])); }
        header := Some((n.value, m.value));
      }
      if line[0] != "p" && line[0] != "c" && line[0] != "%" {
        var clause := Dimacs.ReadClause(line);
        if clause.Failure? {
          return Failure(clause.error);
        }
        formula := formula + [clause.value];
      } else if line[0] == "%" {
        break;
      }
      i := i + 1;
    }
    r := Dimacs.Finish(header, formula);
  }
}
