/** The variable-order generators of src/utils.py: `RandomVarsPermutation`, whose
    random draws are supplied by the caller, and `FixedVarsPermutation`, which
    orders variables by how often they occur in the formula. Both hand out a
    [num_variables, batch_size] table whose column b is the order for batch row b. */
module VarPermutation {
  import opened Common
  import opened ClauseEval

  /** s holds each of 0..n-1 exactly once. */
  predicate IsPermutation(s: seq<nat>, n: nat)
  {
    && |s| == n
    && (forall i | 0 <= i < |s| :: s[i] < n)
    && (forall i, j | 0 <= i < j < |s| :: s[i] != s[j])
  }

  function Identity(n: nat): (s: seq<nat>)
    ensures IsPermutation(s, n)
  {
    seq(n, i requires 0 <= i < n => i)
  }

  function Elements(s: seq<nat>): (r: set<nat>)
    ensures forall x :: x in r <==> x in s
  {
    set x | x in s
  }

  lemma {:induction false} DistinctElements(s: seq<nat>)
    requires forall i, j | 0 <= i < j < |s| :: s[i] != s[j]
    ensures |Elements(s)| == |s|
  {
    if s != [] {
      var tail := s[1..];
      forall i, j | 0 <= i < j < |tail| ensures tail[i] != tail[j] {
        assert tail[i] == s[i + 1] && tail[j] == s[j + 1];
      }
      DistinctElements(tail);
      assert s[0] !in tail by {
        forall k | 0 <= k < |tail| ensures tail[k] != s[0] {
          assert tail[k] == s[k + 1];
        }
      }
      assert s == [s[0]] + tail;
      assert Elements(s) == {s[0]} + Elements(tail);
    }
  }

  /** The set of naturals below n. */
  function Below(n: nat): (r: set<nat>)
    ensures forall x: nat :: x in r <==> x < n
    ensures |r| == n
  {
    if n == 0 then {} else Below(n - 1) + {n - 1}
  }

  /** Every v < n occurs in a permutation of 0..n-1 (n distinct values below n
      leave none out). */
  lemma PermutationCovers(s: seq<nat>, n: nat, v: nat)
    requires IsPermutation(s, n) && v < n
    ensures v in s
  {
    var elems := Elements(s);
    var range := Below(n);
    DistinctElements(s);
    assert elems <= range;
    var missing := range - elems;
    assert range == elems + missing;
    assert elems * missing == {};
    assert |missing| == 0;
    assert v in range;
  }

  // ---------------------------------------------------------------
  // Tables of orders
  // ---------------------------------------------------------------

  predicate Rectangular(table: seq<seq<nat>>, batchSize: nat)
  {
    forall t | 0 <= t < |table| :: |table[t]| == batchSize
  }

  /** Column b of a [num_variables, batch_size] table: the order of batch row b. */
  function Column(table: seq<seq<nat>>, b: nat): seq<nat>
    requires forall t | 0 <= t < |table| :: b < |table[t]|
  {
    seq(|table|, t requires 0 <= t < |table| => table[t][b])
  }

  /** n rows of batchSize entries, each column a permutation of 0..n-1. */
  predicate IsPermutationTable(table: seq<seq<nat>>, n: nat, batchSize: nat)
  {
    && |table| == n
    && Rectangular(table, batchSize)
    && (forall t, b | 0 <= t < n && 0 <= b < batchSize :: table[t][b] < n)
    && (forall b | 0 <= b < batchSize :: IsPermutation(Column(table, b), n))
  }

  /** `torch.cat([order.unsqueeze(0) ...], dim=0).permute(1,0)`: the same order in every column. */
  function Broadcast(order: seq<nat>, batchSize: nat): (table: seq<seq<nat>>)
    ensures |table| == |order| && Rectangular(table, batchSize)
    ensures forall b | 0 <= b < batchSize :: Column(table, b) == order
  {
    seq(|order|, t requires 0 <= t < |order| => seq(batchSize, _ => order[t]))
  }

  /** The draws stacked as rows, then transposed: column b is draws[b]. */
  function Transpose(draws: seq<seq<nat>>, n: nat): (table: seq<seq<nat>>)
    requires forall d | 0 <= d < |draws| :: |draws[d]| == n
    ensures |table| == n && Rectangular(table, |draws|)
    ensures forall b | 0 <= b < |draws| :: Column(table, b) == draws[b]
  {
    seq(n, t requires 0 <= t < n => seq(|draws|, b requires 0 <= b < |draws| => draws[b][t]))
  }

  datatype PermuteError = EmptyConcatenation  // `torch.cat` of an empty list, when batch_size is 0

  /** `RandomVarsPermutation`: its fields are set once, in `__init__`. */
  class RandomVarsPermutation {
    const numVariables: nat
    const randomBatch: bool

    constructor(numVariables: nat, randomBatch: bool)
      ensures this.numVariables == numVariables && this.randomBatch == randomBatch
    {
      this.numVariables := numVariables;
      this.randomBatch := randomBatch;
    }

    /** `permute(batch_size)`, given the results of its `torch.randperm` calls:
        one draw per batch row when randomBatch holds, one shared draw otherwise. */
    function Permute(batchSize: nat, draws: seq<seq<nat>>): (r: Result<seq<seq<nat>>, PermuteError>)
      requires |draws| == (if randomBatch then batchSize else 1)
      requires forall d | 0 <= d < |draws| :: IsPermutation(draws[d], numVariables)
      ensures r.Failure? <==> batchSize == 0
      ensures r.Success? ==> IsPermutationTable(r.value, numVariables, batchSize)
      ensures r.Success? ==> forall b | 0 <= b < batchSize ::
                Column(r.value, b) == if randomBatch then draws[b] else draws[0]
    {
      if batchSize == 0 then Failure(EmptyConcatenation)
      else if randomBatch then
        assert forall d | 0 <= d < |draws| :: IsPermutation(draws[d], numVariables) && |draws[d]| == numVariables;
        Success(Transpose(draws, numVariables))
      else
        assert IsPermutation(draws[0], numVariables);
        var table := Broadcast(draws[0], batchSize);
        assert forall b | 0 <= b < batchSize :: Column(table, b) == draws[0];
        Success(table)
    }
  }

  /** With a shared draw, every batch row gets the same order. */
  lemma SharedDrawSameColumns(p: RandomVarsPermutation, batchSize: nat, draws: seq<seq<nat>>, b: nat, b': nat)
    requires !p.randomBatch && |draws| == 1 && IsPermutation(draws[0], p.numVariables)
    requires b < batchSize && b' < batchSize
    ensures p.Permute(batchSize, draws).Success?
    ensures Column(p.Permute(batchSize, draws).value, b) == Column(p.Permute(batchSize, draws).value, b')
  {
  }

  // ---------------------------------------------------------------
  // Incidence order
  // ---------------------------------------------------------------

  function ClauseIncidence(clause: Clause, v: nat): nat
  {
    if clause == [] then 0
    else ClauseIncidence(clause[..|clause| - 1], v) + (if Abs(clause[|clause| - 1]) == v then 1 else 0)
  }

  /** Number of literal occurrences of variable v (1-based) in the formula. */
  function Incidence(formula: Formula, v: nat): nat
  {
    if formula == [] then 0
    else Incidence(formula[..|formula| - 1], v) + ClauseIncidence(formula[|formula| - 1], v)
  }

  /** A (variable, count) item; the sort key is (count, variable). */
  type Item = (nat, nat)

  /** Key of a at least key of b, comparing counts first, then variables. */
  predicate KeyAtLeast(a: Item, b: Item)
  {
    a.1 > b.1 || (a.1 == b.1 && a.0 >= b.0)
  }

  predicate SortedDescending(s: seq<Item>)
  {
    forall i, j | 0 <= i < j < |s| :: KeyAtLeast(s[i], s[j])
  }

  predicate Distinct(s: seq<Item>)
  {
    forall i, j | 0 <= i < j < |s| :: s[i] != s[j]
  }

  function Insert(x: Item, s: seq<Item>): seq<Item>
  {
    if s == [] then [x]
    else if KeyAtLeast(x, s[0]) then [x] + s
    else [s[0]] + Insert(x, s[1..])
  }

  /** Python's `sorted(items, key=lambda x: (x[1], x[0]), reverse=True)`. */
  function SortDescending(s: seq<Item>): seq<Item>
  {
    if s == [] then [] else Insert(s[0], SortDescending(s[1..]))
  }

  lemma {:induction false} InsertMembers(x: Item, s: seq<Item>)
    ensures multiset(Insert(x, s)) == multiset(s) + multiset{x}
    ensures |Insert(x, s)| == |s| + 1
    ensures forall y :: y in Insert(x, s) <==> y == x || y in s
  {
    if s != [] && !KeyAtLeast(x, s[0]) {
      InsertMembers(x, s[1..]);
      assert s == [s[0]] + s[1..];
    }
  }

  lemma SortedTail(s: seq<Item>)
    requires s != [] && SortedDescending(s)
    ensures SortedDescending(s[1..])
    ensures forall y | y in s[1..] :: KeyAtLeast(s[0], y)
  {
    var tail := s[1..];
    forall i, j | 0 <= i < j < |tail| ensures KeyAtLeast(tail[i], tail[j]) {
      assert tail[i] == s[i + 1] && tail[j] == s[j + 1];
    }
    forall y | y in tail ensures KeyAtLeast(s[0], y) {
      var k :| 0 <= k < |tail| && tail[k] == y;
      assert s[k + 1] == y;
    }
  }

  lemma DistinctTail(s: seq<Item>)
    requires s != [] && Distinct(s)
    ensures Distinct(s[1..]) && s[0] !in s[1..]
  {
    var tail := s[1..];
    forall i, j | 0 <= i < j < |tail| ensures tail[i] != tail[j] {
      assert tail[i] == s[i + 1] && tail[j] == s[j + 1];
    }
  }

  /** Putting y in front of a sequence whose items y's key bounds keeps it sorted. */
  lemma SortedCons(y: Item, s: seq<Item>)
    requires SortedDescending(s) && forall z | z in s :: KeyAtLeast(y, z)
    ensures SortedDescending([y] + s)
  {
    var r := [y] + s;
    forall i, j | 0 <= i < j < |r| ensures KeyAtLeast(r[i], r[j]) {
      assert r[j] == s[j - 1];
      if i > 0 {
        assert r[i] == s[i - 1];
      }
    }
  }

  lemma DistinctCons(y: Item, s: seq<Item>)
    requires Distinct(s) && y !in s
    ensures Distinct([y] + s)
  {
    var r := [y] + s;
    forall i, j | 0 <= i < j < |r| ensures r[i] != r[j] {
      assert r[j] == s[j - 1];
      if i > 0 {
        assert r[i] == s[i - 1];
      }
    }
  }

  lemma {:induction false} InsertSorted(x: Item, s: seq<Item>)
    requires SortedDescending(s)
    ensures SortedDescending(Insert(x, s))
  {
    if s == [] {
    } else if KeyAtLeast(x, s[0]) {
      SortedTail(s);
      forall z | z in s ensures KeyAtLeast(x, z) {
        if z != s[0] {
          assert s == [s[0]] + s[1..];
        }
      }
      SortedCons(x, s);
    } else {
      SortedTail(s);
      InsertSorted(x, s[1..]);
      InsertMembers(x, s[1..]);
      SortedCons(s[0], Insert(x, s[1..]));
    }
  }

  lemma {:induction false} InsertDistinct(x: Item, s: seq<Item>)
    requires Distinct(s) && x !in s
    ensures Distinct(Insert(x, s))
  {
    if s == [] {
    } else if KeyAtLeast(x, s[0]) {
      DistinctCons(x, s);
    } else {
      DistinctTail(s);
      InsertDistinct(x, s[1..]);
      InsertMembers(x, s[1..]);
      DistinctCons(s[0], Insert(x, s[1..]));
    }
  }

  /** The sort returns the same items, ordered by descending key, without repeats
      when the input has none. */
  lemma {:induction false} SortFacts(s: seq<Item>)
    ensures multiset(SortDescending(s)) == multiset(s)
    ensures |SortDescending(s)| == |s|
    ensures forall y :: y in SortDescending(s) <==> y in s
    ensures SortedDescending(SortDescending(s))
    ensures Distinct(s) ==> Distinct(SortDescending(s))
  {
    if s != [] {
      var tail := s[1..];
      var sortedTail := SortDescending(tail);
      SortFacts(tail);
      InsertMembers(s[0], sortedTail);
      InsertSorted(s[0], sortedTail);
      assert s == [s[0]] + tail;
      if Distinct(s) {
        DistinctTail(s);
        InsertDistinct(s[0], sortedTail);
      }
    }
  }

  /** The (variable, incidence) items in `var_count` order, variables 1..n. */
  function IncidenceItems(formula: Formula, n: nat): seq<Item>
  {
    seq(n, i requires 0 <= i < n => (i + 1, Incidence(formula, i + 1)))
  }

  /** Variables (0-based) by decreasing incidence, ties to the larger index. */
  function ImportanceOrder(formula: Formula, n: nat): (o: seq<nat>)
    ensures |o| == n
  {
    SortFacts(IncidenceItems(formula, n));
    var sorted := SortDescending(IncidenceItems(formula, n));
    // The items are the variables 1..n (SortedItemsFacts), so the `else 0` never applies.
    seq(|sorted|, i requires 0 <= i < |sorted| => if sorted[i].0 >= 1 then sorted[i].0 - 1 else 0)
  }

  /** The sorted items are the pairs (v, Incidence(v)) for v in 1..n, each once,
      in descending key order. */
  lemma SortedItemsFacts(formula: Formula, n: nat)
    ensures var sorted := SortDescending(IncidenceItems(formula, n));
      && |sorted| == n
      && SortedDescending(sorted)
      && Distinct(sorted)
      && forall i | 0 <= i < n :: 1 <= sorted[i].0 <= n && sorted[i].1 == Incidence(formula, sorted[i].0)
  {
    var items := IncidenceItems(formula, n);
    var sorted := SortDescending(items);
    assert Distinct(items);
    SortFacts(items);
    forall i | 0 <= i < n ensures 1 <= sorted[i].0 <= n && sorted[i].1 == Incidence(formula, sorted[i].0) {
      assert sorted[i] in items;
    }
  }

  /** The incidence order is a permutation of 0..n-1. */
  lemma ImportanceOrderIsPermutation(formula: Formula, n: nat)
    ensures IsPermutation(ImportanceOrder(formula, n), n)
  {
    var sorted := SortDescending(IncidenceItems(formula, n));
    var o := ImportanceOrder(formula, n);
    SortedItemsFacts(formula, n);
    forall i, j | 0 <= i < j < n ensures o[i] != o[j] {
      assert sorted[i] != sorted[j];
    }
  }

  /** Along the incidence order the counts never increase, and equal counts put
      the larger variable index first. */
  lemma ImportanceOrderRanked(formula: Formula, n: nat, i: nat, j: nat)
    requires i < j < n
    ensures var o := ImportanceOrder(formula, n);
      || Incidence(formula, o[i] + 1) > Incidence(formula, o[j] + 1)
      || (Incidence(formula, o[i] + 1) == Incidence(formula, o[j] + 1) && o[i] > o[j])
  {
    var sorted := SortDescending(IncidenceItems(formula, n));
    SortedItemsFacts(formula, n);
    assert KeyAtLeast(sorted[i], sorted[j]) && sorted[i] != sorted[j];
  }

  /** Literal j of clause i is the first, scanning clauses and then literals in
      order, whose variable is not in 1..n. */
  predicate FirstBadLiteral(formula: Formula, n: nat, i: int, j: int)
  {
    && 0 <= i < |formula| && 0 <= j < |formula[i]|
    && WellFormed(formula[..i], n) && ClauseOk(formula[i][..j], n)
    && !LiteralOk(formula[i][j], n)
  }

  /** The KeyError `var_count[var] += 1` raises for a variable outside 1..n. */
  datatype CountError = KeyError(key: nat)

  /** The incidence count of `FixedVarsPermutation.__init__`: a dictionary keyed
      1..n, each literal adding one to the entry of its variable. A literal whose
      variable is not a key (0, or beyond n) raises KeyError. */
  method CountIncidences(numVariables: nat, formula: Formula) returns (r: Result<map<nat, nat>, CountError>)
    ensures r.Failure? <==> !WellFormed(formula, numVariables)
    ensures r.Failure? ==> exists i, j :: FirstBadLiteral(formula, numVariables, i, j) && r.error == KeyError(Abs(formula[i][j]))
    ensures r.Success? ==> forall x: nat :: x in r.value <==> 1 <= x <= numVariables
    ensures r.Success? ==> forall x | x in r.value :: r.value[x] == Incidence(formula, x)
  {
    var varCount: map<nat, nat> := map[];
    for v := 0 to numVariables
      invariant forall x: nat :: x in varCount <==> 1 <= x <= v
      invariant forall x | x in varCount :: varCount[x] == 0
    {
      varCount := varCount[v + 1 := 0];
    }
    for i := 0 to |formula|
      invariant WellFormed(formula[..i], numVariables)
      invariant forall x: nat :: x in varCount <==> 1 <= x <= numVariables
      invariant forall x | x in varCount :: varCount[x] == Incidence(formula[..i], x)
    {
      var clause := formula[i];
      for j := 0 to |clause|
        invariant ClauseOk(clause[..j], numVariables)
        invariant forall x: nat :: x in varCount <==> 1 <= x <= numVariables
        invariant forall x | x in varCount :: varCount[x] == Incidence(formula[..i], x) + ClauseIncidence(clause[..j], x)
      {
        var v := Abs(clause[j]);
        if v !in varCount {
          assert !LiteralOk(formula[i][j], numVariables);
          return Failure(KeyError(v));
        }
        assert clause[..j + 1][..j] == clause[..j];
        varCount := varCount[v := varCount[v] + 1];
      }
      assert clause[..|clause|] == clause;
      assert formula[..i + 1][..i] == formula[..i];
      assert formula[..i + 1][i] == clause;
    }
    assert formula[..|formula|] == formula;
    return Success(varCount);
  }

  /** `FixedVarsPermutation`: the order is computed once, in `__init__`, and replayed. */
  class FixedVarsPermutation {
    const sortedVariables: seq<nat>

    constructor(sortedVariables: seq<nat>)
      ensures this.sortedVariables == sortedVariables
    {
      this.sortedVariables := sortedVariables;
    }

    /** `permute(batch_size)`: the stored order in every column, on every call. */
    function Permute(batchSize: nat): (r: Result<seq<seq<nat>>, PermuteError>)
      ensures r.Failure? <==> batchSize == 0
      ensures r.Success? ==> |r.value| == |sortedVariables| && Rectangular(r.value, batchSize)
      ensures r.Success? ==> forall b | 0 <= b < batchSize :: Column(r.value, b) == sortedVariables
      ensures r.Success? && IsPermutation(sortedVariables, |sortedVariables|) ==>
                IsPermutationTable(r.value, |sortedVariables|, batchSize)
    {
      if batchSize == 0 then Failure(EmptyConcatenation) else Success(Broadcast(sortedVariables, batchSize))
    }
  }

  /** `FixedVarsPermutation(num_variables, formula, importance)`: with
      `importance`, counts incidences, sorts the (variable, count) items by
      (count, variable) descending and keeps the 0-based variables; without it,
      the identity order. Only the counting can fail. */
  method NewFixedVarsPermutation(numVariables: nat, formula: Formula, importance: bool)
    returns (r: Result<FixedVarsPermutation, CountError>)
    ensures r.Failure? <==> importance && !WellFormed(formula, numVariables)
    ensures r.Failure? ==> exists i, j :: FirstBadLiteral(formula, numVariables, i, j) && r.error == KeyError(Abs(formula[i][j]))
    ensures r.Success? ==> fresh(r.value)
    ensures r.Success? ==>
      r.value.sortedVariables == if importance then ImportanceOrder(formula, numVariables) else Identity(numVariables)
  {
    if importance {
      var counted := CountIncidences(numVariables, formula);
      if counted.Failure? {
        return Failure(counted.error);
      }
      var varCount := counted.value;
      var items := seq(numVariables, i requires 0 <= i < numVariables => (i + 1, varCount[i + 1]));
      assert items == IncidenceItems(formula, numVariables);
      var sortedCounts := SortDescending(items);
      var order := seq(|sortedCounts|, i requires 0 <= i < |sortedCounts| =>
                     if sortedCounts[i].0 >= 1 then sortedCounts[i].0 - 1 else 0);
      var p := new FixedVarsPermutation(order);
      return Success(p);
    } else {
      var p := new FixedVarsPermutation(seq(numVariables, i requires 0 <= i < numVariables => i));
      return Success(p);
    }
  }

  /** Whichever way it was built, the fixed order is a permutation of 0..n-1. */
  lemma FixedOrderIsPermutation(numVariables: nat, formula: Formula, importance: bool, p: FixedVarsPermutation)
    requires p.sortedVariables == if importance then ImportanceOrder(formula, numVariables) else Identity(numVariables)
    ensures IsPermutation(p.sortedVariables, numVariables)
  {
    if importance {
      ImportanceOrderIsPermutation(formula, numVariables);
    }
  }
}
