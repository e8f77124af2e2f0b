/** The DIMACS CNF reader `dimacs2list` of src/utils.py, over text already split
    into lines and each line into whitespace-separated tokens. `Parse` is its
    specification; `Print` writes a formula back as DIMACS lines. */
module Dimacs {
  import opened Common

  /** One text line, split on whitespace. */
  type Line = seq<string>

  /** The header's variable and clause counts, and the clauses in file order. */
  datatype Cnf = Cnf(n: int, m: int, formula: seq<seq<int>>)

  /** IndexError: a line with no tokens, or a `p` line too short;
      ValueError: a token that `int` rejects;
      UnboundHeader: no `p` line was read, so `n` and `m` are unbound at return. */
  datatype ParseError = IndexError | ValueError(token: string) | UnboundHeader

  /** The literals of a clause line: its tokens read as integers up to, and not
      including, the first 0; tokens after that 0 are never read. */
  function ClauseOf(tokens: seq<string>): Result<seq<int>, ParseError>
  {
    if tokens == [] then Success([])
    else match ParseInt(tokens[0])
      case None => Failure(ValueError(tokens[0]))
      case Some(lit) =>
        if lit == 0 then Success([])
        else match ClauseOf(tokens[1..])
          case Failure(e) => Failure(e)
          case Success(rest) => Success([lit] + rest)
  }

  /** `n = int(line[2])` then `m = int(line[3])`, in that order. */
  function Header(line: Line): Result<(int, int), ParseError>
  {
    if |line| < 3 then Failure(IndexError)
    else match ParseInt(line[2])
      case None => Failure(ValueError(line[2]))
      case Some(n) =>
        if |line| < 4 then Failure(IndexError)
        else match ParseInt(line[3])
          case None => Failure(ValueError(line[3]))
          case Some(m) => Success((n, m))
  }

  function Finish(header: Option<(int, int)>, formula: seq<seq<int>>): Result<Cnf, ParseError>
  {
    match header
    case None => Failure(UnboundHeader)
    case Some(h) => Success(Cnf(h.0, h.1, formula))
  }

  /** The scan from some line on, given the header read so far and the clauses
      collected so far. */
  function ParseFrom(lines: seq<Line>, header: Option<(int, int)>, formula: seq<seq<int>>): Result<Cnf, ParseError>
    decreases |lines|
  {
    if lines == [] then Finish(header, formula)
    else
      var line := lines[0];
      if |line| == 0 then Failure(IndexError)
      else if line[0] == "p" then
        match Header(line)
        case Failure(e) => Failure(e)
        case Success(h) => ParseFrom(lines[1..], Some(h), formula)
      else if line[0] == "c" then ParseFrom(lines[1..], header, formula)
      else if line[0] == "%" then Finish(header, formula)
      else
        match ClauseOf(line)
        case Failure(e) => Failure(e)
        case Success(c) => ParseFrom(lines[1..], header, formula + [c])
  }

  function Parse(lines: seq<Line>): Result<Cnf, ParseError>
  {
    ParseFrom(lines, None, [])
  }

  /** The literals already collected, put in front of the rest of a clause line. */
  function Prepend(clause: seq<int>, rest: Result<seq<int>, ParseError>): Result<seq<int>, ParseError>
  {
    match rest
    case Failure(e) => Failure(e)
    case Success(c) => Success(clause + c)
  }

  // ---------------------------------------------------------------
  // The writer, the partner of the reader
  // ---------------------------------------------------------------

  function ClauseLine(clause: seq<int>): Line
  {
    seq(|clause|, i requires 0 <= i < |clause| => IntToString(clause[i])) + ["0"]
  }

  function ClauseLines(formula: seq<seq<int>>): seq<Line>
  {
    seq(|formula|, i requires 0 <= i < |formula| => ClauseLine(formula[i]))
  }

  /** A header line `p cnf n m` followed by one 0-terminated line per clause. */
  function Print(cnf: Cnf): seq<Line>
  {
    [["p", "cnf", IntToString(cnf.n), IntToString(cnf.m)]] + ClauseLines(cnf.formula)
  }

  predicate NonZeroLiterals(formula: seq<seq<int>>)
  {
    forall i, j | 0 <= i < |formula| && 0 <= j < |formula[i]| :: formula[i][j] != 0
  }

  lemma FirstCharOfInt(x: int)
    ensures |IntToString(x)| >= 1
    ensures IntToString(x)[0] == '-' || IsDigit(IntToString(x)[0])
  {
  }

  lemma {:induction false} ClauseLineRoundTrip(clause: seq<int>)
    requires forall j | 0 <= j < |clause| :: clause[j] != 0
    ensures ClauseOf(ClauseLine(clause)) == Success(clause)
  {
    if clause != [] {
      var line := ClauseLine(clause);
      ParseIntToString(clause[0]);
      assert line[1..] == ClauseLine(clause[1..]);
      ClauseLineRoundTrip(clause[1..]);
      assert [clause[0]] + clause[1..] == clause;
    }
  }

  /** A clause line starts with a literal or with its terminating 0, never with `p`, `c` or `%`. */
  lemma ClauseLineIsClause(clause: seq<int>)
    ensures var line := ClauseLine(clause); line != [] && line[0] != "p" && line[0] != "c" && line[0] != "%"
  {
    var line := ClauseLine(clause);
    if clause == [] {
      assert line[0] == "0";
    } else {
      FirstCharOfInt(clause[0]);
      assert line[0] == IntToString(clause[0]);
      assert line[0][0] == '-' || IsDigit(line[0][0]);
    }
  }

  /** A clause line adds its clause and the scan goes on with the next line. */
  lemma ParseClauseLine(lines: seq<Line>, header: Option<(int, int)>, acc: seq<seq<int>>, c: seq<int>)
    requires lines != [] && lines[0] != [] && lines[0][0] != "p" && lines[0][0] != "c" && lines[0][0] != "%"
    requires ClauseOf(lines[0]) == Success(c)
    ensures ParseFrom(lines, header, acc) == ParseFrom(lines[1..], header, acc + [c])
  {
  }

  /** The first printed clause line is read back as the first clause. */
  lemma ClauseLinesStep(rest: seq<seq<int>>, header: Option<(int, int)>, acc: seq<seq<int>>)
    requires rest != [] && NonZeroLiterals(rest)
    ensures NonZeroLiterals(rest[1..])
    ensures ParseFrom(ClauseLines(rest), header, acc) == ParseFrom(ClauseLines(rest[1..]), header, acc + [rest[0]])
  {
    var lines := ClauseLines(rest);
    assert lines[0] == ClauseLine(rest[0]);
    ClauseLineIsClause(rest[0]);
    ClauseLineRoundTrip(rest[0]);
    ParseClauseLine(lines, header, acc, rest[0]);
    assert lines[1..] == ClauseLines(rest[1..]);
  }

  lemma {:induction false} ClauseLinesRoundTrip(rest: seq<seq<int>>, h: (int, int), acc: seq<seq<int>>)
    requires NonZeroLiterals(rest)
    ensures ParseFrom(ClauseLines(rest), Some(h), acc) == Success(Cnf(h.0, h.1, acc + rest))
  {
    if rest == [] {
      assert acc + rest == acc;
    } else {
      ClauseLinesStep(rest, Some(h), acc);
      ClauseLinesRoundTrip(rest[1..], h, acc + [rest[0]]);
      assert acc + [rest[0]] + rest[1..] == acc + rest;
    }
  }

  /** Reading what the writer wrote gives back the header counts and every
      clause, in order: n and m come from tokens 2 and 3 of the `p` line and each
      clause line yields exactly one clause. */
  lemma PrintParseRoundTrip(cnf: Cnf)
    requires NonZeroLiterals(cnf.formula)
    ensures Parse(Print(cnf)) == Success(cnf)
  {
    var lines := Print(cnf);
    var body := ClauseLines(cnf.formula);
    var headerLine: Line := ["p", "cnf", IntToString(cnf.n), IntToString(cnf.m)];
    assert lines == [headerLine] + body;
    ParseIntToString(cnf.n);
    ParseIntToString(cnf.m);
    assert Header(headerLine) == Success((cnf.n, cnf.m));
    assert ([headerLine] + body)[1..] == body;
    assert ParseFrom([headerLine] + body, None, []) == ParseFrom(body, Some((cnf.n, cnf.m)), []);
    ClauseLinesRoundTrip(cnf.formula, (cnf.n, cnf.m), []);
    assert [] + cnf.formula == cnf.formula;
  }

  // ---------------------------------------------------------------
  // Properties of the scan
  // ---------------------------------------------------------------

  /** A clause line contributes its literals up to the first token that reads as 0;
      whatever follows on that line is ignored, even tokens `int` would reject. */
  lemma {:induction false} ClauseIgnoresTail(tokens: seq<string>, k: nat)
    requires k < |tokens| && ParseInt(tokens[k]) == Some(0)
    ensures ClauseOf(tokens) == ClauseOf(tokens[..k + 1])
  {
    if k > 0 {
      assert tokens[1..][..k] == tokens[..k + 1][1..];
      ClauseIgnoresTail(tokens[1..], k - 1);
    }
  }

  /** A `%` line ends the scan: nothing after it is read. */
  lemma {:induction false} PercentEndsScan(lines: seq<Line>, k: nat, header: Option<(int, int)>, formula: seq<seq<int>>)
    requires k < |lines| && |lines[k]| > 0 && lines[k][0] == "%"
    ensures ParseFrom(lines, header, formula) == ParseFrom(lines[..k + 1], header, formula)
  {
    var cut := lines[..k + 1];
    assert cut[0] == lines[0];
    if k > 0 {
      assert cut[1..] == lines[1..][..k];
      var line := lines[0];
      if |line| > 0 && line[0] == "p" {
        match Header(line)
        case Failure(_) =>
        case Success(h) => PercentEndsScan(lines[1..], k - 1, Some(h), formula);
      } else if |line| > 0 && line[0] == "c" {
        PercentEndsScan(lines[1..], k - 1, header, formula);
      } else if |line| > 0 && line[0] != "%" {
        match ClauseOf(line)
        case Failure(_) =>
        case Success(c) => PercentEndsScan(lines[1..], k - 1, header, formula + [c]);
      }
    }
  }

  /** A `c` line contributes no clause and leaves the header alone. */
  lemma {:induction false} CommentIgnored(before: seq<Line>, comment: Line, after: seq<Line>,
                                          header: Option<(int, int)>, formula: seq<seq<int>>)
    requires |comment| > 0 && comment[0] == "c"
    ensures ParseFrom(before + [comment] + after, header, formula) == ParseFrom(before + after, header, formula)
  {
    var lines := before + [comment] + after;
    if before == [] {
      assert lines[1..] == after;
      assert before + after == after;
    } else {
      var line := before[0];
      assert lines[0] == line && (before + after)[0] == line;
      assert lines[1..] == before[1..] + [comment] + after;
      assert (before + after)[1..] == before[1..] + after;
      if |line| > 0 && line[0] == "p" {
        match Header(line)
        case Failure(_) =>
        case Success(h) => CommentIgnored(before[1..], comment, after, Some(h), formula);
      } else if |line| > 0 && line[0] == "c" {
        CommentIgnored(before[1..], comment, after, header, formula);
      } else if |line| > 0 && line[0] != "%" {
        match ClauseOf(line)
        case Failure(_) =>
        case Success(c) => CommentIgnored(before[1..], comment, after, header, formula + [c]);
      }
    }
  }

  predicate NoLineStarts(lines: seq<Line>, token: string)
  {
    forall i | 0 <= i < |lines| :: |lines[i]| > 0 && lines[i][0] != token
  }

  /** Without a `p` line the reader fails: on an empty line (IndexError), on a
      malformed line or, having scanned everything, because `n` and `m` were
      never bound. */
  lemma {:induction false} NoHeaderFails(lines: seq<Line>, formula: seq<seq<int>>)
    requires forall i | 0 <= i < |lines| :: |lines[i]| > 0 ==> lines[i][0] != "p"
    ensures ParseFrom(lines, None, formula).Failure?
  {
    if lines != [] {
      var line := lines[0];
      assert line == lines[0];
      assert forall i | 0 <= i < |lines[1..]| :: |lines[1..][i]| > 0 ==> lines[1..][i][0] != "p" by {
        forall i | 0 <= i < |lines[1..]| ensures |lines[1..][i]| > 0 ==> lines[1..][i][0] != "p" {
          assert lines[1..][i] == lines[i + 1];
        }
      }
      if line == [] {
      } else if line[0] == "c" {
        NoHeaderFails(lines[1..], formula);
      } else if line[0] != "%" {
        match ClauseOf(line)
        case Failure(_) =>
        case Success(c) => NoHeaderFails(lines[1..], formula + [c]);
      }
    }
  }

  /** A clause line can only fail on a token `int` rejects. */
  lemma {:induction false} ClauseOfFailsOnToken(tokens: seq<string>)
    ensures ClauseOf(tokens).Failure? ==> ClauseOf(tokens).error.ValueError?
  {
    if tokens != [] && ParseInt(tokens[0]).Some? && ParseInt(tokens[0]).value != 0 {
      ClauseOfFailsOnToken(tokens[1..]);
    }
  }

  /** An empty line reached before any `%` line is an IndexError: text that ends
      with a newline (so its split ends with an empty line) and has no `%` line
      cannot be read. The IndexError is what it raises unless an earlier line
      has already raised its own error. */
  lemma {:induction false} TrailingEmptyLineFails(lines: seq<Line>, header: Option<(int, int)>, formula: seq<seq<int>>)
    requires NoLineStarts(lines, "%")
    ensures var before := ParseFrom(lines, header, formula);
      ParseFrom(lines + [[]], header, formula)
        == if before.Failure? && before.error != UnboundHeader then before else Failure(IndexError)
  {
    var all := lines + [[]];
    if lines != [] {
      var line := lines[0];
      assert all[0] == line;
      assert all[1..] == lines[1..] + [[]];
      assert NoLineStarts(lines[1..], "%") by {
        forall i | 0 <= i < |lines[1..]| ensures |lines[1..][i]| > 0 && lines[1..][i][0] != "%" {
          assert lines[1..][i] == lines[i + 1];
        }
      }
      if line[0] == "p" {
        match Header(line)
        case Failure(_) =>
        case Success(h) => TrailingEmptyLineFails(lines[1..], Some(h), formula);
      } else if line[0] == "c" {
        TrailingEmptyLineFails(lines[1..], header, formula);
      } else {
        ClauseOfFailsOnToken(line);
        match ClauseOf(line)
        case Failure(_) =>
        case Success(c) => TrailingEmptyLineFails(lines[1..], header, formula + [c]);
      }
    } else {
      assert all[0] == [];
    }
  }

  // ---------------------------------------------------------------
  // The reader as the source runs it
  // ---------------------------------------------------------------

  /** Reading a non-zero literal moves it from the rest of the line onto the clause. */
  lemma ClauseStep(clause: seq<int>, tokens: seq<string>, lit: int)
    requires tokens != [] && ParseInt(tokens[0]) == Some(lit) && lit != 0
    ensures Prepend(clause, ClauseOf(tokens)) == Prepend(clause + [lit], ClauseOf(tokens[1..]))
  {
    match ClauseOf(tokens[1..])
    case Failure(_) =>
    case Success(c) => assert clause + ([lit] + c) == clause + [lit] + c;
  }

  /** The inner loop of `dimacs2list`: read tokens as integers, stop at the
      first 0, fail on the first token `int` rejects. */
  method ReadClause(line: Line) returns (r: Result<seq<int>, ParseError>)
    ensures r == ClauseOf(line)
  {
    var clause: seq<int> := [];
    var j := 0;
    assert line[0..] == line;
    assert ClauseOf(line) == Prepend([], ClauseOf(line)) by {
      match ClauseOf(line)
      case Failure(_) =>
      case Success(c) => assert [] + c == c;
    }
    while j < |line|
      invariant 0 <= j <= |line|
      invariant ClauseOf(line) == Prepend(clause, ClauseOf(line[j..]))
    {
      assert line[j..][0] == line[j] && line[j..][1..] == line[j + 1..];
      var literal := ParseInt(line[j]);
      if literal.None? {
        return Failure(ValueError(line[j]));
      }
      if literal.value == 0 {
        assert clause + [] == clause;
        break;
      }
      ClauseStep(clause, line[j..], literal.value);
      clause := clause + [literal.value];
      j := j + 1;
    }
    if j == |line| {
      assert line[j..] == [];
      assert clause + [] == clause;
    }
    r := Success(clause);
  }

  /** `dimacs2list` (src/utils.py) after the file has been read and split:
      an `if`/`elif` chain per line, clauses appended in order, a `break` at `%`. */
  method Dimacs2List(lines: seq<Line>) returns (r: Result<Cnf, ParseError>)
    ensures r == Parse(lines)
  {
    var header: Option<(int, int)> := None;
    var formula: seq<seq<int>> := [];
    var i := 0;
    while i < |lines|
      invariant 0 <= i <= |lines|
      invariant Parse(lines) == ParseFrom(lines[i..], header, formula)
    {
      var line := lines[i];
      assert lines[i..][0] == line && lines[i..][1..] == lines[i + 1..];
      if |line| == 0 {
        return Failure(IndexError);
      }
      if line[0] == "p" {
        if |line| < 3 { return Failure(IndexError); }
        var n := ParseInt(line[2]);
        if n.None? { return Failure(ValueError(line[2])); }
        if |line| < 4 { return Failure(IndexError); }
        var m := ParseInt(line[3]);
        if m.None? { return Failure(ValueError(line[3])); }
        header := Some((n.value, m.value));
      } else if line[0] != "p" && line[0] != "c" && line[0] != "%" {
        var clause := ReadClause(line);
        if clause.Failure? {
          return Failure(clause.error);
        }
        formula := formula + [clause.value];
      } else if line[0] == "%" {
        break;
      }
      i := i + 1;
    }
    r := Finish(header, formula);
  }
}
