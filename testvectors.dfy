/**
 * `read_testcases` of `MatMulTester1.py`: every line of the vector file is
 * stripped, split on ';' into exactly three Python literals (matrix,
 * vector, expected vector), whose lengths must be SIZE*SIZE, SIZE and SIZE.
 * Reading the file is abstracted to the sequence of its lines, and Python's
 * `eval` to a parameter.
 */
module TestVectors {
  import opened Common

  /**
   * `str.isspace`: the characters `str.strip()` removes.  The separator ';'
   * and the digits are never among them.
   */
  predicate IsSpace(c: char)
    ensures IsSpace(c) ==> c != ';' && !('0' <= c <= '9')
  {
    c == ' ' || c == '\t' || c == '\n' || c == '\r' || c == '\U{000B}' || c == '\U{000C}' ||
    ('\U{001C}' <= c <= '\U{001F}') || c == '\U{0085}' || c == '\U{00A0}' || c == '\U{1680}' ||
    ('\U{2000}' <= c <= '\U{200A}') || c == '\U{2028}' || c == '\U{2029}' || c == '\U{202F}' ||
    c == '\U{205F}' || c == '\U{3000}'
  }

  /**
   * Scanning from index `i` past whitespace: the first index at or after `i`
   * holding a non-space character, or |s| when there is none.
   */
  function FirstNonSpace(s: string, i: nat): (n: nat)
    requires i <= |s|
    requires forall k :: 0 <= k < i ==> IsSpace(s[k])
    ensures i <= n <= |s|
    ensures forall k :: 0 <= k < n ==> IsSpace(s[k])
    ensures n < |s| ==> !IsSpace(s[n])
    decreases |s| - i
  {
    if i < |s| && IsSpace(s[i]) then FirstNonSpace(s, i + 1) else i
  }

  /**
   * Scanning down from index `j` past whitespace, never below `lo`: one past
   * the last non-space character at or above `lo`, or `lo` when there is none.
   */
  function AfterLastNonSpace(s: string, lo: nat, j: nat): (n: nat)
    requires lo <= j <= |s|
    requires forall k :: j <= k < |s| ==> IsSpace(s[k])
    ensures lo <= n <= j
    ensures forall k :: n <= k < |s| ==> IsSpace(s[k])
    ensures n > lo ==> !IsSpace(s[n - 1])
    decreases j
  {
    if j > lo && IsSpace(s[j - 1]) then AfterLastNonSpace(s, lo, j - 1) else j
  }

  /**
   * `str.strip()`: a slice of `s` such that everything before and after it
   * is whitespace, and which neither begins nor ends with whitespace.
   */
  function Strip(s: string): (r: string)
    ensures exists lo, hi ::
      (0 <= lo <= hi <= |s| && r == s[lo..hi] &&
       (forall k :: 0 <= k < lo ==> IsSpace(s[k])) &&
       (forall k :: hi <= k < |s| ==> IsSpace(s[k])))
    ensures r != [] ==> !IsSpace(r[0]) && !IsSpace(r[|r| - 1])
  {
    var lo := FirstNonSpace(s, 0);
    var hi := AfterLastNonSpace(s, lo, |s|);
    s[lo..hi]
  }

  /** Stripping twice is stripping once. */
  lemma StripIdempotent(s: string)
    ensures Strip(Strip(s)) == Strip(s)
  {
    var r := Strip(s);
    if r != [] {
      assert FirstNonSpace(r, 0) == 0;
      assert AfterLastNonSpace(r, 0, |r|) == |r|;
    }
  }

  /** Glues fields back together with `sep` between neighbours. */
  function Join(fields: seq<string>, sep: char): string
    requires |fields| >= 1
  {
    if |fields| == 1 then fields[0] else fields[0] + [sep] + Join(fields[1..], sep)
  }

  /** `str.split(sep)`: the pieces of `s` between occurrences of `sep`, never none. */
  function Split(s: string, sep: char): (r: seq<string>)
    ensures |r| >= 1
  {
    if |s| == 0 then [""]
    else
      var rest := Split(s[1..], sep);
      if s[0] == sep then [""] + rest else [[s[0]] + rest[0]] + rest[1..]
  }

  /** Prepending a character to the first field prepends it to the joined text. */
  lemma JoinPrepend(c: char, fields: seq<string>, sep: char)
    requires |fields| >= 1
    ensures Join([[c] + fields[0]] + fields[1..], sep) == [c] + Join(fields, sep)
  {
    var moved := [[c] + fields[0]] + fields[1..];
    assert moved[1..] == fields[1..];
  }

  /** There is one more piece than there are separators. */
  lemma {:induction false} SplitCount(s: string, sep: char)
    ensures |Split(s, sep)| == multiset(s)[sep] + 1
  {
    if |s| > 0 {
      SplitCount(s[1..], sep);
      assert s == [s[0]] + s[1..];
      assert multiset(s)[sep] == multiset([s[0]])[sep] + multiset(s[1..])[sep];
    }
  }

  /** No piece holds the separator. */
  lemma {:induction false} SplitFieldsFree(s: string, sep: char)
    ensures forall k :: 0 <= k < |Split(s, sep)| ==> sep !in Split(s, sep)[k]
  {
    if |s| > 0 {
      SplitFieldsFree(s[1..], sep);
      var rest := Split(s[1..], sep);
      if s[0] != sep {
        assert forall c :: c in [s[0]] + rest[0] ==> c == s[0] || c in rest[0];
      }
    }
  }

  /** Joining the pieces with the separator gives `s` back. */
  lemma {:induction false} SplitJoin(s: string, sep: char)
    ensures Join(Split(s, sep), sep) == s
  {
    if |s| > 0 {
      var rest := Split(s[1..], sep);
      SplitJoin(s[1..], sep);
      if s[0] == sep {
        assert ([""] + rest)[1..] == rest;
      } else {
        JoinPrepend(s[0], rest, sep);
      }
    }
  }

  /** `Split` is the only way to cut `s` into `sep`-free pieces that join back to `s`. */
  lemma {:induction false} SplitUnique(s: string, sep: char, fields: seq<string>)
    requires |fields| >= 1 && Join(fields, sep) == s
    requires forall k :: 0 <= k < |fields| ==> sep !in fields[k]
    ensures Split(s, sep) == fields
    decreases |s|
  {
    var head := fields[0];
    if |fields| > 1 {
      assert s == head + [sep] + Join(fields[1..], sep);
    }
    if |s| == 0 {
      assert |fields| == 1;
    } else if s[0] == sep {
      assert head == [];
      assert |fields| > 1;
      assert s[1..] == Join(fields[1..], sep);
      SplitUnique(s[1..], sep, fields[1..]);
    } else {
      assert head != [] && s[0] == head[0];
      var shorter := [head[1..]] + fields[1..];
      assert shorter[1..] == fields[1..];
      assert head == [s[0]] + head[1..];
      JoinPrepend(s[0], shorter, sep);
      assert [[s[0]] + shorter[0]] + shorter[1..] == fields;
      assert Join(shorter, sep) == s[1..];
      forall k | 0 <= k < |shorter|
        ensures sep !in shorter[k]
      {
        if k == 0 {
          assert forall c :: c in head[1..] ==> c in head;
        } else {
          assert shorter[k] == fields[k];
        }
      }
      SplitUnique(s[1..], sep, shorter);
    }
  }

  /** What `eval` yields for one field: a sized literal (list, tuple, ...) or one without `len`. */
  datatype Literal = Sized(items: seq<int>) | Unsized

  /** Python's `eval` on one field; `None` when it raises. */
  type Eval = string -> Option<Literal>

  /** One test case, as `read_testcases` appends it. */
  datatype Case = Case(mtx: seq<int>, vec: seq<int>, vecOut: seq<int>)

  /** Why a line aborted the read, in the order Python would raise. */
  datatype LineError =
    | EvalFailed                 // `eval` raised on some field
    | FieldCount(count: nat)     // unpacking into three names failed
    | NoLength                   // `len` of a literal without a length
    | BadMatrixLength            // `len(mtx) != SIZE*SIZE`
    | BadVectorLength            // `len(vec) != SIZE`
    | BadExpectedLength          // `len(vec_out) != SIZE`

  datatype ReadError = ReadError(line: nat, reason: LineError)

  /** The list comprehension `[eval(x) for x in fields]`: all fields, or the first that raises. */
  function EvalAll(fields: seq<string>, eval: Eval): (r: Option<seq<Literal>>)
    ensures r.Some? <==> forall k :: 0 <= k < |fields| ==> eval(fields[k]).Some?
    ensures r.Some? ==>
      |r.value| == |fields| && forall k :: 0 <= k < |fields| ==> r.value[k] == eval(fields[k]).value
  {
    if fields == [] then Some([])
    else
      match eval(fields[0])
      case None => None
      case Some(head) =>
        match EvalAll(fields[1..], eval)
        case None => None
        case Some(tail) => Some([head] + tail)
  }

  /** One `assert len(x) == want`, with the TypeError of a literal without a length. */
  function LengthIs(lit: Literal, want: nat, err: LineError): (r: Result<seq<int>, LineError>)
    ensures r.Success? <==> lit.Sized? && |lit.items| == want
    ensures r.Success? ==> r.value == lit.items
    ensures r.Failure? ==> r.error == if lit.Unsized? then NoLength else err
  {
    if lit.Unsized? then Failure(NoLength)
    else if |lit.items| == want then Success(lit.items)
    else Failure(err)
  }

  /** Unpacks three evaluated fields and checks their lengths, in the order Python does. */
  function CheckFields(lits: seq<Literal>, size: nat): (r: Result<Case, LineError>)
    ensures |lits| != 3 ==> r == Failure(FieldCount(|lits|))
    ensures r.Success? <==>
      |lits| == 3 && lits[0].Sized? && lits[1].Sized? && lits[2].Sized? &&
      |lits[0].items| == size * size && |lits[1].items| == size && |lits[2].items| == size
    ensures r.Success? ==> r.value == Case(lits[0].items, lits[1].items, lits[2].items)
  {
    if |lits| != 3 then Failure(FieldCount(|lits|))
    else
      match LengthIs(lits[0], size * size, BadMatrixLength)
      case Failure(e) => Failure(e)
      case Success(mtx) =>
        match LengthIs(lits[1], size, BadVectorLength)
        case Failure(e) => Failure(e)
        case Success(vec) =>
          match LengthIs(lits[2], size, BadExpectedLength)
          case Failure(e) => Failure(e)
          case Success(vecOut) => Success(Case(mtx, vec, vecOut))
  }

  /**
   * The body of the loop of `read_testcases` for one line: strip, split on
   * ';', evaluate every field, then unpack and check the lengths.  The
   * unpacking fails only when there are not exactly three fields.
   */
  function ParseLine(line: string, size: nat, eval: Eval): (r: Result<Case, LineError>)
    ensures r.Failure? && r.error.FieldCount? ==> r.error.count != 3
  {
    match EvalAll(Split(Strip(line), ';'), eval)
    case None => Failure(EvalFailed)
    case Some(lits) => CheckFields(lits, size)
  }

  /**
   * A line whose stripped text does not hold exactly two ';' is rejected:
   * either a field fails to evaluate or the unpacking into three names fails.
   */
  lemma ParseLineNeedsThreeFields(line: string, size: nat, eval: Eval)
    requires multiset(Strip(line))[';'] != 2
    ensures ParseLine(line, size, eval) == Failure(EvalFailed) ||
            ParseLine(line, size, eval) == Failure(FieldCount(multiset(Strip(line))[';'] + 1))
  {
    SplitCount(Strip(line), ';');
  }

  /** A sized literal of the wanted length. */
  predicate SizedOf(lit: Option<Literal>, want: nat)
  {
    lit.Some? && lit.value.Sized? && |lit.value.items| == want
  }

  /**
   * For a stripped line `m;v;o` (no ';' inside a field), the line is
   * accepted exactly when the three fields evaluate to literals of SIZE*SIZE,
   * SIZE and SIZE entries, and the case holds those literals in that order.
   */
  lemma {:induction false} ParseLineOfThree(line: string, size: nat, eval: Eval, m: string, v: string, o: string)
    requires Strip(line) == m + [';'] + v + [';'] + o
    requires ';' !in m && ';' !in v && ';' !in o
    ensures ParseLine(line, size, eval).Success? <==>
      SizedOf(eval(m), size * size) && SizedOf(eval(v), size) && SizedOf(eval(o), size)
    ensures ParseLine(line, size, eval).Success? ==>
      ParseLine(line, size, eval).value == Case(eval(m).value.items, eval(v).value.items, eval(o).value.items)
  {
    assert [m, v, o][1..] == [v, o] && [v, o][1..] == [o];
    assert Join([v, o], ';') == v + [';'] + o;
    assert Join([m, v, o], ';') == m + [';'] + (v + [';'] + o);
    assert m + [';'] + (v + [';'] + o) == m + [';'] + v + [';'] + o;
    SplitUnique(Strip(line), ';', [m, v, o]);
  }

  /** An accepted line yields a case of the lengths `read_testcases` asserts. */
  lemma AcceptedLineSized(line: string, size: nat, eval: Eval)
    requires ParseLine(line, size, eval).Success?
    ensures var c := ParseLine(line, size, eval).value;
      |c.mtx| == size * size && |c.vec| == size && |c.vecOut| == size
  {
  }

  /**
   * `read_testcases`: one case per line, in file order; the first line that
   * fails aborts the whole read and nothing is returned.
   */
  method ReadTestcases(lines: seq<string>, size: nat, eval: Eval) returns (r: Result<seq<Case>, ReadError>)
    ensures r.Success? <==> forall k :: 0 <= k < |lines| ==> ParseLine(lines[k], size, eval).Success?
    ensures r.Success? ==>
      |r.value| == |lines| && forall k :: 0 <= k < |lines| ==> r.value[k] == ParseLine(lines[k], size, eval).value
    ensures r.Success? ==>
      forall c :: c in r.value ==> |c.mtx| == size * size && |c.vec| == size && |c.vecOut| == size
    ensures r.Failure? ==>
      r.error.line < |lines| &&
      ParseLine(lines[r.error.line], size, eval) == Failure(r.error.reason) &&
      forall k :: 0 <= k < r.error.line ==> ParseLine(lines[k], size, eval).Success?
  {
    var testcases: seq<Case> := [];
    var i := 0;
    while i < |lines|
      invariant 0 <= i <= |lines| && |testcases| == i
      invariant forall k :: 0 <= k < i ==>
        ParseLine(lines[k], size, eval).Success? && testcases[k] == ParseLine(lines[k], size, eval).value
    {
      var parsed := ParseLine(lines[i], size, eval);
      if parsed.Failure? {
        return Failure(ReadError(i, parsed.error));
      }
      testcases := testcases + [parsed.value];
      i := i + 1;
    }
    forall k | 0 <= k < |lines|
      ensures |testcases[k].mtx| == size * size && |testcases[k].vec| == size && |testcases[k].vecOut| == size
    {
      AcceptedLineSized(lines[k], size, eval);
    }
    return Success(testcases);
  }
}
