/**
 * The comparison operators of CHECK expressions: parsing an operator
 * token and evaluating an operator on two strings.  Regular-expression
 * search (MATCHES) and Python's float() conversion are outside the model
 * and are passed in as functions.
 */
module Operations {
  import opened Wrappers
  import opened PyStrings

  datatype Operation =
    | EQUALS | DIFFERS | CONTAINS | MATCHES
    | GREATER | GREATER_EQUAL | LESS | LESS_EQUAL

  /** The enum value of each member. */
  function Value(op: Operation): (v: int)
    ensures op.EQUALS? || op.DIFFERS? || op.CONTAINS? || op.MATCHES? <==> 0 <= v <= 3
    ensures op.GREATER? || op.GREATER_EQUAL? || op.LESS? || op.LESS_EQUAL? <==> 10 <= v <= 13
  {
    match op
    case EQUALS => 0
    case DIFFERS => 1
    case CONTAINS => 2
    case MATCHES => 3
    case GREATER => 10
    case GREATER_EQUAL => 11
    case LESS => 12
    case LESS_EQUAL => 13
  }

  /** str(op): the member name. */
  function Name(op: Operation): string {
    match op
    case EQUALS => "EQUALS"
    case DIFFERS => "DIFFERS"
    case CONTAINS => "CONTAINS"
    case MATCHES => "MATCHES"
    case GREATER => "GREATER"
    case GREATER_EQUAL => "GREATER_EQUAL"
    case LESS => "LESS"
    case LESS_EQUAL => "LESS_EQUAL"
  }

  /** Operation[n]: the member called exactly n. */
  function ByName(n: string): (r: Option<Operation>)
    ensures r.Some? ==> Name(r.value) == n
  {
    if n == "EQUALS" then Some(EQUALS)
    else if n == "DIFFERS" then Some(DIFFERS)
    else if n == "CONTAINS" then Some(CONTAINS)
    else if n == "MATCHES" then Some(MATCHES)
    else if n == "GREATER" then Some(GREATER)
    else if n == "GREATER_EQUAL" then Some(GREATER_EQUAL)
    else if n == "LESS" then Some(LESS)
    else if n == "LESS_EQUAL" then Some(LESS_EQUAL)
    else None
  }

  /** The symbolic and two-letter spellings accepted for an operator
      (compared case-sensitively). */
  function Aliases(op: Operation): set<string> {
    match op
    case EQUALS => {"==", "eq"}
    case DIFFERS => {"!=", "ne"}
    case LESS => {"<", "lt"}
    case GREATER => {">", "gt"}
    case LESS_EQUAL => {"<=", "le"}
    case GREATER_EQUAL => {">=", "ge"}
    case CONTAINS => {}
    case MATCHES => {}
  }

  /** OperationInterpreter.parse_operation: a member name in any letter
      case, else a case-sensitive alias. */
  function ParseOperation(s: string): Option<Operation> {
    var byName := ByName(Upper(s));
    if byName.Some? then byName else AliasOf(s)
  }

  /** The operator an alias spells, if s is one. */
  function AliasOf(s: string): Option<Operation> {
    if s == "==" || s == "eq" then Some(EQUALS)
    else if s == "!=" || s == "ne" then Some(DIFFERS)
    else if s == "<" || s == "lt" then Some(LESS)
    else if s == ">" || s == "gt" then Some(GREATER)
    else if s == "<=" || s == "le" then Some(LESS_EQUAL)
    else if s == ">=" || s == "ge" then Some(GREATER_EQUAL)
    else None
  }

  /** Each alias belongs to exactly one operator. */
  lemma AliasOfIff(s: string, op: Operation)
    ensures AliasOf(s) == Some(op) <==> s in Aliases(op)
  {
  }

  /** Every member name has at least four characters. */
  lemma NamesAreLong(n: string)
    ensures ByName(n).Some? ==> |n| >= 4
  {
    if ByName(n).Some? {
      var op := ByName(n).value;
      assert |Name(op)| >= 4;
    }
  }

  /** Each member is found under its own name. */
  lemma ByNameName(op: Operation)
    ensures ByName(Name(op)) == Some(op)
  {
  }

  /** No alias is, once upper-cased, the name of a member: aliases have at
      most two characters. */
  lemma AliasesAreNotNames(s: string, op: Operation)
    requires s in Aliases(op)
    ensures ByName(Upper(s)) == None
  {
    assert |s| <= 2;
    NamesAreLong(Upper(s));
  }

  /** A token parses to an operator exactly when it is that operator's name in
      any letter case or one of its case-sensitive aliases. */
  lemma ParseOperationIff(s: string, op: Operation)
    ensures ParseOperation(s) == Some(op) <==> Upper(s) == Name(op) || s in Aliases(op)
  {
    AliasOfIff(s, op);
    if s in Aliases(op) {
      AliasesAreNotNames(s, op);
    }
    if Upper(s) == Name(op) {
      ByNameName(op);
    }
  }

  /** A token parses to nothing exactly when it is no member name in any case
      and no alias. */
  lemma ParseOperationNone(s: string)
    ensures ParseOperation(s) == None
        <==> ByName(Upper(s)) == None && forall op :: s !in Aliases(op)
  {
    if ParseOperation(s) == None {
      forall op
        ensures s !in Aliases(op)
      {
        ParseOperationIff(s, op);
      }
    } else {
      var op := ParseOperation(s).value;
      ParseOperationIff(s, op);
    }
  }

  /** Names are upper-case, so every member name and its lower-case spelling
      parse back to the member. */
  lemma ParseName(op: Operation)
    ensures ParseOperation(Name(op)) == Some(op)
    ensures ParseOperation(Lower(Name(op))) == Some(op)
  {
    var n := Name(op);
    assert forall i :: 0 <= i < |n| ==> 'A' <= n[i] <= 'Z' || n[i] == '_';
    assert Upper(n) == n;
    assert Upper(Lower(n)) == n;
    ParseOperationIff(n, op);
    ParseOperationIff(Lower(n), op);
  }

  lemma ParseLowerCaseName()
    ensures ParseOperation("equals") == Some(EQUALS)
  {
    assert Upper("equals") == "EQUALS";
  }

  lemma ParseMixedCaseName()
    ensures ParseOperation("Less_Equal") == Some(LESS_EQUAL)
  {
    assert Upper("Less_Equal") == "LESS_EQUAL";
  }

  /** Aliases are case-sensitive: "ge" parses, "GE" does not, nor does "=". */
  lemma ParseAliasCase()
    ensures ParseOperation("ge") == Some(GREATER_EQUAL)
    ensures ParseOperation("GE") == None
    ensures ParseOperation("=") == None
  {
    NamesAreLong(Upper("ge"));
    NamesAreLong(Upper("GE"));
    NamesAreLong(Upper("="));
  }

  /** Python's three-way comparison of two str values by code point. */
  function Compare(a: string, b: string): (c: int)
    ensures -1 <= c <= 1
  {
    if a == [] && b == [] then 0
    else if a == [] then -1
    else if b == [] then 1
    else if a[0] < b[0] then -1
    else if a[0] > b[0] then 1
    else Compare(a[1..], b[1..])
  }

  lemma {:induction false} CompareZero(a: string, b: string)
    ensures Compare(a, b) == 0 <==> a == b
  {
    if a != [] && b != [] && a[0] == b[0] {
      CompareZero(a[1..], b[1..]);
      assert a == [a[0]] + a[1..] && b == [b[0]] + b[1..];
    }
  }

  lemma {:induction false} CompareSwap(a: string, b: string)
    ensures Compare(b, a) == -Compare(a, b)
  {
    if a != [] && b != [] && a[0] == b[0] {
      CompareSwap(a[1..], b[1..]);
    }
  }

  /** The first line of a text: everything before the first "\n". */
  function FirstLine(left: string): string {
    Split(left, "\n")[0]
  }

  /** A Python float: a finite value, an infinity (negative or not), or
      NaN. */
  datatype PyFloat = Num(r: real) | Inf(negative: bool) | NaN

  /** Python's `<` on floats: false whenever an operand is NaN; otherwise
      -inf < every finite value < inf. */
  function FloatLess(a: PyFloat, b: PyFloat): (lt: bool)
    ensures lt ==> !a.NaN? && !b.NaN? && a != b
  {
    match (a, b)
    case (Num(x), Num(y)) => x < y
    case (Inf(true), Num(_)) => true
    case (Inf(true), Inf(false)) => true
    case (Num(_), Inf(false)) => true
    case _ => false
  }

  /** Python's `<=` on floats: false whenever an operand is NaN. */
  function FloatLessEq(a: PyFloat, b: PyFloat): (le: bool)
    ensures le <==> FloatLess(a, b) || (a == b && !a.NaN?)
  {
    FloatLess(a, b) || (a == b && !a.NaN?)
  }

  /** OperationInterpreter.interpret_operation.  `search(pattern, text)` stands
      for re.search(...) is not None, and `toFloat` for float(), None when it
      raises ValueError. */
  function Interpret(op: Operation, left: string, right: string,
                     search: (string, string) -> bool,
                     toFloat: string -> Option<PyFloat>): bool
  {
    var numeric := toFloat(left).Some? && toFloat(right).Some?;
    match op
    case EQUALS => Strip(right) == Strip(FirstLine(left))
    case DIFFERS => Strip(right) != Strip(FirstLine(left))
    case CONTAINS => Contains(left, Strip(right))
    case MATCHES => search(right, left)
    case LESS =>
      if numeric then FloatLess(toFloat(left).value, toFloat(right).value) else Compare(left, right) < 0
    case GREATER =>
      if numeric then FloatLess(toFloat(right).value, toFloat(left).value) else Compare(left, right) > 0
    case LESS_EQUAL =>
      if numeric then FloatLessEq(toFloat(left).value, toFloat(right).value) else Compare(left, right) <= 0
    case GREATER_EQUAL =>
      if numeric then FloatLessEq(toFloat(right).value, toFloat(left).value) else Compare(left, right) >= 0
  }

  /** Both operands convert to floats and one of them is NaN. */
  predicate NaNOperands(left: string, right: string, toFloat: string -> Option<PyFloat>) {
    toFloat(left).Some? && toFloat(right).Some? && (toFloat(left).value.NaN? || toFloat(right).value.NaN?)
  }

  /** The text before index k, or all of it when k is -1. */
  function LineBefore(s: string, k: int): string
    requires -1 <= k <= |s|
  {
    if k < 0 then s else s[..k]
  }

  /** EQUALS compares the trimmed expected value with the trimmed text before
      the first newline of the left operand. */
  lemma EqualsFirstLine(left: string, right: string, search: (string, string) -> bool,
                        toFloat: string -> Option<PyFloat>)
    ensures Interpret(EQUALS, left, right, search, toFloat)
        <==> Strip(right) == Strip(LineBefore(left, Find(left, "\n")))
  {
    SplitFirst(left, "\n");
  }

  /** Lines after the first never affect EQUALS. */
  lemma EqualsIgnoresLaterLines(first: string, rest: string, right: string,
                                search: (string, string) -> bool,
                                toFloat: string -> Option<PyFloat>)
    requires '\n' !in first
    ensures Interpret(EQUALS, first + "\n" + rest, right, search, toFloat)
         == Interpret(EQUALS, first, right, search, toFloat)
  {
    var left := first + "\n" + rest;
    FindCharAt(first, '\n', rest);
    FindCharAbsent(first, '\n');
    assert left[..|first|] == first;
    EqualsFirstLine(left, right, search, toFloat);
    EqualsFirstLine(first, right, search, toFloat);
  }

  /** DIFFERS is exactly the negation of EQUALS. */
  lemma DiffersNegatesEquals(left: string, right: string, search: (string, string) -> bool,
                             toFloat: string -> Option<PyFloat>)
    ensures Interpret(DIFFERS, left, right, search, toFloat)
         == !Interpret(EQUALS, left, right, search, toFloat)
  {
  }

  /** CONTAINS holds iff the trimmed right operand occurs somewhere in the
      untrimmed left operand. */
  lemma ContainsIff(left: string, right: string, search: (string, string) -> bool,
                    toFloat: string -> Option<PyFloat>)
    ensures Interpret(CONTAINS, left, right, search, toFloat)
        <==> exists k :: OccursAt(left, Strip(right), k)
  {
    if exists k :: OccursAt(left, Strip(right), k) {
      var k :| OccursAt(left, Strip(right), k);
      ContainsAt(left, Strip(right), k);
    }
  }

  /** The ordering operators agree with each other whether the operands are
      compared as numbers or as strings, unless a NaN is compared:
      GREATER is not LESS_EQUAL, GREATER_EQUAL is not LESS, LESS_EQUAL is
      LESS or equality, and GREATER is LESS with the operands swapped. */
  lemma OrderingDuality(left: string, right: string, search: (string, string) -> bool,
                        toFloat: string -> Option<PyFloat>)
    ensures !NaNOperands(left, right, toFloat) ==>
              Interpret(GREATER, left, right, search, toFloat)
              == !Interpret(LESS_EQUAL, left, right, search, toFloat)
    ensures !NaNOperands(left, right, toFloat) ==>
              Interpret(GREATER_EQUAL, left, right, search, toFloat)
              == !Interpret(LESS, left, right, search, toFloat)
    ensures Interpret(GREATER, left, right, search, toFloat)
         == Interpret(LESS, right, left, search, toFloat)
    ensures toFloat(left).None? || toFloat(right).None? ==>
              Interpret(LESS_EQUAL, left, right, search, toFloat)
                == (Interpret(LESS, left, right, search, toFloat) || left == right)
  {
    CompareZero(left, right);
    CompareSwap(left, right);
  }

  /** Every ordering comparison with a NaN operand is false, so GREATER and
      LESS_EQUAL can both fail. */
  lemma NaNOrderingFalse(left: string, right: string, search: (string, string) -> bool,
                         toFloat: string -> Option<PyFloat>)
    requires NaNOperands(left, right, toFloat)
    ensures !Interpret(LESS, left, right, search, toFloat)
    ensures !Interpret(GREATER, left, right, search, toFloat)
    ensures !Interpret(LESS_EQUAL, left, right, search, toFloat)
    ensures !Interpret(GREATER_EQUAL, left, right, search, toFloat)
  {
  }

  /** Infinities order around every finite value: "inf" is greater than
      any number, "-inf" less. */
  lemma InfinitiesOrder(left: string, right: string, search: (string, string) -> bool,
                        toFloat: string -> Option<PyFloat>)
    requires toFloat(left) == Some(Inf(false)) && toFloat(right).Some? && toFloat(right).value.Num?
    ensures Interpret(GREATER, left, right, search, toFloat)
    ensures Interpret(LESS, right, left, search, toFloat)
    ensures !Interpret(LESS_EQUAL, left, right, search, toFloat)
  {
  }
}
