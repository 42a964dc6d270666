/** Operand evaluation (eval_value) and the while-loop guard (the
    comparison operators and cond_true). */
module Values {
  import opened Errors
  import opened Lines
  import opened Digits

  /** A decoded operand: a number from a Numbers line or a raw numeral, or a
      text from an ASCII line. */
  datatype Value = Int(n: nat) | Text(s: string)

  /** An operand and the index of the token after it. */
  datatype Evaluated = Evaluated(value: Value, next: nat)

  /** eval_value: the operand starting at token i. A Numbers or ASCII header
      takes the next token as its data; any other token made only of
      f/a/r/d is a numeral by itself. */
  function EvalValue(tokens: seq<string>, i: nat): (r: Result<Evaluated>)
    ensures r.Ok? ==> i < r.value.next <= |tokens|
    ensures r.Ok? && HeaderName(tokens[i]) == Some(Ascii) ==> r.value.value.Text?
  {
    if i >= |tokens| then Err(EofExpectingValue)
    else
      var tok := tokens[i];
      var h := HeaderName(tok);
      if h == Some(Numbers) then
        if i + 1 >= |tokens| then Err(NumbersWithoutData)
        else
          match DecodeNumber(tokens[i + 1])
          case Err(e) => Err(e)
          case Ok(n) => Ok(Evaluated(Int(n), i + 2))
      else if h == Some(Ascii) then
        if i + 1 >= |tokens| then Err(AsciiWithoutData)
        else
          match AsciiText(tokens[i + 1])
          case Err(e) => Err(e)
          case Ok(txt) => Ok(Evaluated(Text(txt), i + 2))
      else if AllSymbols(tok) then
        match DecodeNumber(tok)
        case Err(e) => Err(e)
        case Ok(n) => Ok(Evaluated(Int(n), i + 1))
      else Err(UninterpretableValue)
  }

  /** What eval_value consumes and when it raises: header and data (two
      tokens) after Numbers or ASCII, one token for a raw numeral;
      IndexError past the end or after a header with no data, ValueError
      for any other token. */
  lemma EvalValueBehaviour(tokens: seq<string>, i: nat)
    ensures var r := EvalValue(tokens, i);
      && (i >= |tokens| ==> r == Err(EofExpectingValue))
      && (r.Err? ==> r.error.Kind() == IndexError || r.error.Kind() == ValueError)
      && (i < |tokens| && HeaderName(tokens[i]) == Some(Numbers) ==>
            (i + 1 == |tokens| ==> r == Err(NumbersWithoutData))
            && (i + 1 < |tokens| ==> (r.Ok? <==> DecodeNumber(tokens[i + 1]).Ok?))
            && (r.Ok? ==> r.value == Evaluated(Int(DecodeNumber(tokens[i + 1]).value), i + 2)))
      && (i < |tokens| && HeaderName(tokens[i]) == Some(Ascii) ==>
            (i + 1 == |tokens| ==> r == Err(AsciiWithoutData))
            && (i + 1 < |tokens| ==> (r.Ok? <==> AsciiText(tokens[i + 1]).Ok?))
            && (r.Ok? ==> r.value == Evaluated(Text(AsciiText(tokens[i + 1]).value), i + 2)))
      && (i < |tokens| && HeaderName(tokens[i]) != Some(Numbers) && HeaderName(tokens[i]) != Some(Ascii) ==>
            (r.Ok? <==> AllSymbols(tokens[i]))
            && (r.Ok? ==> r.value == Evaluated(Int(Base4(tokens[i])), i + 1))
            && (r.Err? ==> r.error == UninterpretableValue))
  {
    if i < |tokens| && AllSymbols(tokens[i]) {
      NoSpaceInSymbols(tokens[i]);
    }
  }

  /** The four comparison operators of a while guard. */
  datatype Op = Eq | Ne | Lt | Gt

  /** comp_map.get(len(comp_tok) // 4, "=="): the operator selected by the
      raw (unstripped) length of a Comparison token. */
  function OpOf(rawLength: nat): (op: Op)
    ensures rawLength < 8 || rawLength >= 20 ==> op == Eq
  {
    var reps := rawLength / 4;
    if reps == 1 then Eq
    else if reps == 2 then Ne
    else if reps == 3 then Lt
    else if reps == 4 then Gt
    else Eq
  }

  /** comp_map: the operator for each number of four-character groups. */
  const COMPARISONS: map<nat, Op> := map[1 := Eq, 2 := Ne, 3 := Lt, 4 := Gt]

  /** OpOf is the lookup in comp_map with == as the default, so each
      operator is selected by exactly one range of raw lengths. */
  lemma OpOfTable(rawLength: nat)
    ensures OpOf(rawLength) == if rawLength / 4 in COMPARISONS then COMPARISONS[rawLength / 4] else Eq
    ensures OpOf(rawLength) == Eq <==> rawLength < 8 || rawLength >= 20
    ensures OpOf(rawLength) == Ne <==> 8 <= rawLength < 12
    ensures OpOf(rawLength) == Lt <==> 12 <= rawLength < 16
    ensures OpOf(rawLength) == Gt <==> 16 <= rawLength < 20
  {
  }

  /** A Comparison token always has a raw length of at least 4; without
      surrounding whitespace its length is exactly 4, which selects ==. */
  lemma OperatorWithoutWhitespace(tok: string)
    requires HeaderName(tok) == Some(Comparison)
    ensures |tok| >= 4
    ensures Strip(tok) == tok ==> OpOf(|tok|) == Eq
  {
  }

  /** Python's < on two str values: lexicographic by code point, a proper
      prefix being smaller. */
  predicate LexLess(a: string, b: string) {
    if a == [] then b != []
    else if b == [] then false
    else if a[0] != b[0] then a[0] < b[0]
    else LexLess(a[1..], b[1..])
  }

  lemma {:induction false} LexLessIrreflexive(a: string)
    ensures !LexLess(a, a)
  {
    if a != [] {
      LexLessIrreflexive(a[1..]);
    }
  }

  /** For two texts exactly one of a < b, a == b and b < a holds. */
  lemma {:induction false} LexLessTrichotomy(a: string, b: string)
    ensures LexLess(a, b) || a == b || LexLess(b, a)
    ensures !(LexLess(a, b) && LexLess(b, a))
    ensures a == b ==> !LexLess(a, b)
  {
    LexLessIrreflexive(a);
    if a != [] && b != [] {
      LexLessTrichotomy(a[1..], b[1..]);
      if a[0] == b[0] && a[1..] == b[1..] {
        assert a == [a[0]] + a[1..] && b == [b[0]] + b[1..];
      }
    }
  }

  /** Python's a < b on two operands: numbers by value, texts
      lexicographically, and a TypeError between a number and a text. */
  function Less(a: Value, b: Value): (r: Result<bool>)
    ensures r.Err? <==> a.Int? != b.Int?
    ensures r.Err? ==> r.error == UnorderableOperands
    ensures a.Int? && b.Int? ==> r == Ok(a.n < b.n)
  {
    if a.Int? && b.Int? then Ok(a.n < b.n)
    else if a.Text? && b.Text? then Ok(LexLess(a.s, b.s))
    else Err(UnorderableOperands)
  }

  /** cond_true: the guard `left op right`. Equality compares across types
      (a number never equals a text); ordering across types raises. */
  function Compare(op: Op, left: Value, right: Value): (r: Result<bool>)
    ensures r.Err? <==> (op == Lt || op == Gt) && left.Int? != right.Int?
    ensures r.Err? ==> r.error.Kind() == TypeError
    ensures left.Int? != right.Int? && (op == Eq || op == Ne) ==> r == Ok(op == Ne)
    ensures left.Int? && right.Int? ==> r == Ok(match op
      case Eq => left.n == right.n
      case Ne => left.n != right.n
      case Lt => left.n < right.n
      case Gt => left.n > right.n)
    ensures left.Text? && right.Text? ==> r == Ok(match op
      case Eq => left.s == right.s
      case Ne => left.s != right.s
      case Lt => LexLess(left.s, right.s)
      case Gt => LexLess(right.s, left.s))
  {
    match op
    case Eq => Ok(left == right)
    case Ne => Ok(left != right)
    case Lt => Less(left, right)
    case Gt => Less(right, left)
  }

  /** != is the negation of ==, and for two operands of one type exactly one
      of <, == and > holds. */
  lemma CompareLaws(a: Value, b: Value)
    ensures Compare(Ne, a, b) == Ok(!Compare(Eq, a, b).value)
    ensures a.Int? == b.Int? ==>
      var lt, eq, gt := Compare(Lt, a, b).value, Compare(Eq, a, b).value, Compare(Gt, a, b).value;
      (lt || eq || gt) && !(lt && eq) && !(lt && gt) && !(eq && gt)
  {
    if a.Text? && b.Text? {
      LexLessTrichotomy(a.s, b.s);
    }
  }

  /** Python's string < is transitive, so together with trichotomy it is a
      strict total order on texts. */
  lemma {:induction false} LexLessTransitive(a: string, b: string, c: string)
    requires LexLess(a, b) && LexLess(b, c)
    ensures LexLess(a, c)
  {
    if a != [] && a[0] == b[0] && b[0] == c[0] {
      LexLessTransitive(a[1..], b[1..], c[1..]);
    }
  }
}
