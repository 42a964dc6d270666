/** The evaluator (run): an instruction pointer walks the token sequence and
    dispatches on each token's header. ExecFrom is its meaning as a
    function; Run is the interpreter loop itself, proved to compute it. */
module Interpreter {
  import opened Errors
  import opened Lines
  import opened Digits
  import opened Values

  /** What one dispatch at the instruction pointer does. */
  datatype Action =
    | Emit(line: string, next: nat)                     // write one line, continue at next
    | Skip(next: nat)                                   // continue at next
    | While(body: seq<string>, holds: bool, next: nat)  // a while loop with its guard fixed at entry
    | Raise(fault: Fault)

  /** Token j is a Loops header whose next token has raw length 12, the
      End subtype: the marker the while-body scan stops at. */
  predicate IsEndAt(tokens: seq<string>, j: nat) {
    j + 1 < |tokens| && HeaderName(tokens[j]) == Some(Loops)
    && |tokens[j + 1]| % 4 == 0 && |tokens[j + 1]| / 4 == 3
  }

  /** The flat End-marker scan: the first end marker at or after `from`,
      with no regard for Loops headers that open nested loops. */
  function FindEnd(tokens: seq<string>, from: nat): (r: Option<nat>)
    ensures r.Some? ==> from <= r.value && IsEndAt(tokens, r.value)
    ensures r.Some? ==> forall j :: from <= j < r.value ==> !IsEndAt(tokens, j)
    ensures r.None? ==> forall j :: from <= j < |tokens| ==> !IsEndAt(tokens, j)
    decreases |tokens| - from
  {
    if from >= |tokens| then None
    else if IsEndAt(tokens, from) then Some(from)
    else FindEnd(tokens, from + 1)
  }

  /** The first End marker at or after from is what FindEnd finds. */
  lemma FirstEnd(tokens: seq<string>, from: nat, e: nat)
    requires from <= e && IsEndAt(tokens, e)
    requires forall j :: from <= j < e ==> !IsEndAt(tokens, j)
    ensures FindEnd(tokens, from) == Some(e)
  {
  }

  /** The End-marker scan of run, as the source writes it: a loop from
      bodyStart that stops at the first Loops header followed by a token of
      raw length 12. */
  method ScanForEnd(tokens: seq<string>, bodyStart: nat) returns (bodyEnd: Option<nat>)
    requires bodyStart <= |tokens|
    ensures bodyEnd == FindEnd(tokens, bodyStart)
  {
    bodyEnd := None;
    var scan := bodyStart;
    while scan < |tokens|
      invariant bodyStart <= scan <= |tokens|
      invariant FindEnd(tokens, scan) == FindEnd(tokens, bodyStart)
      decreases |tokens| - scan
    {
      if HeaderName(tokens[scan]) == Some(Loops) {
        if scan + 1 < |tokens| {
          var subToken := tokens[scan + 1];
          if |subToken| % 4 == 0 && |subToken| / 4 == 3 {
            bodyEnd := Some(scan);
            break;
          }
        }
      }
      scan := scan + 1;
    }
  }

  /** No token of tokens starts an End marker. */
  predicate EndFree(tokens: seq<string>) {
    forall j :: 0 <= j < |tokens| ==> !IsEndAt(tokens, j)
  }

  /** A stretch of tokens with no End marker in it is End-free on its own:
      its last token loses the token after it. */
  lemma SliceEndFree(tokens: seq<string>, from: nat, e: nat)
    requires from <= e <= |tokens|
    requires forall j :: from <= j < e ==> !IsEndAt(tokens, j)
    ensures EndFree(tokens[from..e])
  {
    var body := tokens[from..e];
    forall j | 0 <= j < |body|
      ensures !IsEndAt(body, j)
    {
      if IsEndAt(body, j) {
        assert body[j] == tokens[from + j] && body[j + 1] == tokens[from + j + 1];
        assert IsEndAt(tokens, from + j);
      }
    }
  }

  /** Print at ip: the next token is either an ASCII header with its data
      (three tokens in all) or raw text data (two tokens). */
  function PrintAction(tokens: seq<string>, ip: nat): (r: Action)
    requires ip < |tokens|
    ensures r.Emit? || r.Raise?
    ensures r.Emit? ==> ip + 2 <= r.next <= |tokens|
  {
    if ip + 1 >= |tokens| then Raise(PrintWithoutContent)
    else if HeaderName(tokens[ip + 1]) == Some(Ascii) then
      match EvalValue(tokens, ip + 1)
      case Err(e) => Raise(e)
      case Ok(ev) => Emit(ev.value.s + "\n", ev.next)
    else
      match AsciiText(tokens[ip + 1])
      case Err(e) => Raise(e)
      case Ok(txt) => Emit(txt + "\n", ip + 2)
  }

  /** A while loop whose Comparison header stands at `at`: the header's raw
      length selects the operator, then come the operands. */
  function WhileAction(tokens: seq<string>, at: nat): (r: Action)
    requires at <= |tokens|
    ensures r.While? || r.Raise?
    ensures r.While? ==> at + 5 + |r.body| <= r.next <= |tokens| && IsEndAt(tokens, r.next - 2)
    ensures r.While? ==> EndFree(r.body)
  {
    if at >= |tokens| then Raise(WhileMissingComparison)
    else if HeaderName(tokens[at]) != Some(Comparison) then Raise(WhileExpectsComparison)
    else WhileOperands(tokens, OpOf(|tokens[at]|), at + 1)
  }

  /** The two operands of a while guard, from token i on. */
  function WhileOperands(tokens: seq<string>, op: Op, i: nat): (r: Action)
    ensures r.While? || r.Raise?
    ensures r.While? ==> i + 4 + |r.body| <= r.next <= |tokens| && IsEndAt(tokens, r.next - 2)
    ensures r.While? ==> EndFree(r.body)
  {
    match EvalValue(tokens, i)
    case Err(e) => Raise(e)
    case Ok(Evaluated(left, afterLeft)) =>
      match EvalValue(tokens, afterLeft)
      case Err(e) => Raise(e)
      case Ok(Evaluated(right, bodyStart)) => WhileLoop(tokens, op, left, right, bodyStart)
  }

  /** The flat scan for the End marker from bodyStart on, and the guard
      computed once from the operands. */
  function WhileLoop(tokens: seq<string>, op: Op, left: Value, right: Value, bodyStart: nat): (r: Action)
    requires bodyStart <= |tokens|
    ensures r.While? || r.Raise?
    ensures r.While? ==> bodyStart + |r.body| + 2 == r.next <= |tokens| && IsEndAt(tokens, r.next - 2)
    ensures r.While? ==> EndFree(r.body)
  {
    match FindEnd(tokens, bodyStart)
    case None => Raise(WhileMissingEnd)
    case Some(bodyEnd) =>
      match Compare(op, left, right)
      case Err(e) => Raise(e)
      case Ok(holds) =>
        SliceEndFree(tokens, bodyStart, bodyEnd);
        While(tokens[bodyStart..bodyEnd], holds, bodyEnd + 2)
  }

  /** Loops at ip: the next token's raw length selects the subtype,
      1 for while and 3 for the End marker. */
  function LoopsAction(tokens: seq<string>, ip: nat): (r: Action)
    requires ip < |tokens|
    ensures !r.Emit?
    ensures r.Skip? || r.While? ==> ip + 2 <= r.next <= |tokens|
    ensures r.While? ==> |r.body| < |tokens| && IsEndAt(tokens, r.next - 2)
    ensures r.While? ==> EndFree(r.body)
  {
    if ip + 1 >= |tokens| then Raise(LoopsWithoutSubtype)
    else
      var subtypeToken := tokens[ip + 1];
      if |subtypeToken| % 4 != 0 then Raise(InvalidLoopSubtype)
      else
        var subtype := |subtypeToken| / 4;
        if subtype == 1 then WhileAction(tokens, ip + 2)
        else if subtype == 3 then Skip(ip + 2)
        else Raise(LoopSubtypeNotImplemented)
  }

  /** One dispatch of the interpreter loop at ip. Every token that is not a
      Print or Loops header is stepped over. */
  function Step(tokens: seq<string>, ip: nat): (r: Action)
    requires ip < |tokens|
    ensures !r.Raise? ==> ip < r.next <= |tokens|
    ensures r.While? ==> |r.body| < |tokens| && r.next >= 2 && IsEndAt(tokens, r.next - 2)
    ensures r.While? ==> EndFree(r.body)
  {
    var h := HeaderName(tokens[ip]);
    if h == Some(Print) then PrintAction(tokens, ip)
    else if h == Some(Loops) then LoopsAction(tokens, ip)
    else Skip(ip + 1)
  }

  /** What Print does: after an ASCII header it prints that header's data
      (three tokens in all); after any other token it decodes that token as
      ASCII data itself (two tokens). A data line that is not pure f/a/r/d
      raises a ValueError; a missing line an IndexError. */
  lemma PrintBehaviour(tokens: seq<string>, ip: nat)
    requires ip < |tokens|
    ensures var r := PrintAction(tokens, ip);
      && (ip + 1 == |tokens| ==> r == Raise(PrintWithoutContent))
      && (ip + 1 < |tokens| && HeaderName(tokens[ip + 1]) == Some(Ascii) ==>
            (ip + 2 == |tokens| ==> r == Raise(AsciiWithoutData))
            && (ip + 2 < |tokens| ==>
                  (r.Emit? <==> AllSymbols(Strip(tokens[ip + 2])))
                  && (r.Emit? ==> r == Emit(AsciiText(tokens[ip + 2]).value + "\n", ip + 3))
                  && (r.Raise? ==> r.fault == BadDigit)))
      && (ip + 1 < |tokens| && HeaderName(tokens[ip + 1]) != Some(Ascii) ==>
            (r.Emit? <==> AllSymbols(Strip(tokens[ip + 1])))
            && (r.Emit? ==> r == Emit(AsciiText(tokens[ip + 1]).value + "\n", ip + 2))
            && (r.Raise? ==> r.fault == BadDigit))
  {
    if ip + 1 < |tokens| {
      EvalValueBehaviour(tokens, ip + 1);
    }
  }

  /** The Loops subtype is read off the raw length of the token after the
      header: 4 characters open a while loop, 12 are an End marker, which
      is stepped over; other multiples of 4 are not implemented. */
  lemma LoopsBehaviour(tokens: seq<string>, ip: nat)
    requires ip < |tokens|
    ensures var r := LoopsAction(tokens, ip);
      && (ip + 1 == |tokens| ==> r == Raise(LoopsWithoutSubtype))
      && (ip + 1 < |tokens| ==>
            var n := |tokens[ip + 1]|;
            && (n % 4 != 0 ==> r == Raise(InvalidLoopSubtype))
            && (n == 4 ==> r == WhileAction(tokens, ip + 2))
            && (n == 12 ==> r == Skip(ip + 2))
            && (n % 4 == 0 && n != 4 && n != 12 ==> r == Raise(LoopSubtypeNotImplemented)))
  {
  }

  /** What a while loop that gets going is: its guard is the comparison of
      the two operands after the Comparison header, by the operator its raw
      length selects; its body runs from the token after the operands up to
      the first End marker; execution resumes after that marker. */
  lemma WhileBehaviour(tokens: seq<string>, at: nat)
    requires at <= |tokens|
    ensures var r := WhileAction(tokens, at);
      r.While? ==>
        && at < |tokens| && HeaderName(tokens[at]) == Some(Comparison)
        && EvalValue(tokens, at + 1).Ok?
        && EvalValue(tokens, EvalValue(tokens, at + 1).value.next).Ok?
        && (var left := EvalValue(tokens, at + 1).value;
            var right := EvalValue(tokens, left.next).value;
            && right.next + |r.body| + 2 == r.next
            && r.body == tokens[right.next..r.next - 2]
            && IsEndAt(tokens, r.next - 2)
            && (forall j :: right.next <= j < r.next - 2 ==> !IsEndAt(tokens, j))
            && Compare(OpOf(|tokens[at]|), left.value, right.value) == Ok(r.holds))
  {
    if at < |tokens| && HeaderName(tokens[at]) == Some(Comparison) {
      var left := EvalValue(tokens, at + 1);
      if left.Ok? {
        var right := EvalValue(tokens, left.value.next);
        if right.Ok? {
          WhileLoopBehaviour(tokens, OpOf(|tokens[at]|), left.value.value, right.value.value, right.value.next);
        }
      }
    }
  }

  /** A loop that gets going has the tokens up to the first End marker from
      bodyStart on as its body, and the comparison of its operands as its
      guard. */
  lemma WhileLoopBehaviour(tokens: seq<string>, op: Op, left: Value, right: Value, bodyStart: nat)
    requires bodyStart <= |tokens|
    ensures var r := WhileLoop(tokens, op, left, right, bodyStart);
      r.While? ==>
        && r.body == tokens[bodyStart..r.next - 2]
        && (forall j :: bodyStart <= j < r.next - 2 ==> !IsEndAt(tokens, j))
        && Compare(op, left, right) == Ok(r.holds)
  {
  }

  /** Why a while loop fails to start: the failures of the Comparison
      header, of its operands and of the guard, and a missing End marker. */
  lemma WhileFailures(tokens: seq<string>, at: nat)
    requires at <= |tokens|
    ensures var r := WhileAction(tokens, at);
      && (at == |tokens| ==> r == Raise(WhileMissingComparison))
      && (at < |tokens| && HeaderName(tokens[at]) != Some(Comparison) ==> r == Raise(WhileExpectsComparison))
      && (at < |tokens| && HeaderName(tokens[at]) == Some(Comparison) ==>
            var left := EvalValue(tokens, at + 1);
            && (left.Err? ==> r == Raise(left.error))
            && (left.Ok? ==>
                  var right := EvalValue(tokens, left.value.next);
                  && (right.Err? ==> r == Raise(right.error))
                  && ((right.Ok? && forall j :: right.value.next <= j < |tokens| ==> !IsEndAt(tokens, j)) ==>
                        r == Raise(WhileMissingEnd))
                  && (right.Ok? && FindEnd(tokens, right.value.next).Some? ==>
                        (r.Raise? <==> (OpOf(|tokens[at]|) in {Lt, Gt} && left.value.value.Int? != right.value.value.Int?)))))
  {
  }

  /** A while loop never gets going in a program without End markers: its
      scan finds none. */
  lemma NoEndNoWhile(tokens: seq<string>, ip: nat)
    requires ip < |tokens| && EndFree(tokens)
    ensures !Step(tokens, ip).While?
  {
    if HeaderName(tokens[ip]) == Some(Loops) && ip + 2 <= |tokens| {
      WhileBehaviour(tokens, ip + 2);
    }
  }

  /** Loops do not nest: inside the body of a while loop no inner while loop
      can start. */
  lemma NestedLoopsNeverStart(tokens: seq<string>, ip: nat, k: nat)
    requires ip < |tokens|
    requires Step(tokens, ip).While? && k < |Step(tokens, ip).body|
    ensures !Step(Step(tokens, ip).body, k).While?
  {
    NoEndNoWhile(Step(tokens, ip).body, k);
  }

  /** How a run ends: past the last token, by an exception, or by running
      out of the iterations the fuel allows one while loop. */
  datatype Status = Done | Failed(fault: Fault) | OutOfFuel

  /** The lines written to standard output, in order, and how the run ended. */
  datatype Trace = Trace(out: seq<string>, status: Status)

  function Prepend(lines: seq<string>, t: Trace): (r: Trace) {
    Trace(lines + t.out, t.status)
  }

  /** Writing b and then a before a trace writes a + b. */
  lemma PrependTwice(a: seq<string>, b: seq<string>, t: Trace)
    ensures Prepend(a, Prepend(b, t)) == Prepend(a + b, t)
  {
    assert a + (b + t.out) == (a + b) + t.out;
  }

  /** lines written n times in a row. */
  function Power(lines: seq<string>, n: nat): (r: seq<string>)
    ensures |r| == n * |lines|
  {
    if n == 0 then [] else lines + Power(lines, n - 1)
  }

  /** A while loop with a true guard given n iterations, when every run of
      its body gives the trace t: it never finishes normally. Either the
      first run of the body fails, or the body runs n times and the fuel
      is gone. */
  function Repeat(t: Trace, n: nat): (r: Trace)
    ensures r.status != Done
    ensures t.status == Done ==> r == Trace(Power(t.out, n), OutOfFuel)
    ensures t.status != Done && n > 0 ==> r == t
  {
    if n == 0 then Trace([], OutOfFuel)
    else if t.status != Done then t
    else Prepend(t.out, Repeat(t, n - 1))
  }

  /** run, from instruction pointer ip. A while loop's body is run as a
      fresh program on its slice of tokens; each loop may run its body at
      most `fuel` times. */
  function ExecFrom(tokens: seq<string>, ip: nat, fuel: nat): (r: Trace)
    decreases |tokens|, |tokens| - ip, 1
  {
    if ip >= |tokens| then Trace([], Done)
    else Continue(tokens, ip, Step(tokens, ip), fuel)
  }

  /** The rest of a run once the dispatch at ip has given the action a. */
  function Continue(tokens: seq<string>, ip: nat, a: Action, fuel: nat): (r: Trace)
    requires ip < |tokens| && a == Step(tokens, ip)
    decreases |tokens|, |tokens| - ip, 0
  {
    match a
    case Raise(e) => Trace([], Failed(e))
    case Emit(line, next) => Prepend([line], ExecFrom(tokens, next, fuel))
    case Skip(next) => ExecFrom(tokens, next, fuel)
    case While(body, holds, next) =>
      if holds then Repeat(ExecFrom(body, 0, fuel), fuel)
      else ExecFrom(tokens, next, fuel)
  }

  /** run(tokens). */
  function Exec(tokens: seq<string>, fuel: nat): (r: Trace) {
    ExecFrom(tokens, 0, fuel)
  }

  /** The branch of run's dispatch for a while loop, from the Comparison
      header at `at` to the guard's first evaluation. */
  method WhileStatement(tokens: seq<string>, at: nat) returns (act: Action)
    requires at <= |tokens|
    ensures act == WhileAction(tokens, at)
  {
    var ip := at;
    if ip >= |tokens| {
      return Raise(WhileMissingComparison);
    }
    var compTok := tokens[ip];
    if HeaderName(compTok) != Some(Comparison) {
      return Raise(WhileExpectsComparison);
    }
    var op := OpOf(|compTok|);
    ip := ip + 1;
    var left := EvalValue(tokens, ip);
    if left.Err? {
      return Raise(left.error);
    }
    ip := left.value.next;
    var right := EvalValue(tokens, ip);
    if right.Err? {
      return Raise(right.error);
    }
    ip := right.value.next;
    var bodyStart := ip;
    var bodyEnd := ScanForEnd(tokens, bodyStart);
    if bodyEnd.None? {
      return Raise(WhileMissingEnd);
    }
    var guard := Compare(op, left.value.value, right.value.value);
    if guard.Err? {
      return Raise(guard.error);
    }
    return While(tokens[bodyStart..bodyEnd.value], guard.value, bodyEnd.value + 2);
  }

  /** The body of run's loop up to the point where it writes a line, moves
      ip, raises or enters a while loop, as the source writes it. */
  method Dispatch(tokens: seq<string>, ip: nat) returns (act: Action)
    requires ip < |tokens|
    ensures act == Step(tokens, ip)
  {
    var h := HeaderName(tokens[ip]);
    if h == Some(Print) {
      if ip + 1 >= |tokens| {
        return Raise(PrintWithoutContent);
      }
      var nextH := HeaderName(tokens[ip + 1]);
      if nextH == Some(Ascii) {
        var r := EvalValue(tokens, ip + 1);
        if r.Err? {
          return Raise(r.error);
        }
        return Emit(r.value.value.s + "\n", r.value.next);
      }
      var txt := DecodeAsciiData(tokens[ip + 1]);
      if txt.Err? {
        return Raise(txt.error);
      }
      return Emit(txt.value + "\n", ip + 2);
    }
    if h == Some(Loops) {
      if ip + 1 >= |tokens| {
        return Raise(LoopsWithoutSubtype);
      }
      var subtypeToken := tokens[ip + 1];
      if |subtypeToken| % 4 != 0 {
        return Raise(InvalidLoopSubtype);
      }
      var subtype := |subtypeToken| / 4;
      if subtype == 1 {
        act := WhileStatement(tokens, ip + 2);
        return;
      }
      if subtype == 3 {
        return Skip(ip + 2);
      }
      return Raise(LoopSubtypeNotImplemented);
    }
    return Skip(ip + 1);
  }

  /** run as the source writes it: a loop over ip that dispatches on the
      header of the token at ip; stdout is the sequence `out`. */
  method Run(tokens: seq<string>, fuel: nat) returns (out: seq<string>, status: Status)
    ensures Trace(out, status) == Exec(tokens, fuel)
    decreases |tokens|, 1
  {
    out := [];
    var ip := 0;
    while ip < |tokens|
      invariant ip <= |tokens|
      invariant Exec(tokens, fuel) == Prepend(out, ExecFrom(tokens, ip, fuel))
      decreases |tokens| - ip
    {
      var act := Dispatch(tokens, ip);
      match act {
        case Raise(e) =>
          return out, Failed(e);
        case Emit(line, next) =>
          out := out + [line];
          ip := next;
        case Skip(next) =>
          ip := next;
        case While(body, holds, next) =>
          if holds {
            var loopOut, loopStatus := RunWhileBody(body, fuel);
            return out + loopOut, loopStatus;
          }
          ip := next;
      }
    }
    status := Done;
  }

  /** `while cond_true(): run(body_tokens)` once the guard is known to hold:
      the body is run again and again as a fresh program, until a run of it
      does not finish normally or the fuel is spent. */
  method RunWhileBody(body: seq<string>, fuel: nat) returns (out: seq<string>, status: Status)
    ensures Trace(out, status) == Repeat(Exec(body, fuel), fuel)
    decreases |body|, 2
  {
    ghost var t := Exec(body, fuel);
    out := [];
    var iterations := 0;
    while true
      invariant iterations <= fuel
      invariant Repeat(t, fuel) == Prepend(out, Repeat(t, fuel - iterations))
      decreases fuel - iterations
    {
      if iterations == fuel {
        return out, OutOfFuel;
      }
      var bodyOut, bodyStatus := Run(body, fuel);
      if bodyStatus != Done {
        return out + bodyOut, bodyStatus;
      }
      PrependTwice(out, bodyOut, Repeat(t, fuel - iterations - 1));
      out := out + bodyOut;
      iterations := iterations + 1;
    }
  }
}
