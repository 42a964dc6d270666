/** Properties of whole runs: what each statement does to the rest of a run,
    tokens that are neither Print nor Loops headers are stepped over, and
    the canonical print and loop programs behave as the language intends. */
module Programs {
  import opened Errors
  import opened Lines
  import opened Digits
  import opened Values
  import opened Interpreter

  /** The run from ip, given what the dispatch at ip does. */
  lemma ExecStep(tokens: seq<string>, ip: nat, fuel: nat)
    requires ip < |tokens|
    ensures var a := Step(tokens, ip);
      && (a.Raise? ==> ExecFrom(tokens, ip, fuel) == Trace([], Failed(a.fault)))
      && (a.Emit? ==> ExecFrom(tokens, ip, fuel) == Prepend([a.line], ExecFrom(tokens, a.next, fuel)))
      && (a.Skip? ==> ExecFrom(tokens, ip, fuel) == ExecFrom(tokens, a.next, fuel))
      && (a.While? && !a.holds ==> ExecFrom(tokens, ip, fuel) == ExecFrom(tokens, a.next, fuel))
      && (a.While? && a.holds ==> ExecFrom(tokens, ip, fuel) == Repeat(Exec(a.body, fuel), fuel))
  {
  }

  /** A token that is neither a Print nor a Loops header, where run expects
      a statement. */
  predicate Ignored(tok: string) {
    HeaderName(tok) != Some(Print) && HeaderName(tok) != Some(Loops)
  }

  /** A line that is not a Print or Loops header is stepped over: it writes
      nothing and moves ip by one. */
  lemma SkipOne(tokens: seq<string>, ip: nat, fuel: nat)
    requires ip < |tokens| && Ignored(tokens[ip])
    ensures Step(tokens, ip) == Skip(ip + 1)
    ensures ExecFrom(tokens, ip, fuel) == ExecFrom(tokens, ip + 1, fuel)
  {
  }

  /** A stretch of ignored lines changes nothing about a run. */
  lemma {:induction false} SkipIgnored(tokens: seq<string>, ip: nat, n: nat, fuel: nat)
    requires ip <= n <= |tokens|
    requires forall k {:trigger Ignored(tokens[k])} :: ip <= k < n ==> Ignored(tokens[k])
    ensures ExecFrom(tokens, ip, fuel) == ExecFrom(tokens, n, fuel)
    decreases n - ip
  {
    if ip < n {
      SkipOne(tokens, ip, fuel);
      SkipIgnored(tokens, ip + 1, n, fuel);
    }
  }

  /** Print writes exactly one line, the decoded text and a newline, and
      resumes after the ASCII header and its data (three tokens) or after the
      raw data line (two tokens); with nothing after it, it raises. */
  lemma PrintRun(tokens: seq<string>, ip: nat, fuel: nat)
    requires ip < |tokens| && HeaderName(tokens[ip]) == Some(Print)
    ensures ip + 1 == |tokens| ==> ExecFrom(tokens, ip, fuel) == Trace([], Failed(PrintWithoutContent))
    ensures ip + 2 < |tokens| && HeaderName(tokens[ip + 1]) == Some(Ascii) && AllSymbols(Strip(tokens[ip + 2])) ==>
      ExecFrom(tokens, ip, fuel) == Prepend([AsciiText(tokens[ip + 2]).value + "\n"], ExecFrom(tokens, ip + 3, fuel))
    ensures ip + 1 < |tokens| && HeaderName(tokens[ip + 1]) != Some(Ascii) && AllSymbols(Strip(tokens[ip + 1])) ==>
      ExecFrom(tokens, ip, fuel) == Prepend([AsciiText(tokens[ip + 1]).value + "\n"], ExecFrom(tokens, ip + 2, fuel))
  {
    ExecStep(tokens, ip, fuel);
    PrintBehaviour(tokens, ip);
  }

  /** An End marker met as a statement is stepped over with its subtype
      token; a subtype token of a length that is no multiple of 4, or one of
      a subtype other than while and End, stops the run. */
  lemma LoopsRun(tokens: seq<string>, ip: nat, fuel: nat)
    requires ip + 1 < |tokens| && HeaderName(tokens[ip]) == Some(Loops)
    ensures |tokens[ip + 1]| == 12 ==> ExecFrom(tokens, ip, fuel) == ExecFrom(tokens, ip + 2, fuel)
    ensures |tokens[ip + 1]| % 4 != 0 ==> ExecFrom(tokens, ip, fuel) == Trace([], Failed(InvalidLoopSubtype))
    ensures |tokens[ip + 1]| % 4 == 0 && |tokens[ip + 1]| != 4 && |tokens[ip + 1]| != 12 ==>
      ExecFrom(tokens, ip, fuel) == Trace([], Failed(LoopSubtypeNotImplemented))
  {
    ExecStep(tokens, ip, fuel);
    LoopsBehaviour(tokens, ip);
  }

  /** A dispatch that enters a while loop is a Loops header with a while
      subtype token, and the loop starts at the token after that. */
  lemma StepWhile(tokens: seq<string>, ip: nat)
    requires ip < |tokens| && Step(tokens, ip).While?
    ensures HeaderName(tokens[ip]) == Some(Loops) && ip + 2 <= |tokens| && |tokens[ip + 1]| == 4
    ensures Step(tokens, ip) == WhileAction(tokens, ip + 2)
  {
  }

  /** A while loop whose guard is false runs its body zero times and
      resumes where the loop's dispatch says: two tokens past the End
      marker (the contract of Step). */
  lemma WhileFalse(tokens: seq<string>, ip: nat, fuel: nat)
    requires ip < |tokens|
    requires Step(tokens, ip).While? && !Step(tokens, ip).holds
    ensures ExecFrom(tokens, ip, fuel) == ExecFrom(tokens, Step(tokens, ip).next, fuel)
  {
    ExecStep(tokens, ip, fuel);
  }

  /** A while loop whose guard is true never lets the run finish normally:
      either a run of its body stops it, or the body runs again and again,
      fuel times, writing the same lines each time. */
  lemma WhileTrue(tokens: seq<string>, ip: nat, fuel: nat)
    requires ip < |tokens|
    requires Step(tokens, ip).While? && Step(tokens, ip).holds
    ensures ExecFrom(tokens, ip, fuel).status != Done
    ensures var body := Exec(Step(tokens, ip).body, fuel);
      && (body.status == Done ==> ExecFrom(tokens, ip, fuel) == Trace(Power(body.out, fuel), OutOfFuel))
      && (body.status != Done && fuel > 0 ==> ExecFrom(tokens, ip, fuel) == body)
  {
    ExecStep(tokens, ip, fuel);
  }

  /** A program of ignored lines only writes nothing and ends normally. */
  lemma IgnoredProgram(tokens: seq<string>, fuel: nat)
    requires forall k :: 0 <= k < |tokens| ==> Ignored(tokens[k])
    ensures Exec(tokens, fuel) == Trace([], Done)
  {
    SkipIgnored(tokens, 0, |tokens|, fuel);
  }

  /** The line a string of byte-sized characters is written as has no
      whitespace and names the ASCII header exactly when the string has five
      characters. */
  lemma EncodedLine(s: string)
    requires IsByteText(s)
    ensures Strip(EncodeText(s)) == EncodeText(s)
    ensures HeaderName(EncodeText(s)) == Some(Ascii) <==> |s| == 5
  {
    NoSpaceInSymbols(EncodeText(s));
    HeaderNameIs(EncodeText(s), Ascii);
  }

  /** The statement `print(s)`: a Print header, an ASCII header and the
      text's encoding. */
  function PrintStatement(s: string): (r: seq<string>)
    requires IsByteText(s)
    ensures |r| == 3 && EndFree(r)
  {
    HeaderLineRoundTrip(Print);
    HeaderLineRoundTrip(Ascii);
    [HeaderLine(Print), HeaderLine(Ascii), EncodeText(s)]
  }

  /** print of a text: a Print header, an ASCII header and the text's
      encoding write the text and a newline, and the run ends normally. */
  lemma PrintProgram(s: string, fuel: nat)
    requires IsByteText(s)
    ensures Exec(PrintStatement(s), fuel) == Trace([s + "\n"], Done)
  {
    EncodedLine(s);
    TextRoundTrip(s);
    PrintLine(EncodeText(s), s, fuel);
  }

  /** The same for any data line of symbols without whitespace that
      decodes to s. */
  lemma PrintLine(d: string, s: string, fuel: nat)
    requires AllSymbols(d) && Strip(d) == d && AsciiText(d) == Ok(s)
    ensures Exec([HeaderLine(Print), HeaderLine(Ascii), d], fuel) == Trace([s + "\n"], Done)
  {
    var tokens := [HeaderLine(Print), HeaderLine(Ascii), d];
    HeaderLineRoundTrip(Print);
    HeaderLineRoundTrip(Ascii);
    assert tokens[2] == d && Strip(tokens[2]) == d;
    PrintRun(tokens, 0, fuel);
    assert ExecFrom(tokens, 0, fuel) == Prepend([s + "\n"], ExecFrom(tokens, 3, fuel));
    assert ExecFrom(tokens, 3, fuel) == Trace([], Done);
  }

  /** A Print header followed directly by the text's encoding does the same,
      for every text except one of exactly five characters. */
  lemma RawPrintProgram(s: string, fuel: nat)
    requires IsByteText(s) && |s| != 5
    ensures Exec([HeaderLine(Print), EncodeText(s)], fuel) == Trace([s + "\n"], Done)
  {
    EncodedLine(s);
    TextRoundTrip(s);
    RawPrintLine(EncodeText(s), s, fuel);
  }

  /** The raw form for any data line of symbols without whitespace that
      decodes to s and does not itself read as an ASCII header. */
  lemma RawPrintLine(d: string, s: string, fuel: nat)
    requires AllSymbols(d) && Strip(d) == d && HeaderName(d) != Some(Ascii) && AsciiText(d) == Ok(s)
    ensures Exec([HeaderLine(Print), d], fuel) == Trace([s + "\n"], Done)
  {
    var tokens := [HeaderLine(Print), d];
    HeaderLineRoundTrip(Print);
    PrintRun(tokens, 0, fuel);
    assert ExecFrom(tokens, 2, fuel) == Trace([], Done);
  }

  /** A text of five characters is written as 20 symbols, the length of
      the ASCII header: after Print it is taken for that header. As the last
      token it lacks its data line, and the run stops with an IndexError. */
  lemma RawPrintOfFive(s: string, fuel: nat)
    requires IsByteText(s) && |s| == 5
    ensures Exec([HeaderLine(Print), EncodeText(s)], fuel) == Trace([], Failed(AsciiWithoutData))
  {
    var tokens := [HeaderLine(Print), EncodeText(s)];
    HeaderLineRoundTrip(Print);
    EncodedLine(s);
    ExecStep(tokens, 0, fuel);
    PrintBehaviour(tokens, 0);
  }

  /** When a line d follows those 20 symbols, d is read as the ASCII
      header's data: the run writes d's text, not s, and ends normally. */
  lemma FiveTakesNextLine(s: string, d: string, t: string, fuel: nat)
    requires IsByteText(s) && |s| == 5
    requires AllSymbols(d) && Strip(d) == d && AsciiText(d) == Ok(t)
    ensures Exec([HeaderLine(Print), EncodeText(s), d], fuel) == Trace([t + "\n"], Done)
  {
    var tokens := [HeaderLine(Print), EncodeText(s), d];
    HeaderLineRoundTrip(Print);
    EncodedLine(s);
    assert tokens[2] == d && Strip(tokens[2]) == d;
    PrintRun(tokens, 0, fuel);
    assert ExecFrom(tokens, 0, fuel) == Prepend([t + "\n"], ExecFrom(tokens, 3, fuel));
    assert ExecFrom(tokens, 3, fuel) == Trace([], Done);
  }

  /** A raw numeral "a" at index i is the number 1, one token long. */
  lemma NumeralOne(tokens: seq<string>, i: nat)
    requires i < |tokens| && tokens[i] == "a"
    ensures HeaderName(tokens[i]) == None
    ensures EvalValue(tokens, i) == Ok(Evaluated(Int(1), i + 1))
  {
    NoSpaceInSymbols("a");
  }

  /** `while 1 <op> 1: body` as tokens: Loops, the while subtype, a
      Comparison header, two raw numerals, the body, and the End marker. */
  function LoopProgram(comparison: string, body: seq<string>): (r: seq<string>)
    ensures |r| == |body| + 7
  {
    [HeaderLine(Loops), Fards(1), comparison, "a", "a"] + body + [HeaderLine(Loops), Fards(3)]
  }

  /** The End-marker scan of a LoopProgram whose body holds no End marker
      stops at the marker the program closes with. */
  lemma LoopProgramEnd(comparison: string, body: seq<string>)
    requires EndFree(body)
    ensures FindEnd(LoopProgram(comparison, body), 5) == Some(5 + |body|)
  {
    var tokens := LoopProgram(comparison, body);
    var e := 5 + |body|;
    HeaderLineRoundTrip(Loops);
    assert tokens[e] == HeaderLine(Loops) && tokens[e + 1] == Fards(3);
    forall j | 5 <= j < e
      ensures !IsEndAt(tokens, j)
    {
      assert tokens[j] == body[j - 5];
      if j + 1 < e {
        assert tokens[j + 1] == body[j - 4];
        assert !IsEndAt(body, j - 5);
      } else {
        assert tokens[j + 1] == HeaderLine(Loops);
      }
    }
    FirstEnd(tokens, 5, e);
  }

  /** The dispatch at the start of a LoopProgram enters its loop, with the
      guard 1 == 1 true exactly when the Comparison token selects ==. */
  lemma LoopProgramStep(comparison: string, body: seq<string>)
    requires HeaderName(comparison) == Some(Comparison) && EndFree(body)
    ensures Step(LoopProgram(comparison, body), 0) == While(body, OpOf(|comparison|) == Eq, |body| + 7)
  {
    var tokens := LoopProgram(comparison, body);
    HeaderLineRoundTrip(Loops);
    assert tokens[0] == HeaderLine(Loops) && tokens[1] == Fards(1) && tokens[2] == comparison;
    NumeralOne(tokens, 3);
    NumeralOne(tokens, 4);
    LoopProgramEnd(comparison, body);
    assert tokens[5..5 + |body|] == body;
    var op := OpOf(|comparison|);
    assert Compare(op, Int(1), Int(1)) == Ok(op == Eq);
    assert WhileLoop(tokens, op, Int(1), Int(1), 5) == While(body, op == Eq, |body| + 7);
    assert WhileAction(tokens, 2) == WhileOperands(tokens, op, 3);
    assert Step(tokens, 0) == LoopsAction(tokens, 0) == WhileAction(tokens, 2);
  }

  /** A loop guarded by the plain Comparison header (1 == 1) over a body
      that runs to its end writing out: the body runs fuel times, the
      output is out repeated fuel times, and the run never ends normally. */
  lemma ForeverLoop(body: seq<string>, out: seq<string>, fuel: nat)
    requires EndFree(body) && Exec(body, fuel) == Trace(out, Done)
    ensures Exec(LoopProgram(HeaderLine(Comparison), body), fuel) == Trace(Power(out, fuel), OutOfFuel)
  {
    HeaderLineRoundTrip(Comparison);
    LoopProgramStep(HeaderLine(Comparison), body);
    WhileTrue(LoopProgram(HeaderLine(Comparison), body), 0, fuel);
  }

  /** With the plain Comparison header the guard is 1 == 1: the body prints
      s once per iteration until the fuel runs out. */
  lemma ForeverPrints(s: string, fuel: nat)
    requires IsByteText(s)
    ensures Exec(LoopProgram(HeaderLine(Comparison), PrintStatement(s)), fuel)
      == Trace(Power([s + "\n"], fuel), OutOfFuel)
  {
    PrintProgram(s, fuel);
    ForeverLoop(PrintStatement(s), [s + "\n"], fuel);
  }

  /** The same loop with four blanks after the Comparison header: its raw
      length 8 selects !=, the guard 1 != 1 is false, the body is skipped
      and the run ends normally without output, whatever the body. */
  lemma PaddedComparisonSkips(body: seq<string>, fuel: nat)
    requires EndFree(body)
    ensures Exec(LoopProgram(HeaderLine(Comparison) + Spaces(4), body), fuel) == Trace([], Done)
  {
    var comparison := HeaderLine(Comparison) + Spaces(4);
    var tokens := LoopProgram(comparison, body);
    PaddedHeaderLine(Comparison, 4);
    assert OpOf(|comparison|) == Ne;
    LoopProgramStep(comparison, body);
    WhileFalse(tokens, 0, fuel);
    assert ExecFrom(tokens, |tokens|, fuel) == Trace([], Done);
  }
}
