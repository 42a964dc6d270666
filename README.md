# fardthon interpreter core in Dafny

This project models the interpreter in `main.py` of fardthon. It runs the
f/a/r/d language: a program is a sequence of lines written in the four
letters `f`, `a`, `r` and `d`. The model has three layers, and each module
follows one of them.

- **Line classifier** (`lines.dfy`, module `Lines`).
  - `Strip` is Python's `str.strip()`, over the characters `str.isspace()` accepts.
  - `HeaderName` is `header_name`. It strips the line and looks only at the
    stripped length. A multiple of 4 with 1 to 9 groups names one of the nine
    headers, Comparison … Print. The characters themselves are never looked at.
- **Decoders** (`digits.dfy`, module `Digits`).
  - The digit map sends f, a, r, d to 0, 1, 2, 3.
  - `DecodeNumber` is `decode_number_data`: the stripped line read as a
    base-4 numeral.
  - `AsciiText` is `decode_ascii_data`, stated as a function. It left-pads the
    stripped line with `f` to a multiple of 4, and each group of four symbols
    becomes one character.
  - `DecodeAsciiData` is the source's own loop over those groups. It is proved
    to compute `AsciiText`.
  - `EncodeNumber` and `EncodeText` are the inverse encoders, used for the
    round-trip lemmas.
- **Evaluator** (`values.dfy`, `interpreter.dfy` and `programs.dfy`).
  - `EvalValue` is `eval_value`.
  - `OpOf` and `Compare` are the operator table and `cond_true`.
  - `Step` is one dispatch of `run`'s loop. It returns an `Action`: write a
    line, skip ahead, enter a while loop, or raise.
  - `ExecFrom` and `Exec` give the meaning of `run` as a function. They
    return a `Trace`: the lines written to standard output and how the run
    ended (`Done`, `Failed(fault)` or `OutOfFuel`).
  - `Run` is the interpreter loop itself, over the instruction pointer, and is
    proved to compute `Exec`. It has the methods `Dispatch`, `WhileStatement`,
    `ScanForEnd` and `RunWhileBody` beside it.
  - `Programs` proves what whole runs do: skipped lines, print statements, and
    loops whose guard holds or fails.

Every raise site of the source is one `Fault` variant (`errors.dfy`).
`Fault.Kind` gives the Python exception class it surfaces as.

A `fuel` argument bounds how often one while loop may run its body. A loop
whose guard is true repeats its body until a run of the body fails, or until
it has run `fuel` times. In the second case the run ends `OutOfFuel`; the
source loops forever.

A consequence of classifying by length alone: a Print header followed
directly by the encoding of a five-character text is taken as a Print of an
ASCII header, because 20 symbols is that header's length. If that line is
the last token, the run stops with an IndexError (main.py:78-79,
`Programs.RawPrintOfFive`). Otherwise the next token is decoded and printed
as the header's data and consumed with it, and the five-character text
itself is never printed (main.py:107-112, `Programs.FiveTakesNextLine`).

The model follows the code as written, which:
- classifies a header line by its stripped length alone and never checks
  that it consists of f/a/r/d (main.py:14-22, although the comment at
  main.py:7 speaks of repeated "fard");
- lets a Print statement followed by an ASCII header take three tokens:
  Print, the header and the data line (main.py:107-112);
- selects the comparison operator from the raw length of the Comparison
  token, whitespace included (main.py:142-145), while `header_name` strips
  the same token before classifying it;
- resumes after a loop at the End marker's index plus two, the token right
  after the End subtype line (main.py:194).

## Model

| member | source | states |
|---|---|---|
| Lines.StripSpec | main.py:11 | `Strip(s)` is the slice of `s` left once the whitespace at both ends is removed: it neither starts nor ends with whitespace, and everything cut off is whitespace |
| Lines.StripEmpty | main.py:11-13 | a line strips to the empty line exactly when every character in it is whitespace |
| Lines.TrailingBlanksStripped | main.py:11 | blanks appended to a line that starts with a visible character do not change its strip |
| Lines.HeaderOfTable | main.py:17-23 | the header named by `reps` groups is `headers[reps - 1]` for 1 ≤ reps ≤ 9, and None otherwise |
| Lines.Arity | main.py:17-22 | every header has a group count in 1..9 that maps back to that header |
| Lines.HeaderName | main.py:8-23 | None exactly when the stripped line is empty, its length is not a multiple of 4, or its length exceeds 36; otherwise the stripped length is 4 times the group count of the header returned |
| Lines.HeaderNameIs | main.py:14-22 | a line names header h if and only if its stripped length is 4 times h's group count |
| Lines.HeaderNameIgnoresCharacters | main.py:8-23 | two lines with equal stripped lengths classify alike, whatever their characters |
| Lines.HeaderLineRoundTrip | main.py:8-23 | `"fard"` repeated for h's group count is classified as h |
| Lines.PaddedHeaderLine | main.py:11-22 | that line followed by any number of blanks is still classified as h |
| Digits.Symbol | main.py:26 | the symbol of a digit below 4 is one of f/a/r/d and maps back to that digit |
| Digits.Base4 | main.py:32 | a base-4 numeral of k digits has a value below 4^k |
| Digits.ChunkValue | main.py:28-32 | a group decodes exactly when it is all f/a/r/d, to a value below 4^length; otherwise it fails with a ValueError |
| Digits.DecodeNumber | main.py:48-54 | succeeds exactly when the stripped line is all f/a/r/d; an empty stripped line is 0; the value is below 4^length; any other character gives BadDigit |
| Digits.NumberRoundTrip | main.py:48-54 | decoding the shortest numeral of any n gives n |
| Digits.LeadingZerosIgnored | main.py:48-54 | leading `f`s do not change a numeral's value, and a line of `f`s only, or an empty line, is 0 |
| Digits.AsciiText | main.py:34-46 | succeeds exactly when the stripped line is all f/a/r/d; the text has ceil(length/4) characters, each with a code below 256 |
| Digits.ChunksAt | main.py:42-45 | the k-th character of the decoded text is the base-4 value of the k-th symbol group |
| Digits.ShortFirstGroup | main.py:37-39 | when the stripped length is no multiple of 4, the first character is the value of the short leading group alone, as if padded with high-order zeros |
| Digits.GroupStep | main.py:42-45 | a group of symbols extends the decoded prefix by its character; any other group makes the whole line fail |
| Digits.DecodeAsciiData | main.py:34-46 | the loop over four-symbol groups returns exactly `AsciiText(line)` |
| Digits.TextRoundTrip | main.py:34-46 | a text whose codes are all below 256, written as four symbols per character, decodes back to itself |
| Values.EvalValue | main.py:66-85 | a value read at i ends after i and within the tokens, and an ASCII header always gives a text |
| Values.EvalValueBehaviour | main.py:66-85 | IndexError past the end or after a header with no data. `Numbers`/`ASCII` headers consume two tokens and decode the next one. A raw f/a/r/d token is a number of one token. Any other token raises ValueError |
| Values.OpOf | main.py:142-145 | raw lengths below 8 or from 20 up select `==` |
| Values.OpOfTable | main.py:142-145 | the operator is `comp_map[rawLength / 4]` with `==` as the default: raw lengths 8–11 select `!=`, 12–15 `<`, 16–19 `>`, and all others `==`, each an if-and-only-if |
| Values.OperatorWithoutWhitespace | main.py:137-145 | a Comparison token is at least 4 characters long, and one without surrounding whitespace selects `==` |
| Values.LexLessTrichotomy | main.py:181-184 | string `<` is trichotomous and asymmetric: exactly one of a < b, a == b, b < a holds |
| Values.LexLessTransitive | main.py:181-184 | string `<` is transitive, so with trichotomy a strict total order |
| Values.Less | main.py:181-184 | `<` fails with a TypeError exactly when one operand is a number and the other a text, and orders numbers by value |
| Values.Compare | main.py:174-185 | the guard fails, with a TypeError, exactly for `<`/`>` between a number and a text. A number never equals a text, so across types `==` is false and `!=` true. Between numbers it is the comparison of their values; between texts `==`/`!=` is text equality and `<`/`>` is Python's string order |
| Values.CompareLaws | main.py:174-185 | `!=` is the negation of `==`; for same-typed operands exactly one of <, ==, > holds |
| Interpreter.FindEnd | main.py:151-165 | the index found is the first Loops header at or after the start whose next token has raw length 12; None means there is none |
| Interpreter.FirstEnd | main.py:151-163 | conversely, the first such marker is the one found |
| Interpreter.ScanForEnd | main.py:151-163 | the scan loop returns exactly `FindEnd(tokens, bodyStart)` |
| Interpreter.SliceEndFree | main.py:188 | a slice cut before the first End marker holds no End marker of its own |
| Interpreter.PrintAction | main.py:102-119 | Print writes a line or raises, and on success moves ip forward by at least 2, staying within the tokens |
| Interpreter.PrintBehaviour | main.py:102-119 | IndexError when nothing follows, or when an ASCII header has no data. With an ASCII header it writes the decoded data line plus newline and moves ip by 3. Otherwise it decodes the next line itself and moves ip by 2. A non-symbol data line raises BadDigit |
| Interpreter.LoopsAction | main.py:122-202 | a Loops statement never writes a line; a skip or loop stays within the tokens; a loop's body is shorter than the program and holds no End marker, and the loop resumes right after an End marker |
| Interpreter.LoopsBehaviour | main.py:122-202 | IndexError without a subtype token and ValueError for a raw length that is no multiple of 4. Raw length 4 enters a while loop, and 12 (End) moves ip by 2. Any other subtype raises NotImplementedError |
| Interpreter.WhileAction | main.py:133-194 | a while statement either raises or enters a loop that resumes within the tokens just after an End marker, with an End-free body |
| Interpreter.WhileOperands | main.py:147-149 | the same, from the two operands on |
| Interpreter.WhileLoop | main.py:151-194 | the body closes two tokens before the resume index, at an End marker, and holds none itself |
| Interpreter.WhileBehaviour | main.py:133-194 | a loop that gets going has a Comparison header and two operands. Its body runs from after the operands up to the first End marker, and ip resumes two tokens later. Its guard is the comparison by the operator the raw header length selects |
| Interpreter.WhileLoopBehaviour | main.py:151-194 | the body is the slice up to the first End marker, and the guard is the comparison of the captured operands |
| Interpreter.WhileFailures | main.py:133-185 | IndexError without a Comparison token, ValueError for another token, and the operands' own errors. IndexError when no End marker follows. Once the marker is found, it raises exactly for `<`/`>` across types |
| Interpreter.Step | main.py:97-205 | a statement that does not raise moves ip forward within the tokens; a loop's body is shorter than the program, holds no End marker, and the loop resumes just after one |
| Interpreter.NoEndNoWhile | main.py:151-165 | in a program without End markers no while loop gets going |
| Interpreter.NestedLoopsNeverStart | main.py:151-192 | loops do not nest: no while loop can start inside a loop body |
| Interpreter.Repeat | main.py:190-192 | a loop whose guard holds never ends normally. A failing body run ends it with that run's trace; otherwise it writes the body's lines once per iteration and runs out of fuel |
| Interpreter.WhileStatement | main.py:133-194 | the while branch of run, as the source writes it, computes `WhileAction` |
| Interpreter.Dispatch | main.py:97-205 | the body of run's loop, as the source writes it, computes `Step` |
| Interpreter.ExecFrom | main.py:97-205 | the meaning of `run` from instruction pointer ip as a function; it carries no contract of its own, and what it computes is stated by `Run`, `Programs.ExecStep`, `Programs.WhileTrue` and `Programs.WhileFalse` |
| Interpreter.Continue | main.py:97-205 | the rest of a run once the dispatch at ip has been made; no contract of its own, its meaning is given by `Programs.ExecStep`, `Programs.WhileTrue` and `Programs.WhileFalse` |
| Interpreter.Exec | main.py:88-205 | `run(tokens)` as a function; no contract of its own, it is what `Run` is proved to compute and what the `Programs` lemmas are stated about |
| Interpreter.Run | main.py:88-205 | the interpreter loop writes exactly the lines, and ends exactly as, `Exec` says |
| Interpreter.RunWhileBody | main.py:187-192 | `while cond_true(): run(body)` with the guard true gives the trace `Repeat` describes |
| Programs.ExecStep | main.py:97-205 | the run from ip is the dispatch at ip followed by the run from where it leaves ip, with a true loop repeating its body |
| Programs.SkipOne | main.py:204-205 | a token that is neither Print nor Loops advances ip by exactly 1 and writes nothing |
| Programs.SkipIgnored | main.py:204-205 | a stretch of such tokens changes nothing about the run |
| Programs.IgnoredProgram | main.py:97-205 | a program of such tokens only writes nothing and ends normally |
| Programs.PrintRun | main.py:102-119 | Print followed by an ASCII header writes the decoded data plus newline and continues three tokens on. Followed by raw data, it writes that data decoded and continues two tokens on. With nothing after it, the run fails |
| Programs.LoopsRun | main.py:124-202 | an End marker met as a statement is stepped over; a bad or unimplemented subtype stops the run with its error |
| Programs.StepWhile | main.py:122-133 | a loop is entered only from a Loops header followed by a subtype token of raw length 4 |
| Programs.WhileFalse | main.py:190-195 | a false guard runs the body zero times and continues where the loop resumes |
| Programs.WhileTrue | main.py:190-192 | a true guard never lets the run finish normally; a body that finishes is repeated `fuel` times, and a failing body ends the run with its own trace |
| Programs.EncodedLine | main.py:8-23 | an encoded text has no whitespace, and reads as an ASCII header exactly when the text has five characters |
| Programs.PrintProgram | main.py:102-113 | Print, ASCII, encoded text writes the text plus newline and ends normally |
| Programs.PrintLine | main.py:102-113 | the same for any whitespace-free symbol line that decodes to the text |
| Programs.RawPrintProgram | main.py:114-119 | Print followed directly by an encoded text does the same, for every text not of five characters |
| Programs.RawPrintLine | main.py:114-119 | the same for any whitespace-free symbol line that is not an ASCII header |
| Programs.RawPrintOfFive | main.py:102-109 | for a five-character text that program, with nothing after the 20 symbols, fails with an IndexError |
| Programs.FiveTakesNextLine | main.py:107-112 | when a symbol line d follows those 20 symbols, the run writes d's decoded text plus newline instead of the five-character text, and ends normally |
| Programs.NumeralOne | main.py:82-84 | the raw token `a` is the number 1, one token long |
| Programs.LoopProgramEnd | main.py:151-163 | the scan of a `while 1 op 1` program stops at its closing marker when the body holds none |
| Programs.LoopProgramStep | main.py:133-194 | such a program enters its loop with that body, the guard true exactly when the Comparison token selects `==` |
| Programs.ForeverLoop | main.py:172-192 | with the plain Comparison header a loop over a finishing body writes the body's output `fuel` times and runs out of fuel |
| Programs.ForeverPrints | main.py:172-192 | a loop printing s writes s plus newline `fuel` times |
| Programs.PaddedComparisonSkips | main.py:142-195 | four blanks after the Comparison header select `!=`, so the guard `1 != 1` is false; the body is skipped and the run ends normally without output |

## Left out

- `load_tokens`, `argv` and the `__main__` block (main.py:56-61, main.py:207-209) are file I/O. The model runs on any sequence of tokens, including blank ones and ones `load_tokens` would never produce.
- `sys.stdout.write` is modelled as appending a line to the output sequence of the `Trace`; nothing is written anywhere.
- `vars_store` and `run_block` (main.py:90-95) are unused placeholders with no behaviour.
- DecodeNumber: does not model the leniency of Python's `int(x, 4)`. After `translate`, `int` accepts characters the digit map leaves alone: the digits `0`–`3` themselves (and other Unicode digits below 4), underscores between digits, and a sign. The model rejects every stripped data line holding a character other than f/a/r/d (fault BadDigit, a ValueError).
- ChunkValue, AsciiText and DecodeAsciiData: the same for each four-symbol group. `int` would also accept a group with whitespace at its ends, or with `0`–`3` or `_`; in the model such a group fails.
- Exec, ExecFrom and Repeat: real non-termination is bounded by `fuel`. A while loop whose guard holds runs its body at most `fuel` times and then ends the run `OutOfFuel`, where the source loops forever.
- Compare: Python's ordering of an int against a str raises TypeError. The model gives the fault UnorderableOperands for it and does not model Python's full comparison protocol.
- The guard is evaluated once. The source calls `cond_true()` before every iteration, but over the values captured at loop entry, so every evaluation gives the same result.
- Exception messages are not modelled; only the raise site (`Fault`) and the exception class (`Fault.Kind`).
- Strings are sequences of Unicode scalar values. Python strings may also hold lone surrogates, which the model cannot represent.
