/** Data lines: the digit map f, a, r, d -> 0, 1, 2, 3, base-4 numerals
    (decode_number_data), four-symbol character groups (decode_ascii_data),
    and the encoders that invert them. */
module Digits {
  import opened Errors
  import opened Lines

  predicate IsSymbol(c: char) {
    c == 'f' || c == 'a' || c == 'r' || c == 'd'
  }

  predicate AllSymbols(s: string) {
    forall i :: 0 <= i < |s| ==> IsSymbol(s[i])
  }

  /** _digit_map: the digit a symbol stands for. */
  function Digit(c: char): (d: nat)
    requires IsSymbol(c)
    ensures d < 4
  {
    if c == 'f' then 0 else if c == 'a' then 1 else if c == 'r' then 2 else 3
  }

  /** The symbol of a digit: the inverse of Digit. */
  function Symbol(d: nat): (c: char)
    requires d < 4
    ensures IsSymbol(c) && Digit(c) == d
  {
    "fard"[d]
  }

  function Pow4(k: nat): (p: nat)
    ensures p >= 1
  {
    if k == 0 then 1 else 4 * Pow4(k - 1)
  }

  /** int(digits, 4): the value of a base-4 numeral over the symbols, most
      significant digit first. A numeral of k digits is below 4^k. */
  function Base4(s: string): (n: nat)
    requires AllSymbols(s)
    ensures n < Pow4(|s|)
  {
    if s == [] then 0 else Base4(s[..|s| - 1]) * 4 + Digit(s[|s| - 1])
  }

  /** k copies of the zero symbol 'f'. */
  function Zeros(k: nat): (r: string)
    ensures |r| == k && AllSymbols(r)
    ensures forall i :: 0 <= i < k ==> r[i] == 'f'
  {
    seq(k, _ => 'f')
  }

  /** decode_number_data: the stripped line read as a base-4 numeral; an
      empty line is 0 and a character outside f/a/r/d is rejected. */
  function DecodeNumber(line: string): (r: Result<nat>)
    ensures r.Ok? <==> AllSymbols(Strip(line))
    ensures r.Err? ==> r.error == BadDigit
    ensures r.Ok? ==> r.value < Pow4(|Strip(line)|)
    ensures Strip(line) == [] ==> r == Ok(0)
  {
    var s := Strip(line);
    if s == [] then Ok(0)
    else if !AllSymbols(s) then Err(BadDigit)
    else Ok(Base4(s))
  }

  /** base4_chunk_to_int: the value of one group of digits. */
  function ChunkValue(chunk: string): (r: Result<nat>)
    ensures r.Ok? <==> AllSymbols(chunk)
    ensures r.Err? ==> r.error == BadDigit
    ensures r.Ok? ==> r.value < Pow4(|chunk|)
  {
    if chunk == [] then Ok(0)
    else if !AllSymbols(chunk) then Err(BadDigit)
    else Ok(Base4(chunk))
  }

  lemma Pow4Of4()
    ensures Pow4(4) == 256
  {
  }

  /** The characters of a line of whole four-symbol groups, one per group,
      each with the group's base-4 value as its code (so below 256). */
  function Chunks(d: string): (r: string)
    requires AllSymbols(d) && |d| % 4 == 0
    ensures |r| == |d| / 4
    ensures forall k :: 0 <= k < |r| ==> r[k] as int < 256
  {
    if d == [] then []
    else
      Pow4Of4();
      [Base4(d[..4]) as char] + Chunks(d[4..])
  }

  /** The k-th character of Chunks(d) comes from the k-th group of d. */
  lemma {:induction false} ChunksAt(d: string, k: nat)
    requires AllSymbols(d) && |d| % 4 == 0 && k < |d| / 4
    ensures Chunks(d)[k] as int == Base4(d[4 * k..4 * k + 4])
  {
    Pow4Of4();
    if k > 0 {
      ChunksAt(d[4..], k - 1);
      assert d[4..][4 * (k - 1)..4 * (k - 1) + 4] == d[4 * k..4 * k + 4];
    }
  }

  /** The zero symbols decode_ascii_data puts in front of a stripped line
      of length n to make its length a multiple of 4. */
  function PadLength(n: nat): (p: nat)
    ensures p < 4 && (n + p) % 4 == 0
  {
    (0 - n as int) % 4
  }

  /** The stripped line left-padded with 'f' to a multiple of 4 symbols. */
  function Padded(line: string): (p: string)
    ensures |p| == |Strip(line)| + PadLength(|Strip(line)|) && |p| % 4 == 0
  {
    Zeros(PadLength(|Strip(line)|)) + Strip(line)
  }

  /** decode_ascii_data: the stripped line, left-padded with 'f', read as
      one character per four-symbol group. */
  function AsciiText(line: string): (r: Result<string>)
    ensures r.Ok? <==> AllSymbols(Strip(line))
    ensures r.Err? ==> r.error == BadDigit
    ensures r.Ok? ==> |r.value| == (|Strip(line)| + 3) / 4
    ensures r.Ok? ==> forall k :: 0 <= k < |r.value| ==> r.value[k] as int < 256
  {
    var s := Strip(line);
    var padded := Padded(line);
    PaddedSymbols(PadLength(|s|), s);
    if AllSymbols(s) then
      Pow4Of4();
      Ok(Chunks(padded))
    else Err(BadDigit)
  }

  /** Appending one group to a line appends its character. */
  lemma {:induction false} ChunksSnoc(d: string, g: string)
    requires AllSymbols(d) && |d| % 4 == 0 && AllSymbols(g) && |g| == 4
    ensures Base4(g) < 256
    ensures Chunks(d + g) == Chunks(d) + [Base4(g) as char]
  {
    Pow4Of4();
    if d == [] {
      assert d + g == g && g[..4] == g && g[4..] == [];
    } else {
      assert (d + g)[..4] == d[..4];
      assert (d + g)[4..] == d[4..] + g;
      ChunksSnoc(d[4..], g);
    }
  }

  /** What decode_ascii_data returns, in terms of its padded line. */
  lemma AsciiTextOfPadded(line: string)
    ensures AllSymbols(Padded(line)) ==> AsciiText(line) == Ok(Chunks(Padded(line)))
    ensures !AllSymbols(Padded(line)) ==> AsciiText(line) == Err(BadDigit)
  {
    PaddedSymbols(PadLength(|Strip(line)|), Strip(line));
  }

  lemma PaddedSymbols(p: nat, t: string)
    ensures AllSymbols(Zeros(p) + t) <==> AllSymbols(t)
  {
    var z := Zeros(p) + t;
    assert forall k :: 0 <= k < |t| ==> t[k] == z[k + p];
  }

  /** One group of the padded line: a group of symbols extends the decoded
      prefix by its character; any other group spoils the whole line. */
  lemma GroupStep(s: string, i: nat)
    requires i + 4 <= |s| && i % 4 == 0 && AllSymbols(s[..i])
    ensures AllSymbols(s[i..i + 4]) ==>
      AllSymbols(s[..i + 4]) && Chunks(s[..i + 4]) == Chunks(s[..i]) + [Base4(s[i..i + 4]) as char]
    ensures !AllSymbols(s[i..i + 4]) ==> !AllSymbols(s)
  {
    var chunk := s[i..i + 4];
    if AllSymbols(chunk) {
      assert s[..i + 4] == s[..i] + chunk;
      ChunksSnoc(s[..i], chunk);
    } else {
      var j :| 0 <= j < 4 && !IsSymbol(chunk[j]);
      assert !IsSymbol(s[i + j]);
    }
  }

  /** decode_ascii_data as the source runs it: a loop over the four-symbol
      groups of the padded line, appending one character per group. */
  method DecodeAsciiData(line: string) returns (r: Result<string>)
    ensures r == AsciiText(line)
  {
    var s := Padded(line);
    AsciiTextOfPadded(line);
    var out := "";
    var i := 0;
    while i < |s|
      invariant 0 <= i <= |s| && i % 4 == 0
      invariant AllSymbols(s[..i])
      invariant out == Chunks(s[..i])
    {
      var chunk := s[i..i + 4];
      var val := ChunkValue(chunk);
      GroupStep(s, i);
      if val.Err? {
        return Err(val.error);
      }
      out := out + [val.value as char];
      i := i + 4;
    }
    assert s[..i] == s;
    r := Ok(out);
  }

  /** The shortest numeral of n: no leading 'f' unless n is 0. */
  function EncodeNumber(n: nat): (s: string)
    ensures AllSymbols(s) && s != []
  {
    if n < 4 then [Symbol(n)] else EncodeNumber(n / 4) + [Symbol(n % 4)]
  }

  lemma {:induction false} Base4OfEncodeNumber(n: nat)
    ensures Base4(EncodeNumber(n)) == n
  {
    var s := EncodeNumber(n);
    if n >= 4 {
      assert s[..|s| - 1] == EncodeNumber(n / 4);
      Base4OfEncodeNumber(n / 4);
    } else {
      assert s[..|s| - 1] == [];
    }
  }

  lemma NoSpaceInSymbols(s: string)
    requires AllSymbols(s)
    ensures Strip(s) == s
  {
    StripSpaceFree(s);
  }

  /** Decoding the encoding of any n gives n back. */
  lemma NumberRoundTrip(n: nat)
    ensures DecodeNumber(EncodeNumber(n)) == Ok(n)
  {
    NoSpaceInSymbols(EncodeNumber(n));
    Base4OfEncodeNumber(n);
  }

  /** Leading zero symbols do not change a numeral's value. */
  lemma {:induction false} Base4LeadingZeros(k: nat, s: string)
    requires AllSymbols(s)
    ensures Base4(Zeros(k) + s) == Base4(s)
  {
    var z := Zeros(k) + s;
    if s == [] {
      assert z == Zeros(k);
      if k > 0 {
        assert z[..|z| - 1] == Zeros(k - 1) + [];
        Base4LeadingZeros(k - 1, []);
      }
    } else {
      assert z[..|z| - 1] == Zeros(k) + s[..|s| - 1];
      Base4LeadingZeros(k, s[..|s| - 1]);
    }
  }

  /** decode_number_data ignores leading 'f's, and an empty or all-'f'
      line is 0. */
  lemma LeadingZerosIgnored(k: nat, s: string)
    requires AllSymbols(s)
    ensures DecodeNumber(Zeros(k) + s) == DecodeNumber(s)
    ensures DecodeNumber(Zeros(k)) == Ok(0)
  {
    NoSpaceInSymbols(s);
    NoSpaceInSymbols(Zeros(k) + s);
    NoSpaceInSymbols(Zeros(k));
    Base4LeadingZeros(k, s);
    Base4LeadingZeros(k, []);
    assert Zeros(k) + [] == Zeros(k);
  }

  /** The four symbols of a character code below 256. */
  function EncodeChar(c: char): (s: string)
    requires c as int < 256
    ensures |s| == 4 && AllSymbols(s)
  {
    var v := c as int;
    [Symbol(v / 64), Symbol(v / 16 % 4), Symbol(v / 4 % 4), Symbol(v % 4)]
  }

  lemma Base4OfEncodeChar(c: char)
    requires c as int < 256
    ensures Base4(EncodeChar(c)) == c as int
  {
    var s := EncodeChar(c);
    assert s[..3][..2][..1][..0] == [];
    var v := c as int;
    assert Base4(s[..3][..2][..1]) == v / 64;
    assert Base4(s[..3][..2]) == v / 16;
    assert Base4(s[..3]) == v / 4;
  }

  predicate IsByteText(s: string) {
    forall i :: 0 <= i < |s| ==> s[i] as int < 256
  }

  /** Every character as exactly four symbols. */
  function EncodeText(s: string): (r: string)
    requires IsByteText(s)
    ensures |r| == 4 * |s| && AllSymbols(r)
  {
    if s == [] then [] else EncodeChar(s[0]) + EncodeText(s[1..])
  }

  lemma {:induction false} ChunksOfEncodeText(s: string)
    requires IsByteText(s)
    ensures Chunks(EncodeText(s)) == s
  {
    if s != [] {
      var e := EncodeText(s);
      assert e[..4] == EncodeChar(s[0]);
      assert e[4..] == EncodeText(s[1..]);
      Base4OfEncodeChar(s[0]);
      ChunksOfEncodeText(s[1..]);
    }
  }

  /** A text whose codes are all below 256, written four symbols per
      character, decodes back to itself. */
  lemma TextRoundTrip(s: string)
    requires IsByteText(s)
    ensures AsciiText(EncodeText(s)) == Ok(s)
  {
    var e := EncodeText(s);
    NoSpaceInSymbols(e);
    assert PadLength(|e|) == 0;
    assert Zeros(0) + e == e;
    ChunksOfEncodeText(s);
  }

  /** A stripped line whose length is not a multiple of 4 starts with a
      short group: the first character is the value of that group alone,
      as if written with high-order zero digits. */
  lemma ShortFirstGroup(line: string)
    requires AllSymbols(Strip(line)) && |Strip(line)| % 4 != 0
    ensures AsciiText(line).Ok? && |AsciiText(line).value| > 0
    ensures AsciiText(line).value[0] as int == Base4(Strip(line)[..|Strip(line)| % 4])
  {
    var s := Strip(line);
    var p := PadLength(|s|);
    var padded := Padded(line);
    PaddedSymbols(p, s);
    var g := |s| % 4;
    assert p + g == 4;
    assert padded[0..4] == Zeros(p) + s[..g];
    ChunksAt(padded, 0);
    Base4LeadingZeros(p, s[..g]);
  }
}
