/** Line classification: Python's str.strip() and header_name, which maps a
    line to one of nine header names by its stripped length alone. */
module Lines {
  import opened Errors

  /** The characters Python's str.isspace() accepts, hence the ones that
      str.strip() with no argument removes. */
  predicate IsSpace(c: char) {
    var n := c as int;
    (9 <= n <= 13) || (28 <= n <= 32) || n == 0x85 || n == 0xA0 || n == 0x1680
    || (0x2000 <= n <= 0x200A) || n == 0x2028 || n == 0x2029 || n == 0x202F
    || n == 0x205F || n == 0x3000
  }

  /** The index of the first non-space character of s at or after i, or
      |s| when there is none. */
  function SkipSpaces(s: string, i: nat): (j: nat)
    requires i <= |s|
    ensures i <= j <= |s|
    decreases |s| - i
  {
    if i < |s| && IsSpace(s[i]) then SkipSpaces(s, i + 1) else i
  }

  /** SkipSpaces passes over spaces only and stops at a non-space. */
  lemma {:induction false} SkipSpacesSpec(s: string, i: nat)
    requires i <= |s|
    ensures forall k :: i <= k < SkipSpaces(s, i) ==> IsSpace(s[k])
    ensures SkipSpaces(s, i) == |s| || !IsSpace(s[SkipSpaces(s, i)])
    decreases |s| - i
  {
    if i < |s| && IsSpace(s[i]) {
      SkipSpacesSpec(s, i + 1);
    }
  }

  /** The end of s[lo..j] once its trailing spaces are removed. */
  function TrimSpaces(s: string, lo: nat, j: nat): (k: nat)
    requires lo <= j <= |s|
    ensures lo <= k <= j
    decreases j
  {
    if lo < j && IsSpace(s[j - 1]) then TrimSpaces(s, lo, j - 1) else j
  }

  /** TrimSpaces passes back over spaces only and stops after a non-space
      or at lo. */
  lemma {:induction false} TrimSpacesSpec(s: string, lo: nat, j: nat)
    requires lo <= j <= |s|
    ensures forall k :: TrimSpaces(s, lo, j) <= k < j ==> IsSpace(s[k])
    ensures TrimSpaces(s, lo, j) == lo || !IsSpace(s[TrimSpaces(s, lo, j) - 1])
    decreases j
  {
    if lo < j && IsSpace(s[j - 1]) {
      TrimSpacesSpec(s, lo, j - 1);
    }
  }

  /** The number of whitespace characters s starts with. */
  function LeadingSpaces(s: string): (n: nat)
    ensures n <= |s|
  {
    SkipSpaces(s, 0)
  }

  /** Python's s.strip(): leading whitespace removed, then trailing. */
  function Strip(s: string): (r: string)
    ensures |r| <= |s|
  {
    var i := SkipSpaces(s, 0);
    s[i..TrimSpaces(s, i, |s|)]
  }

  /** Strip(s) is the slice of s left once the whitespace at both ends is
      removed: it neither starts nor ends with a space, and everything cut
      off is space. */
  lemma StripSpec(s: string)
    ensures LeadingSpaces(s) + |Strip(s)| <= |s|
    ensures Strip(s) == s[LeadingSpaces(s)..LeadingSpaces(s) + |Strip(s)|]
    ensures Strip(s) == [] || (!IsSpace(Strip(s)[0]) && !IsSpace(Strip(s)[|Strip(s)| - 1]))
    ensures forall i :: 0 <= i < LeadingSpaces(s) ==> IsSpace(s[i])
    ensures forall i :: LeadingSpaces(s) + |Strip(s)| <= i < |s| ==> IsSpace(s[i])
  {
    var i := SkipSpaces(s, 0);
    SkipSpacesSpec(s, 0);
    TrimSpacesSpec(s, i, |s|);
  }

  /** A line with no whitespace in it is its own strip. */
  lemma StripSpaceFree(s: string)
    requires forall i :: 0 <= i < |s| ==> !IsSpace(s[i])
    ensures Strip(s) == s
  {
  }

  /** A line that is all whitespace strips to the empty line, and only such
      a line does. */
  lemma StripEmpty(s: string)
    ensures Strip(s) == [] <==> forall i :: 0 <= i < |s| ==> IsSpace(s[i])
  {
    StripSpec(s);
  }

  /** k blanks. */
  function Spaces(k: nat): (r: string)
    ensures |r| == k && forall i :: 0 <= i < k ==> IsSpace(r[i])
  {
    seq(k, _ => ' ')
  }

  /** Trimming the end of a range skips over a stretch of spaces at its
      end. */
  lemma {:induction false} TrimOverSpaces(s: string, lo: nat, m: nat, j: nat)
    requires lo <= m <= j <= |s|
    requires forall k :: m <= k < j ==> IsSpace(s[k])
    ensures TrimSpaces(s, lo, j) == TrimSpaces(s, lo, m)
    decreases j
  {
    if m < j {
      TrimOverSpaces(s, lo, m, j - 1);
    }
  }

  /** Trimming a range looks only at the characters before its end. */
  lemma {:induction false} TrimPrefix(s: string, t: string, lo: nat, j: nat)
    requires lo <= j <= |s| && j <= |t| && s[..j] == t[..j]
    ensures TrimSpaces(s, lo, j) == TrimSpaces(t, lo, j)
    decreases j
  {
    if lo < j {
      assert s[j - 1] == s[..j][j - 1] == t[..j][j - 1] == t[j - 1];
      assert s[..j - 1] == s[..j][..j - 1];
      assert t[..j - 1] == t[..j][..j - 1];
      TrimPrefix(s, t, lo, j - 1);
    }
  }

  /** Blanks after a line that starts with a visible character are
      stripped away: the line strips as it did without them. */
  lemma TrailingBlanksStripped(t: string, k: nat)
    requires t != [] && !IsSpace(t[0])
    ensures Strip(t + Spaces(k)) == Strip(t)
  {
    var p := t + Spaces(k);
    assert p[0] == t[0];
    assert SkipSpaces(p, 0) == 0 && SkipSpaces(t, 0) == 0;
    TrimOverSpaces(p, 0, |t|, |p|);
    assert p[..|t|] == t[..|t|];
    TrimPrefix(p, t, 0, |t|);
    var e := TrimSpaces(t, 0, |t|);
    assert p[0..e] == t[0..e];
  }

  /** The nine header names, in the order of their quadruplet counts. */
  datatype Header =
    Comparison | Boolean | Conditionals | Variables | Ascii | Loops | Numbers | Arithmetic | Print

  const HEADERS: seq<Header> :=
    [Comparison, Boolean, Conditionals, Variables, Ascii, Loops, Numbers, Arithmetic, Print]

  /** headers[reps - 1] when 1 <= reps <= 9: the header named by reps
      groups of four characters. */
  function HeaderOf(reps: nat): (h: Option<Header>) {
    if reps == 1 then Some(Comparison)
    else if reps == 2 then Some(Boolean)
    else if reps == 3 then Some(Conditionals)
    else if reps == 4 then Some(Variables)
    else if reps == 5 then Some(Ascii)
    else if reps == 6 then Some(Loops)
    else if reps == 7 then Some(Numbers)
    else if reps == 8 then Some(Arithmetic)
    else if reps == 9 then Some(Print)
    else None
  }

  /** HeaderOf is the lookup in the header table. */
  lemma HeaderOfTable(reps: nat)
    ensures HeaderOf(reps) == if 1 <= reps <= |HEADERS| then Some(HEADERS[reps - 1]) else None
  {
  }

  /** The number of four-character groups a header line of h has. */
  function Arity(h: Header): (n: nat)
    ensures 1 <= n <= 9 && HeaderOf(n) == Some(h)
  {
    match h
    case Comparison => 1
    case Boolean => 2
    case Conditionals => 3
    case Variables => 4
    case Ascii => 5
    case Loops => 6
    case Numbers => 7
    case Arithmetic => 8
    case Print => 9
  }

  /** header_name: the header a line names. Only the length of the stripped
      line matters; its characters are never looked at. */
  function HeaderName(token: string): (r: Option<Header>)
    ensures r.None? <==> (Strip(token) == [] || |Strip(token)| % 4 != 0 || |Strip(token)| > 36)
    ensures r.Some? ==> |Strip(token)| == 4 * Arity(r.value)
  {
    var t := Strip(token);
    if t == [] then None
    else if |t| % 4 != 0 then None
    else HeaderOf(|t| / 4)
  }

  /** A line names header h exactly when its stripped length is four times
      the arity of h. */
  lemma HeaderNameIs(token: string, h: Header)
    ensures HeaderName(token) == Some(h) <==> |Strip(token)| == 4 * Arity(h)
  {
  }

  /** Two lines whose stripped lengths agree classify alike, whatever
      characters they hold. */
  lemma HeaderNameIgnoresCharacters(a: string, b: string)
    requires |Strip(a)| == |Strip(b)|
    ensures HeaderName(a) == HeaderName(b)
  {
  }

  /** "fard" repeated k times. */
  function Fards(k: nat): (r: string)
    ensures |r| == 4 * k
    ensures forall i :: 0 <= i < |r| ==> r[i] in "fard"
  {
    if k == 0 then "" else "fard" + Fards(k - 1)
  }

  /** The canonical source line of header h. */
  function HeaderLine(h: Header): (line: string) {
    Fards(Arity(h))
  }

  /** A header line followed by blanks still names its header. */
  lemma PaddedHeaderLine(h: Header, k: nat)
    ensures HeaderName(HeaderLine(h) + Spaces(k)) == Some(h)
  {
    TrailingBlanksStripped(HeaderLine(h), k);
    HeaderLineRoundTrip(h);
  }

  lemma HeaderLineRoundTrip(h: Header)
    ensures HeaderName(HeaderLine(h)) == Some(h)
  {
    var s := HeaderLine(h);
    StripSpaceFree(s);
    HeaderNameIs(s, h);
  }
}
