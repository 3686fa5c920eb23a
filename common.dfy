/** Small building blocks the pages lean on: an optional value (TypeScript's
    `T | undefined`), JavaScript's `trim`, `toLowerCase` and `parseInt`, as the
    pages use them on user input. */
module Common {

  datatype Option<+T> = None | Some(value: T) {
    /** `x || d` / `x ?? d` for an optional value. */
    function GetOr(default: T): T {
      match this
      case Some(v) => v
      case None => default
    }
  }

  // ---------------------------------------------------------------------------
  // String.prototype.trim

  /** The white space `trim` removes, restricted to ASCII and the no-break space. */
  predicate IsSpace(c: char) {
    c == ' ' || c == '\t' || c == '\n' || c == '\r' || c as int == 11 || c as int == 12 || c as int == 160
  }

  function TrimStart(s: string): (r: string)
    ensures |r| <= |s| && r == s[|s| - |r|..]
    ensures r == [] || !IsSpace(r[0])
    ensures forall i :: 0 <= i < |s| - |r| ==> IsSpace(s[i])
  {
    if s != [] && IsSpace(s[0]) then TrimStart(s[1..]) else s
  }

  function TrimEnd(s: string): (r: string)
    ensures |r| <= |s| && r == s[..|r|]
    ensures r == [] || !IsSpace(r[|r| - 1])
    ensures forall i :: |r| <= i < |s| ==> IsSpace(s[i])
  {
    if s != [] && IsSpace(s[|s| - 1]) then TrimEnd(s[..|s| - 1]) else s
  }

  /** `s.trim()`: the text with the white space at both ends dropped; it
      neither starts nor ends with white space. */
  function Trim(s: string): (r: string)
    ensures |r| <= |s|
    ensures r == [] || (!IsSpace(r[0]) && !IsSpace(r[|r| - 1]))
  {
    var t := TrimStart(s);
    assert TrimEnd(t) != [] ==> TrimEnd(t)[0] == t[0];
    TrimEnd(t)
  }

  /** `r` sits at position `a` of `s`, with only white space before and after it. */
  predicate SpaceAround(s: string, r: string, a: nat) {
    a + |r| <= |s| && r == s[a..a + |r|] &&
    (forall i :: 0 <= i < a ==> IsSpace(s[i])) &&
    (forall i :: a + |r| <= i < |s| ==> IsSpace(s[i]))
  }

  /** What trimming keeps is the infix between a run of leading and a run of
      trailing white space. */
  lemma {:induction false} TrimShape(s: string)
    ensures SpaceAround(s, Trim(s), |s| - |TrimStart(s)|)
  {
    PrefixOfSuffix(s, TrimStart(s), TrimEnd(TrimStart(s)));
  }

  /** A prefix `r` of a suffix `t` of `s` sits at `|s| - |t|` in `s`; when
      `s` has only white space before `t` and `t` only white space after `r`,
      `s` has only white space around `r`. */
  lemma {:induction false} PrefixOfSuffix(s: string, t: string, r: string)
    requires |t| <= |s| && t == s[|s| - |t|..]
    requires |r| <= |t| && r == t[..|r|]
    requires forall i :: 0 <= i < |s| - |t| ==> IsSpace(s[i])
    requires forall i :: |r| <= i < |t| ==> IsSpace(t[i])
    ensures SpaceAround(s, r, |s| - |t|)
  {
    var a := |s| - |t|;
    forall i | a + |r| <= i < |s|
      ensures IsSpace(s[i])
    {
      assert s[i] == t[i - a];
    }
  }

  /** Trimming twice is trimming once. */
  lemma TrimIdempotent(s: string)
    ensures Trim(Trim(s)) == Trim(s)
  {
    var r := Trim(s);
    if r != [] {
      assert TrimStart(r) == r;
      assert TrimEnd(r) == r;
    }
  }

  /** `!s.trim()`: the trimmed text is the (falsy) empty string. */
  predicate IsBlank(s: string) {
    Trim(s) == ""
  }

  /** A string is blank exactly when every character of it is white space. */
  lemma BlankIffAllSpace(s: string)
    ensures IsBlank(s) <==> forall i :: 0 <= i < |s| ==> IsSpace(s[i])
  {
    TrimShape(s);
    var t := TrimStart(s);
    assert TrimEnd(t) == "" ==> t == [];
    assert SpaceAround(s, Trim(s), |s| - |t|);
  }

  // ---------------------------------------------------------------------------
  // String.prototype.toLowerCase (ASCII letters only)

  function LowerChar(c: char): char {
    if 'A' <= c <= 'Z' then (c as int + 32) as char else c
  }

  function ToLower(s: string): string {
    if s == [] then [] else [LowerChar(s[0])] + ToLower(s[1..])
  }

  // ---------------------------------------------------------------------------
  // parseInt on already trimmed text, decimal only

  predicate IsDigit(c: char) {
    '0' <= c <= '9'
  }

  predicate AllDigits(s: string) {
    forall i :: 0 <= i < |s| ==> IsDigit(s[i])
  }

  /** The length of the run of decimal digits that `s` starts with. */
  function DigitRun(s: string): (n: nat)
    ensures n <= |s| && AllDigits(s[..n])
    ensures n == |s| || !IsDigit(s[n])
  {
    if s != [] && IsDigit(s[0]) then 1 + DigitRun(s[1..]) else 0
  }

  /** The value of a run of decimal digits, read left to right. */
  function DigitsValue(d: string): nat
    requires AllDigits(d)
  {
    if d == [] then 0 else DigitsValue(d[..|d| - 1]) * 10 + (d[|d| - 1] as int - '0' as int)
  }

  /** The text after an optional leading sign. */
  function Unsigned(s: string): string {
    if s != [] && (s[0] == '-' || s[0] == '+') then s[1..] else s
  }

  /** `parseInt(s)` for text that `trim` has already cleaned: an optional sign and
      then the longest run of decimal digits, whatever follows it; `NaN` (None)
      when that run is empty. */
  function ParseInt(s: string): (r: Option<int>)
    ensures r == None <==> Unsigned(s) == [] || !IsDigit(Unsigned(s)[0])
    ensures r != None && s[0] == '-' ==> r.value <= 0
    ensures r != None && s[0] != '-' ==> r.value >= 0
    ensures s != [] && AllDigits(s) ==> r == Some(DigitsValue(s))
  {
    var rest := Unsigned(s);
    var n := DigitRun(rest);
    var v: int := DigitsValue(rest[..n]);
    DigitRunOfDigits(s);
    assert s[..|s|] == s;
    if n == 0 then None else if s[0] == '-' then Some(-v) else Some(v)
  }

  /** The decimal numeral of a natural number, most significant digit first. */
  function Digits(n: nat): (d: string)
    ensures |d| > 0 && AllDigits(d)
  {
    if n < 10 then [('0' as int + n) as char] else Digits(n / 10) + [('0' as int + n % 10) as char]
  }

  /** The decimal numeral of an integer, as typed into an entry field. */
  function FormatInt(n: int): string {
    if n < 0 then "-" + Digits(-n) else Digits(n)
  }

  lemma {:induction false} DigitsValueOfDigits(n: nat)
    ensures DigitsValue(Digits(n)) == n
  {
    if n >= 10 {
      DigitsValueOfDigits(n / 10);
      var d := Digits(n);
      assert d[..|d| - 1] == Digits(n / 10);
    }
  }

  /** An all-digit text is one run of digits. */
  lemma {:induction false} DigitRunOfDigits(d: string)
    ensures AllDigits(d) ==> DigitRun(d) == |d|
  {
    if d != [] && AllDigits(d) {
      assert AllDigits(d[1..]);
      DigitRunOfDigits(d[1..]);
    }
  }

  /** Every integer typed in its decimal form reads back as itself. */
  lemma ParseFormatRoundTrip(n: int)
    ensures ParseInt(FormatInt(n)) == Some(n)
  {
    var s := FormatInt(n);
    var m: nat := if n < 0 then -n else n;
    var d := Digits(m);
    assert Unsigned(s) == d by {
      if n >= 0 {
        assert IsDigit(d[0]);
      } else {
        assert s == "-" + d;
      }
    }
    DigitRunOfDigits(d);
    DigitsValueOfDigits(m);
    assert d[..|d|] == d;
  }
}
