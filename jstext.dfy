/**
 * The parts of ECMAScript's string library the core relies on:
 * `String.prototype.trim`, `startsWith`, `split` with a one-character
 * separator, and the string-to-number conversion behind the global `isNaN`.
 */
module JsText {

  /** ECMAScript WhiteSpace and LineTerminator code points: what `trim` removes. */
  predicate IsJsSpace(c: char) {
    || c == '\t' || c == '\n' || c == '\U{000B}' || c == '\U{000C}' || c == '\r'
    || c == ' ' || c == '\U{00A0}' || c == '\U{1680}'
    || ('\U{2000}' <= c <= '\U{200A}')
    || c == '\U{2028}' || c == '\U{2029}' || c == '\U{202F}' || c == '\U{205F}'
    || c == '\U{3000}' || c == '\U{FEFF}'
  }

  /** `s.trimStart()`: drops the longest all-space prefix. */
  function TrimStart(s: string): (r: string)
    ensures |r| <= |s| && r == s[|s| - |r|..]
    ensures forall i :: 0 <= i < |s| - |r| ==> IsJsSpace(s[i])
    ensures r == [] || !IsJsSpace(r[0])
    decreases |s|
  {
    if |s| > 0 && IsJsSpace(s[0]) then TrimStart(s[1..]) else s
  }

  /** `s.trimEnd()`: drops the longest all-space suffix. */
  function TrimEnd(s: string): (r: string)
    ensures |r| <= |s| && r == s[..|r|]
    ensures forall i :: |r| <= i < |s| ==> IsJsSpace(s[i])
    ensures r == [] || !IsJsSpace(r[|r| - 1])
    decreases |s|
  {
    if |s| > 0 && IsJsSpace(s[|s| - 1]) then TrimEnd(s[..|s| - 1]) else s
  }

  /** `s.trim()`: neither starts nor ends with a space (`TrimShape` says where it sits in `s`). */
  function Trim(s: string): (r: string)
    ensures r == [] || (!IsJsSpace(r[0]) && !IsJsSpace(r[|r| - 1]))
  {
    TrimEnd(TrimStart(s))
  }

  /** `s` is `k` spaces, then `Trim(s)`, then spaces. */
  lemma TrimShape(s: string)
    ensures var r, k := Trim(s), |s| - |TrimStart(s)|;
      && k + |r| <= |s| && s[k..k + |r|] == r
      && (forall i :: 0 <= i < k ==> IsJsSpace(s[i]))
      && (forall i :: k + |r| <= i < |s| ==> IsJsSpace(s[i]))
  {
    var t := TrimStart(s);
    var r := TrimEnd(t);
    var k := |s| - |t|;
    assert t == s[k..];
    assert r == t[..|r|];
    assert s[k..k + |r|] == t[..|r|];
    forall i | k + |r| <= i < |s|
      ensures IsJsSpace(s[i])
    {
      assert s[i] == t[i - k];
    }
  }

  /** A string with no space at either end is its own trim. */
  lemma {:induction false} TrimNoEdgeSpace(s: string)
    requires s == [] || (!IsJsSpace(s[0]) && !IsJsSpace(s[|s| - 1]))
    ensures Trim(s) == s
  {
    assert TrimStart(s) == s;
    assert TrimEnd(s) == s;
  }

  /** Trimming twice is trimming once. */
  lemma TrimIdempotent(s: string)
    ensures Trim(Trim(s)) == Trim(s)
  {
    TrimNoEdgeSpace(Trim(s));
  }

  /** `s.startsWith(p)`: `s` agrees with `p` at each of its positions. */
  function StartsWith(s: string, p: string): (b: bool)
    ensures b <==> |p| <= |s| && forall i :: 0 <= i < |p| ==> s[i] == p[i]
  {
    |p| <= |s| && s[..|p|] == p
  }

  /** Index of the first `c` in `s`. */
  function IndexOf(s: string, c: char): (i: nat)
    requires c in s
    ensures i < |s| && s[i] == c && c !in s[..i]
  {
    if s[0] == c then 0 else
      var j := IndexOf(s[1..], c);
      assert s[..j + 1] == [s[0]] + s[1..][..j];
      j + 1
  }

  /** `s.split(sep)` for a one-character separator: never empty, no piece holds `sep`. */
  function Split(s: string, sep: char): (parts: seq<string>)
    ensures |parts| >= 1
    ensures forall k :: 0 <= k < |parts| ==> sep !in parts[k]
    decreases |s|
  {
    if sep !in s then [s]
    else
      var i := IndexOf(s, sep);
      [s[..i]] + Split(s[i + 1..], sep)
  }

  /** `parts.join(sep)`: the inverse of Split. */
  function Join(parts: seq<string>, sep: char): string
    requires |parts| >= 1
  {
    if |parts| == 1 then parts[0] else parts[0] + [sep] + Join(parts[1..], sep)
  }

  /** Joining the pieces of a split gives back the original string. */
  lemma {:induction false} JoinSplit(s: string, sep: char)
    ensures Join(Split(s, sep), sep) == s
    decreases |s|
  {
    if sep in s {
      var i := IndexOf(s, sep);
      var rest := Split(s[i + 1..], sep);
      assert Split(s, sep) == [s[..i]] + rest;
      assert ([s[..i]] + rest)[1..] == rest;
      JoinSplit(s[i + 1..], sep);
      assert Join([s[..i]] + rest, sep) == s[..i] + [sep] + s[i + 1..];
      assert s == s[..i] + [sep] + s[i + 1..];
    }
  }

  /** `s` ends with `suffix`. */
  predicate EndsWith(s: string, suffix: string) {
    |suffix| <= |s| && s[|s| - |suffix|..] == suffix
  }

  /** A join ends with its last piece. */
  lemma {:induction false} JoinEndsWithLast(parts: seq<string>, sep: char)
    requires |parts| >= 1
    ensures EndsWith(Join(parts, sep), parts[|parts| - 1])
    decreases |parts|
  {
    if |parts| > 1 {
      JoinEndsWithLast(parts[1..], sep);
      var rest := Join(parts[1..], sep);
      var s := Join(parts, sep);
      assert s == parts[0] + [sep] + rest;
      assert s[|s| - |rest|..] == rest;
    }
  }

  /** The last piece of a split is a suffix of the string. */
  lemma SplitLastIsSuffix(s: string, sep: char)
    ensures EndsWith(s, Split(s, sep)[|Split(s, sep)| - 1])
  {
    JoinSplit(s, sep);
    JoinEndsWithLast(Split(s, sep), sep);
  }

  /** A split stops at the first separator. */
  lemma SplitAtFirst(a: string, b: string, sep: char)
    requires sep !in a
    ensures Split(a + [sep] + b, sep) == [a] + Split(b, sep)
  {
    var s := a + [sep] + b;
    assert s[|a|] == sep;
    var i := IndexOf(s, sep);
    assert forall j :: 0 <= j < |a| ==> s[j] == a[j];
    assert i <= |a| by {
      assert forall j :: 0 <= j < i ==> s[..i][j] == s[j];
    }
    assert i == |a|;
    assert s[..i] == a;
    assert s[i + 1..] == b;
  }

  /** Splitting a join of separator-free pieces gives back the pieces. */
  lemma {:induction false} SplitJoin(parts: seq<string>, sep: char)
    requires |parts| >= 1
    requires forall k :: 0 <= k < |parts| ==> sep !in parts[k]
    ensures Split(Join(parts, sep), sep) == parts
    decreases |parts|
  {
    if |parts| > 1 {
      SplitAtFirst(parts[0], Join(parts[1..], sep), sep);
      SplitJoin(parts[1..], sep);
      assert parts == [parts[0]] + parts[1..];
    } else {
      assert Join(parts, sep) == parts[0];
    }
  }

  /** A string with one separator splits into the two pieces around it. */
  lemma SplitTwo(a: string, b: string, sep: char)
    requires sep !in a && sep !in b
    ensures Split(a + [sep] + b, sep) == [a, b]
  {
    var two := [a, b];
    assert Join(two[1..], sep) == b;
    assert Join(two, sep) == a + [sep] + b;
    SplitJoin(two, sep);
  }

  // ----- `isNaN(s)` for a string s: the StringToNumber grammar of ECMAScript -----

  predicate IsDecimalDigit(c: char) { '0' <= c <= '9' }

  /** Every character is a decimal digit (the empty string included). */
  predicate Digits(s: string) {
    forall i :: 0 <= i < |s| ==> IsDecimalDigit(s[i])
  }

  /** A digit of base 2, 8 or 16. */
  predicate InBase(c: char, base: nat) {
    if base == 16 then IsDecimalDigit(c) || 'a' <= c <= 'f' || 'A' <= c <= 'F'
    else if base == 8 then '0' <= c <= '7'
    else c == '0' || c == '1'
  }

  /**
   * The states of a left-to-right scan of a trimmed StringNumericLiteral:
   * `Signed` after a leading sign, `Word(k)` after the first `k` letters of
   * `Infinity`, `Zero` after a
   * lone leading `0`, `Int` in the integer digits, `LeadDot` after a `.`
   * with no digits before it, `IntDot` after a `.` that follows digits,
   * `Frac` in the fraction digits, `ExpMark`/`ExpSign`/`Exp` in the
   * exponent, `Radix`/`RadixDigits` in a `0x`, `0o` or `0b` literal.
   */
  datatype ScanState =
    | Start | Signed | Zero | Int | LeadDot | IntDot | Frac
    | ExpMark | ExpSign | Exp | Radix(base: nat) | RadixDigits(base: nat)
    | Word(k: nat) | Dead

  const InfinityWord := "Infinity"

  function Step(q: ScanState, c: char): ScanState {
    match q
    case Start =>
      if c == '+' || c == '-' then Signed
      else if c == '0' then Zero
      else if IsDecimalDigit(c) then Int
      else if c == '.' then LeadDot
      else if c == 'I' then Word(1)
      else Dead
    case Signed =>
      if IsDecimalDigit(c) then Int
      else if c == '.' then LeadDot
      else if c == 'I' then Word(1)
      else Dead
    case Zero =>
      if IsDecimalDigit(c) then Int
      else if c == '.' then IntDot
      else if c == 'e' || c == 'E' then ExpMark
      else if c == 'x' || c == 'X' then Radix(16)
      else if c == 'o' || c == 'O' then Radix(8)
      else if c == 'b' || c == 'B' then Radix(2)
      else Dead
    case Int =>
      if IsDecimalDigit(c) then Int
      else if c == '.' then IntDot
      else if c == 'e' || c == 'E' then ExpMark
      else Dead
    case LeadDot =>
      if IsDecimalDigit(c) then Frac else Dead
    case IntDot =>
      if IsDecimalDigit(c) then Frac else if c == 'e' || c == 'E' then ExpMark else Dead
    case Frac =>
      if IsDecimalDigit(c) then Frac else if c == 'e' || c == 'E' then ExpMark else Dead
    case ExpMark =>
      if c == '+' || c == '-' then ExpSign else if IsDecimalDigit(c) then Exp else Dead
    case ExpSign =>
      if IsDecimalDigit(c) then Exp else Dead
    case Exp =>
      if IsDecimalDigit(c) then Exp else Dead
    case Radix(base) =>
      if InBase(c, base) then RadixDigits(base) else Dead
    case RadixDigits(base) =>
      if InBase(c, base) then RadixDigits(base) else Dead
    case Word(k) =>
      if k < |InfinityWord| && c == InfinityWord[k] then Word(k + 1) else Dead
    case Dead => Dead
  }

  /** The state after scanning `t` from `q`. */
  function Scan(t: string, q: ScanState): ScanState
    decreases |t|
  {
    if t == [] then q else Scan(t[1..], Step(q, t[0]))
  }

  /**
   * The states in which a literal may end: `DecimalDigits`, `DecimalDigits .`,
   * a fraction, a complete exponent, a complete `0x`/`0o`/`0b` literal, or
   * the whole word `Infinity`.
   */
  predicate Accepting(q: ScanState) {
    q.Zero? || q.Int? || q.IntDot? || q.Frac? || q.Exp? || q.RadixDigits? || q == Word(|InfinityWord|)
  }

  /**
   * `!isNaN(s)` for a string `s`: after trimming, `s` is empty (which
   * converts to 0) or a numeric literal, `Infinity` and its signed forms
   * included.
   */
  function IsNumericString(s: string): (b: bool)
    ensures Trim(s) == [] ==> b
    ensures b && Trim(s) != [] ==> CanLead(Trim(s)[0])
  {
    var t := Trim(s);
    if t == [] then true
    else
      DeadStays(t[1..]);
      Accepting(Scan(t, Start))
  }

  /** The characters a trimmed numeric literal can start with: a sign, a digit, `.`, or the `I` of `Infinity`. */
  predicate CanLead(c: char) {
    c == '+' || c == '-' || IsDecimalDigit(c) || c == '.' || c == 'I'
  }

  /** Scanning a concatenation scans its halves in turn. */
  lemma {:induction false} ScanAppend(a: string, b: string, q: ScanState)
    ensures Scan(a + b, q) == Scan(b, Scan(a, q))
    decreases |a|
  {
    if a == [] {
      assert a + b == b;
    } else {
      assert (a + b)[1..] == a[1..] + b;
      ScanAppend(a[1..], b, Step(q, a[0]));
    }
  }

  /** Digits keep a scan in `Int`, `Frac` or `Exp`. */
  lemma {:induction false} DigitsStay(d: string, q: ScanState)
    requires q == Int || q == Frac || q == Exp
    requires Digits(d)
    ensures Scan(d, q) == q
    decreases |d|
  {
    if d != [] {
      assert IsDecimalDigit(d[0]);
      DigitsStay(d[1..], q);
    }
  }

  /** Once dead, a scan stays dead. */
  lemma {:induction false} DeadStays(t: string)
    ensures Scan(t, Dead) == Dead
    decreases |t|
  {
    if t != [] {
      DeadStays(t[1..]);
    }
  }

  /** A non-empty run of digits scans to `Zero` or `Int`. */
  lemma DigitRunScan(d: string)
    requires |d| > 0 && Digits(d)
    ensures Scan(d, Start) == Zero || Scan(d, Start) == Int
  {
    var rest := d[1..];
    assert Digits(rest) by {
      assert forall i :: 0 <= i < |rest| ==> rest[i] == d[i + 1];
    }
    assert Scan(d, Start) == Scan(rest, Step(Start, d[0]));
    if rest != [] {
      assert Scan(rest, Step(Start, d[0])) == Scan(rest[1..], Int);
      DigitsStay(rest[1..], Int);
    }
  }

  /** A string that starts and ends with a digit is its own trimmed form. */
  lemma DigitEdgesUntrimmed(s: string)
    requires |s| > 0 && IsDecimalDigit(s[0]) && IsDecimalDigit(s[|s| - 1])
    ensures Trim(s) == s
  {
    TrimNoEdgeSpace(s);
  }

  /** Every non-empty run of decimal digits passes the `isNaN` test. */
  lemma DigitsAreNumeric(s: string)
    requires |s| > 0 && Digits(s)
    ensures IsNumericString(s)
  {
    DigitEdgesUntrimmed(s);
    DigitRunScan(s);
  }

  /** `whole.frac` scans to `Frac`. */
  lemma FractionScan(whole: string, frac: string)
    requires |whole| > 0 && Digits(whole) && |frac| > 0 && Digits(frac)
    ensures Scan(whole + "." + frac, Start) == Frac
  {
    DigitRunScan(whole);
    ScanAppend(whole + ".", frac, Start);
    ScanAppend(whole, ".", Start);
    assert Scan(".", Scan(whole, Start)) == IntDot;
    assert Scan(frac, IntDot) == Scan(frac[1..], Frac);
    DigitsStay(frac[1..], Frac);
  }

  /** `isNaN` accepts a decimal fraction such as `1.5`, not only digits. */
  lemma FractionIsNumeric(whole: string, frac: string)
    requires |whole| > 0 && Digits(whole) && |frac| > 0 && Digits(frac)
    ensures IsNumericString(whole + "." + frac)
  {
    var s := whole + "." + frac;
    assert s[0] == whole[0] && s[|s| - 1] == frac[|frac| - 1];
    DigitEdgesUntrimmed(s);
    FractionScan(whole, frac);
  }

  /** `mantissa e exponent` scans to `Exp`. */
  lemma ExponentScan(mantissa: string, exponent: string)
    requires |mantissa| > 0 && Digits(mantissa) && |exponent| > 0 && Digits(exponent)
    ensures Scan(mantissa + "e" + exponent, Start) == Exp
  {
    DigitRunScan(mantissa);
    ScanAppend(mantissa + "e", exponent, Start);
    ScanAppend(mantissa, "e", Start);
    assert Scan("e", Scan(mantissa, Start)) == ExpMark;
    assert Scan(exponent, ExpMark) == Scan(exponent[1..], Exp);
    DigitsStay(exponent[1..], Exp);
  }

  /** `isNaN` accepts an exponent form such as `1e3`. */
  lemma ExponentIsNumeric(mantissa: string, exponent: string)
    requires |mantissa| > 0 && Digits(mantissa) && |exponent| > 0 && Digits(exponent)
    ensures IsNumericString(mantissa + "e" + exponent)
  {
    var s := mantissa + "e" + exponent;
    assert s[0] == mantissa[0] && s[|s| - 1] == exponent[|exponent| - 1];
    DigitEdgesUntrimmed(s);
    ExponentScan(mantissa, exponent);
  }

  /** Trimming keeps a first character that is not a space. */
  lemma TrimKeepsFirst(s: string)
    requires |s| > 0 && !IsJsSpace(s[0])
    ensures |Trim(s)| > 0 && Trim(s)[0] == s[0]
  {
    assert TrimStart(s) == s;
  }

  /**
   * `isNaN` rejects a string that starts with an ASCII letter other than
   * `I` (as `notanumber` does): no numeric literal starts that way.
   */
  lemma LetterStartIsNaN(s: string)
    requires |s| > 0 && ('a' <= s[0] <= 'z' || 'A' <= s[0] <= 'Z') && s[0] != 'I'
    ensures !IsNumericString(s)
  {
    TrimKeepsFirst(s);
  }

  /** `isNaN(" ")` is false: a string of spaces trims to empty, which converts to 0. */
  lemma SpacesAreNumeric(s: string)
    requires forall i :: 0 <= i < |s| ==> IsJsSpace(s[i])
    ensures IsNumericString(s)
  {
    TrimShape(s);
  }

  /** The rest of `Infinity` after its first `k` letters completes the word. */
  lemma {:induction false} WordScan(k: nat)
    requires 1 <= k <= |InfinityWord|
    ensures Scan(InfinityWord[k..], Word(k)) == Word(|InfinityWord|)
    decreases |InfinityWord| - k
  {
    var rest := InfinityWord[k..];
    if k < |InfinityWord| {
      assert rest[0] == InfinityWord[k] && rest[1..] == InfinityWord[k + 1..];
      WordScan(k + 1);
    } else {
      assert rest == [];
    }
  }

  /** `Infinity`, signed or not, scans to the accepting `Word` state. */
  lemma InfinityScan(s: string)
    requires s == InfinityWord || s == "+" + InfinityWord || s == "-" + InfinityWord
    ensures Accepting(Scan(s, Start))
  {
    var w := InfinityWord;
    assert w[0] == 'I';
    WordScan(1);
    if s == w {
      assert Scan(s, Start) == Scan(w[1..], Word(1));
    } else {
      assert s[0] == '+' || s[0] == '-';
      assert s[1..] == w;
      assert Scan(s, Start) == Scan(w, Signed);
      assert Scan(w, Signed) == Scan(w[1..], Word(1));
    }
  }

  /** `Infinity`, signed or not, passes the `isNaN` test. */
  lemma InfinityIsNumeric(s: string)
    requires s == InfinityWord || s == "+" + InfinityWord || s == "-" + InfinityWord
    ensures IsNumericString(s)
  {
    assert !IsJsSpace(s[0]) && s[|s| - 1] == 'y';
    TrimNoEdgeSpace(s);
    InfinityScan(s);
  }

  /** A `0x` literal with hexadecimal digits passes the `isNaN` test. */
  lemma HexIsNumeric(s: string)
    requires |s| >= 3 && s[0] == '0' && (s[1] == 'x' || s[1] == 'X')
    requires forall i :: 2 <= i < |s| ==> InBase(s[i], 16)
    ensures IsNumericString(s)
  {
    assert InBase(s[|s| - 1], 16);
    TrimNoEdgeSpace(s);
    var digits := s[3..];
    assert Scan(s, Start) == Scan(s[1..], Zero);
    assert Scan(s[1..], Zero) == Scan(s[2..], Radix(16));
    assert Scan(s[2..], Radix(16)) == Scan(digits, RadixDigits(16));
    RadixDigitsStay(digits, 16);
  }

  /** Digits of the base keep a scan in `RadixDigits`. */
  lemma {:induction false} RadixDigitsStay(d: string, base: nat)
    requires forall i :: 0 <= i < |d| ==> InBase(d[i], base)
    ensures Scan(d, RadixDigits(base)) == RadixDigits(base)
    decreases |d|
  {
    if d != [] {
      RadixDigitsStay(d[1..], base);
    }
  }
}
