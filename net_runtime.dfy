/** The parts of the .NET runtime the tilemap pipeline leans on, written out
    as Dafny functions: the exceptions it can raise, unchecked 32-bit integer
    arithmetic, C#'s truncating division, `int.Parse`/`int.TryParse`,
    `bool.TryParse`, and `List<T>.Find`/`FindAll`. */
module NetRuntime {

  datatype Option<+T> = None | Some(value: T)

  /** The exceptions the pipeline can raise, one per .NET exception type (or
      thrown message) that the modelled code can reach. */
  datatype Error =
    | ArgumentNull          // int.Parse(null)
    | Format                // int.Parse of text that is not an integer
    | Overflow              // int.Parse out of range; `new T[n]` with n < 0
    | DivideByZero          // integer division by zero
    | EndOfStream           // BinaryReader.ReadUInt32 past the end of its stream
    | Zlib                  // ZlibException from MonoGame's GZipStream: the gzip stream is corrupt
    | UnrecognizedEncoding  // the importer's own "Unrecognized encoding." exception
    | IndexOutOfRange       // array indexer out of range
    | ArgumentOutOfRange    // List<T> indexer out of range
    | NullReference         // member access on the null that List<T>.Find returns
    | KeyNotFound           // Dictionary indexer with a key that is not present
    | AssetBuild            // the asset builder could not build a texture

  /** The outcome of an operation that may throw. */
  datatype Result<+T> = Success(value: T) | Failure(error: Error) {
    predicate IsFailure() { Failure? }
    function PropagateFailure<U>(): Result<U> requires Failure? { Failure(error) }
    function Extract(): T requires Success? { value }
  }

  // ---------------------------------------------------------------------
  // 32-bit integers

  const TwoTo32: int := 0x1_0000_0000
  const Int32Min: int := -0x8000_0000
  const Int32Max: int := 0x7FFF_FFFF

  predicate IsInt32(x: int) { Int32Min <= x <= Int32Max }

  /** The value C#'s default (unchecked) `int` arithmetic produces for the
      mathematical result x: the one 32-bit value congruent to x modulo 2^32. */
  function Wrap32(x: int): (r: int)
    ensures IsInt32(r)
    ensures (x - r) % TwoTo32 == 0
    ensures IsInt32(x) ==> r == x
  {
    (x - Int32Min) % TwoTo32 + Int32Min
  }

  lemma {:induction false} Wrap32Unique(x: int, r: int)
    requires IsInt32(r) && (x - r) % TwoTo32 == 0
    ensures Wrap32(x) == r
  {
    var w := Wrap32(x);
    var d := w - r;
    assert d % TwoTo32 == 0 by {
      assert (x - r) % TwoTo32 == 0 && (x - w) % TwoTo32 == 0;
      assert d == (x - r) - (x - w);
      assert (x - r) == TwoTo32 * ((x - r) / TwoTo32);
      assert (x - w) == TwoTo32 * ((x - w) / TwoTo32);
      assert d == TwoTo32 * ((x - r) / TwoTo32 - (x - w) / TwoTo32);
    }
    assert -TwoTo32 < d < TwoTo32;
  }

  /** C#'s `a / b` on integers: the quotient rounded toward zero. */
  function Quot(a: int, b: int): (q: int)
    requires b != 0
    ensures var rem := a - q * b; -Abs(b) < rem < Abs(b) && (rem == 0 || (rem < 0 <==> a < 0))
  {
    if a >= 0 && b > 0 then a / b
    else if a >= 0 then -(a / -b)
    else if b > 0 then -((-a) / b)
    else (-a) / (-b)
  }

  function Abs(x: int): int { if x < 0 then -x else x }

  // ---------------------------------------------------------------------
  // Text

  /** The white-space characters .NET's number parser skips (U+0009..U+000D and U+0020). */
  predicate IsWhiteSpace(c: char) { c == ' ' || '\t' <= c <= '\r' }

  predicate IsDigit(c: char) { '0' <= c <= '9' }

  predicate AllDigits(s: string) { forall i :: 0 <= i < |s| ==> IsDigit(s[i]) }

  /** s without its leading characters that satisfy drop. */
  function TrimStart(s: string, drop: char -> bool): (r: string)
    ensures |r| <= |s| && r == s[|s| - |r|..]
    ensures r == [] || !drop(r[0])
    ensures forall i :: 0 <= i < |s| - |r| ==> drop(s[i])
  {
    if s != [] && drop(s[0]) then TrimStart(s[1..], drop) else s
  }

  /** s without its trailing characters that satisfy drop. */
  function TrimEnd(s: string, drop: char -> bool): (r: string)
    ensures |r| <= |s| && r == s[..|r|]
    ensures r == [] || !drop(r[|r| - 1])
    ensures forall i :: |r| <= i < |s| ==> drop(s[i])
  {
    if s != [] && drop(s[|s| - 1]) then TrimEnd(s[..|s| - 1], drop) else s
  }

  function DigitsValue(s: string): nat
    requires AllDigits(s)
  {
    if s == [] then 0 else 10 * DigitsValue(s[..|s| - 1]) + (s[|s| - 1] - '0') as int
  }

  predicate IsNul(c: char) { c == '\0' }

  /** The part of s that holds the sign and digits, once the leading white
      space, the trailing NUL characters and the white space before them are cut. */
  function NumberCore(s: string): string
  {
    TrimEnd(TrimEnd(TrimStart(s, IsWhiteSpace), IsNul), IsWhiteSpace)
  }

  /** `int.Parse(s)` under the invariant culture: optional white space, an
      optional sign, one or more decimal digits, optional white space and
      trailing NUL characters; the value must fit in 32 bits. */
  function ParseInt32(s: Option<string>): (r: Result<int>)
    ensures r.Success? ==> IsInt32(r.value)
    ensures r.Failure? ==> r.error in {ArgumentNull, Format, Overflow}
    ensures r.Failure? && r.error == ArgumentNull <==> s.None?
  {
    if s.None? then Failure(ArgumentNull)
    else
      var core := NumberCore(s.value);
      var signed := |core| > 0 && (core[0] == '-' || core[0] == '+');
      var digits := if signed then core[1..] else core;
      if digits == [] || !AllDigits(digits) then Failure(Format)
      else
        var v: int := if signed && core[0] == '-' then 0 - (DigitsValue(digits) as int) else DigitsValue(digits);
        if IsInt32(v) then Success(v) else Failure(Overflow)
  }

  /** The value `int.TryParse(s, out v)` leaves in v: the parsed value, or 0
      when s is absent or does not parse. */
  function TryParseInt32(s: Option<string>): (v: int)
    ensures IsInt32(v)
    ensures ParseInt32(s).Success? ==> v == ParseInt32(s).value
    ensures ParseInt32(s).Failure? ==> v == 0
  {
    match ParseInt32(s)
    case Success(n) => n
    case Failure(_) => 0
  }

  /** The decimal spelling of n, as `n.ToString()` writes it. */
  function Decimal(n: int): (s: string)
  {
    if n < 0 then "-" + Digits(-n) else Digits(n)
  }

  function Digits(n: nat): (s: string)
    ensures s != [] && AllDigits(s) && s[0] != '-' && s[0] != '+'
    decreases n
  {
    if n < 10 then [('0' as int + n) as char] else Digits(n / 10) + [('0' as int + n % 10) as char]
  }

  lemma {:induction false} DigitsValueOfDigits(n: nat)
    ensures DigitsValue(Digits(n)) == n
    decreases n
  {
    var s := Digits(n);
    if n >= 10 {
      DigitsValueOfDigits(n / 10);
      assert s[..|s| - 1] == Digits(n / 10);
    }
  }

  lemma CoreOfTrimmed(s: string)
    requires s != [] && !IsWhiteSpace(s[0]) && IsDigit(s[|s| - 1])
    ensures NumberCore(s) == s
  {
    assert TrimStart(s, IsWhiteSpace) == s;
    assert TrimEnd(s, IsNul) == s;
    assert TrimEnd(s, IsWhiteSpace) == s;
  }

  lemma DecimalIsItsOwnCore(n: int)
    ensures NumberCore(Decimal(n)) == Decimal(n)
  {
    var s := Decimal(n);
    var t := Digits(if n < 0 then -n else n);
    assert IsDigit(t[|t| - 1]);
    assert IsDigit(t[0]);
    assert s[|s| - 1] == t[|t| - 1];
    assert s[0] == '-' || s[0] == t[0];
    CoreOfTrimmed(s);
  }

  /** int.Parse reads back what ToString writes, for every 32-bit value. */
  lemma ParseDecimal(n: int)
    requires IsInt32(n)
    ensures ParseInt32(Some(Decimal(n))) == Success(n)
  {
    DecimalIsItsOwnCore(n);
    if n < 0 {
      ParseNegativeDecimal(n);
    } else {
      ParseNonNegativeDecimal(n);
    }
  }

  lemma ParseNegativeDecimal(n: int)
    requires IsInt32(n) && n < 0
    requires NumberCore(Decimal(n)) == Decimal(n)
    ensures ParseInt32(Some(Decimal(n))) == Success(n)
  {
    var s := Decimal(n);
    DigitsValueOfDigits(-n);
    assert s[0] == '-' && s[1..] == Digits(-n);
    assert s[1..] != [] && AllDigits(s[1..]);
    assert DigitsValue(s[1..]) == -n;
  }

  lemma ParseNonNegativeDecimal(n: int)
    requires IsInt32(n) && 0 <= n
    requires NumberCore(Decimal(n)) == Decimal(n)
    ensures ParseInt32(Some(Decimal(n))) == Success(n)
  {
    var s := Decimal(n);
    DigitsValueOfDigits(n);
    assert s == Digits(n) && s[0] != '-' && s[0] != '+';
    assert DigitsValue(s) == n;
  }

  /** The characters `bool.TryParse` trims from both ends. */
  /** `char.IsWhiteSpace`: the Unicode space separators, the line and
      paragraph separators, U+0009..U+000D, U+0085 and U+00A0. */
  predicate IsUnicodeWhiteSpace(c: char)
  {
    || IsWhiteSpace(c) || c == '\U{0085}' || c == '\U{00A0}' || c == '\U{1680}'
    || '\U{2000}' <= c <= '\U{200A}' || c == '\U{2028}' || c == '\U{2029}'
    || c == '\U{202F}' || c == '\U{205F}' || c == '\U{3000}'
  }

  /** What `bool.TryParse` trims from both ends of its input. */
  predicate IsWhiteSpaceOrNul(c: char) { IsUnicodeWhiteSpace(c) || c == '\0' }

  /** ASCII lower-casing, the case folding that matters for "true"/"false". */
  function ToLower(c: char): char { if 'A' <= c <= 'Z' then (c as int + 32) as char else c }

  predicate EqualsIgnoreCase(a: string, b: string)
  {
    |a| == |b| && forall i :: 0 <= i < |a| ==> ToLower(a[i]) == ToLower(b[i])
  }

  /** `bool.TryParse(s, out v)`: "true" or "false" in any letter case, with
      white space and NUL characters around it. */
  function TryParseBool(s: string): (r: Option<bool>)
    ensures r == Some(true) <==> EqualsIgnoreCase(TrimEnd(TrimStart(s, IsWhiteSpaceOrNul), IsWhiteSpaceOrNul), "true")
    ensures r == Some(false) <==> EqualsIgnoreCase(TrimEnd(TrimStart(s, IsWhiteSpaceOrNul), IsWhiteSpaceOrNul), "false")
  {
    var t := TrimEnd(TrimStart(s, IsWhiteSpaceOrNul), IsWhiteSpaceOrNul);
    if EqualsIgnoreCase(t, "true") then Some(true)
    else if EqualsIgnoreCase(t, "false") then Some(false)
    else None
  }

  /** The default "false" does not parse as true. */
  lemma TryParseBoolFalse()
    ensures !BoolOrFalse("false")
  {
    var s := "false";
    assert !IsWhiteSpaceOrNul(s[0]) && !IsWhiteSpaceOrNul(s[|s| - 1]);
    assert TrimStart(s, IsWhiteSpaceOrNul) == s;
    assert TrimEnd(s, IsWhiteSpaceOrNul) == s;
    assert !EqualsIgnoreCase(s, "true");
    assert EqualsIgnoreCase(s, "false");
  }

  /** The value `bool.TryParse(s, out v)` leaves in v: false unless s parses as true. */
  function BoolOrFalse(s: string): bool
  {
    TryParseBool(s) == Some(true)
  }

  /** Only white space and NUL characters. */
  predicate Blank(s: string) { forall i :: 0 <= i < |s| ==> IsWhiteSpaceOrNul(s[i]) }

  /** Trimming the blank front of p + r, when r starts with a character that stays, leaves r. */
  lemma TrimStartBlank(p: string, r: string)
    requires Blank(p) && r != [] && !IsWhiteSpaceOrNul(r[0])
    ensures TrimStart(p + r, IsWhiteSpaceOrNul) == r
  {
    var s := p + r;
    var t := TrimStart(s, IsWhiteSpaceOrNul);
    assert forall i :: 0 <= i < |p| ==> s[i] == p[i];
    assert s[|p|] == r[0];
    assert |s| - |t| <= |p| by {
      assert forall i :: 0 <= i < |s| - |t| ==> IsWhiteSpaceOrNul(s[i]);
    }
    assert t == s[|p|..] == r;
  }

  /** Trimming the blank back of r + q, when r ends with a character that stays, leaves r. */
  lemma TrimEndBlank(r: string, q: string)
    requires Blank(q) && r != [] && !IsWhiteSpaceOrNul(r[|r| - 1])
    ensures TrimEnd(r + q, IsWhiteSpaceOrNul) == r
  {
    var s := r + q;
    var t := TrimEnd(s, IsWhiteSpaceOrNul);
    assert forall i :: |r| <= i < |s| ==> s[i] == q[i - |r|];
    assert s[|r| - 1] == r[|r| - 1];
    assert |t| >= |r| by {
      assert forall i :: |t| <= i < |s| ==> IsWhiteSpaceOrNul(s[i]);
    }
    assert t == s[..|r|] == r;
  }

  /** `bool.TryParse` accepts "true" or "false" in any letter case with blanks and NULs on either side. */
  lemma TryParseBoolAccepts(p: string, c: string, q: string, word: string)
    requires word == "true" || word == "false"
    requires Blank(p) && Blank(q) && EqualsIgnoreCase(c, word)
    ensures TryParseBool(p + c + q) == Some(word == "true")
  {
    assert ToLower(c[0]) == ToLower(word[0]) && ToLower(c[|c| - 1]) == ToLower(word[|word| - 1]);
    assert !IsWhiteSpaceOrNul(c[0]) && !IsWhiteSpaceOrNul(c[|c| - 1]);
    assert p + c + q == p + (c + q);
    TrimStartBlank(p, c + q);
    TrimEndBlank(c, q);
    assert |c| == |word| && |"true"| != |"false"|;
  }

  /** Conversely, whatever `bool.TryParse` accepts is such a word with blanks and NULs on either side. */
  lemma TryParseBoolDecomposes(s: string) returns (p: string, c: string, q: string)
    requires TryParseBool(s).Some?
    ensures s == p + c + q && Blank(p) && Blank(q)
    ensures EqualsIgnoreCase(c, if TryParseBool(s).value then "true" else "false")
  {
    p, c, q := TrimmedParts(s);
  }

  /** A string is its blank front, what `bool.TryParse` compares, and its blank back. */
  lemma TrimmedParts(s: string) returns (p: string, c: string, q: string)
    ensures s == p + c + q && Blank(p) && Blank(q)
    ensures c == TrimEnd(TrimStart(s, IsWhiteSpaceOrNul), IsWhiteSpaceOrNul)
  {
    p, c, q := SplitTrimmed(s, IsWhiteSpaceOrNul);
  }

  /** Trimming both ends cuts s into a dropped front, the trimmed middle and a dropped back. */
  lemma SplitTrimmed(s: string, drop: char -> bool) returns (p: string, c: string, q: string)
    ensures s == p + c + q && c == TrimEnd(TrimStart(s, drop), drop)
    ensures forall i :: 0 <= i < |p| ==> drop(p[i])
    ensures forall i :: 0 <= i < |q| ==> drop(q[i])
  {
    var front;
    p, front := SplitFront(s, drop);
    c, q := SplitBack(front, drop);
    Regroup(s, p, front, c, q);
  }

  lemma Regroup(s: string, p: string, front: string, c: string, q: string)
    requires s == p + front && front == c + q
    ensures s == p + c + q
  {
    assert p + (c + q) == p + c + q;
  }

  lemma SplitFront(s: string, drop: char -> bool) returns (p: string, r: string)
    ensures s == p + r && r == TrimStart(s, drop)
    ensures forall i :: 0 <= i < |p| ==> drop(p[i])
  {
    r := TrimStart(s, drop);
    p := s[..|s| - |r|];
    assert forall i :: 0 <= i < |p| ==> p[i] == s[i];
  }

  lemma SplitBack(s: string, drop: char -> bool) returns (r: string, q: string)
    ensures s == r + q && r == TrimEnd(s, drop)
    ensures forall i :: 0 <= i < |q| ==> drop(q[i])
  {
    r := TrimEnd(s, drop);
    q := s[|r|..];
    assert forall i :: 0 <= i < |q| ==> q[i] == s[|r| + i];
  }

  /** `int.TryParse` reads back the decimal spelling of every 32-bit value. */
  lemma TryParseInt32Decimal(n: int)
    requires IsInt32(n)
    ensures TryParseInt32(Some(Decimal(n))) == n
  {
    ParseDecimal(n);
  }

  /** An absent attribute, or one without a digit, is a Format (or ArgumentNull) error for
      `int.Parse` and leaves 0 for `int.TryParse`. */
  lemma TryParseInt32WithoutDigits(s: Option<string>)
    requires s.None? || forall i :: 0 <= i < |s.value| ==> !IsDigit(s.value[i])
    ensures ParseInt32(s).Failure? && TryParseInt32(s) == 0
  {
    if s.Some? {
      var text := s.value;
      var t1 := TrimStart(text, IsWhiteSpace);
      var t2 := TrimEnd(t1, IsNul);
      var core := TrimEnd(t2, IsWhiteSpace);
      assert core == NumberCore(text);
      assert forall i :: 0 <= i < |core| ==> core[i] == text[|text| - |t1| + i];
      if |core| > 1 {
        assert !IsDigit(core[1]);
      }
      if |core| > 0 {
        assert !IsDigit(core[0]);
      }
    }
  }

  // ---------------------------------------------------------------------
  // List<T>

  /** `List<T>.Find(match)`: the first element that satisfies match, or null. */
  function Find<T>(xs: seq<T>, match_: T -> bool): (r: Option<T>)
    ensures r.None? <==> forall i :: 0 <= i < |xs| ==> !match_(xs[i])
    ensures r.Some? ==> exists i :: 0 <= i < |xs| && xs[i] == r.value && match_(xs[i]) &&
                                    forall j :: 0 <= j < i ==> !match_(xs[j])
  {
    if xs == [] then None
    else if match_(xs[0]) then Some(xs[0])
    else
      var r := Find(xs[1..], match_);
      assert r.Some? ==> exists i :: 0 <= i < |xs[1..]| && xs[1..][i] == r.value && match_(xs[1..][i]) &&
                                    forall j :: 0 <= j < i ==> !match_(xs[1..][j]);
      assert r.Some? ==> exists i :: 1 <= i < |xs| && xs[i] == r.value && match_(xs[i]) &&
                                    forall j :: 1 <= j < i ==> !match_(xs[j]);
      r
  }

  /** The position of the element Find returns: the first one that matches. */
  lemma FindIndex<T>(xs: seq<T>, match_: T -> bool) returns (i: nat)
    requires Find(xs, match_).Some?
    ensures i < |xs| && xs[i] == Find(xs, match_).value && match_(xs[i])
    ensures forall j :: 0 <= j < i ==> !match_(xs[j])
  {
    i :| 0 <= i < |xs| && xs[i] == Find(xs, match_).value && match_(xs[i]) && forall j :: 0 <= j < i ==> !match_(xs[j]);
  }

  /** `List<T>.FindAll(match)`: the elements that satisfy match, in list order. */
  function FindAll<T>(xs: seq<T>, match_: T -> bool): (r: seq<T>)
    ensures |r| <= |xs|
    ensures forall i :: 0 <= i < |r| ==> r[i] in xs && match_(r[i])
    ensures forall i :: 0 <= i < |xs| && match_(xs[i]) ==> xs[i] in r
  {
    if xs == [] then [] else (if match_(xs[0]) then [xs[0]] else []) + FindAll(xs[1..], match_)
  }

  /** FindAll keeps list order: filtering a concatenation concatenates the filtered parts. */
  lemma {:induction false} FindAllAppend<T>(xs: seq<T>, ys: seq<T>, match_: T -> bool)
    ensures FindAll(xs + ys, match_) == FindAll(xs, match_) + FindAll(ys, match_)
  {
    if xs == [] {
      assert xs + ys == ys;
    } else {
      assert (xs + ys)[1..] == xs[1..] + ys;
      FindAllAppend(xs[1..], ys, match_);
      var head := if match_(xs[0]) then [xs[0]] else [];
      calc {
        FindAll(xs + ys, match_);
        head + FindAll(xs[1..] + ys, match_);
        head + (FindAll(xs[1..], match_) + FindAll(ys, match_));
        (head + FindAll(xs[1..], match_)) + FindAll(ys, match_);
      }
    }
  }

  // ---------------------------------------------------------------------
  // Dictionary<K, V>

  /** `Dictionary<K, V>.GetValueOrDefault(key, defaultValue)`. */
  function GetValueOrDefault<K, V>(d: map<K, V>, key: K, defaultValue: V): V
  {
    if key in d then d[key] else defaultValue
  }
}
