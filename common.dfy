/// Shared vocabulary of the model: optional values and results, the
/// operations of Rust's `str` that the core relies on (prefixes, searching,
/// splitting, trimming) and decimal/hexadecimal number parsing and printing.
module Common {

  datatype Option<T> = None | Some(value: T)
  {
    function UnwrapOr(default: T): T
    {
      if Some? then value else default
    }
  }

  datatype Result<T> = Ok(value: T) | Err(error: string)

  /// A sequence is its prefix followed by the rest; stated once, free of
  /// any context, so that callers do not re-derive it by extensionality.
  lemma TakeDrop<T>(s: seq<T>, b: nat)
    requires b <= |s|
    ensures s[..b] + s[b..] == s
  {
  }

  /// A non-empty sequence is its front followed by its last element.
  lemma FrontLast<T>(s: seq<T>)
    requires |s| > 0
    ensures s == s[..|s| - 1] + [s[|s| - 1]]
  {
  }

  // ---------------------------------------------------------------------
  // Prefixes, suffixes and searching
  // ---------------------------------------------------------------------

  predicate StartsWith(s: string, prefix: string)
  {
    |prefix| <= |s| && s[..|prefix|] == prefix
  }

  predicate EndsWith(s: string, suffix: string)
  {
    |suffix| <= |s| && s[|s| - |suffix|..] == suffix
  }

  /// `s.contains(sub)` for a string pattern.
  predicate Contains(s: string, sub: string)
    decreases |s|
  {
    StartsWith(s, sub) || (|s| > 0 && Contains(s[1..], sub))
  }

  /// `s.strip_prefix(prefix)`.
  function StripPrefix(s: string, prefix: string): (r: Option<string>)
    ensures r.Some? <==> StartsWith(s, prefix)
    ensures r.Some? ==> s == prefix + r.value
  {
    if StartsWith(s, prefix) then Some(s[|prefix|..]) else None
  }

  /// `s.find(c)`: the first index holding `c`.
  function FindChar(s: string, c: char): (r: Option<nat>)
    ensures r.None? <==> c !in s
    ensures r.Some? ==> r.value < |s| && s[r.value] == c && c !in s[..r.value]
    decreases |s|
  {
    if |s| == 0 then None
    else if s[0] == c then Some(0)
    else match FindChar(s[1..], c)
      case None => None
      case Some(i) => Some(i + 1)
  }

  /// `s.rfind(c)`: the last index holding `c`.
  function RFindChar(s: string, c: char): (r: Option<nat>)
    ensures r.None? <==> c !in s
    ensures r.Some? ==> r.value < |s| && s[r.value] == c && c !in s[r.value + 1..]
    decreases |s|
  {
    if |s| == 0 then None
    else if s[|s| - 1] == c then Some(|s| - 1)
    else RFindChar(s[..|s| - 1], c)
  }

  /// `s.find(sub)`: the first index at which `sub` occurs.
  function Find(s: string, sub: string): (r: Option<nat>)
    ensures r.Some? ==> r.value + |sub| <= |s| && s[r.value..r.value + |sub|] == sub
    ensures r.None? <==> !Contains(s, sub)
    decreases |s|
  {
    if StartsWith(s, sub) then Some(0)
    else if |s| == 0 then None
    else match Find(s[1..], sub)
      case None => None
      case Some(i) => Some(i + 1)
  }

  /// The text after the last `c`: `s.rsplit(c).next()`, or `s.split(c).last()`.
  function AfterLast(s: string, c: char): (r: string)
    ensures c !in r
    ensures EndsWith(s, r)
  {
    match RFindChar(s, c)
    case None => s
    case Some(i) => s[i + 1..]
  }

  // ---------------------------------------------------------------------
  // Splitting and joining
  // ---------------------------------------------------------------------

  /// `s.split(c)`: always at least one piece; no piece contains `c`.
  function Split(s: string, c: char): (r: seq<string>)
    ensures |r| >= 1
    ensures forall i :: 0 <= i < |r| ==> c !in r[i]
    decreases |s|
  {
    match FindChar(s, c)
    case None => [s]
    case Some(i) => [s[..i]] + Split(s[i + 1..], c)
  }

  /// `s.split(c).last()` is the text after the last `c`: the last piece is
  /// never missing, so a fallback for it is never used.
  lemma LastPieceIsAfterLast(s: string, c: char)
    ensures Split(s, c)[|Split(s, c)| - 1] == AfterLast(s, c)
  {
    var pieces := Split(s, c);
    var l := pieces[|pieces| - 1];
    var a := AfterLast(s, c);
    assert c !in l;
    SplitLastBoundary(s, c);
    AfterLastBoundary(s, c);
    SuffixAfterBoundaryUnique(s, c, l, a);
  }

  /// The last piece of a split is a suffix of the text, either all of it
  /// or right after a separator.
  lemma {:induction false} SplitLastBoundary(s: string, c: char)
    ensures IsBoundarySuffix(s, c, Split(s, c)[|Split(s, c)| - 1])
    decreases |s|
  {
    match FindChar(s, c)
    case None =>
      assert Split(s, c) == [s];
      assert s[|s| - |s|..] == s;
    case Some(i) =>
      var rest := s[i + 1..];
      var pieces := Split(rest, c);
      SplitLastBoundary(rest, c);
      SplitLastOfFound(s, c, i);
      BoundarySuffixStep(s, c, i, pieces[|pieces| - 1]);
  }

  /// `l` ends `s` and is all of it or follows a `c`.
  predicate IsBoundarySuffix(s: string, c: char, l: string)
  {
    EndsWith(s, l) && (|l| == |s| || s[|s| - |l| - 1] == c)
  }

  lemma SplitLastOfFound(s: string, c: char, i: nat)
    requires FindChar(s, c) == Some(i)
    ensures Split(s, c)[|Split(s, c)| - 1] == Split(s[i + 1..], c)[|Split(s[i + 1..], c)| - 1]
  {
    var tail := Split(s[i + 1..], c);
    assert Split(s, c) == [s[..i]] + tail;
  }

  /// A boundary suffix of the text after a `c` is one of the whole text.
  lemma BoundarySuffixStep(s: string, c: char, i: nat, l: string)
    requires i < |s| && s[i] == c && IsBoundarySuffix(s[i + 1..], c, l)
    ensures IsBoundarySuffix(s, c, l)
  {
    var rest := s[i + 1..];
    assert s[|s| - |l|..] == rest[|rest| - |l|..];
    if |l| == |rest| {
      assert s[|s| - |l| - 1] == s[i];
    } else {
      assert s[|s| - |l| - 1] == rest[|rest| - |l| - 1];
    }
  }

  lemma AfterLastBoundary(s: string, c: char)
    ensures IsBoundarySuffix(s, c, AfterLast(s, c))
  {
  }

  /// Of two boundary suffixes, the shorter sits right after a `c` that
  /// lies inside the longer.
  lemma BoundaryInside(s: string, c: char, a: string, b: string)
    requires IsBoundarySuffix(s, c, a) && EndsWith(s, b)
    ensures |a| < |b| ==> b[|b| - |a| - 1] == c
  {
    if |a| < |b| {
      assert b[|b| - |a| - 1] == s[|s| - |a| - 1];
    }
  }

  /// Two boundary suffixes free of `c` are the same.
  lemma SuffixAfterBoundaryUnique(s: string, c: char, a: string, b: string)
    requires IsBoundarySuffix(s, c, a) && c !in a
    requires IsBoundarySuffix(s, c, b) && c !in b
    ensures a == b
  {
    BoundaryInside(s, c, a, b);
    BoundaryInside(s, c, b, a);
  }

  /// `parts.join(sep)`.
  function Join(parts: seq<string>, sep: string): string
  {
    if |parts| == 0 then ""
    else if |parts| == 1 then parts[0]
    else parts[0] + sep + Join(parts[1..], sep)
  }

  /// `s.lines()` for the consumers in this model, which ignore the
  /// trailing '\r' (they trim) and the empty final line.
  function Lines(s: string): seq<string>
  {
    Split(s, '\n')
  }

  /// Text built by pushing each line followed by '\n'.
  function Unlines(lines: seq<string>): string
  {
    if |lines| == 0 then "" else lines[0] + "\n" + Unlines(lines[1..])
  }

  /// Splitting text built line by line gives the lines back, plus the
  /// empty remainder after the final '\n'.
  lemma {:induction false} LinesOfUnlines(lines: seq<string>)
    requires forall i :: 0 <= i < |lines| ==> '\n' !in lines[i]
    ensures Lines(Unlines(lines)) == lines + [""]
    decreases |lines|
  {
    if |lines| == 0 {
      assert Split("", '\n') == [""];
    } else {
      LinesOfUnlines(lines[1..]);
      assert Unlines(lines) == lines[0] + ['\n'] + Unlines(lines[1..]);
      SplitCons(lines[0], '\n', Unlines(lines[1..]));
      assert [lines[0]] + (lines[1..] + [""]) == lines + [""];
    }
  }

  /// `s.split(|ch| seps.contains(ch))`.
  function SplitAny(s: string, seps: set<char>): (r: seq<string>)
    ensures |r| >= 1
    ensures forall i, j :: 0 <= i < |r| && 0 <= j < |r[i]| ==> r[i][j] !in seps
    decreases |s|
  {
    if |s| == 0 then [""]
    else
      var rest := SplitAny(s[1..], seps);
      if s[0] in seps then [""] + rest
      else [[s[0]] + rest[0]] + rest[1..]
  }

  lemma FindCharAfterPrefix(a: string, c: char, b: string)
    requires c !in a
    ensures FindChar(a + [c] + b, c) == Some(|a|)
    decreases |a|
  {
    if |a| > 0 {
      assert (a + [c] + b)[1..] == a[1..] + [c] + b;
      FindCharAfterPrefix(a[1..], c, b);
    }
  }

  lemma SplitCons(a: string, c: char, b: string)
    requires c !in a
    ensures Split(a + [c] + b, c) == [a] + Split(b, c)
  {
    var s := a + [c] + b;
    FindCharAfterPrefix(a, c, b);
    assert s[..|a|] == a;
    assert s[|a| + 1..] == b;
  }

  /// Joining pieces free of `c` with `c` and splitting again gives the pieces back.
  lemma {:induction false} SplitJoin(parts: seq<string>, c: char)
    requires |parts| >= 1
    requires forall i :: 0 <= i < |parts| ==> c !in parts[i]
    ensures Split(Join(parts, [c]), c) == parts
    decreases |parts|
  {
    if |parts| == 1 {
      assert FindChar(parts[0], c) == None;
    } else {
      SplitCons(parts[0], c, Join(parts[1..], [c]));
      SplitJoin(parts[1..], c);
      assert parts == [parts[0]] + parts[1..];
    }
  }

  // ---------------------------------------------------------------------
  // Whitespace and case
  // ---------------------------------------------------------------------

  /// Unicode White_Space, the set Rust's `char::is_whitespace` uses.
  predicate IsWhitespace(c: char)
  {
    ('\t' <= c <= '\r') || c == ' ' || c == '\U{0085}' || c == '\U{00A0}' || c == '\U{1680}'
    || ('\U{2000}' <= c <= '\U{200A}') || c == '\U{2028}' || c == '\U{2029}'
    || c == '\U{202F}' || c == '\U{205F}' || c == '\U{3000}'
  }

  function TrimStart(s: string): (r: string)
    ensures |r| <= |s|
    decreases |s|
  {
    if |s| > 0 && IsWhitespace(s[0]) then TrimStart(s[1..]) else s
  }

  function TrimEnd(s: string): (r: string)
    ensures |r| <= |s|
    decreases |s|
  {
    if |s| > 0 && IsWhitespace(s[|s| - 1]) then TrimEnd(s[..|s| - 1]) else s
  }

  /// `s.trim()`.
  function Trim(s: string): (r: string)
    ensures |r| <= |s|
  {
    TrimEnd(TrimStart(s))
  }

  /// Trimming removes exactly the surrounding whitespace: the result sits
  /// inside `s`, and neither of its ends is whitespace.
  lemma {:induction false} TrimStripsEnds(s: string) returns (u: nat)
    ensures u + |Trim(s)| <= |s| && s[u..u + |Trim(s)|] == Trim(s)
    ensures |Trim(s)| > 0 ==> !IsWhitespace(Trim(s)[0]) && !IsWhitespace(Trim(s)[|Trim(s)| - 1])
  {
    u := TrimStartAt(s);
    var r := TrimEndAt(s[u..]);
    assert Trim(s) == s[u..][..r];
    assert s[u..u + r] == Trim(s);
  }

  /// The number of leading whitespace characters `TrimStart` drops.
  lemma {:induction false} TrimStartAt(s: string) returns (u: nat)
    ensures u <= |s| && TrimStart(s) == s[u..]
    ensures |TrimStart(s)| > 0 ==> !IsWhitespace(TrimStart(s)[0])
    decreases |s|
  {
    if |s| > 0 && IsWhitespace(s[0]) {
      var v := TrimStartAt(s[1..]);
      u := v + 1;
    } else {
      u := 0;
    }
  }

  /// The length `TrimEnd` keeps.
  lemma {:induction false} TrimEndAt(s: string) returns (r: nat)
    ensures r <= |s| && TrimEnd(s) == s[..r]
    ensures |TrimEnd(s)| > 0 ==> !IsWhitespace(TrimEnd(s)[|TrimEnd(s)| - 1])
    decreases |s|
  {
    if |s| > 0 && IsWhitespace(s[|s| - 1]) {
      r := TrimEndAt(s[..|s| - 1]);
    } else {
      r := |s|;
    }
  }

  /// Text without surrounding whitespace is its own trim.
  lemma TrimOfTrimmed(s: string)
    requires |s| > 0 ==> !IsWhitespace(s[0]) && !IsWhitespace(s[|s| - 1])
    ensures Trim(s) == s
  {
  }

  /// `s.trim_end_matches(c)`.
  function TrimEndChar(s: string, c: char): (r: string)
    ensures StartsWith(s, r)
    ensures |r| == 0 || r[|r| - 1] != c
    decreases |s|
  {
    if |s| > 0 && s[|s| - 1] == c then TrimEndChar(s[..|s| - 1], c) else s
  }

  function ToLowerChar(c: char): char
  {
    if 'A' <= c <= 'Z' then (c as int + 32) as char else c
  }

  /// Lower-casing, restricted to the ASCII letters.
  function ToLower(s: string): (r: string)
    ensures |r| == |s|
    ensures forall i :: 0 <= i < |s| ==> r[i] == ToLowerChar(s[i])
  {
    seq(|s|, i requires 0 <= i < |s| => ToLowerChar(s[i]))
  }

  /// Replaces every `c` in `s` by the string `by` (`s.replace(c, by)`).
  function ReplaceChar(s: string, c: char, replacement: string): (r: string)
    ensures c !in replacement ==> c !in r
    decreases |s|
  {
    if |s| == 0 then ""
    else (if s[0] == c then replacement else [s[0]]) + ReplaceChar(s[1..], c, replacement)
  }

  /// Removes every character of `drop` from `s`.
  function RemoveChars(s: string, drop: set<char>): (r: string)
    ensures forall i :: 0 <= i < |r| ==> r[i] !in drop
    ensures |r| <= |s|
    decreases |s|
  {
    if |s| == 0 then ""
    else (if s[0] in drop then "" else [s[0]]) + RemoveChars(s[1..], drop)
  }

  /// Python's `s.replace(pattern, by)` and Rust's `s.replace(pattern, by)`:
  /// non-overlapping occurrences, left to right.
  function ReplaceAll(s: string, pattern: string, replacement: string): string
    requires |pattern| > 0
    decreases |s|
  {
    if |s| == 0 then ""
    else if StartsWith(s, pattern) then replacement + ReplaceAll(s[|pattern|..], pattern, replacement)
    else [s[0]] + ReplaceAll(s[1..], pattern, replacement)
  }

  /// Python's `s[i:]` for a non-negative `i` (clamped).
  function PyFrom(s: string, i: nat): string
  {
    if i <= |s| then s[i..] else ""
  }

  /// Python's `s[:i]` for a non-negative `i` (clamped).
  function PyTo(s: string, i: nat): string
  {
    if i <= |s| then s[..i] else s
  }

  // ---------------------------------------------------------------------
  // Numbers
  // ---------------------------------------------------------------------

  const U64_LIMIT: nat := 0x1_0000_0000_0000_0000
  const I64_MIN: int := -0x8000_0000_0000_0000
  const I64_MAX: int := 0x7FFF_FFFF_FFFF_FFFF
  const I32_MIN: int := -0x8000_0000
  const I32_MAX: int := 0x7FFF_FFFF

  /// The value of `c` as a digit of `radix` (10 or 16), if it is one.
  function DigitIn(c: char, radix: nat): Option<nat>
  {
    if '0' <= c <= '9' then Some(c as int - '0' as int)
    else if radix == 16 && 'a' <= c <= 'f' then Some(c as int - 'a' as int + 10)
    else if radix == 16 && 'A' <= c <= 'F' then Some(c as int - 'A' as int + 10)
    else None
  }

  predicate AllDigitsIn(s: string, radix: nat)
  {
    forall i :: 0 <= i < |s| ==> DigitIn(s[i], radix).Some?
  }

  predicate AllDigits(s: string)
  {
    AllDigitsIn(s, 10)
  }

  /// The value of the digit string `s` in `radix`.
  function ValueIn(s: string, radix: nat): nat
    requires AllDigitsIn(s, radix)
    decreases |s|
  {
    if |s| == 0 then 0
    else ValueIn(s[..|s| - 1], radix) * radix + DigitIn(s[|s| - 1], radix).value
  }

  /// Rust's `from_str_radix` for an unsigned type whose values are `< limit`:
  /// an optional '+', at least one digit, and no overflow.
  function ParseUnsigned(s: string, radix: nat, limit: nat): (r: Option<nat>)
    ensures r.Some? ==> r.value < limit
  {
    var body := if StartsWith(s, "+") then s[1..] else s;
    if |body| > 0 && AllDigitsIn(body, radix) && ValueIn(body, radix) < limit
    then Some(ValueIn(body, radix))
    else None
  }

  /// Rust's `from_str_radix` for a signed type with range `[min, max]`.
  function ParseSigned(s: string, radix: nat, min: int, max: int): (r: Option<int>)
    ensures r.Some? ==> min <= r.value <= max
  {
    var negative := StartsWith(s, "-");
    var body := if StartsWith(s, "+") || negative then s[1..] else s;
    if |body| > 0 && AllDigitsIn(body, radix) then
      var v: int := ValueIn(body, radix);
      var signed := if negative then -v else v;
      if min <= signed <= max then Some(signed) else None
    else None
  }

  /// `s.parse::<u64>()`.
  function ParseU64(s: string): Option<nat>
  {
    ParseUnsigned(s, 10, U64_LIMIT)
  }

  /// `s.parse::<i64>()`.
  function ParseI64(s: string): Option<int>
  {
    ParseSigned(s, 10, I64_MIN, I64_MAX)
  }

  /// `s.parse::<i32>()`.
  function ParseI32(s: string): Option<int>
  {
    ParseSigned(s, 10, I32_MIN, I32_MAX)
  }

  function DigitChar(d: nat): (c: char)
    requires d < 10
    ensures DigitIn(c, 10) == Some(d)
  {
    ('0' as int + d) as char
  }

  /// The decimal digits of `n` (`n.to_string()`).
  function NatToString(n: nat): (r: string)
    ensures |r| >= 1 && AllDigits(r)
    ensures forall i :: 0 <= i < |r| ==> '0' <= r[i] <= '9'
  {
    if n < 10 then [DigitChar(n)] else NatToString(n / 10) + [DigitChar(n % 10)]
  }

  /// `i.to_string()` for a signed integer.
  function IntToString(i: int): string
  {
    if i < 0 then "-" + NatToString(-i) else NatToString(i)
  }

  lemma {:induction false} NatToStringValue(n: nat)
    ensures ValueIn(NatToString(n), 10) == n
  {
    if n >= 10 {
      var s := NatToString(n);
      NatToStringValue(n / 10);
      assert s[..|s| - 1] == NatToString(n / 10);
    }
  }

  /// Printing a number and parsing it back as `u64` recovers it.
  lemma NatToStringParses(n: nat)
    requires n < U64_LIMIT
    ensures ParseU64(NatToString(n)) == Some(n)
  {
    NatToStringValue(n);
    var s := NatToString(n);
    assert !StartsWith(s, "+") by { assert '0' <= s[0] <= '9'; }
  }

  /// Printing a signed number and parsing it back as `i64` recovers it.
  lemma IntToStringParses(i: int)
    requires I64_MIN <= i <= I64_MAX
    ensures ParseI64(IntToString(i)) == Some(i)
  {
    if i < 0 {
      NegativeParses(IntToString(i), i);
    } else {
      NonNegativeParses(IntToString(i), i);
    }
  }

  lemma NegativeParses(s: string, i: int)
    requires I64_MIN <= i < 0 && s == "-" + NatToString(-i)
    ensures ParseI64(s) == Some(i)
  {
    NatToStringValue(-i);
    NegativeDigitsParse(s, NatToString(-i), -i);
  }

  lemma NegativeDigitsParse(s: string, digits: string, v: nat)
    requires |digits| > 0 && AllDigits(digits) && ValueIn(digits, 10) == v
    requires 0 < v <= -I64_MIN && s == "-" + digits
    ensures ParseI64(s) == Some(-(v as int))
  {
    assert !StartsWith(s, "+") && StartsWith(s, "-");
    assert s[1..] == digits;
  }

  lemma NonNegativeParses(s: string, n: nat)
    requires n <= I64_MAX && s == NatToString(n)
    ensures ParseI64(s) == Some(n)
  {
    NatToStringValue(n);
    NonNegativeDigitsParse(s, n);
  }

  lemma NonNegativeDigitsParse(s: string, n: nat)
    requires |s| > 0 && AllDigits(s) && ValueIn(s, 10) == n && n <= I64_MAX
    ensures ParseI64(s) == Some(n)
  {
    assert !StartsWith(s, "+") && !StartsWith(s, "-") by { assert DigitIn(s[0], 10).Some?; }
  }

  lemma NatToStringInjective(a: nat, b: nat)
    requires NatToString(a) == NatToString(b)
    ensures a == b
  {
    NatToStringValue(a);
    NatToStringValue(b);
  }

  /// `n` printed with at least `width` digits, padded with leading zeros (`{:0width$}`).
  function PadNat(n: nat, width: nat): (r: string)
    ensures |r| == if |NatToString(n)| >= width then |NatToString(n)| else width
    ensures AllDigits(r)
    ensures ValueIn(r, 10) == n
    decreases width
  {
    var s := NatToString(n);
    NatToStringValue(n);
    if |s| >= width then s else ZeroPad(s, width - |s|)
  }

  function ZeroPad(s: string, k: nat): (r: string)
    requires AllDigits(s)
    ensures AllDigits(r) && |r| == |s| + k
    ensures ValueIn(r, 10) == ValueIn(s, 10)
    decreases k
  {
    if k == 0 then s
    else
      var t := ZeroPad(s, k - 1);
      LeadingZeroValue(t);
      "0" + t
  }

  lemma {:induction false} LeadingZeroValue(s: string)
    requires AllDigits(s)
    ensures AllDigits("0" + s)
    ensures ValueIn("0" + s, 10) == ValueIn(s, 10)
    decreases |s|
  {
    var z := "0" + s;
    assert AllDigits(z) by {
      forall i | 0 <= i < |z| ensures DigitIn(z[i], 10).Some? {
        if i > 0 { assert z[i] == s[i - 1]; }
      }
    }
    if |s| > 0 {
      assert z[..|z| - 1] == "0" + s[..|s| - 1];
      LeadingZeroValue(s[..|s| - 1]);
    }
  }

  // ---------------------------------------------------------------------
  // Durations: seconds with three decimals, kept as whole milliseconds
  // ---------------------------------------------------------------------

  /// The first three fractional digits of `frac`, as milliseconds.
  function FractionMillis(frac: string): nat
    requires AllDigits(frac)
  {
    if |frac| >= 3 then ValueIn(frac[..3], 10)
    else if |frac| == 2 then ValueIn(frac, 10) * 10
    else if |frac| == 1 then ValueIn(frac, 10) * 100
    else 0
  }

  /// A decimal number of seconds, `[+]digits[.digits]` or `[+].digits`, in
  /// milliseconds; digits past the third decimal are dropped.
  function ParseSecondsMillis(s: string): Option<nat>
  {
    var body := if StartsWith(s, "+") then s[1..] else s;
    SecondsOfPieces(Split(body, '.'))
  }

  function SecondsOfPieces(parts: seq<string>): Option<nat>
  {
    if |parts| == 1 && |parts[0]| > 0 && AllDigits(parts[0]) then Some(ValueIn(parts[0], 10) * 1000)
    else if |parts| == 2 && |parts[0]| + |parts[1]| > 0 && AllDigits(parts[0]) && AllDigits(parts[1])
    then Some(ValueIn(parts[0], 10) * 1000 + FractionMillis(parts[1]))
    else None
  }

  /// `{:.3}` of a duration given in milliseconds.
  function FormatMillis3(ms: nat): string
  {
    NatToString(ms / 1000) + "." + PadNat(ms % 1000, 3)
  }

  lemma NatToStringShort(n: nat)
    requires n < 1000
    ensures |NatToString(n)| <= 3
  {
    if n >= 10 {
      NatToStringShort(n / 10);
    }
  }

  lemma NoDotInDigits(s: string)
    requires AllDigits(s)
    ensures '.' !in s
  {
  }

  lemma SplitAtDot(whole: string, frac: string)
    requires AllDigits(whole) && AllDigits(frac)
    ensures Split(whole + "." + frac, '.') == [whole, frac]
  {
    NoDotInDigits(whole);
    NoDotInDigits(frac);
    SplitCons(whole, '.', frac);
    assert Split(frac, '.') == [frac];
  }

  lemma ParseSecondsOfParts(s: string, whole: string, frac: string, ms: nat)
    requires s == whole + "." + frac
    requires |whole| > 0 && AllDigits(whole) && !StartsWith(whole, "+")
    requires |frac| == 3 && AllDigits(frac)
    requires ms == ValueIn(whole, 10) * 1000 + ValueIn(frac, 10)
    ensures ParseSecondsMillis(s) == Some(ms)
  {
    assert s[0] == whole[0];
    UnsignedSecondsSplit(s, whole);
    SplitAtDot(whole, frac);
    FractionOfThreeDigits(frac);
    SecondsOfTwoPieces(whole, frac, ValueIn(whole, 10), ValueIn(frac, 10), ms);
  }

  lemma UnsignedSecondsSplit(s: string, whole: string)
    requires |whole| > 0 && !StartsWith(whole, "+") && |s| > 0 && s[0] == whole[0]
    ensures ParseSecondsMillis(s) == SecondsOfPieces(Split(s, '.'))
  {
    assert !StartsWith(s, "+");
  }

  lemma SecondsOfTwoPieces(whole: string, frac: string, w: nat, f: nat, ms: nat)
    requires |whole| > 0 && AllDigits(whole) && AllDigits(frac)
    requires ValueIn(whole, 10) == w && FractionMillis(frac) == f && ms == w * 1000 + f
    ensures SecondsOfPieces([whole, frac]) == Some(ms)
  {
  }

  lemma FractionOfThreeDigits(frac: string)
    requires |frac| == 3 && AllDigits(frac)
    ensures FractionMillis(frac) == ValueIn(frac, 10)
  {
    assert frac[..3] == frac;
  }

  /// Printing a duration with three decimals and parsing it back is exact.
  lemma FormatMillis3Parses(ms: nat)
    ensures ParseSecondsMillis(FormatMillis3(ms)) == Some(ms)
  {
    var q, m := ms / 1000, ms % 1000;
    assert ms == q * 1000 + m;
    SecondsAndMillisParse(FormatMillis3(ms), q, m, ms);
  }

  lemma WholeSecondsDigits(q: nat)
    ensures var whole := NatToString(q);
      |whole| > 0 && AllDigits(whole) && !StartsWith(whole, "+") && ValueIn(whole, 10) == q
  {
    NatToStringValue(q);
    var whole := NatToString(q);
    assert '0' <= whole[0] <= '9';
  }

  lemma MillisDigits(m: nat)
    requires m < 1000
    ensures |PadNat(m, 3)| == 3 && AllDigits(PadNat(m, 3)) && ValueIn(PadNat(m, 3), 10) == m
  {
    NatToStringShort(m);
  }

  lemma SecondsAndMillisParse(s: string, q: nat, m: nat, ms: nat)
    requires m < 1000 && ms == q * 1000 + m
    requires s == NatToString(q) + "." + PadNat(m, 3)
    ensures ParseSecondsMillis(s) == Some(ms)
  {
    WholeSecondsDigits(q);
    MillisDigits(m);
    ParseSecondsOfParts(s, NatToString(q), PadNat(m, 3), ms);
  }

  // ---------------------------------------------------------------------
  // Paths (Unix separators)
  // ---------------------------------------------------------------------

  /// `Path::join`: an absolute `name` replaces `dir`; otherwise exactly one
  /// separator is put between them.
  function JoinPath(dir: string, name: string): (r: string)
    ensures |name| > 0 && name[0] != '/' ==> EndsWith(r, name)
  {
    if |name| > 0 && name[0] == '/' then name
    else if |dir| == 0 || dir[|dir| - 1] == '/' then dir + name
    else dir + "/" + name
  }

  /// `Path::file_name`: the last component, ignoring trailing separators;
  /// none for an empty path, the root or "..".
  function FileName(path: string): (r: Option<string>)
    ensures r.Some? ==> |r.value| > 0 && '/' !in r.value
  {
    var last := AfterLast(TrimEndChar(path, '/'), '/');
    if last == "" || last == ".." then None else Some(last)
  }

  /// A name without separators joined onto a directory is that path's file name.
  lemma FileNameOfJoin(dir: string, name: string)
    requires |name| > 0 && '/' !in name && name != ".."
    ensures FileName(JoinPath(dir, name)) == Some(name)
  {
    var p := JoinPath(dir, name);
    var k := JoinedAt(dir, name);
    assert TrimEndChar(p, '/') == p by { assert p[|p| - 1] == name[|name| - 1]; }
    RFindCharAfter(p[..k], name);
    assert AfterLast(p, '/') == name by { assert p[k..] == name; }
  }

  /// Where `name` starts in `JoinPath(dir, name)`: after a separator, or
  /// at the start.
  lemma JoinedAt(dir: string, name: string) returns (k: nat)
    requires |name| > 0 && name[0] != '/'
    ensures k + |name| == |JoinPath(dir, name)|
    ensures JoinPath(dir, name) == JoinPath(dir, name)[..k] + name
    ensures k == 0 || JoinPath(dir, name)[k - 1] == '/'
  {
    var p := JoinPath(dir, name);
    k := |p| - |name|;
    assert p[k..] == name;
    assert p == p[..k] + p[k..];
  }

  lemma RFindCharAfter(a: string, b: string)
    requires '/' !in b
    requires |a| == 0 || a[|a| - 1] == '/'
    ensures RFindChar(a + b, '/') == if |a| == 0 then None else Some(|a| - 1)
    decreases |b|
  {
    if |b| > 0 {
      assert (a + b)[..|a + b| - 1] == a + b[..|b| - 1];
      RFindCharAfter(a, b[..|b| - 1]);
    } else {
      assert a + b == a;
      if |a| == 0 {
        assert '/' !in a;
      }
    }
  }

  // ---------------------------------------------------------------------
  // Sizes of UTF-8 text
  // ---------------------------------------------------------------------

  /// The number of bytes `c` takes in UTF-8.
  function Utf8Width(c: char): nat
  {
    if c as int < 0x80 then 1 else if c as int < 0x800 then 2 else if c as int < 0x10000 then 3 else 4
  }

  /// `s.len()` of a Rust `String`: its length in UTF-8 bytes.
  function ByteLen(s: string): (n: nat)
    ensures n >= |s|
    ensures n <= 4 * |s|
  {
    if |s| == 0 then 0 else Utf8Width(s[0]) + ByteLen(s[1..])
  }

  /// `s.chars().take(n).collect()`.
  function TakeChars(s: string, n: nat): (r: string)
    ensures |r| == if n <= |s| then n else |s|
    ensures StartsWith(s, r)
  {
    if n <= |s| then s[..n] else s
  }
}
