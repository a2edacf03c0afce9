/**
 * The JavaScript and Node.js built-ins that CityFix calls, stated on Dafny
 * strings: `startsWith`, `endsWith`, `includes`, `split`, `join`, `trim`,
 * `replace`, `toLowerCase` on ASCII, template-string conversion of integers,
 * `Number(s)`, `parseInt(s, radix)`, `s.split('/').pop()` and Node's
 * `path.extname`.  JavaScript numbers are modelled on the integers.
 */
module Js {

  /** A JavaScript number as produced by `Number` and `parseInt`, on the integers. */
  datatype Numeric = Finite(value: int) | NaN

  predicate StartsWith(s: string, prefix: string) {
    |prefix| <= |s| && s[..|prefix|] == prefix
  }

  predicate EndsWith(s: string, suffix: string) {
    |suffix| <= |s| && s[|s| - |suffix|..] == suffix
  }

  /** `s.includes(part)`: `part` occurs somewhere in `s`. */
  predicate Includes(s: string, part: string)
    decreases |s|
  {
    StartsWith(s, part) || (s != [] && Includes(s[1..], part))
  }

  /** A JavaScript string is truthy iff it is not empty. */
  predicate Truthy(s: string) {
    s != ""
  }

  /** A character outside the Basic Multilingual Plane is a surrogate pair in UTF-16. */
  predicate Astral(c: char) {
    c as int >= 0x1_0000
  }

  /** `s.length`: the number of UTF-16 code units, one per character and two per astral character. */
  function Length(s: string): (n: nat)
    ensures |s| <= n <= 2 * |s|
    ensures n == |s| <==> forall k | 0 <= k < |s| :: !Astral(s[k])
  {
    if s == [] then 0
    else
      var n := Length(s[..|s| - 1]);
      assert forall k | 0 <= k < |s| - 1 :: s[..|s| - 1][k] == s[k];
      n + if Astral(s[|s| - 1]) then 2 else 1
  }

  /** A string of `n` astral characters has JavaScript length 2 * n. */
  lemma {:induction false} LengthAllAstral(s: string)
    requires forall k | 0 <= k < |s| :: Astral(s[k])
    ensures Length(s) == 2 * |s|
  {
    if s != [] {
      LengthAllAstral(s[..|s| - 1]);
    }
  }

  // ---------------------------------------------------------------------------
  // Searching, splitting and joining

  function IndexOf(s: string, c: char): (i: nat)
    requires c in s
    ensures i < |s| && s[i] == c && c !in s[..i]
  {
    if s[0] == c then 0 else 1 + IndexOf(s[1..], c)
  }

  /** `s.lastIndexOf(c)`, -1 when `c` does not occur. */
  function LastIndexOf(s: string, c: char): (i: int)
    ensures -1 <= i < |s|
    ensures i == -1 <==> c !in s
    ensures 0 <= i ==> s[i] == c && c !in s[i + 1..]
  {
    if s == [] then -1
    else if s[|s| - 1] == c then |s| - 1
    else
      assert s == s[..|s| - 1] + [s[|s| - 1]];
      LastIndexOf(s[..|s| - 1], c)
  }

  /** `s.split(sep)` for a one-character separator. */
  function Split(s: string, sep: char): (parts: seq<string>)
    ensures |parts| >= 1
    ensures forall k | 0 <= k < |parts| :: sep !in parts[k]
    decreases |s|
  {
    if sep !in s then [s]
    else
      var i := IndexOf(s, sep);
      [s[..i]] + Split(s[i + 1..], sep)
  }

  /** `parts.join(sep)`. */
  function Join(parts: seq<string>, sep: string): string
  {
    if |parts| == 0 then ""
    else if |parts| == 1 then parts[0]
    else parts[0] + sep + Join(parts[1..], sep)
  }

  /** Joining pieces that do not contain the separator and splitting again gives the pieces back. */
  lemma {:induction false} SplitJoin(parts: seq<string>, sep: char)
    requires |parts| >= 1
    requires forall k | 0 <= k < |parts| :: sep !in parts[k]
    ensures Split(Join(parts, [sep]), sep) == parts
  {
    if |parts| == 1 {
    } else {
      var rest := Join(parts[1..], [sep]);
      var s := parts[0] + [sep] + rest;
      assert sep in s by { assert s[|parts[0]|] == sep; }
      IndexOfAfterFree(parts[0], [sep] + rest, sep);
      assert s[..|parts[0]|] == parts[0];
      assert s[|parts[0]| + 1..] == rest;
      SplitJoin(parts[1..], sep);
    }
  }

  lemma IndexOfAfterFree(a: string, b: string, c: char)
    requires c !in a && |b| > 0 && b[0] == c
    ensures c in a + b && IndexOf(a + b, c) == |a|
  {
    var s := a + b;
    assert s[|a|] == c;
  }

  /** `s.replace(pattern, replacement)` with a string pattern: only the first occurrence is replaced. */
  function ReplaceFirst(s: string, pattern: string, replacement: string): string
    decreases |s|
  {
    if StartsWith(s, pattern) then replacement + s[|pattern|..]
    else if s == [] then s
    else [s[0]] + ReplaceFirst(s[1..], pattern, replacement)
  }

  /** `s.replace(/[...]/g, '')`: every character of `drop` is deleted. */
  function RemoveChars(s: string, drop: set<char>): (r: string)
    ensures |r| <= |s|
  {
    if s == [] then ""
    else (if s[0] in drop then "" else [s[0]]) + RemoveChars(s[1..], drop)
  }

  /** What is left holds no character of `drop` and only characters of `s`. */
  lemma {:induction false} RemoveCharsDrops(s: string, drop: set<char>)
    ensures forall k | 0 <= k < |RemoveChars(s, drop)| :: RemoveChars(s, drop)[k] !in drop && RemoveChars(s, drop)[k] in s
  {
    if s != [] {
      RemoveCharsDrops(s[1..], drop);
    }
  }

  lemma {:induction false} RemoveCharsAppend(a: string, b: string, drop: set<char>)
    ensures RemoveChars(a + b, drop) == RemoveChars(a, drop) + RemoveChars(b, drop)
  {
    if a == [] {
      assert a + b == b;
    } else {
      assert (a + b)[1..] == a[1..] + b;
      RemoveCharsAppend(a[1..], b, drop);
    }
  }

  lemma RemoveCharsFirst(c: char, s: string, drop: set<char>)
    ensures RemoveChars([c] + s, drop) == (if c in drop then "" else [c]) + RemoveChars(s, drop)
  {
    assert ([c] + s)[1..] == s;
  }

  lemma {:induction false} RemoveCharsKeeps(s: string, drop: set<char>)
    requires forall k | 0 <= k < |s| :: s[k] !in drop
    ensures RemoveChars(s, drop) == s
  {
    if s != [] {
      RemoveCharsKeeps(s[1..], drop);
    }
  }

  // ---------------------------------------------------------------------------
  // `s.split('/').pop()`

  /** The text after the last '/' of `s` (all of `s` when it has none). */
  function LastSegment(s: string): (r: string)
    ensures '/' !in r
    ensures EndsWith(s, r)
    ensures |r| < |s| ==> s[|s| - |r| - 1] == '/'
    decreases |s|
  {
    if s == [] || s[|s| - 1] == '/' then ""
    else
      var init := s[..|s| - 1];
      assert s == init + [s[|s| - 1]];
      LastSegment(init) + [s[|s| - 1]]
  }

  /** The three properties of LastSegment determine it. */
  lemma LastSegmentUnique(s: string, r: string)
    requires '/' !in r && EndsWith(s, r)
    requires |r| < |s| ==> s[|s| - |r| - 1] == '/'
    ensures r == LastSegment(s)
  {
    var q := LastSegment(s);
    assert |q| == |r|;
  }

  /** Everything up to and including a '/' does not affect the last segment. */
  lemma LastSegmentAfterSlash(a: string, b: string)
    ensures LastSegment(a + "/" + b) == LastSegment(b)
  {
    var s := a + "/" + b;
    var r := LastSegment(b);
    var n := |s| - |b|;
    assert s[n..] == b;
    assert s[|s| - |r|..] == b[|b| - |r|..];
    if |r| < |b| {
      assert s[|s| - |r| - 1] == b[|b| - |r| - 1];
    } else {
      assert s[|s| - |r| - 1] == '/';
    }
    LastSegmentUnique(s, r);
  }

  lemma LastSegmentAfterSlashFree(a: string, b: string)
    requires '/' !in b
    ensures LastSegment(a + "/" + b) == b
  {
    LastSegmentAfterSlash(a, b);
    LastSegmentUnique(b, b);
  }

  /** LastSegment is what `split('/')` followed by `pop()` returns. */
  lemma {:induction false} LastSegmentIsLastPart(s: string)
    ensures var parts := Split(s, '/'); LastSegment(s) == parts[|parts| - 1]
    decreases |s|
  {
    if '/' !in s {
      LastSegmentUnique(s, s);
    } else {
      var i := IndexOf(s, '/');
      var rest := s[i + 1..];
      var parts, tail := Split(s, '/'), Split(rest, '/');
      assert parts[|parts| - 1] == tail[|tail| - 1] by {
        assert parts == [s[..i]] + tail;
      }
      assert LastSegment(s) == LastSegment(rest) by {
        assert s == s[..i] + "/" + rest;
        LastSegmentAfterSlash(s[..i], rest);
      }
      LastSegmentIsLastPart(rest);
    }
  }

  // ---------------------------------------------------------------------------
  // Whitespace and `trim`

  /** ECMAScript WhiteSpace and LineTerminator characters: what `trim` removes and `\s` matches. */
  predicate IsSpace(c: char) {
    c == '\t' || c == '\n' || c == '\U{B}' || c == '\U{C}' || c == '\r' || c == ' '
    || c == '\U{A0}' || c == '\U{1680}' || ('\U{2000}' <= c <= '\U{200A}')
    || c == '\U{2028}' || c == '\U{2029}' || c == '\U{202F}' || c == '\U{205F}'
    || c == '\U{3000}' || c == '\U{FEFF}'
  }

  function TrimStart(s: string): (r: string)
    ensures EndsWith(s, r)
    ensures r == [] || !IsSpace(r[0])
    ensures forall k | 0 <= k < |s| - |r| :: IsSpace(s[k])
  {
    if s != [] && IsSpace(s[0]) then TrimStart(s[1..]) else s
  }

  function TrimEnd(s: string): (r: string)
    ensures StartsWith(s, r)
    ensures r == [] || !IsSpace(r[|r| - 1])
    ensures forall k | |r| <= k < |s| :: IsSpace(s[k])
  {
    if s != [] && IsSpace(s[|s| - 1]) then TrimEnd(s[..|s| - 1]) else s
  }

  /** `s.trim()`. */
  function Trim(s: string): string {
    TrimEnd(TrimStart(s))
  }

  /** `s.trim()` is empty exactly when every character of `s` is whitespace. */
  lemma TrimEmpty(s: string)
    ensures Trim(s) == "" <==> forall k | 0 <= k < |s| :: IsSpace(s[k])
  {
    var t := TrimStart(s);
    if Trim(s) == "" {
      assert |t| == 0;
    }
  }

  // ---------------------------------------------------------------------------
  // Decimal digits, integer-to-string and number parsing

  predicate IsDigit(c: char) {
    '0' <= c <= '9'
  }

  predicate AllDigits(s: string) {
    forall k | 0 <= k < |s| :: IsDigit(s[k])
  }

  function DigitChar(d: nat): (c: char)
    requires d < 10
    ensures IsDigit(c)
  {
    (48 + d) as char
  }

  function DecimalValue(s: string): nat
    requires AllDigits(s)
  {
    if s == [] then 0
    else DecimalValue(s[..|s| - 1]) * 10 + ((s[|s| - 1] as int) - 48)
  }

  /** The decimal text of a natural number, as a template string writes it. */
  function NatToString(n: nat): (r: string)
    ensures |r| >= 1 && AllDigits(r)
  {
    if n < 10 then [DigitChar(n)] else NatToString(n / 10) + [DigitChar(n % 10)]
  }

  /** Appending a digit to a positive number appends its character to the text. */
  lemma NatToStringStep(n: nat, d: nat)
    requires 0 < n && d < 10
    ensures NatToString(10 * n + d) == NatToString(n) + [DigitChar(d)]
  {
  }

  /** `${i}` for an integer `i`. */
  function IntToString(i: int): (r: string)
    ensures |r| >= 1 && IsDigit(r[|r| - 1])
    ensures i >= 0 ==> AllDigits(r)
    ensures i < 0 ==> r[0] == '-' && AllDigits(r[1..])
  {
    if i < 0 then "-" + NatToString(-i) else NatToString(i)
  }

  lemma {:induction false} DecimalRoundTrip(n: nat)
    ensures DecimalValue(NatToString(n)) == n
  {
    if n >= 10 {
      var s := NatToString(n);
      assert s[..|s| - 1] == NatToString(n / 10);
      DecimalRoundTrip(n / 10);
    }
  }

  /** `Number(s)`: blank text is 0, an optionally signed run of decimal digits is its value, anything else NaN. */
  function Number(s: string): Numeric {
    var t := Trim(s);
    if t == "" then Finite(0)
    else if AllDigits(t) then Finite(DecimalValue(t))
    else if |t| > 1 && t[0] == '-' && AllDigits(t[1..]) then Finite(0 - DecimalValue(t[1..]))
    else if |t| > 1 && t[0] == '+' && AllDigits(t[1..]) then Finite(DecimalValue(t[1..]))
    else NaN
  }

  /** Reading back the text of an integer, `Number(`${i}`)`, gives the integer. */
  lemma NumberOfIntToString(i: int)
    ensures Number(IntToString(i)) == Finite(i)
  {
    var s := IntToString(i);
    assert Trim(s) == s by {
      assert !IsSpace(s[0]) by {
        if i >= 0 {
          DigitNotSpace(s[0]);
        }
      }
      assert TrimStart(s) == s;
      DigitNotSpace(s[|s| - 1]);
    }
    if i < 0 {
      assert s[1..] == NatToString(-i);
      DecimalRoundTrip(-i);
      assert !IsDigit(s[0]);
    } else {
      DecimalRoundTrip(i);
    }
  }

  /** The longest prefix of `s` made of decimal digits. */
  function LeadingDigits(s: string): (r: string)
    ensures StartsWith(s, r) && AllDigits(r)
    ensures |r| == |s| || !IsDigit(s[|r|])
  {
    if s != [] && IsDigit(s[0]) then [s[0]] + LeadingDigits(s[1..]) else ""
  }

  /**
   * `parseInt(s, radix)` for radix 10 and for the radices outside 2..36,
   * which always give NaN.  Leading whitespace and a sign are skipped and the
   * longest run of digits is read; with no digit the result is NaN.
   */
  function ParseInt(s: string, radix: int): (r: Numeric)
    requires radix == 10 || (radix != 0 && (radix < 2 || radix > 36))
    ensures radix != 10 ==> r == NaN
  {
    if radix != 10 then NaN
    else
      var t := TrimStart(s);
      var negative := t != [] && t[0] == '-';
      var body := if t != [] && (t[0] == '-' || t[0] == '+') then t[1..] else t;
      var digits := LeadingDigits(body);
      if digits == "" then NaN
      else if negative then Finite(0 - DecimalValue(digits))
      else Finite(DecimalValue(digits))
  }

  /** `parseInt` of the decimal text of a natural number, in radix 10, gives the number. */
  lemma ParseIntOfNatToString(n: nat)
    ensures ParseInt(NatToString(n), 10) == Finite(n)
  {
    var s := NatToString(n);
    DigitNotSpace(s[0]);
    assert TrimStart(s) == s;
    assert s[0] != '-' && s[0] != '+';
    LeadingDigitsAll(s);
    DecimalRoundTrip(n);
  }

  lemma DigitNotSpace(c: char)
    requires IsDigit(c)
    ensures !IsSpace(c)
  {
  }

  lemma {:induction false} LeadingDigitsAll(s: string)
    requires AllDigits(s)
    ensures LeadingDigits(s) == s
  {
    if s != [] {
      LeadingDigitsAll(s[1..]);
    }
  }

  /** JavaScript `a > b` for an integer `a`: false whenever `b` is NaN. */
  predicate GreaterThan(a: int, b: Numeric) {
    b.Finite? && a > b.value
  }

  // ---------------------------------------------------------------------------
  // Case folding and Node's `path.extname`

  function LowerAscii(c: char): char {
    if 'A' <= c <= 'Z' then (c as int + 32) as char else c
  }

  /** `s.toLowerCase()` restricted to ASCII letters. */
  function ToLowerAscii(s: string): (r: string)
    ensures |r| == |s|
    ensures forall k | 0 <= k < |s| :: r[k] == LowerAscii(s[k])
  {
    seq(|s|, k requires 0 <= k < |s| => LowerAscii(s[k]))
  }

  function TrimTrailingSlashes(s: string): (r: string)
    ensures StartsWith(s, r)
    ensures r == [] || r[|r| - 1] != '/'
  {
    if s != [] && s[|s| - 1] == '/' then TrimTrailingSlashes(s[..|s| - 1]) else s
  }

  /**
   * Node's `path.extname(p)` (POSIX): in the last path segment, ignoring
   * trailing slashes, the text from the last '.' on; empty when there is no
   * '.', when the only '.' starts the segment, and for the segment "..".
   */
  function Extname(p: string): (ext: string)
    ensures ext == "" || (ext[0] == '.' && '/' !in ext && '.' !in ext[1..])
  {
    var part := LastSegment(TrimTrailingSlashes(p));
    var dot := LastIndexOf(part, '.');
    if dot <= 0 || part == ".." then ""
    else
      ExtensionOfSegment(part, dot);
      part[dot..]
  }

  /** The text from a segment's last '.' on is a dot followed by neither '/' nor '.'. */
  lemma ExtensionOfSegment(part: string, dot: nat)
    requires '/' !in part
    requires dot < |part| && part[dot] == '.' && '.' !in part[dot + 1..]
    ensures var ext := part[dot..]; ext[0] == '.' && '/' !in ext && '.' !in ext[1..]
  {
    var ext := part[dot..];
    assert ext[1..] == part[dot + 1..];
    assert '/' !in ext by {
      forall k | 0 <= k < |ext| ensures ext[k] != '/' {
        assert ext[k] == part[dot + k];
      }
    }
  }

  lemma LastIndexOfAt(s: string, c: char, i: nat)
    requires i < |s| && s[i] == c && c !in s[i + 1..]
    ensures LastIndexOf(s, c) == i
  {
  }

  /** A file name `stem.ext` without slashes has extension `.ext`. */
  lemma ExtnameOfFileName(stem: string, e: string)
    requires stem != "" && stem != "." && '/' !in stem
    requires '/' !in e && '.' !in e
    ensures Extname(stem + "." + e) == "." + e
  {
    var p := stem + "." + e;
    assert TrimTrailingSlashes(p) == p by {
      assert p[|p| - 1] != '/';
    }
    assert LastSegment(p) == p by {
      assert '/' !in p;
      LastSegmentUnique(p, p);
    }
    assert LastIndexOf(p, '.') == |stem| by {
      assert p[|stem| + 1..] == e;
      LastIndexOfAt(p, '.', |stem|);
    }
    assert p != ".." by {
      if |p| == 2 {
        assert stem == [p[0]];
      }
    }
    assert p[|stem|..] == "." + e;
  }

  /** A name without any '.' has no extension. */
  lemma ExtnameWithoutDot(name: string)
    requires '.' !in name
    ensures Extname(name) == ""
  {
    var t := TrimTrailingSlashes(name);
    assert '.' !in t by { assert t == name[..|t|]; }
    var part := LastSegment(t);
    assert '.' !in part by { assert part == t[|t| - |part|..]; }
  }
}
