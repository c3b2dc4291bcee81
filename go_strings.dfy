/**
 * The parts of Go's `strings`, `strconv` and `fmt` packages that the management
 * API's handlers rely on, stated over Dafny strings (sequences of Unicode scalar
 * values). Go measures strings in UTF-8 bytes; `Utf8Len` gives that length.
 */
module GoStrings {
  import opened Wrappers

  // ---------------------------------------------------------------------------
  // Prefixes, suffixes and substrings

  /** strings.HasPrefix */
  predicate HasPrefix(s: string, prefix: string) {
    |prefix| <= |s| && s[..|prefix|] == prefix
  }

  /** strings.HasSuffix */
  predicate HasSuffix(s: string, suffix: string) {
    |suffix| <= |s| && s[|s| - |suffix|..] == suffix
  }

  /** strings.TrimPrefix: drops one leading copy of `prefix`, if there is one. */
  function TrimPrefix(s: string, prefix: string): (r: string)
    ensures HasPrefix(s, prefix) ==> s == prefix + r
    ensures !HasPrefix(s, prefix) ==> r == s
  {
    if HasPrefix(s, prefix) then
      assert s == s[..|prefix|] + s[|prefix|..];
      s[|prefix|..]
    else s
  }

  /** strings.TrimSuffix: drops one trailing copy of `suffix`, if there is one. */
  function TrimSuffix(s: string, suffix: string): (r: string)
    ensures HasSuffix(s, suffix) ==> s == r + suffix
    ensures !HasSuffix(s, suffix) ==> r == s
  {
    if HasSuffix(s, suffix) then
      assert s == s[..|s| - |suffix|] + s[|s| - |suffix|..];
      s[..|s| - |suffix|]
    else s
  }

  /** `sub` occurs in `s` starting at index `i`. */
  predicate OccursAt(s: string, sub: string, i: int) {
    0 <= i && i + |sub| <= |s| && s[i..i + |sub|] == sub
  }

  /** strings.Contains */
  predicate Contains(s: string, sub: string) {
    exists i | 0 <= i <= |s| - |sub| :: OccursAt(s, sub, i)
  }

  lemma ContainsPrefixOf(sub: string, rest: string)
    ensures Contains(sub + rest, sub)
  {
    assert OccursAt(sub + rest, sub, 0);
  }

  // ---------------------------------------------------------------------------
  // Splitting on a one-character separator

  /** Index of the first `c` in `s`, or |s| when there is none (strings.IndexByte). */
  function IndexOf(s: string, c: char): (i: nat)
    ensures i <= |s|
    ensures i < |s| ==> s[i] == c
    ensures forall k | 0 <= k < i :: s[k] != c
  {
    if s == [] then 0
    else if s[0] == c then 0
    else 1 + IndexOf(s[1..], c)
  }

  /** The search comes to the end exactly when the character does not occur. */
  lemma IndexOfAbsent(s: string, c: char)
    ensures IndexOf(s, c) == |s| <==> c !in s
    ensures c !in s[..IndexOf(s, c)]
  {
    var i := IndexOf(s, c);
    assert forall k | 0 <= k < i :: s[..i][k] == s[k];
  }

  /**
   * strings.Split with a one-character separator: the pieces between the
   * separators, always at least one (Split("", "/") is [""]).
   */
  function Split(s: string, sep: char): (parts: seq<string>)
    ensures |parts| >= 1
    decreases |s|
  {
    var i := IndexOf(s, sep);
    if i == |s| then [s] else [s[..i]] + Split(s[i + 1..], sep)
  }

  /** No piece of a split contains the separator. */
  lemma {:induction false} SplitPiecesFree(s: string, sep: char)
    ensures forall k | 0 <= k < |Split(s, sep)| :: sep !in Split(s, sep)[k]
    decreases |s|
  {
    var i := IndexOf(s, sep);
    IndexOfAbsent(s, sep);
    if i < |s| {
      SplitPiecesFree(s[i + 1..], sep);
      var parts := Split(s, sep);
      assert parts == [s[..i]] + Split(s[i + 1..], sep);
      forall k | 1 <= k < |parts| ensures sep !in parts[k] {
        assert parts[k] == Split(s[i + 1..], sep)[k - 1];
      }
    }
  }

  /** strings.Join with a one-character separator. */
  function Join(parts: seq<string>, sep: char): string
    requires |parts| >= 1
  {
    if |parts| == 1 then parts[0] else parts[0] + [sep] + Join(parts[1..], sep)
  }

  /** Joining the pieces of a split gives the original string back. */
  lemma {:induction false} JoinSplit(s: string, sep: char)
    ensures Join(Split(s, sep), sep) == s
    decreases |s|
  {
    var i := IndexOf(s, sep);
    var parts := Split(s, sep);
    if i < |s| {
      var rest := s[i + 1..];
      var tailParts := Split(rest, sep);
      assert parts == [s[..i]] + tailParts;
      JoinSplit(rest, sep);
      calc {
        Join(parts, sep);
        parts[0] + [sep] + Join(parts[1..], sep);
        { assert parts[1..] == tailParts; }
        s[..i] + [sep] + rest;
        s;
      }
    } else {
      assert parts == [s];
    }
  }

  lemma {:induction false} IndexOfAfter(a: string, c: char, b: string)
    requires c !in a
    ensures IndexOf(a + [c] + b, c) == |a|
  {
    if a != [] {
      assert (a + [c] + b)[1..] == a[1..] + [c] + b;
      assert a[0] != c;
      IndexOfAfter(a[1..], c, b);
    }
  }

  /** A string with no separator before the first one splits there. */
  lemma SplitAt(a: string, sep: char, b: string)
    requires sep !in a
    ensures Split(a + [sep] + b, sep) == [a] + Split(b, sep)
  {
    var s := a + [sep] + b;
    IndexOfAfter(a, sep, b);
    assert s[..|a|] == a;
    assert s[|a| + 1..] == b;
  }

  /**
   * The first piece is everything before the first separator, and there is a
   * second piece exactly when the separator occurs.
   */
  lemma SplitHead(s: string, sep: char)
    ensures |Split(s, sep)| >= 2 <==> sep in s
    ensures Split(s, sep)[0] == s[..IndexOf(s, sep)]
    ensures sep in s ==> Split(s, sep)[1] == Split(s[IndexOf(s, sep) + 1..], sep)[0]
  {
    var i := IndexOf(s, sep);
    IndexOfAbsent(s, sep);
    if i == |s| {
      assert Split(s, sep) == [s];
      assert s[..i] == s;
    } else {
      assert Split(s, sep) == [s[..i]] + Split(s[i + 1..], sep);
    }
  }

  /** When the separator occurs, the string starts with the first two pieces joined by it. */
  lemma SplitFirstTwo(s: string, sep: char)
    requires sep in s
    ensures HasPrefix(s, Split(s, sep)[0] + [sep] + Split(s, sep)[1])
  {
    SplitHead(s, sep);
    var i := IndexOf(s, sep);
    var tail := s[i + 1..];
    SplitHead(tail, sep);
    var a, b := Split(s, sep)[0], Split(s, sep)[1];
    assert a == s[..i];
    assert b == tail[..IndexOf(tail, sep)];
    PrefixOfJoin(s[..i], sep, tail, IndexOf(tail, sep));
    assert s == s[..i] + [sep] + tail;
  }

  /**
   * The second piece runs up to the next separator or to the end of the string:
   * nothing of it is cut off.
   */
  lemma SplitSecondEnds(s: string, sep: char)
    requires sep in s
    ensures var n := |Split(s, sep)[0]| + 1 + |Split(s, sep)[1]|;
      n <= |s| && (n == |s| || s[n] == sep)
  {
    SplitHead(s, sep);
    var i := IndexOf(s, sep);
    var tail := s[i + 1..];
    SplitHead(tail, sep);
    var j := IndexOf(tail, sep);
    assert |Split(s, sep)[0]| == i;
    assert |Split(s, sep)[1]| == j;
    if j < |tail| {
      assert s[i + 1 + j] == tail[j];
    }
  }

  lemma PrefixOfJoin(a: string, sep: char, tail: string, j: nat)
    requires j <= |tail|
    ensures HasPrefix(a + [sep] + tail, a + [sep] + tail[..j])
  {
    var p := a + [sep] + tail[..j];
    assert (a + [sep] + tail)[..|p|] == p;
  }

  /** A split gives exactly the two pieces `a` and `b` when `s` is `a`, one separator, `b`. */
  lemma SplitPair(s: string, sep: char, a: string, b: string)
    ensures Split(s, sep) == [a, b] <==> s == a + [sep] + b && sep !in a && sep !in b
  {
    if s == a + [sep] + b && sep !in a && sep !in b {
      SplitAt(a, sep, b);
      IndexOfAbsent(b, sep);
    }
    if Split(s, sep) == [a, b] {
      SplitPiecesFree(s, sep);
      var i := IndexOf(s, sep);
      IndexOfAbsent(s, sep);
      assert i < |s|;
      var rest := s[i + 1..];
      IndexOfAbsent(rest, sep);
      assert Split(s, sep) == [s[..i]] + Split(rest, sep);
      assert Split(rest, sep) == Split(s, sep)[1..] == [b];
      assert a == Split(s, sep)[0] == s[..i];
      assert b == rest;
      assert s == s[..i] + [sep] + rest;
    }
  }

  // ---------------------------------------------------------------------------
  // Removing a character (strings.ReplaceAll(s, "c", ""))

  function RemoveAll(s: string, c: char): (r: string)
    ensures c !in r
    ensures |r| <= |s|
    ensures forall x | x != c :: x in r <==> x in s
  {
    if s == [] then []
    else if s[0] == c then RemoveAll(s[1..], c)
    else
      var rest := RemoveAll(s[1..], c);
      assert forall x | x != c :: x in s <==> x == s[0] || x in s[1..];
      [s[0]] + rest
  }

  /** Removing a character that does not occur changes nothing. */
  lemma {:induction false} RemoveAllAbsent(s: string, c: char)
    ensures c !in s ==> RemoveAll(s, c) == s
  {
    if s != [] && c !in s {
      assert s[0] != c;
      assert c !in s[1..];
      RemoveAllAbsent(s[1..], c);
      assert s == [s[0]] + s[1..];
    }
  }

  /** Removal distributes over concatenation. */
  lemma {:induction false} RemoveAllConcat(a: string, b: string, c: char)
    ensures RemoveAll(a + b, c) == RemoveAll(a, c) + RemoveAll(b, c)
  {
    if a != [] {
      assert (a + b)[0] == a[0];
      assert (a + b)[1..] == a[1..] + b;
      RemoveAllConcat(a[1..], b, c);
    } else {
      assert a + b == b;
    }
  }

  // ---------------------------------------------------------------------------
  // UTF-8 length (Go's len on a string)

  function Utf8Width(c: char): (w: nat)
    ensures 1 <= w <= 4
    ensures w == 1 <==> c as int < 0x80
  {
    if c as int < 0x80 then 1
    else if c as int < 0x800 then 2
    else if c as int < 0x10000 then 3
    else 4
  }

  function Utf8Len(s: string): (n: nat)
    ensures |s| <= n <= 4 * |s|
  {
    if s == [] then 0 else Utf8Width(s[0]) + Utf8Len(s[1..])
  }

  predicate IsAscii(s: string) {
    forall k | 0 <= k < |s| :: s[k] as int < 0x80
  }

  /** On ASCII text Go's byte length and the character count agree. */
  lemma {:induction false} Utf8LenAscii(s: string)
    requires IsAscii(s)
    ensures Utf8Len(s) == |s|
  {
    if s != [] {
      assert IsAscii(s[1..]) by {
        forall k | 0 <= k < |s[1..]| ensures s[1..][k] as int < 0x80 { assert s[1..][k] == s[k + 1]; }
      }
      Utf8LenAscii(s[1..]);
    }
  }

  // ---------------------------------------------------------------------------
  // ASCII character classes and case folding

  predicate IsDigit(c: char) { '0' <= c <= '9' }
  predicate IsUpper(c: char) { 'A' <= c <= 'Z' }
  predicate IsLower(c: char) { 'a' <= c <= 'z' }

  predicate AllDigits(s: string) {
    forall k | 0 <= k < |s| :: IsDigit(s[k])
  }

  /** Lower-casing of ASCII letters; every other character is left alone. */
  function ToLowerAscii(c: char): (r: char)
    ensures IsUpper(c) ==> IsLower(r) && r as int == c as int + 32
    ensures !IsUpper(c) ==> r == c
  {
    if IsUpper(c) then (c as int + 32) as char else c
  }

  /**
   * strings.EqualFold restricted to ASCII case folding. The handlers apply it
   * only to names that already passed an ASCII-only check, where the two agree.
   */
  predicate EqualFoldAscii(a: string, b: string) {
    |a| == |b| && forall k | 0 <= k < |a| :: ToLowerAscii(a[k]) == ToLowerAscii(b[k])
  }

  // ---------------------------------------------------------------------------
  // Decimal numerals

  function DigitValue(c: char): (d: nat)
    requires IsDigit(c)
    ensures d < 10
  {
    c as int - '0' as int
  }

  function DigitChar(d: nat): (c: char)
    requires d < 10
    ensures IsDigit(c) && DigitValue(c) == d
  {
    ('0' as int + d) as char
  }

  /** The value of a string of ASCII digits, most significant first. */
  function DecimalValue(s: string): nat
    requires AllDigits(s)
  {
    if s == [] then 0 else DecimalValue(s[..|s| - 1]) * 10 + DigitValue(s[|s| - 1])
  }

  /** The shortest decimal numeral of `n` (no leading zeros except for 0 itself). */
  function Digits(n: nat): (s: string)
    ensures |s| >= 1 && AllDigits(s)
    ensures |s| > 1 ==> s[0] != '0'
  {
    if n < 10 then [DigitChar(n)] else Digits(n / 10) + [DigitChar(n % 10)]
  }

  lemma {:induction false} DecimalValueOfDigits(n: nat)
    ensures DecimalValue(Digits(n)) == n
  {
    if n >= 10 {
      var s := Digits(n);
      assert s[..|s| - 1] == Digits(n / 10);
      DecimalValueOfDigits(n / 10);
    }
  }

  lemma {:induction false} DigitsLength(n: nat, width: nat, bound: nat)
    requires bound == Pow10(width) && n < bound && width >= 1
    ensures |Digits(n)| <= width
  {
    if n >= 10 {
      DigitsLength(n / 10, width - 1, Pow10(width - 1));
    }
  }

  function Pow10(k: nat): (p: nat)
    ensures p >= 1
  {
    if k == 0 then 1 else 10 * Pow10(k - 1)
  }

  function Zeros(k: nat): (z: string)
    ensures |z| == k && AllDigits(z)
    ensures forall i | 0 <= i < k :: z[i] == '0'
  {
    if k == 0 then [] else ['0'] + Zeros(k - 1)
  }

  /** Left-pads a numeral with zeros to `width` characters, as fmt's `%0<width>d` does. */
  function PadZeros(digits: string, width: nat): (r: string)
    requires AllDigits(digits)
    ensures AllDigits(r)
    ensures |r| == Max(|digits|, width)
  {
    Zeros(if |digits| < width then width - |digits| else 0) + digits
  }

  lemma {:induction false} DecimalValueLeadingZeros(k: nat, s: string)
    requires AllDigits(s)
    ensures DecimalValue(Zeros(k) + s) == DecimalValue(s)
    decreases |s|
  {
    if s == [] {
      assert Zeros(k) + s == Zeros(k);
      ZerosValue(k);
    } else {
      var t := Zeros(k) + s;
      assert t[..|t| - 1] == Zeros(k) + s[..|s| - 1];
      DecimalValueLeadingZeros(k, s[..|s| - 1]);
    }
  }

  lemma {:induction false} ZerosValue(k: nat)
    ensures DecimalValue(Zeros(k)) == 0
  {
    if k > 0 {
      var z := Zeros(k);
      assert z[..|z| - 1] == Zeros(k - 1);
      ZerosValue(k - 1);
    }
  }

  /** Go's `%` on integers: the remainder takes the sign of the dividend. */
  function GoRem(a: int, b: int): (r: int)
    requires b > 0
    ensures a >= 0 ==> r == a % b
    ensures -b < r < b
    ensures r < 0 ==> a < 0
  {
    if a >= 0 then a % b else -((-a) % b)
  }

  /** fmt.Sprintf("%0<width>d", n): the sign counts toward the width. */
  function FormatZeroPadded(n: int, width: nat): (r: string)
    ensures n >= 0 ==> AllDigits(r) && |r| == Max(|Digits(n)|, width)
  {
    if n >= 0 then PadZeros(Digits(n), width)
    else "-" + PadZeros(Digits(-n), if width > 0 then width - 1 else 0)
  }

  // ---------------------------------------------------------------------------
  // strconv.Itoa and strconv.Atoi (64-bit int)

  const MinInt64: int := -0x8000_0000_0000_0000
  const MaxInt64: int := 0x7fff_ffff_ffff_ffff

  /** strconv.Itoa */
  function FormatInt(n: int): string {
    if n < 0 then "-" + Digits(-n) else Digits(n)
  }

  /**
   * strconv.Atoi: an optional '+' or '-' followed by one or more ASCII digits
   * whose value fits in a 64-bit int; anything else is a syntax or range error.
   */
  function Atoi(s: string): (r: Option<int>)
    ensures r.Some? ==> |s| >= 1 && MinInt64 <= r.value <= MaxInt64
  {
    if s == [] then None
    else
      var negative := s[0] == '-';
      var digits := if s[0] == '-' || s[0] == '+' then s[1..] else s;
      if digits == [] || !AllDigits(digits) then None
      else
        var v: int := if negative then -(DecimalValue(digits) as int) else DecimalValue(digits);
        if MinInt64 <= v <= MaxInt64 then Some(v) else None
  }

  /** Atoi reads back every 64-bit value that Itoa writes. */
  lemma AtoiFormatInt(n: int)
    requires MinInt64 <= n <= MaxInt64
    ensures Atoi(FormatInt(n)) == Some(n)
  {
    var m: nat := if n < 0 then -n else n;
    var digits := Digits(m);
    DecimalValueOfDigits(m);
    assert IsDigit(digits[0]);
    if n < 0 {
      var s := "-" + digits;
      assert FormatInt(n) == s;
      assert s[0] == '-' && s[1..] == digits;
    } else {
      assert FormatInt(n) == digits;
      assert digits[0] != '-' && digits[0] != '+';
    }
  }
}
