/// The pieces of Rust's standard library that the adapter code relies on,
/// stated exactly: the UTF-8 byte length that `str::len` reports, byte
/// slicing `&s[..b]`, ASCII character classes, Unicode white space,
/// `from_str_radix` for unsigned integers, the `{}` and `{:02}` formatting
/// of unsigned integers, `str::lines`, `str::split_whitespace`, and the
/// `<<` and `leading_zeros` of `u64`.
module RustStd {
  import opened Outcomes

  /** Rust's `u8`. */
  newtype u8 = x: int | 0 <= x < 256

  // ---------------------------------------------------------------------
  // Characters

  predicate IsAscii(c: char) { c as int < 0x80 }

  predicate IsAsciiDigit(c: char) { '0' <= c <= '9' }

  /** `char::is_ascii_alphanumeric`. */
  predicate IsAsciiAlphanumeric(c: char) {
    '0' <= c <= '9' || 'A' <= c <= 'Z' || 'a' <= c <= 'z'
  }

  /** `char::is_whitespace`: the characters with the Unicode White_Space property. */
  predicate IsWhitespace(c: char) {
    var n := c as int;
    (0x09 <= n <= 0x0D) || n == 0x20 || n == 0x85 || n == 0xA0 || n == 0x1680
    || (0x2000 <= n <= 0x200A) || n == 0x2028 || n == 0x2029 || n == 0x202F
    || n == 0x205F || n == 0x3000
  }

  /** `u8` addition as a release build performs it: wrapping modulo 256. */
  function WrappingAdd(a: u8, b: u8): (s: u8)
    ensures a as int + b as int < 256 ==> s as int == a as int + b as int
    ensures a as int + b as int >= 256 ==> s as int == a as int + b as int - 256
  {
    ((a as int + b as int) % 256) as u8
  }

  // ---------------------------------------------------------------------
  // UTF-8 lengths and byte slicing

  /** The number of bytes the UTF-8 encoding of `c` takes. */
  function Utf8Width(c: char): (w: nat)
    ensures 1 <= w <= 4
    ensures w == 1 <==> IsAscii(c)
  {
    var n := c as int;
    if n < 0x80 then 1 else if n < 0x800 then 2 else if n < 0x1_0000 then 3 else 4
  }

  /** `str::len`: the byte length of the UTF-8 encoding of `s`. It equals the
      number of characters exactly when every character is ASCII. */
  function Utf8Length(s: string): (n: nat)
    ensures |s| <= n <= 4 * |s|
    ensures n == |s| <==> forall i :: 0 <= i < |s| ==> IsAscii(s[i])
  {
    if s == [] then 0 else Utf8Width(s[0]) + Utf8Length(s[1..])
  }

  /** `str::is_char_boundary(b)`, for `b` no larger than the byte length:
      the first `b` bytes end exactly after a character. */
  predicate IsCharBoundary(s: string, b: nat)
  {
    b == 0 || (s != [] && b >= Utf8Width(s[0]) && IsCharBoundary(s[1..], b - Utf8Width(s[0])))
  }

  /** The number of characters held by the first `b` bytes of `s`. */
  function CharsInBytes(s: string, b: nat): (k: nat)
    requires IsCharBoundary(s, b)
    ensures k <= |s| && Utf8Length(s[..k]) == b
  {
    if b == 0 then 0
    else
      var k' := CharsInBytes(s[1..], b - Utf8Width(s[0]));
      assert s[..k' + 1] == [s[0]] + s[1..][..k'];
      assert ([s[0]] + s[1..][..k'])[1..] == s[1..][..k'];
      k' + 1
  }

  /** `&s[..b]`; Rust panics unless `b` falls on a character boundary. */
  function BytePrefix(s: string, b: nat): (p: string)
    requires IsCharBoundary(s, b)
    ensures Utf8Length(p) == b && |p| <= |s| && p == s[..|p|]
  {
    s[..CharsInBytes(s, b)]
  }

  // ---------------------------------------------------------------------
  // Unsigned integers: parsing and formatting

  /** `char::to_digit(radix)`: the value of an ASCII digit or letter, if below `radix`. */
  function DigitValue(c: char, radix: nat): (d: Option<nat>)
    ensures d.Some? ==> d.value < radix && IsAsciiAlphanumeric(c)
  {
    var v := if '0' <= c <= '9' then c as int - '0' as int
             else if 'a' <= c <= 'z' then c as int - 'a' as int + 10
             else if 'A' <= c <= 'Z' then c as int - 'A' as int + 10
             else -1;
    if 0 <= v < radix then Some(v) else None
  }

  predicate AllDigits(s: string, radix: nat) {
    forall i :: 0 <= i < |s| ==> DigitValue(s[i], radix).Some?
  }

  /** The value of a digit string in base `radix`, most significant digit first. */
  function DigitsValue(s: string, radix: nat): nat
    requires AllDigits(s, radix)
  {
    if s == [] then 0
    else DigitsValue(s[..|s| - 1], radix) * radix + DigitValue(s[|s| - 1], radix).value
  }

  /** `from_str_radix(s, radix)` of an unsigned Rust integer type whose largest
      value is `max`: an optional `+`, at least one digit, no overflow. */
  function ParseUnsigned(s: string, radix: nat, max: nat): (r: Option<nat>)
    ensures r.Some? ==> r.value <= max
    ensures r.Some? ==> |s| > 0 && forall i :: 0 <= i < |s| ==> IsAscii(s[i])
    ensures s != [] && AllDigits(s, radix) ==> (r.Some? <==> DigitsValue(s, radix) <= max)
    ensures s != [] && AllDigits(s, radix) && r.Some? ==> r.value == DigitsValue(s, radix)
    ensures |s| > 1 && s[0] == '+' ==> r == (if AllDigits(s[1..], radix) && DigitsValue(s[1..], radix) <= max
                                            then Some(DigitsValue(s[1..], radix)) else None)
  {
    if s == [] || s == "+" then None
    else
      var digits := if s[0] == '+' then s[1..] else s;
      if AllDigits(digits, radix) && DigitsValue(digits, radix) <= max
      then Some(DigitsValue(digits, radix))
      else None
  }

  function DigitChar(d: nat): (c: char)
    requires d < 10
    ensures DigitValue(c, 10) == Some(d)
  {
    ('0' as int + d) as char
  }

  /** `format!("{}", n)` for an unsigned integer. */
  function Decimal(n: nat): (s: string)
    ensures |s| >= 1 && AllDigits(s, 10)
    ensures n < 10 ==> |s| == 1
    ensures 10 <= n < 100 ==> |s| == 2
  {
    if n < 10 then [DigitChar(n)] else Decimal(n / 10) + [DigitChar(n % 10)]
  }

  /** `format!("{:02}", n)`: decimal, zero-padded to at least two characters. */
  function ZeroPad2(n: nat): (s: string)
    ensures |s| >= 2 && AllDigits(s, 10)
    ensures n < 100 ==> |s| == 2
  {
    if n < 10 then "0" + Decimal(n) else Decimal(n)
  }

  /** Reading back what `{}` wrote gives the number. */
  lemma {:induction false} DecimalValue(n: nat)
    ensures DigitsValue(Decimal(n), 10) == n
  {
    if n >= 10 {
      DecimalValue(n / 10);
      var s := Decimal(n);
      assert s[..|s| - 1] == Decimal(n / 10);
    }
  }

  /** Parsing the `{}` text of `n` with any type wide enough for `n` gives `n`. */
  lemma DecimalRoundTrip(n: nat, max: nat)
    requires n <= max
    ensures ParseUnsigned(Decimal(n), 10, max) == Some(n)
  {
    DecimalValue(n);
  }

  /** Reading back what `{:02}` wrote gives the number: the leading zero adds nothing. */
  lemma ZeroPad2Value(n: nat)
    ensures DigitsValue(ZeroPad2(n), 10) == n
  {
    DecimalValue(n);
    if n < 10 {
      var s := ZeroPad2(n);
      assert s[..|s| - 1] == "0";
      assert "0"[..0] == [];
    }
  }

  /** Parsing the `{:02}` text of `n` gives `n`. */
  lemma ZeroPad2RoundTrip(n: nat, max: nat)
    requires n <= max
    ensures ParseUnsigned(ZeroPad2(n), 10, max) == Some(n)
  {
    ZeroPad2Value(n);
  }

  // ---------------------------------------------------------------------
  // Lines and white-space separated tokens

  /** Index of the first `'\n'` in `s`, or `|s|` when there is none. */
  function NewlineIndex(s: string): (k: nat)
    ensures k <= |s| && (k < |s| ==> s[k] == '\n')
    ensures forall i :: 0 <= i < k ==> s[i] != '\n'
  {
    if s == [] || s[0] == '\n' then 0 else 1 + NewlineIndex(s[1..])
  }

  function StripCarriageReturn(line: string): string {
    if |line| > 0 && line[|line| - 1] == '\r' then line[..|line| - 1] else line
  }

  /** `str::lines`: split at `'\n'`, drop a `'\r'` just before a `'\n'`; a final
      line terminator does not start an empty last line. */
  function Lines(s: string): (ls: seq<string>)
    ensures forall i :: 0 <= i < |ls| ==> '\n' !in ls[i]
    ensures |ls| <= |s| && (s != [] ==> |ls| >= 1)
    ensures s != [] && '\n' !in s ==> ls == [s]
    decreases |s|
  {
    if s == [] then []
    else
      var k := NewlineIndex(s);
      if k == |s| then [s]
      else [StripCarriageReturn(s[..k])] + Lines(s[k + 1..])
  }

  predicate NoWhitespace(t: string) {
    forall j :: 0 <= j < |t| ==> !IsWhitespace(t[j])
  }

  /** Length of the run of non-white-space characters that starts `s`. */
  function WordLength(s: string): (n: nat)
    ensures n <= |s| && NoWhitespace(s[..n])
    ensures n < |s| ==> IsWhitespace(s[n])
  {
    if s == [] || IsWhitespace(s[0]) then 0 else 1 + WordLength(s[1..])
  }

  /** `str::split_whitespace`: the maximal runs of non-white-space characters, in order. */
  function Tokens(s: string): (ts: seq<string>)
    ensures forall i :: 0 <= i < |ts| ==> ts[i] != [] && NoWhitespace(ts[i])
    ensures s != [] && NoWhitespace(s) ==> ts == [s]
    decreases |s|
  {
    if s == [] then []
    else if IsWhitespace(s[0]) then Tokens(s[1..])
    else
      var n := WordLength(s);
      assert NoWhitespace(s) ==> n == |s| && s[..n] == s;
      [s[..n]] + Tokens(s[n..])
  }

  /** A word followed by white space or the end of the string is read whole. */
  lemma {:induction false} WordLengthOfWord(word: string, rest: string)
    requires NoWhitespace(word) && (rest == [] || IsWhitespace(rest[0]))
    ensures WordLength(word + rest) == |word|
  {
    if word != [] {
      assert (word + rest)[0] == word[0];
      assert (word + rest)[1..] == word[1..] + rest;
      WordLengthOfWord(word[1..], rest);
    } else {
      assert word + rest == rest;
    }
  }

  /** `split_whitespace` yields a leading word as the first token. */
  lemma TokensAfterWord(word: string, rest: string)
    requires word != [] && NoWhitespace(word) && (rest == [] || IsWhitespace(rest[0]))
    ensures Tokens(word + rest) == [word] + Tokens(rest)
  {
    WordLengthOfWord(word, rest);
    assert (word + rest)[..|word|] == word;
    assert (word + rest)[|word|..] == rest;
  }

  /** Words joined by single spaces split back into those words. */
  lemma {:induction false} TokensOfSpaced(words: seq<string>)
    requires forall i :: 0 <= i < |words| ==> words[i] != [] && NoWhitespace(words[i])
    ensures Tokens(JoinSpaced(words)) == words
  {
    if |words| == 1 {
      TokensAfterWord(words[0], []);
      assert words[0] + [] == words[0];
    } else if |words| > 1 {
      var rest := JoinSpaced(words[1..]);
      TokensOfSpaced(words[1..]);
      assert (" " + rest)[1..] == rest;
      TokensAfterWord(words[0], " " + rest);
      assert words[0] + " " + rest == words[0] + (" " + rest);
      assert words == [words[0]] + words[1..];
    }
  }

  /** The words separated by single spaces, as `format!("{} {}", a, b)` writes them. */
  function JoinSpaced(words: seq<string>): string {
    if words == [] then []
    else if |words| == 1 then words[0]
    else words[0] + " " + JoinSpaced(words[1..])
  }

  // ---------------------------------------------------------------------
  // u64 bit operations

  function Pow2(k: nat): (p: nat)
    ensures p >= 1
  {
    if k == 0 then 1 else 2 * Pow2(k - 1)
  }

  /** 2^64, one more than `u64::MAX`. */
  const U64_LIMIT: nat := 0x1_0000_0000_0000_0000

  const U64_MAX: nat := U64_LIMIT - 1

  lemma {:induction false} Pow2Add(a: nat, b: nat)
    ensures Pow2(a + b) == Pow2(a) * Pow2(b)
  {
    if a > 0 {
      Pow2Add(a - 1, b);
    }
  }

  lemma Pow2Of64()
    ensures Pow2(64) == U64_LIMIT
  {
    assert Pow2(4) == 16;
    Pow2Add(4, 4);
    Pow2Add(8, 8);
    assert Pow2(16) == 0x1_0000;
    Pow2Add(16, 16);
    assert Pow2(32) == 0x1_0000_0000;
    Pow2Add(32, 32);
  }

  /** `x << k` on a `u64`: the bits shifted past bit 63 are lost. */
  function Shl64(x: nat, k: nat): (r: nat)
    requires k < 64
    ensures r < U64_LIMIT
    ensures x * Pow2(k) < U64_LIMIT ==> r == x * Pow2(k)
    ensures (x * Pow2(k) - r) % U64_LIMIT == 0
  {
    (x * Pow2(k)) % U64_LIMIT
  }

  /** Number of binary digits of `x`: the position just above its highest set bit. */
  function BitLength(x: nat): (n: nat)
    ensures x == 0 <==> n == 0
    ensures x > 0 ==> Pow2(n - 1) <= x < Pow2(n)
  {
    if x == 0 then 0 else 1 + BitLength(x / 2)
  }

  lemma {:induction false} BitLengthBound(x: nat, k: nat)
    requires x < Pow2(k)
    ensures BitLength(x) <= k
  {
    if x > 0 {
      BitLengthBound(x / 2, k - 1);
    }
  }

  /** `u64::leading_zeros`: 64 for zero, otherwise 63 minus the index of the highest set bit. */
  function LeadingZeros64(x: nat): (lz: nat)
    requires x < U64_LIMIT
    ensures lz <= 64 && (lz == 64 <==> x == 0)
    ensures x > 0 ==> Pow2(63 - lz) <= x < Pow2(64 - lz)
  {
    Pow2Of64();
    BitLengthBound(x, 64);
    64 - BitLength(x)
  }
}
