/// Reading the refinement level ("resolution") back out of a zone id:
/// `extract_res_from_cellid`, `extract_res_from_z3` and `extract_res_from_z7`
/// of src/adapters/dggrid/isea3h.rs:282-322; src/adapters/dggrid.rs:607-647
/// holds the same three functions, so this one model serves both files.
module Resolution {
  import opened Outcomes
  import opened RustStd

  const ISEA3H: string := "ISEA3H"
  const IGEO7: string := "IGEO7"

  const TOO_SHORT: string := "CellID too short to extract resolution"
  const INVALID_PREFIX: string := "Invalid resolution prefix in CellID"
  const INVALID_HEX: string := "Invalid hex CellID"
  const NO_RESOLUTION_MASK: string := "Invalid IGEO7 CellID: No resolution mask found"

  function UnsupportedType(dggsType: string): string {
    "Unsupported DGGS type: " + dggsType
  }

  /** The value of an ASCII decimal digit. */
  function DecimalDigit(c: char): int {
    c as int - '0' as int
  }

  /** `id[..2]` is taken only after the length test, and panics when byte 2
      falls inside a multi-byte character; this rules that case out. */
  predicate Z3Sliceable(id: string) {
    Utf8Length(id) < 2 || IsCharBoundary(id, 2)
  }

  /** `to_digit(10)` succeeds exactly on the ASCII decimal digits. */
  lemma DecimalDigitValue(c: char)
    ensures DigitValue(c, 10).Some? <==> IsAsciiDigit(c)
    ensures IsAsciiDigit(c) ==> DigitValue(c, 10).value == DecimalDigit(c)
  {
  }

  /** Parsing a two-character string as a `u8`: two digits, or `+` and a digit. */
  lemma TwoCharParse(a: char, b: char)
    ensures ParseUnsigned([a, b], 10, 255).Some? <==> IsAsciiDigit(b) && (IsAsciiDigit(a) || a == '+')
    ensures ParseUnsigned([a, b], 10, 255).Some? && a == '+' ==>
      ParseUnsigned([a, b], 10, 255).value == DecimalDigit(b)
    ensures ParseUnsigned([a, b], 10, 255).Some? && a != '+' ==>
      ParseUnsigned([a, b], 10, 255).value == 10 * DecimalDigit(a) + DecimalDigit(b)
  {
    var s := [a, b];
    DecimalDigitValue(a);
    DecimalDigitValue(b);
    if a == '+' {
      var d := s[1..];
      assert d == [b] && d[..0] == [];
      if IsAsciiDigit(b) {
        assert AllDigits(d, 10);
        assert DigitsValue(d, 10) == DigitsValue(d[..0], 10) * 10 + DigitValue(d[0], 10).value;
      } else {
        assert DigitValue(d[0], 10).None?;
      }
    } else if IsAsciiDigit(a) && IsAsciiDigit(b) {
      assert AllDigits(s, 10);
      assert s[..1] == [a] && s[..1][..0] == [];
      assert DigitsValue(s[..1], 10) == DecimalDigit(a);
      assert DigitsValue(s, 10) == DigitsValue(s[..1], 10) * 10 + DigitValue(s[1], 10).value;
    } else if !IsAsciiDigit(a) {
      assert DigitValue(s[0], 10).None?;
    } else {
      assert DigitValue(s[1], 10).None?;
    }
  }

  /** When two ASCII characters start `id`, its first two bytes are exactly them. */
  lemma AsciiPairPrefix(id: string)
    requires |id| >= 2 && IsAscii(id[0]) && IsAscii(id[1])
    ensures Utf8Length(id) >= 2 && IsCharBoundary(id, 2) && BytePrefix(id, 2) == id[..2]
  {
    assert IsCharBoundary(id[1..][1..], 0);
    var p := BytePrefix(id, 2);
    assert Utf8Length(id[..0]) == 0;
    assert id[..1] == [id[0]];
    assert Utf8Length([id[0]]) == 1;
    assert |p| == 2;
  }

  /** A successful parse of the first two bytes only sees ASCII, so those bytes are `id[..2]`. */
  lemma ParsedPrefixIsAscii(id: string)
    requires Utf8Length(id) >= 2 && IsCharBoundary(id, 2)
    requires ParseUnsigned(BytePrefix(id, 2), 10, 255).Some?
    ensures |id| >= 2 && IsAscii(id[0]) && IsAscii(id[1]) && BytePrefix(id, 2) == id[..2]
  {
    var p := BytePrefix(id, 2);
    assert |p| == 2;
    assert id[..2] == p;
    assert id[0] == p[0] && id[1] == p[1];
  }

  /** `extract_res_from_z3`: fewer than two bytes is an error; otherwise the
      first two characters are read as a `u8`, so the id must start with two
      decimal digits, or `+` and a digit, and the level is their value. */
  function ExtractResFromZ3(id: string): (r: Result<u8>)
    requires Z3Sliceable(id)
    ensures Utf8Length(id) < 2 ==> r == Err(TOO_SHORT)
    ensures r.Err? && Utf8Length(id) >= 2 ==> r.error == INVALID_PREFIX
    ensures r.Ok? <==> |id| >= 2 && IsAsciiDigit(id[1]) && (IsAsciiDigit(id[0]) || id[0] == '+')
    ensures r.Ok? && id[0] == '+' ==> r.value as int == DecimalDigit(id[1])
    ensures r.Ok? && id[0] != '+' ==> r.value as int == 10 * DecimalDigit(id[0]) + DecimalDigit(id[1])
    ensures r.Ok? ==> r.value <= 99
  {
    if Utf8Length(id) < 2 then Err(TOO_SHORT)
    else
      var p := BytePrefix(id, 2);
      if |id| >= 2 && IsAscii(id[0]) && IsAscii(id[1]) then
        AsciiPairPrefix(id);
        assert p == [id[0], id[1]];
        TwoCharParse(id[0], id[1]);
        match ParseUnsigned(p, 10, 255)
        case Some(v) => Ok(v as u8)
        case None => Err(INVALID_PREFIX)
      else
        if ParseUnsigned(p, 10, 255).Some? then
          ParsedPrefixIsAscii(id);
          assert false;
          Err(INVALID_PREFIX)
        else
          Err(INVALID_PREFIX)
  }

  /** `extract_res_from_z7`: a one-byte id is level 0 and a two-byte id level 1,
      whatever they hold; a longer id must be a hexadecimal `u64`, and its level
      is 2 plus the leading zeros of the value shifted left by four bits, which
      must not be zero. */
  function ExtractResFromZ7(id: string): (r: Result<u8>)
    ensures Utf8Length(id) == 1 ==> r == Ok(0)
    ensures Utf8Length(id) == 2 ==> r == Ok(1)
    ensures Utf8Length(id) != 1 && Utf8Length(id) != 2 ==>
      (r.Ok? <==> ParseUnsigned(id, 16, U64_MAX).Some? && Shl64(ParseUnsigned(id, 16, U64_MAX).value, 4) != 0)
    ensures r.Ok? && Utf8Length(id) > 2 ==>
      2 <= r.value <= 65 &&
      Pow2(65 - r.value as int) <= Shl64(ParseUnsigned(id, 16, U64_MAX).value, 4) < Pow2(66 - r.value as int)
    ensures Utf8Length(id) != 1 && Utf8Length(id) != 2 && r.Err? ==>
      r.error == (if ParseUnsigned(id, 16, U64_MAX).None? then INVALID_HEX else NO_RESOLUTION_MASK)
  {
    var n := Utf8Length(id);
    if n == 1 then Ok(0)
    else if n == 2 then Ok(1)
    else
      match ParseUnsigned(id, 16, U64_MAX)
      case None => Err(INVALID_HEX)
      case Some(num) =>
        var lz := LeadingZeros64(Shl64(num, 4));
        if lz > 63 then Err(NO_RESOLUTION_MASK) else Ok((2 + lz) as u8)
  }

  /** `extract_res_from_cellid`: ISEA3H and IGEO7 ids both go to the Z3 reader
      (the Z7 reader is not used yet); any other type is an error. */
  function ExtractResFromCellId(id: string, dggsType: string): (r: Result<u8>)
    requires dggsType == ISEA3H || dggsType == IGEO7 ==> Z3Sliceable(id)
    ensures dggsType == ISEA3H || dggsType == IGEO7 ==> r == ExtractResFromZ3(id)
    ensures dggsType != ISEA3H && dggsType != IGEO7 ==> r == Err(UnsupportedType(dggsType))
    ensures r.Ok? ==> r.value <= 99
  {
    match dggsType
    case "ISEA3H" => ExtractResFromZ3(id)
    case "IGEO7" => ExtractResFromZ3(id)
    case _ => Err(UnsupportedType(dggsType))
  }

  /** For an id that starts with two ASCII characters, the Z3 level depends on those two only. */
  lemma Z3ReadsOnlyPrefix(id: string)
    requires |id| >= 2 && IsAscii(id[0]) && IsAscii(id[1])
    ensures Z3Sliceable(id) && Z3Sliceable(id[..2])
    ensures ExtractResFromZ3(id) == ExtractResFromZ3(id[..2])
  {
    AsciiPairPrefix(id);
    AsciiPairPrefix(id[..2]);
  }

  /** The prefix the DGGRID parsers write, `format!("{:02}{}", res, token)`,
      reads back as `res` for every level up to 99. */
  lemma ZeroPaddedPrefixRoundTrip(res: nat, token: string)
    requires res <= 99
    ensures Z3Sliceable(ZeroPad2(res) + token)
    ensures ExtractResFromZ3(ZeroPad2(res) + token) == Ok(res as u8)
  {
    var id := ZeroPad2(res) + token;
    var p := ZeroPad2(res);
    assert id[..2] == p;
    assert DigitValue(p[0], 10).Some? && DigitValue(p[1], 10).Some?;
    AsciiPairPrefix(id);
    ZeroPad2RoundTrip(res, 255);
  }

  /** Worked cases: a "05" prefix is level 5, a leading `+` is accepted, and a
      sign or a letter in the prefix is an error. */
  lemma Z3Examples()
    ensures ExtractResFromZ3("05") == Ok(5)
    ensures ExtractResFromZ3("+5") == Ok(5)
    ensures ExtractResFromZ3("-1").Err?
    ensures ExtractResFromZ3("a5").Err?
    ensures ExtractResFromZ3("7") == Err(TOO_SHORT)
  {
    AsciiPairPrefix("05");
    AsciiPairPrefix("+5");
    AsciiPairPrefix("-1");
    AsciiPairPrefix("a5");
  }

  /** A hexadecimal value that is a multiple of 2^60 loses every set bit in
      the shift by four, so it has no resolution mask. */
  lemma Z7RejectsEmptyMask(id: string)
    requires Utf8Length(id) > 2
    requires ParseUnsigned(id, 16, U64_MAX).Some? && ParseUnsigned(id, 16, U64_MAX).value % Pow2(60) == 0
    ensures ExtractResFromZ7(id) == Err(NO_RESOLUTION_MASK)
  {
    var v := ParseUnsigned(id, 16, U64_MAX).value;
    Pow2Add(60, 4);
    Pow2Of64();
    assert Pow2(4) == 16;
    assert v * 16 == (v / Pow2(60)) * U64_LIMIT;
    assert Shl64(v, 4) == 0;
  }

  /** "000" is a valid hexadecimal `u64` whose level cannot be read. */
  lemma Z7ExampleZero()
    ensures ExtractResFromZ7("000") == Err(NO_RESOLUTION_MASK)
  {
    var s := "000";
    assert s[..2] == "00" && s[..2][..1] == "0" && s[..2][..1][..0] == [];
    assert AllDigits(s, 16);
    assert DigitsValue("0", 16) == 0;
    assert DigitsValue("00", 16) == 0;
    assert DigitsValue(s, 16) == 0;
    Z7RejectsEmptyMask(s);
  }
}
