/// The textual zone identifier of the DGGRID adapters (`ZoneID` in
/// src/models/dggrid.rs, used under the name `CellID` by the AIGEN parser):
/// a string of exactly 16 or 18 ASCII letters and digits.
module ZoneIds {
  import opened Outcomes
  import opened RustStd

  datatype ZoneId = ZoneId(id: string)

  const INVALID_ZONE_ID: string := "ID must be exactly 16 or 18 alphanumeric characters."

  /** `id.chars().all(|c| c.is_ascii_alphanumeric())`. */
  function AllAsciiAlphanumeric(s: string): (all: bool)
    ensures all <==> forall i :: 0 <= i < |s| ==> IsAsciiAlphanumeric(s[i])
  {
    s == [] || (IsAsciiAlphanumeric(s[0]) && AllAsciiAlphanumeric(s[1..]))
  }

  /** The acceptance test of `ZoneID::new`, with `id.len()` the UTF-8 byte length. */
  predicate IsValidZoneId(s: string) {
    (Utf8Length(s) == 16 || Utf8Length(s) == 18) && AllAsciiAlphanumeric(s)
  }

  /** `ZoneID::new`: accepts exactly the strings of 16 or 18 characters that are
      all ASCII letters or digits, and keeps the text unchanged. */
  function NewZoneId(s: string): (r: Result<ZoneId>)
    ensures r.Ok? <==> (|s| == 16 || |s| == 18) && forall i :: 0 <= i < |s| ==> IsAsciiAlphanumeric(s[i])
    ensures r.Ok? ==> r.value.id == s
    ensures r.Err? ==> r.error == INVALID_ZONE_ID
  {
    if IsValidZoneId(s) then Ok(ZoneId(s)) else Err(INVALID_ZONE_ID)
  }

  const SIXTEEN_ZEROS: string := "0000000000000000"

  /** Sixteen zeros pass the acceptance test of `new`. */
  lemma SixteenZerosValid()
    ensures IsValidZoneId(SIXTEEN_ZEROS)
  {
    var zeros := SIXTEEN_ZEROS;
    assert |zeros| == 16;
    assert forall i :: 0 <= i < |zeros| ==> zeros[i] == '0';
    assert forall i :: 0 <= i < |zeros| ==> IsAscii(zeros[i]) && IsAsciiAlphanumeric(zeros[i]);
  }

  /** `Default for ZoneID`: sixteen zeros, an id that `new` itself accepts. */
  function DefaultZoneId(): (z: ZoneId)
    ensures NewZoneId(z.id) == Ok(z)
  {
    SixteenZerosValid();
    ZoneId(SIXTEEN_ZEROS)
  }

  /** `Display for ZoneID`: the stored text. */
  function Display(z: ZoneId): (s: string)
    ensures IsValidZoneId(z.id) ==> NewZoneId(s) == Ok(z)
  {
    z.id
  }

  /** Every accepted string is displayed back unchanged. */
  lemma DisplayRoundTrip(s: string)
    requires NewZoneId(s).Ok?
    ensures Display(NewZoneId(s).value) == s
  {
  }

  /** A length other than 16 or 18 is rejected whatever the characters. */
  lemma WrongLengthRejected(s: string)
    requires |s| != 16 && |s| != 18
    ensures NewZoneId(s) == Err(INVALID_ZONE_ID)
  {
  }

  /** One character that is not an ASCII letter or digit is enough to be rejected. */
  lemma NonAlphanumericRejected(s: string, i: nat)
    requires i < |s| && !IsAsciiAlphanumeric(s[i])
    ensures NewZoneId(s) == Err(INVALID_ZONE_ID)
  {
  }

  /** Byte length and character count agree on every accepted id. */
  lemma AcceptedIdsAreAscii(s: string)
    requires NewZoneId(s).Ok?
    ensures Utf8Length(s) == |s|
  {
  }
}
