/**
 * Advertising and scan-response payloads as defined in Bluetooth Core
 * Specification Vol 3, Part C, section 11: a sequence of AD structures, each
 * a Length octet followed by Length octets made of one AD type octet and the
 * AD data. The AD types and Flags bits used are those of the Core
 * Specification Supplement, Part A, sections 1.2 (Local Name) and 1.3 (Flags).
 */
module Advertising {
  import opened Machine

  datatype AdStructure = AdStructure(adType: u8, data: seq<u8>)

  const AD_TYPE_FLAGS: u8 := 0x01
  const AD_TYPE_SHORTENED_LOCAL_NAME: u8 := 0x08
  const AD_TYPE_COMPLETE_LOCAL_NAME: u8 := 0x09

  // Flags bits (Supplement, Part A, 1.3.2)
  const FLAG_LE_LIMITED_DISCOVERABLE: bv8 := 0x01
  const FLAG_LE_GENERAL_DISCOVERABLE: bv8 := 0x02
  const FLAG_BR_EDR_NOT_SUPPORTED: bv8 := 0x04

  /** Largest legacy advertising or scan-response payload, in octets. */
  const MAX_LEGACY_PAYLOAD: nat := 31

  /** The Length octet counts the AD type octet and the data, and must fit one octet. */
  predicate Encodable(ads: seq<AdStructure>) {
    forall i :: 0 <= i < |ads| ==> |ads[i].data| < 0xFF
  }

  function Encode(ads: seq<AdStructure>): (b: seq<u8>)
    requires Encodable(ads)
  {
    if ads == [] then []
    else [|ads[0].data| + 1, ads[0].adType] + ads[0].data + Encode(ads[1..])
  }

  /**
   * Splits a payload that AD structures fill exactly. A zero Length octet
   * (the standard's early terminator) or a structure running past the end
   * makes the payload malformed.
   */
  function Parse(b: seq<u8>): (r: Option<seq<AdStructure>>)
    ensures r.Some? ==> Encodable(r.value)
    decreases |b|
  {
    if b == [] then Some([])
    else if b[0] == 0 || b[0] >= |b| then None
    else match Parse(b[b[0] + 1..])
      case None => None
      case Some(rest) => Some([AdStructure(b[1], b[2..b[0] + 1])] + rest)
  }

  /** Parsing an encoded sequence of AD structures gives that sequence back. */
  lemma {:induction false} ParseEncode(ads: seq<AdStructure>)
    requires Encodable(ads)
    ensures Parse(Encode(ads)) == Some(ads)
  {
    if ads != [] {
      var b := Encode(ads);
      var head := [|ads[0].data| + 1, ads[0].adType] + ads[0].data;
      assert b == head + Encode(ads[1..]);
      assert b[b[0] + 1..] == Encode(ads[1..]);
      assert b[2..b[0] + 1] == ads[0].data;
      ParseEncode(ads[1..]);
      assert [ads[0]] + ads[1..] == ads;
    }
  }

  /** A payload that parses is exactly the encoding of what it parses to. */
  lemma {:induction false} EncodeParse(b: seq<u8>)
    requires Parse(b).Some?
    ensures Encode(Parse(b).value) == b
    decreases |b|
  {
    if b != [] {
      var rest := b[b[0] + 1..];
      EncodeParse(rest);
      var ads := Parse(b).value;
      assert ads[1..] == Parse(rest).value;
      assert b == [b[0], b[1]] + b[2..b[0] + 1] + rest;
    }
  }

  /** Structure `i` is the first of type `adType`. */
  predicate FirstOfType(ads: seq<AdStructure>, adType: u8, i: int) {
    0 <= i < |ads| && ads[i].adType == adType && forall j :: 0 <= j < i ==> ads[j].adType != adType
  }

  /**
   * What a scanner reads for AD type `adType`: the AD data of the first
   * structure of that type, or None when the payload has none.
   */
  function Field(ads: seq<AdStructure>, adType: u8): (r: Option<seq<u8>>)
    ensures r.Some? <==> exists i :: 0 <= i < |ads| && ads[i].adType == adType
    ensures r.Some? ==> exists i :: FirstOfType(ads, adType, i) && ads[i].data == r.value
  {
    if ads == [] then None
    else if ads[0].adType == adType then
      assert FirstOfType(ads, adType, 0);
      Some(ads[0].data)
    else
      var r := Field(ads[1..], adType);
      if r.Some? then
        var i :| FirstOfType(ads[1..], adType, i) && ads[1..][i].data == r.value;
        assert FirstOfType(ads, adType, i + 1);
        r
      else
        assert forall i :: 0 <= i < |ads[1..]| ==> ads[1..][i] == ads[i + 1];
        r
  }

  /**
   * A shortened local name consists of leading characters of the complete
   * local name (Supplement, Part A, 1.2.2).
   */
  predicate IsShortenedNameOf(short: seq<u8>, complete: seq<u8>) {
    |short| <= |complete| && short == complete[..|short|]
  }
}
