/**
 * Base16 decoding as the hex crate performs it (the alphabet of section 8 of
 * RFC 4648, accepting both letter cases, with no "0x" prefix), and the
 * lower-case encoding that is its inverse.
 */
module Hex {
  import opened Wrappers
  import opened Amounts

  predicate IsHexDigit(c: char) {
    '0' <= c <= '9' || 'a' <= c <= 'f' || 'A' <= c <= 'F'
  }

  function DigitValue(c: char): (v: nat)
    requires IsHexDigit(c)
    ensures v < 16
  {
    if '0' <= c <= '9' then c as nat - '0' as nat
    else if 'a' <= c <= 'f' then c as nat - 'a' as nat + 10
    else c as nat - 'A' as nat + 10
  }

  /** Even length and nothing but hex digits. */
  predicate IsValidHex(s: string) {
    |s| % 2 == 0 && forall i :: 0 <= i < |s| ==> IsHexDigit(s[i])
  }

  /** The byte written by the two hex digits c and d, high nibble first. */
  function PairValue(c: char, d: char): (b: Byte)
    requires IsHexDigit(c) && IsHexDigit(d)
  {
    16 * DigitValue(c) + DigitValue(d)
  }

  /** hex::decode: fails on an odd length or on any character outside the alphabet. */
  function Decode(s: string): (r: Option<seq<Byte>>)
    ensures r.Some? <==> IsValidHex(s)
    ensures r.Some? ==> |r.value| == |s| / 2
    decreases |s|
  {
    if |s| == 0 then Some([])
    else if |s| == 1 || !IsHexDigit(s[0]) || !IsHexDigit(s[1]) then None
    else
      assert IsValidHex(s) <==> IsValidHex(s[2..]) by {
        if IsValidHex(s[2..]) {
          forall i | 2 <= i < |s| ensures IsHexDigit(s[i]) {
            assert s[i] == s[2..][i - 2];
          }
        }
      }
      match Decode(s[2..])
      case None => None
      case Some(rest) => Some([PairValue(s[0], s[1])] + rest)
  }

  /** Byte k of a successful decoding is the value of characters 2k and 2k+1. */
  lemma {:induction false} DecodeAt(s: string, k: nat)
    requires IsValidHex(s) && k < |s| / 2
    ensures Decode(s).Some? && k < |Decode(s).value|
    ensures Decode(s).value[k] == PairValue(s[2 * k], s[2 * k + 1])
    decreases |s|
  {
    if k > 0 {
      var t := s[2..];
      assert IsValidHex(t) by {
        forall i | 0 <= i < |t| ensures IsHexDigit(t[i]) { assert t[i] == s[i + 2]; }
      }
      DecodeAt(t, k - 1);
      assert t[2 * (k - 1)] == s[2 * k] && t[2 * (k - 1) + 1] == s[2 * k + 1];
    }
  }

  function LowerDigit(v: nat): (c: char)
    requires v < 16
    ensures IsHexDigit(c) && DigitValue(c) == v
  {
    if v < 10 then ('0' as nat + v) as char else ('a' as nat + v - 10) as char
  }

  /** hex::encode: two lower-case digits per byte, high nibble first. */
  function Encode(bytes: seq<Byte>): (s: string)
    ensures |s| == 2 * |bytes|
  {
    if bytes == [] then [] else [LowerDigit(bytes[0] / 16), LowerDigit(bytes[0] % 16)] + Encode(bytes[1..])
  }

  /** Decoding what was encoded gives back the original bytes. */
  lemma {:induction false} DecodeEncode(bytes: seq<Byte>)
    ensures Decode(Encode(bytes)) == Some(bytes)
  {
    if bytes != [] {
      DecodeEncode(bytes[1..]);
      var s := Encode(bytes);
      assert s[2..] == Encode(bytes[1..]);
      assert PairValue(s[0], s[1]) == bytes[0];
      assert [bytes[0]] + bytes[1..] == bytes;
    }
  }

  /** A "0x"-prefixed string is rejected: the prefix is not part of the alphabet. */
  lemma PrefixedIsRejected(s: string)
    requires |s| >= 2 && s[0] == '0' && s[1] == 'x'
    ensures Decode(s) == None
  {
    assert !IsHexDigit(s[1]);
  }

  /** Only the empty string decodes to no bytes. */
  lemma DecodesToEmptyIffEmpty(s: string)
    requires Decode(s).Some?
    ensures Decode(s).value == [] <==> s == []
  {
  }
}
