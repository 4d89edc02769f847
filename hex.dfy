/**
 * Base16 ("hex") encoding of byte strings, as section 8 of RFC 4648 defines it
 * and as Go's encoding/hex implements it: decoding accepts upper- and
 * lower-case digits, encoding emits lower case.
 */
module Hex {
  import opened Wrappers

  newtype byte = x: int | 0 <= x < 256

  /** The two errors hex.DecodeString can return. */
  datatype HexError =
    | InvalidByte(b: byte)   // "encoding/hex: invalid byte"
    | ErrLength              // "encoding/hex: odd length hex string"

  predicate IsHexDigit(c: byte)
  {
    (0x30 <= c <= 0x39) || (0x61 <= c <= 0x66) || (0x41 <= c <= 0x46)
  }

  predicate AllHex(h: seq<byte>)
  {
    forall i :: 0 <= i < |h| ==> IsHexDigit(h[i])
  }

  /** What a hex string must look like for decoding to succeed. */
  predicate ValidHex(h: seq<byte>)
  {
    |h| % 2 == 0 && AllHex(h)
  }

  function DigitValue(c: byte): (v: int)
    requires IsHexDigit(c)
    ensures 0 <= v < 16
  {
    if c <= 0x39 then c as int - 0x30
    else if c >= 0x61 then c as int - 0x61 + 10
    else c as int - 0x41 + 10
  }

  /** The digit for nibble `v`, lower case unless `upper`. */
  function Digit(v: int, upper: bool): (c: byte)
    requires 0 <= v < 16
    ensures IsHexDigit(c) && DigitValue(c) == v
  {
    if v < 10 then (0x30 + v) as byte
    else if upper then (0x41 + v - 10) as byte
    else (0x61 + v - 10) as byte
  }

  /** ASCII lower-casing of one byte. */
  function LowerByte(c: byte): byte
  {
    if 0x41 <= c <= 0x5A then c + 0x20 else c
  }

  function LowerBytes(h: seq<byte>): (r: seq<byte>)
    ensures |r| == |h|
    ensures forall i :: 0 <= i < |h| ==> r[i] == LowerByte(h[i])
  {
    if h == [] then [] else [LowerByte(h[0])] + LowerBytes(h[1..])
  }

  /**
   * hex.DecodeString: pairs are scanned left to right and the first byte that
   * is not a hex digit is reported; a well-formed string of odd length ends
   * in ErrLength.
   */
  function Decode(h: seq<byte>): (r: Result<seq<byte>, HexError>)
    ensures r.Ok? ==> 2 * |r.value| == |h|
    ensures r == Err(ErrLength) ==> |h| % 2 == 1
    ensures r.Err? && r.error.InvalidByte? ==> r.error.b in h && !IsHexDigit(r.error.b)
  {
    if |h| == 0 then Ok([])
    else if !IsHexDigit(h[0]) then Err(InvalidByte(h[0]))
    else if |h| == 1 then Err(ErrLength)
    else if !IsHexDigit(h[1]) then Err(InvalidByte(h[1]))
    else
      match Decode(h[2..])
      case Err(e) => Err(e)
      case Ok(rest) => Ok([(DigitValue(h[0]) * 16 + DigitValue(h[1])) as byte] + rest)
  }

  /** hex.EncodeToString (lower case), or its upper-case variant. */
  function Encode(s: seq<byte>, upper: bool): (h: seq<byte>)
    ensures |h| == 2 * |s|
  {
    if s == [] then []
    else [Digit(s[0] as int / 16, upper), Digit(s[0] as int % 16, upper)] + Encode(s[1..], upper)
  }

  /** Index of the first byte of `h` that is not a hex digit. */
  function FirstNonHex(h: seq<byte>): (i: nat)
    requires !AllHex(h)
    ensures i < |h| && !IsHexDigit(h[i]) && AllHex(h[..i])
  {
    if !IsHexDigit(h[0]) then 0
    else
      var j := FirstNonHex(h[1..]);
      assert h[..j + 1] == [h[0]] + h[1..][..j];
      j + 1
  }

  /** Decoding succeeds exactly on even-length all-digit input, halving its length. */
  lemma {:induction false} DecodeAccepts(h: seq<byte>)
    ensures Decode(h).Ok? <==> ValidHex(h)
    ensures Decode(h).Ok? ==> 2 * |Decode(h).value| == |h|
  {
    if |h| >= 2 && IsHexDigit(h[0]) && IsHexDigit(h[1]) {
      DecodeAccepts(h[2..]);
      assert ValidHex(h) <==> ValidHex(h[2..]) by {
        assert forall i :: 2 <= i < |h| ==> h[i] == h[2..][i - 2];
      }
    }
  }

  /** Which error decoding reports: the first bad byte, otherwise ErrLength. */
  lemma {:induction false} DecodeRejects(h: seq<byte>)
    ensures !AllHex(h) ==> Decode(h) == Err(InvalidByte(h[FirstNonHex(h)]))
    ensures AllHex(h) && |h| % 2 == 1 ==> Decode(h) == Err(ErrLength)
  {
    if |h| >= 2 && IsHexDigit(h[0]) && IsHexDigit(h[1]) {
      DecodeRejects(h[2..]);
      if !AllHex(h) {
        assert !AllHex(h[2..]) by {
          var k := FirstNonHex(h);
          assert h[2..][k - 2] == h[k];
        }
      } else if |h| % 2 == 1 {
        assert AllHex(h[2..]) by {
          forall k | 0 <= k < |h| - 2 ensures IsHexDigit(h[2..][k]) {
            assert h[2..][k] == h[k + 2];
          }
        }
      }
    }
  }

  /** Round trip: decoding an encoding, in either case, gives back the bytes. */
  lemma {:induction false} DecodeEncode(s: seq<byte>, upper: bool)
    ensures Decode(Encode(s, upper)) == Ok(s)
  {
    if s != [] {
      var h := Encode(s, upper);
      assert h[2..] == Encode(s[1..], upper);
      DecodeEncode(s[1..], upper);
      assert DigitValue(h[0]) * 16 + DigitValue(h[1]) == s[0] as int;
      assert [s[0]] + s[1..] == s;
    }
  }

  /** Upper-case hex decodes to the same bytes as lower-case hex. */
  lemma UpperDecodesAsLower(s: seq<byte>)
    ensures Decode(Encode(s, true)) == Decode(Encode(s, false))
  {
    DecodeEncode(s, true);
    DecodeEncode(s, false);
  }

  lemma DigitOfValue(c: byte)
    requires IsHexDigit(c)
    ensures Digit(DigitValue(c), false) == LowerByte(c)
    ensures IsHexDigit(LowerByte(c)) && DigitValue(LowerByte(c)) == DigitValue(c)
  {
  }

  /** The other direction of the round trip: re-encoding decoded input gives its lower-cased form. */
  lemma {:induction false} EncodeDecode(h: seq<byte>)
    requires Decode(h).Ok?
    ensures Encode(Decode(h).value, false) == LowerBytes(h)
  {
    if |h| > 0 {
      var s := Decode(h).value;
      EncodeDecode(h[2..]);
      DigitOfValue(h[0]);
      DigitOfValue(h[1]);
      var b := DigitValue(h[0]) * 16 + DigitValue(h[1]);
      assert s[0] as int == b && s[1..] == Decode(h[2..]).value;
      assert b / 16 == DigitValue(h[0]) && b % 16 == DigitValue(h[1]);
      assert LowerBytes(h) == [LowerByte(h[0]), LowerByte(h[1])] + LowerBytes(h[2..]);
    }
  }

  /** Decoding ignores the case of the digits. */
  lemma {:induction false} DecodeIgnoresCase(h: seq<byte>)
    ensures Decode(LowerBytes(h)).Ok? <==> Decode(h).Ok?
    ensures Decode(h).Ok? ==> Decode(LowerBytes(h)) == Decode(h)
  {
    var l := LowerBytes(h);
    if |h| >= 2 && IsHexDigit(h[0]) && IsHexDigit(h[1]) {
      DigitOfValue(h[0]);
      DigitOfValue(h[1]);
      assert l[2..] == LowerBytes(h[2..]);
      DecodeIgnoresCase(h[2..]);
    } else if |h| >= 1 && !IsHexDigit(h[0]) {
      assert !IsHexDigit(l[0]);
    } else if |h| >= 2 {
      DigitOfValue(h[0]);
      assert !IsHexDigit(l[1]);
    }
  }
}
