/**
 * The integer half of the speech-output decoder in App.tsx: `decode` turns
 * the binary string `atob` returns into bytes, and `decodeAudioData` views
 * those bytes as little-endian signed 16-bit mono samples.
 */
module Pcm {
  import opened Types

  /** An element of a `Uint8Array`. */
  type Byte = b: int | 0 <= b < 256

  /** Two little-endian bytes read as one signed 16-bit sample. */
  function Int16(lo: Byte, hi: Byte): (x: int)
    ensures -32768 <= x < 32768
  {
    var u := lo + 256 * hi;
    if u < 32768 then u else u - 65536
  }

  /** The low byte of a sample's two's-complement form. */
  function LowByte(x: int): Byte
    requires -32768 <= x < 32768
  {
    (x + 65536) % 256
  }

  /** The high byte of a sample's two's-complement form. */
  function HighByte(x: int): Byte
    requires -32768 <= x < 32768
  {
    (x + 65536) % 65536 / 256
  }

  /** Every 16-bit sample is read back from its two bytes. */
  lemma Int16OfBytes(x: int)
    requires -32768 <= x < 32768
    ensures Int16(LowByte(x), HighByte(x)) == x
  {
    var u := if x < 0 then x + 65536 else x;
    assert (x + 65536) % 65536 == u;
    assert (x + 65536) % 256 == u % 256;
    assert u == u % 256 + 256 * (u / 256);
  }

  /** Reading is injective: a sample determines the two bytes it came from. */
  lemma BytesOfInt16(lo: Byte, hi: Byte)
    ensures LowByte(Int16(lo, hi)) == lo && HighByte(Int16(lo, hi)) == hi
  {
    var u := lo + 256 * hi;
    assert (Int16(lo, hi) + 65536) % 65536 == u;
    assert (Int16(lo, hi) + 65536) % 256 == u % 256;
    assert u % 256 == lo && u / 256 == hi;
  }

  /** The samples of `new Int16Array(buffer)` over an even number of bytes, in order. */
  function Samples(bytes: seq<Byte>): (s: seq<int>)
    ensures |s| == |bytes| / 2
    ensures forall i | 0 <= i < |s| :: s[i] == Int16(bytes[2 * i], bytes[2 * i + 1])
  {
    if |bytes| < 2 then []
    else [Int16(bytes[0], bytes[1])] + Samples(bytes[2..])
  }

  /**
   * The sample loop of `decodeAudioData` (one channel). It fails where the
   * runtime throws: `new Int16Array` on an odd byte length, and
   * `createBuffer` for zero frames.
   */
  method DecodeAudioData(data: seq<Byte>) returns (frames: Option<array<int>>)
    ensures frames.None? <==> |data| % 2 == 1 || |data| == 0
    ensures frames.Some? ==> frames.value[..] == Samples(data)
  {
    if |data| % 2 == 1 || |data| == 0 {
      return None;
    }
    var frameCount := |data| / 2;
    var channelData := new int[frameCount];
    for i := 0 to frameCount
      invariant forall k | 0 <= k < i :: channelData[k] == Int16(data[2 * k], data[2 * k + 1])
    {
      channelData[i] := Int16(data[2 * i], data[2 * i + 1]);
    }
    return Some(channelData);
  }

  /** The byte each character of a binary string is stored as by a `Uint8Array` (modulo 256). */
  function ByteOf(c: char): Byte
  {
    c as int % 256
  }

  /** The loop of `decode`: one byte per character, in order. */
  method DecodeBinaryString(binary: string) returns (bytes: array<Byte>)
    ensures bytes.Length == |binary|
    ensures forall i | 0 <= i < |binary| :: bytes[i] == ByteOf(binary[i])
  {
    bytes := new Byte[|binary|];
    for i := 0 to |binary|
      invariant forall k | 0 <= k < i :: bytes[k] == ByteOf(binary[k])
    {
      bytes[i] := ByteOf(binary[i]);
    }
  }

  /** The binary string `atob` produces for a byte payload: one character per byte. */
  function BinaryString(bytes: seq<Byte>): (s: string)
    ensures |s| == |bytes|
    ensures forall i | 0 <= i < |s| :: s[i] as int < 256
  {
    seq(|bytes|, i requires 0 <= i < |bytes| => bytes[i] as char)
  }

  /** Decoding the binary string of a payload gives back the payload's bytes. */
  lemma DecodeRecoversBytes(bytes: seq<Byte>)
    ensures forall i | 0 <= i < |bytes| :: ByteOf(BinaryString(bytes)[i]) == bytes[i]
  {
    forall i | 0 <= i < |bytes| ensures ByteOf(BinaryString(bytes)[i]) == bytes[i] {
      assert BinaryString(bytes)[i] as int == bytes[i];
    }
  }

  /** A four-byte payload holding the extreme samples 32767 and -32768. */
  lemma ExtremeSamples()
    ensures Samples([0xFF, 0x7F, 0x00, 0x80]) == [32767, -32768]
  {
    var bytes: seq<Byte> := [0xFF, 0x7F, 0x00, 0x80];
    assert bytes[2..][2..] == [];
    assert Samples(bytes) == [Int16(0xFF, 0x7F), Int16(0x00, 0x80)];
  }
}
