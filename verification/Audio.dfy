/** Bytes, 16-bit samples and the saturated mixing step (asterisk/utils.h). */
module Audio {

  type byte = x: int | 0 <= x < 256
  type short = x: int | -32768 <= x < 32768

  function Distance(a: int, b: int): nat {
    if a < b then b - a else a - b
  }

  function SaturatedAdd(input: short, value: short): (r: short)
    ensures input == 0 ==> r == value
  {
    var res := input + value;
    if res > 32767 then 32767 else if res < -32768 then -32768 else res
  }

  /** Mixing gives the 16-bit sample nearest the sum. */
  lemma NearestToSum(input: short, value: short, other: short)
    ensures Distance(SaturatedAdd(input, value), input + value) <= Distance(other, input + value)
    ensures Distance(SaturatedAdd(input, value), input + value) == Distance(other, input + value)
       ==> other == SaturatedAdd(input, value)
    ensures input == 0 ==> SaturatedAdd(input, value) == value
  {
  }

  function Min(a: nat, b: nat): nat {
    if a < b then a else b
  }

  function Silence(n: nat): (r: seq<short>)
    ensures |r| == n
  {
    seq(n, i => 0)
  }

  /** A little-endian 16-bit sample read from two bytes. */
  function SampleOf(low: byte, high: byte): short {
    var u := low + 256 * high;
    if u < 32768 then u else u - 65536
  }

  /** The low byte comes first. */
  lemma LittleEndian(low: byte, high: byte)
    ensures (SampleOf(low, high) - low) % 256 == 0 && (SampleOf(low, high) - low) / 256 % 256 == high
  {
  }

  function LowByte(s: short): byte { s % 256 }

  function HighByte(s: short): byte { s / 256 % 256 }

  function ToSamples(bytes: seq<byte>): (r: seq<short>)
    ensures |r| == |bytes| / 2
  {
    seq(|bytes| / 2, i requires 0 <= i < |bytes| / 2 => SampleOf(bytes[2 * i], bytes[2 * i + 1]))
  }

  function ToBytes(samples: seq<short>): (r: seq<byte>)
    ensures |r| == 2 * |samples|
  {
    seq(2 * |samples|, i requires 0 <= i < 2 * |samples| =>
      if i % 2 == 0 then LowByte(samples[i / 2]) else HighByte(samples[i / 2]))
  }

  lemma SampleRoundTrip(low: byte, high: byte)
    ensures LowByte(SampleOf(low, high)) == low
    ensures HighByte(SampleOf(low, high)) == high
  {
    var u := low + 256 * high;
    assert u % 256 == low && u / 256 == high;
    if u >= 32768 {
      assert u - 65536 == low + 256 * (high - 256);
      assert (u - 65536) / 256 == high - 256;
    }
  }

  /** Reading byte pairs as samples loses nothing but the odd last byte. */
  lemma BytesRoundTrip(bytes: seq<byte>)
    requires |bytes| % 2 == 0
    ensures ToBytes(ToSamples(bytes)) == bytes
  {
    forall i | 0 <= i < |bytes|
      ensures ToBytes(ToSamples(bytes))[i] == bytes[i]
    {
      var k := i / 2;
      SampleRoundTrip(bytes[2 * k], bytes[2 * k + 1]);
      assert ToSamples(bytes)[k] == SampleOf(bytes[2 * k], bytes[2 * k + 1]);
    }
  }

  lemma WholeSamples(s: short)
    ensures SampleOf(LowByte(s), HighByte(s)) == s
  {
    assert s == s / 256 * 256 + s % 256;
  }

  /** Bytes that begin with some samples are read as beginning with those samples. */
  lemma SamplesPrefix(samples: seq<short>, bytes: seq<byte>)
    requires ToBytes(samples) <= bytes
    ensures samples <= ToSamples(bytes)
  {
    forall i | 0 <= i < |samples|
      ensures ToSamples(bytes)[i] == samples[i]
    {
      assert ToBytes(samples)[2 * i] == bytes[2 * i] && ToBytes(samples)[2 * i + 1] == bytes[2 * i + 1];
      WholeSamples(samples[i]);
    }
  }

  /** An odd byte behind whole samples is not read. */
  lemma SamplesRoundTrip(samples: seq<short>, tail: seq<byte>)
    requires |tail| <= 1
    ensures ToSamples(ToBytes(samples) + tail) == samples
  {
    SamplesPrefix(samples, ToBytes(samples) + tail);
  }

  lemma ToBytesConcat(a: seq<short>, b: seq<short>)
    ensures ToBytes(a + b) == ToBytes(a) + ToBytes(b)
  {
  }

  lemma Join<T>(a: seq<T>, b: seq<T>, c: seq<T>)
    ensures a + b + c == a + (b + c)
  {
  }

  lemma NothingAdded<T>(a: seq<T>)
    ensures a + [] == a
  {
  }
}
