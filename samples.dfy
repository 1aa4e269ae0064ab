/** runner.go's bytesToSamples: little-endian 16-bit PCM samples from the
    bytes an io.Writer or io.Reader hands the runner. */
module PcmSamples {
  import opened GoNumeric

  /** int16(lo) + int16(hi) << 8 with Go's int16 wrap-around. */
  function SampleOf(lo: byte, hi: byte): (r: int16)
    ensures r as int == if hi < 0x80 then lo as int + 0x100 * hi as int else lo as int + 0x100 * hi as int - 0x1_0000
  {
    var shifted := Wrap16(hi as int * 0x100);
    assert hi >= 0x80 ==> shifted as int == hi as int * 0x100 - 0x1_0000 by {
      if hi >= 0x80 {
        Wrap16Above(hi as int * 0x100);
      }
    }
    Wrap16(lo as int + shifted as int)
  }

  /** Little-endian 16-bit samples of a byte slice; a trailing odd byte is ignored. */
  function DecodeSamples(b: seq<byte>): (r: seq<int16>)
    ensures |r| == |b| / 2
  {
    seq(|b| / 2, i requires 0 <= i < |b| / 2 => SampleOf(b[2 * i], b[2 * i + 1]))
  }

  /** The two's-complement little-endian bytes of one sample. */
  function EncodeSample(x: int16): (r: seq<byte>)
    ensures |r| == 2
  {
    var u := x as int % 0x1_0000;
    [(u % 0x100) as byte, (u / 0x100) as byte]
  }

  function EncodeSamples(s: seq<int16>): (r: seq<byte>)
    ensures |r| == 2 * |s|
  {
    if s == [] then [] else EncodeSamples(s[..|s| - 1]) + EncodeSample(s[|s| - 1])
  }

  /** Decoding a sample's two bytes gives the sample back. */
  lemma SampleRoundTrip(x: int16)
    ensures SampleOf(EncodeSample(x)[0], EncodeSample(x)[1]) == x
  {
    var u := x as int % 0x1_0000;
    var lo, hi := u % 0x100, u / 0x100;
    assert lo + 0x100 * hi == u;
    assert x >= 0 ==> u == x as int;
    assert x < 0 ==> u == x as int + 0x1_0000;
  }

  /** bytesToSamples inverts the little-endian encoding of any sample slice. */
  lemma {:induction false} DecodeEncode(s: seq<int16>)
    ensures DecodeSamples(EncodeSamples(s)) == s
  {
    if s != [] {
      var init := s[..|s| - 1];
      var b := EncodeSamples(s);
      DecodeEncode(init);
      forall i | 0 <= i < |s|
        ensures DecodeSamples(b)[i] == s[i]
      {
        assert b == EncodeSamples(init) + EncodeSample(s[|s| - 1]);
        if i < |s| - 1 {
          assert b[2 * i] == EncodeSamples(init)[2 * i];
          assert b[2 * i + 1] == EncodeSamples(init)[2 * i + 1];
          assert DecodeSamples(EncodeSamples(init))[i] == init[i];
        } else {
          assert b[2 * i] == EncodeSample(s[i])[0];
          assert b[2 * i + 1] == EncodeSample(s[i])[1];
          SampleRoundTrip(s[i]);
        }
      }
    }
  }

  /** An odd trailing byte never reaches the samples. */
  lemma TrailingByteIgnored(b: seq<byte>, extra: byte)
    requires |b| % 2 == 0
    ensures DecodeSamples(b + [extra]) == DecodeSamples(b)
  {
    var r := DecodeSamples(b + [extra]);
    forall i | 0 <= i < |b| / 2
      ensures r[i] == DecodeSamples(b)[i]
    {
      assert (b + [extra])[2 * i] == b[2 * i];
      assert (b + [extra])[2 * i + 1] == b[2 * i + 1];
    }
  }

  /** bytesToSamples. */
  method BytesToSamples(b: seq<byte>) returns (samples: seq<int16>)
    ensures samples == DecodeSamples(b)
  {
    var readable := |b| / 2;
    var out := new int16[readable];
    for i := 0 to readable
      invariant forall j :: 0 <= j < i ==> out[j] == SampleOf(b[2 * j], b[2 * j + 1])
    {
      out[i] := Wrap16(b[i * 2] as int + Wrap16(b[i * 2 + 1] as int * 0x100) as int);
    }
    samples := out[..];
  }
}
