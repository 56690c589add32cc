/** The clip post-processing and WAV serialiser used when a recording is
    stored: a 20 ms fade at both ends applied in place to the decoded
    channels, then the canonical 44-byte RIFF/WAVE PCM header (a 16-byte
    `fmt ` chunk with format tag 1 and 16 bits per sample, then a `data`
    chunk, as in the WAVE form of the Microsoft/IBM Multimedia Programming
    Interface and Data Specifications 1.0) followed by little-endian 16-bit
    samples. */
module Wav {
  import opened Common

  const HEADER_SIZE: nat := 44
  const BIT_DEPTH: nat := 16
  const BYTES_PER_SAMPLE: nat := 2
  const FADE_SEC: real := 0.02
  const TWO_16: int := 0x1_0000
  const TWO_32: int := 0x1_0000_0000

  // ------------------------------------------------------------ bytes

  /** `setUint8` of each `charCodeAt`: one byte per UTF-16 code unit, modulo 256. */
  function Ascii(str: string): (b: seq<byte>)
    ensures |b| == |str|
    ensures forall i :: 0 <= i < |str| && str[i] as int < 256 ==> b[i] == str[i] as int
  {
    seq(|str|, i requires 0 <= i < |str| => (str[i] as int % 256) as byte)
  }

  /** The four bytes `setUint32(off, v, true)` writes: ToUint32(v), low byte first. */
  function LE32(v: int): (b: seq<byte>)
    ensures |b| == 4
  {
    var u := v % TWO_32;
    [u % 256, (u / 256) % 256, (u / 256 / 256) % 256, u / 256 / 256 / 256]
  }

  /** The two bytes `setUint16(off, v, true)` and `setInt16(off, v, true)`
      write: ToUint16(v), low byte first. */
  function LE16(v: int): (b: seq<byte>)
    ensures |b| == 2
  {
    var u := v % TWO_16;
    [u % 256, u / 256]
  }

  function ReadLE32(b: seq<byte>): nat
    requires |b| == 4
  {
    var b0: int, b1: int, b2: int, b3: int := b[0], b[1], b[2], b[3];
    b0 + 256 * (b1 + 256 * (b2 + 256 * b3))
  }

  function ReadLE16(b: seq<byte>): nat
    requires |b| == 2
  {
    var b0: int, b1: int := b[0], b[1];
    b0 + 256 * b1
  }

  /** `getInt16(off, true)`. */
  function ReadInt16(b: seq<byte>): int
    requires |b| == 2
  {
    var u := ReadLE16(b);
    if u >= 0x8000 then u - TWO_16 else u
  }

  /** Splitting off the low byte of lo + 256 * hi gives back lo and hi. */
  lemma ByteSplit(lo: int, hi: int)
    requires 0 <= lo < 256
    ensures (lo + 256 * hi) % 256 == lo && (lo + 256 * hi) / 256 == hi
  {
  }

  lemma LE32RoundTrip(v: int)
    ensures ReadLE32(LE32(v)) == v % TWO_32
    ensures 0 <= v < TWO_32 ==> ReadLE32(LE32(v)) == v
  {
    var u := v % TWO_32;
    var q1 := u / 256;
    var q2 := q1 / 256;
    var q3 := q2 / 256;
    assert u == u % 256 + 256 * q1;
    assert q1 == q1 % 256 + 256 * q2;
    assert q2 == q2 % 256 + 256 * q3;
    assert 0 <= q3 < 256;
  }

  lemma LE32Inverse(b: seq<byte>)
    requires |b| == 4
    ensures LE32(ReadLE32(b)) == b
  {
    var b0: int, b1: int, b2: int, b3: int := b[0], b[1], b[2], b[3];
    var x2 := b2 + 256 * b3;
    var x1 := b1 + 256 * x2;
    var u := b0 + 256 * x1;
    assert 0 <= x2 < 0x1_0000;
    assert 0 <= x1 < 0x100_0000;
    assert 0 <= u < TWO_32;
    ByteSplit(b0, x1);
    ByteSplit(b1, x2);
    ByteSplit(b2, b3);
    assert u % TWO_32 == u;
  }

  lemma LE16RoundTrip(v: int)
    ensures ReadLE16(LE16(v)) == v % TWO_16
    ensures -0x8000 <= v < 0x8000 ==> ReadInt16(LE16(v)) == v
  {
  }

  lemma LE16Inverse(b: seq<byte>)
    requires |b| == 2
    ensures LE16(ReadLE16(b)) == b
    ensures LE16(ReadInt16(b)) == b
  {
    var b0: int, b1: int := b[0], b[1];
    var u := b0 + 256 * b1;
    assert 0 <= u < TWO_16;
    ByteSplit(b0, b1);
    assert u % TWO_16 == u;
    assert (u - TWO_16) % TWO_16 == u;
  }

  // ------------------------------------------------------------ samples

  /** `Math.max(-1, Math.min(1, x))`. */
  function Clamp(x: real): (s: real)
    ensures -1.0 <= s <= 1.0
    ensures -1.0 <= x <= 1.0 ==> s == x
    ensures x > 1.0 ==> s == 1.0
    ensures x < -1.0 ==> s == -1.0
  {
    if x < -1.0 then -1.0 else if x > 1.0 then 1.0 else x
  }

  /** ToIntegerOrInfinity on a finite number: truncation toward zero. */
  function Trunc(x: real): (n: int)
    ensures x >= 0.0 ==> n as real <= x < n as real + 1.0
    ensures x < 0.0 ==> n as real - 1.0 < x <= n as real
  {
    if x >= 0.0 then x.Floor else -((-x).Floor)
  }

  function Times(x: real, k: real): real
  {
    x * k
  }

  /** The integer `setInt16` stores for sample x: clamped, scaled by 0x8000
      when negative and 0x7FFF otherwise, truncated toward zero. */
  function PcmSample(x: real): (v: int)
    ensures -0x8000 <= v <= 0x7FFF
    ensures x >= 0.0 ==> v >= 0
    ensures x <= 0.0 ==> v <= 0
    ensures x >= 1.0 ==> v == 0x7FFF
    ensures x <= -1.0 ==> v == -0x8000
  {
    var s := Clamp(x);
    ScaleBounds(s);
    Trunc(if s < 0.0 then Times(s, 32768.0) else Times(s, 32767.0))
  }

  lemma ScaleBounds(s: real)
    requires -1.0 <= s <= 1.0
    ensures s < 0.0 ==> -32768.0 <= Times(s, 32768.0) < 0.0
    ensures s == -1.0 ==> Times(s, 32768.0) == -32768.0
    ensures s >= 0.0 ==> 0.0 <= Times(s, 32767.0) <= 32767.0
    ensures s == 1.0 ==> Times(s, 32767.0) == 32767.0
  {
  }

  /** The encoding preserves order: a louder sample never gets a smaller
      integer. */
  lemma PcmMonotone(x: real, y: real)
    requires x <= y
    ensures PcmSample(x) <= PcmSample(y)
  {
    var sx, sy := Clamp(x), Clamp(y);
    assert sx <= sy;
    if sx < 0.0 && sy < 0.0 {
      MulMonotone(sx, sy, 32768.0);
    } else if sx >= 0.0 && sy >= 0.0 {
      MulMonotone(sx, sy, 32767.0);
    }
  }

  /** Each sample's two bytes read back as the encoded integer. */
  lemma PcmRoundTrip(x: real)
    ensures ReadInt16(LE16(PcmSample(x))) == PcmSample(x)
  {
    LE16RoundTrip(PcmSample(x));
  }

  // ------------------------------------------------------------ interleave

  /** `interleave(L, R)`: L[0], R[0], L[1], R[1], ... */
  function Interleaved(l: seq<real>, r: seq<real>): (out: seq<real>)
    requires |l| == |r|
    ensures |out| == |l| + |r|
    ensures forall i :: 0 <= i < |l| ==> out[2 * i] == l[i] && out[2 * i + 1] == r[i]
  {
    if l == [] then [] else Interleaved(l[..|l| - 1], r[..|r| - 1]) + [l[|l| - 1], r[|r| - 1]]
  }

  function Evens(s: seq<real>): (e: seq<real>)
    requires |s| % 2 == 0
    ensures |e| == |s| / 2
    ensures forall i :: 0 <= i < |e| ==> e[i] == s[2 * i]
  {
    seq(|s| / 2, i requires 0 <= i < |s| / 2 => s[2 * i])
  }

  function Odds(s: seq<real>): (o: seq<real>)
    requires |s| % 2 == 0
    ensures |o| == |s| / 2
    ensures forall i :: 0 <= i < |o| ==> o[i] == s[2 * i + 1]
  {
    seq(|s| / 2, i requires 0 <= i < |s| / 2 => s[2 * i + 1])
  }

  /** Interleaving loses nothing: the even positions are L and the odd
      positions are R. */
  lemma InterleaveSplits(l: seq<real>, r: seq<real>)
    requires |l| == |r|
    ensures Evens(Interleaved(l, r)) == l && Odds(Interleaved(l, r)) == r
  {
  }

  method Interleave(inputL: seq<real>, inputR: seq<real>) returns (result: array<real>)
    requires |inputL| == |inputR|
    ensures fresh(result)
    ensures result[..] == Interleaved(inputL, inputR)
  {
    var length := |inputL| + |inputR|;
    result := new real[length];
    var index, inputIndex := 0, 0;
    while index < length
      invariant index == 2 * inputIndex && index <= length
      invariant forall i :: 0 <= i < inputIndex ==> result[2 * i] == inputL[i] && result[2 * i + 1] == inputR[i]
    {
      result[index] := inputL[inputIndex];
      index := index + 1;
      result[index] := inputR[inputIndex];
      index := index + 1;
      inputIndex := inputIndex + 1;
    }
    EqualByIndex(result[..], Interleaved(inputL, inputR), |inputL|);
  }

  lemma EqualByIndex(a: seq<real>, b: seq<real>, n: nat)
    requires |a| == |b| == 2 * n
    requires forall i :: 0 <= i < n ==> a[2 * i] == b[2 * i] && a[2 * i + 1] == b[2 * i + 1]
    ensures a == b
  {
    forall k | 0 <= k < |a| ensures a[k] == b[k] {
      var i := k / 2;
      assert k == 2 * i || k == 2 * i + 1;
    }
  }

  // ------------------------------------------------------------ the file

  /** The samples written: the L/R interleave for two channels, otherwise
      channel 0 alone. */
  function Samples(buf: Buffer): (s: seq<real>)
    ensures |s| == (if |buf.channels| == 2 then 2 else 1) * buf.Length()
    ensures |buf.channels| == 2 ==> forall i :: 0 <= i < buf.Length() ==>
              s[2 * i] == buf.channels[0][i] && s[2 * i + 1] == buf.channels[1][i]
    ensures |buf.channels| != 2 ==> forall i :: 0 <= i < buf.Length() ==> s[i] == buf.channels[0][i]
  {
    if |buf.channels| == 2 then Interleaved(buf.channels[0], buf.channels[1]) else buf.channels[0]
  }

  /** `sampleRate * blockAlign`. */
  function ByteRate(sampleRate: nat, blockAlign: nat): nat
  {
    sampleRate * blockAlign
  }

  /** The 44 header bytes for the given channel count, rate and data size. */
  function Header(numOfChan: nat, sampleRate: nat, dataLen: nat): (h: seq<byte>)
    ensures |h| == HEADER_SIZE
  {
    var blockAlign := numOfChan * BYTES_PER_SAMPLE;
    Ascii("RIFF") + LE32(36 + dataLen) + Ascii("WAVE") + Ascii("fmt ")
    + LE32(16) + LE16(1) + LE16(numOfChan) + LE32(sampleRate)
    + LE32(ByteRate(sampleRate, blockAlign)) + LE16(blockAlign) + LE16(BIT_DEPTH)
    + Ascii("data") + LE32(dataLen)
  }

  /** The sample bytes: two per sample, in order. */
  function Body(s: seq<real>): (b: seq<byte>)
    ensures |b| == 2 * |s|
  {
    if s == [] then [] else Body(s[..|s| - 1]) + LE16(PcmSample(s[|s| - 1]))
  }

  /** Sample i sits at bytes 2i and 2i+1 of the body. */
  lemma {:induction false} BodyAt(s: seq<real>, i: nat)
    requires i < |s|
    ensures Body(s)[2 * i..2 * i + 2] == LE16(PcmSample(s[i]))
    decreases |s|
  {
    var p := s[..|s| - 1];
    if i < |s| - 1 {
      BodyAt(p, i);
      assert p[i] == s[i];
      assert Body(s)[2 * i..2 * i + 2] == Body(p)[2 * i..2 * i + 2];
    }
  }

  /** `audioBufferToWavBlob(buf)`, as bytes. */
  function WavSpec(buf: Buffer): (w: seq<byte>)
    ensures |w| == HEADER_SIZE + 2 * |Samples(buf)|
  {
    var s := Samples(buf);
    Header(|buf.channels|, buf.sampleRate, 2 * |s|) + Body(s)
  }

  /** Each field of the header sits at its fixed offset. */
  lemma HeaderLayout(n: nat, rate: nat, dataLen: nat)
    ensures var h := Header(n, rate, dataLen);
            && h[0..4] == Ascii("RIFF") && h[4..8] == LE32(36 + dataLen)
            && h[8..12] == Ascii("WAVE") && h[12..16] == Ascii("fmt ")
            && h[16..20] == LE32(16) && h[20..22] == LE16(1) && h[22..24] == LE16(n)
            && h[24..28] == LE32(rate) && h[28..32] == LE32(ByteRate(rate, 2 * n))
            && h[32..34] == LE16(2 * n) && h[34..36] == LE16(16)
            && h[36..40] == Ascii("data") && h[40..44] == LE32(dataLen)
  {
    var p7 := Ascii("RIFF") + LE32(36 + dataLen) + Ascii("WAVE") + Ascii("fmt ")
              + LE32(16) + LE16(1) + LE16(n);
    FrontLayout(n, dataLen);
    var p8 := p7 + LE32(rate);
    var p9 := p8 + LE32(ByteRate(rate, 2 * n));
    var p10 := p9 + LE16(2 * n);
    var p11 := p10 + LE16(16);
    var p12 := p11 + Ascii("data");
    var h := p12 + LE32(dataLen);
    assert h == Header(n, rate, dataLen);
    assert h[40..44] == LE32(dataLen);
    assert h[..40] == p12 && p12[36..40] == Ascii("data");
    assert h[..36] == p11 && p11[34..36] == LE16(16);
    assert h[..34] == p10 && p10[32..34] == LE16(2 * n);
    assert h[..32] == p9 && p9[28..32] == LE32(ByteRate(rate, 2 * n));
    assert h[..28] == p8 && p8[24..28] == LE32(rate);
    assert h[..24] == p7;
    assert forall a, b :: 0 <= a <= b <= 24 ==> h[a..b] == p7[a..b];
  }

  /** The RIFF chunk header and the first fields of the `fmt ` chunk sit at
      their fixed offsets. */
  lemma FrontLayout(n: nat, dataLen: nat)
    ensures var p7 := Ascii("RIFF") + LE32(36 + dataLen) + Ascii("WAVE") + Ascii("fmt ")
                      + LE32(16) + LE16(1) + LE16(n);
            && |p7| == 24
            && p7[0..4] == Ascii("RIFF") && p7[4..8] == LE32(36 + dataLen)
            && p7[8..12] == Ascii("WAVE") && p7[12..16] == Ascii("fmt ")
            && p7[16..20] == LE32(16) && p7[20..22] == LE16(1) && p7[22..24] == LE16(n)
  {
    var p1 := Ascii("RIFF");
    var p2 := p1 + LE32(36 + dataLen);
    var p3 := p2 + Ascii("WAVE");
    var p4 := p3 + Ascii("fmt ");
    var p5 := p4 + LE32(16);
    var p6 := p5 + LE16(1);
    var p7 := p6 + LE16(n);
    assert p7[22..24] == LE16(n);
    assert p7[..22] == p6 && p6[20..22] == LE16(1);
    assert p7[..20] == p5 && p5[16..20] == LE32(16);
    assert p7[..16] == p4 && p4[12..16] == Ascii("fmt ");
    assert p7[..12] == p3 && p3[8..12] == Ascii("WAVE");
    assert p7[..8] == p2 && p2[4..8] == LE32(36 + dataLen);
    assert p7[..4] == p1;
  }

  /** Reading the header fields back from the file recovers what was written
      (each modulo its field width). */
  lemma WavLayout(buf: Buffer)
    ensures var w := WavSpec(buf);
            var n := |buf.channels|;
            var dataLen := 2 * |Samples(buf)|;
            && w[0..4] == Ascii("RIFF")
            && ReadLE32(w[4..8]) == (36 + dataLen) % TWO_32
            && w[8..12] == Ascii("WAVE")
            && w[12..16] == Ascii("fmt ")
            && ReadLE32(w[16..20]) == 16
            && ReadLE16(w[20..22]) == 1
            && ReadLE16(w[22..24]) == n % TWO_16
            && ReadLE32(w[24..28]) == buf.sampleRate % TWO_32
            && ReadLE32(w[28..32]) == (buf.sampleRate * (2 * n)) % TWO_32
            && ReadLE16(w[32..34]) == (2 * n) % TWO_16
            && ReadLE16(w[34..36]) == 16
            && w[36..40] == Ascii("data")
            && ReadLE32(w[40..44]) == dataLen % TWO_32
  {
    var n := |buf.channels|;
    var dataLen := 2 * |Samples(buf)|;
    var w := WavSpec(buf);
    var h := Header(n, buf.sampleRate, dataLen);
    assert w[..44] == h;
    HeaderLayout(n, buf.sampleRate, dataLen);
    assert forall a, b :: 0 <= a <= b <= 44 ==> w[a..b] == h[a..b];
    LE32RoundTrip(36 + dataLen);
    LE32RoundTrip(16);
    LE32RoundTrip(buf.sampleRate);
    LE32RoundTrip(ByteRate(buf.sampleRate, 2 * n));
    LE32RoundTrip(dataLen);
    LE16RoundTrip(1);
    LE16RoundTrip(n);
    LE16RoundTrip(2 * n);
    LE16RoundTrip(16);
  }

  /** Sample i of the written sequence reads back from offset 44 + 2i. */
  lemma WavSampleAt(buf: Buffer, i: nat)
    requires i < |Samples(buf)|
    ensures ReadInt16(WavSpec(buf)[44 + 2 * i..46 + 2 * i]) == PcmSample(Samples(buf)[i])
  {
    var s := Samples(buf);
    BodyAt(s, i);
    assert WavSpec(buf)[44 + 2 * i..46 + 2 * i] == Body(s)[2 * i..2 * i + 2];
    PcmRoundTrip(s[i]);
  }

  /** The data chunk holds frames x channels x 2 bytes, as the header's
      channel count claims, exactly when there are at most two channels:
      with three or more only channel 0 is written. */
  lemma DataMatchesChannelsIff(buf: Buffer)
    requires buf.Length() > 0
    ensures 2 * |Samples(buf)| == 2 * buf.Length() * |buf.channels| <==> |buf.channels| <= 2
  {
    var n, len := |buf.channels|, buf.Length();
    if n >= 3 {
      assert len * n >= len * 3;
    }
  }

  // ------------------------------------------------------------ writing

  /** `writeString(view, offset, str)`. */
  method WriteString(view: array<byte>, offset: nat, str: string)
    requires offset + |str| <= view.Length
    modifies view
    ensures view[..offset + |str|] == old(view[..offset]) + Ascii(str)
    ensures view[offset + |str|..] == old(view[offset + |str|..])
  {
    ghost var before := view[..offset];
    for i := 0 to |str|
      invariant view[..offset + i] == before + Ascii(str)[..i]
      invariant view[offset + |str|..] == old(view[offset + |str|..])
    {
      view[offset + i] := (str[i] as int % 256) as byte;
      assert Ascii(str)[..i + 1] == Ascii(str)[..i] + [Ascii(str)[i]];
    }
  }

  /** `view.setUint32(off, v, true)`. */
  method SetUint32(view: array<byte>, off: nat, v: int)
    requires off + 4 <= view.Length
    modifies view
    ensures view[..off + 4] == old(view[..off]) + LE32(v)
    ensures view[off + 4..] == old(view[off + 4..])
  {
    var bytes := LE32(v);
    view[off] := bytes[0];
    view[off + 1] := bytes[1];
    view[off + 2] := bytes[2];
    view[off + 3] := bytes[3];
  }

  /** `view.setUint16(off, v, true)`, and `setInt16` once v is an integer. */
  method SetUint16(view: array<byte>, off: nat, v: int)
    requires off + 2 <= view.Length
    modifies view
    ensures view[..off + 2] == old(view[..off]) + LE16(v)
    ensures view[off + 2..] == old(view[off + 2..])
  {
    var u := v % TWO_16;
    view[off] := u % 256;
    view[off + 1] := u / 256;
  }

  /** `view.setInt16(off, s, true)` for the scaled sample s. */
  method SetInt16(view: array<byte>, off: nat, s: real)
    requires off + 2 <= view.Length
    modifies view
    ensures view[..off + 2] == old(view[..off]) + LE16(Trunc(s))
    ensures view[off + 2..] == old(view[off + 2..])
  {
    SetUint16(view, off, Trunc(s));
  }

  /** The header writes of `audioBufferToWavBlob`, into a fresh view. */
  method WriteHeader(view: array<byte>, numOfChan: nat, sampleRate: nat, bufferLength: nat)
    requires view.Length >= HEADER_SIZE
    modifies view
    ensures view[..HEADER_SIZE] == Header(numOfChan, sampleRate, bufferLength)
    ensures view[HEADER_SIZE..] == old(view[HEADER_SIZE..])
  {
    WriteRiffHeader(view, bufferLength);
    ghost var riff := view[..12];
    WriteFmtChunk(view, numOfChan, sampleRate);
    ghost var fmt := view[..36];
    assert fmt[..12] == riff;
    WriteDataHeader(view, bufferLength);
    assert view[..44][..36] == fmt;
  }

  /** Bytes 0 to 11: "RIFF", the RIFF size, "WAVE". */
  method WriteRiffHeader(view: array<byte>, bufferLength: nat)
    requires view.Length >= HEADER_SIZE
    modifies view
    ensures view[..12] == Ascii("RIFF") + LE32(36 + bufferLength) + Ascii("WAVE")
    ensures view[12..] == old(view[12..])
  {
    WriteString(view, 0, "RIFF");
    ghost var p := view[..4];
    SetUint32(view, 4, 36 + bufferLength);
    p := p + LE32(36 + bufferLength);
    assert view[..8] == p;
    WriteString(view, 8, "WAVE");
  }

  /** Bytes 12 to 35: the `fmt ` chunk. */
  method WriteFmtChunk(view: array<byte>, numOfChan: nat, sampleRate: nat)
    requires view.Length >= HEADER_SIZE
    modifies view
    ensures view[..36] == old(view[..12]) + Ascii("fmt ") + LE32(16) + LE16(1) + LE16(numOfChan)
                          + LE32(sampleRate) + LE32(ByteRate(sampleRate, numOfChan * BYTES_PER_SAMPLE))
                          + LE16(numOfChan * BYTES_PER_SAMPLE) + LE16(BIT_DEPTH)
    ensures view[36..] == old(view[36..])
  {
    var blockAlign := numOfChan * BYTES_PER_SAMPLE;
    ghost var p := view[..12];
    ghost var tail := view[36..];
    WriteString(view, 12, "fmt ");
    assert view[36..] == tail;
    p := p + Ascii("fmt ");
    assert view[..16] == p;
    SetUint32(view, 16, 16);
    assert view[36..] == tail;
    p := p + LE32(16);
    assert view[..20] == p;
    SetUint16(view, 20, 1);
    assert view[36..] == tail;
    p := p + LE16(1);
    assert view[..22] == p;
    SetUint16(view, 22, numOfChan);
    assert view[36..] == tail;
    p := p + LE16(numOfChan);
    assert view[..24] == p;
    SetUint32(view, 24, sampleRate);
    assert view[36..] == tail;
    p := p + LE32(sampleRate);
    assert view[..28] == p;
    SetUint32(view, 28, ByteRate(sampleRate, blockAlign));
    assert view[36..] == tail;
    p := p + LE32(ByteRate(sampleRate, blockAlign));
    assert view[..32] == p;
    SetUint16(view, 32, blockAlign);
    assert view[36..] == tail;
    p := p + LE16(blockAlign);
    assert view[..34] == p;
    SetUint16(view, 34, BIT_DEPTH);
    assert view[36..] == tail;
  }

  /** Bytes 36 to 43: "data" and the data size. */
  method WriteDataHeader(view: array<byte>, bufferLength: nat)
    requires view.Length >= HEADER_SIZE
    modifies view
    ensures view[..44] == old(view[..36]) + Ascii("data") + LE32(bufferLength)
    ensures view[44..] == old(view[44..])
  {
    ghost var p := view[..36];
    WriteString(view, 36, "data");
    p := p + Ascii("data");
    assert view[..40] == p;
    SetUint32(view, 40, bufferLength);
  }

  /** `audioBufferToWavBlob(buf)`: the bytes of the returned Blob. */
  method AudioBufferToWavBlob(buf: Buffer) returns (bytes: seq<byte>)
    ensures bytes == WavSpec(buf)
  {
    var numOfChan := |buf.channels|;
    var result: seq<real>;
    if numOfChan == 2 {
      var r := Interleave(buf.channels[0], buf.channels[1]);
      result := r[..];
    } else {
      result := buf.channels[0];
    }
    var bufferLength := |result| * BYTES_PER_SAMPLE;
    var view := new byte[HEADER_SIZE + bufferLength];
    WriteHeader(view, numOfChan, buf.sampleRate, bufferLength);
    WriteSamples(view, result);
    bytes := view[..];
  }

  /** The sample loop of `audioBufferToWavBlob`: sample i is clamped, scaled
      and stored at offset 44 + 2i. */
  method WriteSamples(view: array<byte>, result: seq<real>)
    requires view.Length == HEADER_SIZE + 2 * |result|
    modifies view
    ensures view[..] == old(view[..HEADER_SIZE]) + Body(result)
  {
    ghost var header := view[..HEADER_SIZE];
    var offset := HEADER_SIZE;
    for i := 0 to |result|
      invariant offset == HEADER_SIZE + 2 * i
      invariant view[..offset] == header + Body(result[..i])
    {
      var s := Clamp(result[i]);
      var scaled := if s < 0.0 then Times(s, 32768.0) else Times(s, 32767.0);
      SetInt16(view, offset, scaled);
      assert result[..i + 1][..i] == result[..i];
      offset := offset + 2;
    }
    assert result[..|result|] == result;
    assert view[..] == view[..offset];
  }

  // ------------------------------------------------------------ applyFade

  /** `Math.floor(fadeDurationSec * sampleRate)` for the 20 ms fade. */
  function FadeSamples(sampleRate: nat): (n: nat)
    ensures n as real <= FADE_SEC * sampleRate as real < n as real + 1.0
  {
    (FADE_SEC * sampleRate as real).Floor
  }

  /** The fade-in factor at index i: the ramp at i / fadeSamples. The ramp is
      a parameter standing for (1 - cos(pi x)) / 2. */
  function InGain(i: nat, fs: nat, ramp: real -> real): real
    requires fs > 0
  {
    ramp(i as real / fs as real)
  }

  /** The fade-out factor at index k of a channel of length len: the source's
      (fadeSamples - i) / fadeSamples with k = len - fadeSamples + i. */
  function OutGain(k: int, len: nat, fs: nat): real
    requires fs > 0
  {
    (len - k) as real / fs as real
  }

  /** Whether index k is written by the fade-out loop: k = len - fs + i for
      some i < min(fs, len) (negative indices are not written). */
  predicate InFadeOut(k: int, len: nat, fs: nat)
  {
    0 <= k && len - fs <= k < len - fs + Min(fs, len)
  }

  /** The first loop: the first min(fs, len) samples are multiplied by the ramp. */
  function FadeIn(s: seq<real>, fs: nat, ramp: real -> real): (out: seq<real>)
    ensures |out| == |s|
  {
    seq(|s|, k requires 0 <= k < |s| => if k < fs then Times(s[k], InGain(k, fs, ramp)) else s[k])
  }

  /** The second loop: the last samples are multiplied by the linear ramp down. */
  function FadeOut(s: seq<real>, fs: nat): (out: seq<real>)
    ensures |out| == |s|
  {
    seq(|s|, k requires 0 <= k < |s| => if InFadeOut(k, |s|, fs) && fs > 0 then Times(s[k], OutGain(k, |s|, fs)) else s[k])
  }

  /** One channel after `applyFade`. */
  function FadedChannel(s: seq<real>, fs: nat, ramp: real -> real): (out: seq<real>)
    ensures |out| == |s|
  {
    FadeOut(FadeIn(s, fs, ramp), fs)
  }

  /** Only the first fs and the last fs samples change. */
  lemma FadeKeepsMiddle(s: seq<real>, fs: nat, ramp: real -> real, k: nat)
    requires fs <= k < |s| - fs
    ensures FadedChannel(s, fs, ramp)[k] == s[k]
  {
  }

  /** The fade-out factor lies in (0, 1] at every index the loop writes, and
      strictly decreases towards the end. */
  lemma OutGainBounds(k: int, len: nat, fs: nat)
    requires fs > 0 && InFadeOut(k, len, fs)
    ensures k < len
    ensures 0.0 < OutGain(k, len, fs) <= 1.0
    ensures InFadeOut(k + 1, len, fs) ==> OutGain(k + 1, len, fs) < OutGain(k, len, fs)
  {
    FractionBounds((len - k) as real, fs as real);
    DivStrictMono((len - k - 1) as real, (len - k) as real, fs as real);
  }

  /** When the ramp starts at 0, the first sample of a faded channel is silent. */
  lemma FadeSilencesFirst(s: seq<real>, fs: nat, ramp: real -> real)
    requires |s| > 0 && fs > 0 && ramp(0.0) == 0.0
    ensures FadedChannel(s, fs, ramp)[0] == 0.0
  {
    assert InGain(0, fs, ramp) == 0.0;
  }

  /** The fade-in loop of one channel, in place. */
  method FadeInInPlace(a: array<real>, fs: nat, ramp: real -> real)
    modifies a
    ensures a[..] == FadeIn(old(a[..]), fs, ramp)
  {
    ghost var orig := a[..];
    var len := a.Length;
    var i := 0;
    while i < fs && i < len
      invariant 0 <= i <= len
      invariant i <= fs
      invariant forall k :: 0 <= k < len ==> a[k] == if k < i then Times(orig[k], InGain(k, fs, ramp)) else orig[k]
    {
      a[i] := Times(a[i], InGain(i, fs, ramp));
      i := i + 1;
    }
    assert forall k :: 0 <= k < len ==> a[k] == FadeIn(orig, fs, ramp)[k];
  }

  /** The fade-out loop of one channel, in place; a negative index is a
      write a typed array ignores. */
  method FadeOutInPlace(a: array<real>, fs: nat)
    modifies a
    ensures a[..] == FadeOut(old(a[..]), fs)
  {
    ghost var orig := a[..];
    var len := a.Length;
    var i := 0;
    while i < fs && i < len
      invariant 0 <= i <= len
      invariant i <= fs
      invariant forall k :: 0 <= k < len ==>
                  a[k] == if len - fs <= k < len - fs + i then Times(orig[k], OutGain(k, len, fs)) else orig[k]
    {
      var idx := len - fs + i;
      if idx >= 0 {
        a[idx] := Times(a[idx], (fs - i) as real / fs as real);
        assert (fs - i) as real / fs as real == OutGain(idx, len, fs);
      }
      i := i + 1;
    }
    assert forall k :: 0 <= k < len ==> a[k] == FadeOut(orig, fs)[k];
  }

  /** `applyFade(buffer, 0.02)`: every channel's samples are faded in place.
      The channel arrays are distinct, as `getChannelData` returns them. */
  method ApplyFade(chans: seq<array<real>>, sampleRate: nat, ramp: real -> real)
    requires forall i, j :: 0 <= i < j < |chans| ==> chans[i] != chans[j]
    modifies set i | 0 <= i < |chans| :: chans[i]
    ensures forall c :: 0 <= c < |chans| ==>
              chans[c][..] == FadedChannel(old(chans[c][..]), FadeSamples(sampleRate), ramp)
  {
    var fs := FadeSamples(sampleRate);
    for ch := 0 to |chans|
      invariant forall c :: 0 <= c < ch ==> chans[c][..] == FadedChannel(old(chans[c][..]), fs, ramp)
      invariant forall c :: ch <= c < |chans| ==> chans[c][..] == old(chans[c][..])
    {
      FadeInInPlace(chans[ch], fs, ramp);
      FadeOutInPlace(chans[ch], fs);
    }
  }

  /** The buffer `applyFade` leaves behind. */
  function FadedBuffer(buf: Buffer, ramp: real -> real): (out: Buffer)
    ensures |out.channels| == |buf.channels| && out.sampleRate == buf.sampleRate
    ensures out.Length() == buf.Length()
  {
    var fs := FadeSamples(buf.sampleRate);
    AudioBuffer(seq(|buf.channels|, c requires 0 <= c < |buf.channels| => FadedChannel(buf.channels[c], fs, ramp)),
                buf.sampleRate)
  }

  /** `processAudioBlob(blob)`: decode (None when decoding rejects), fade in
      place, serialise. */
  method ProcessAudioBlob(blob: Blob, decode: Blob -> Option<Buffer>, ramp: real -> real)
    returns (r: Option<seq<byte>>)
    ensures decode(blob).None? ==> r.None?
    ensures decode(blob).Some? ==> r == Some(WavSpec(FadedBuffer(decode(blob).value, ramp)))
  {
    var decoded := decode(blob);
    if decoded.None? {
      return None;
    }
    var buf := decoded.value;
    var chans: seq<array<real>> := [];
    for c := 0 to |buf.channels|
      invariant |chans| == c
      invariant forall i :: 0 <= i < c ==> fresh(chans[i]) && chans[i][..] == buf.channels[i]
      invariant forall i, j :: 0 <= i < j < c ==> chans[i] != chans[j]
    {
      var a := new real[|buf.channels[c]|](k requires 0 <= k < |buf.channels[c]| => buf.channels[c][k]);
      assert a[..] == buf.channels[c];
      chans := chans + [a];
    }
    ApplyFade(chans, buf.sampleRate, ramp);
    var fadedChannels: seq<seq<real>> := [];
    for c := 0 to |chans|
      invariant |fadedChannels| == c
      invariant forall i :: 0 <= i < c ==> fadedChannels[i] == chans[i][..]
    {
      fadedChannels := fadedChannels + [chans[c][..]];
    }
    var faded := AudioBuffer(fadedChannels, buf.sampleRate);
    assert faded == FadedBuffer(buf, ramp);
    var bytes := AudioBufferToWavBlob(faded);
    r := Some(bytes);
  }
}
