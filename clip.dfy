/** The clip preprocessor of the Animalese engine: `trimSilence` cuts the
    quiet head and tail of a decoded letter clip, `fadeAndNorm` applies a
    short linear attack/decay and normalises each channel's peak to -3 dBFS.
    Each operation is a function that states the result and a method that
    runs the engine's loops and is proved to compute that function. */
module Clip {
  import opened Common

  const ATTACK: real := 0.005       // fade-in, seconds
  const DECAY: real := 0.015        // fade-out, seconds
  const TARGET_PEAK: real := 0.707  // -3 dBFS

  /** The largest absolute sample value, 0 for no samples. */
  function Peak(s: seq<real>): (p: real)
    ensures p >= 0.0
    ensures forall i :: 0 <= i < |s| ==> Abs(s[i]) <= p
    ensures s == [] ==> p == 0.0
    ensures s != [] ==> exists i :: 0 <= i < |s| && Abs(s[i]) == p
  {
    if s == [] then 0.0
    else
      var q := Peak(s[..|s| - 1]);
      var a := Abs(s[|s| - 1]);
      if a > q then a else q
  }

  /** A peak sample kept by a slice keeps the slice's peak equal to the whole's. */
  lemma PeakOfSlice(s: seq<real>, lo: nat, hi: nat, p: nat)
    requires lo <= p < hi <= |s| && Abs(s[p]) == Peak(s)
    ensures Peak(s[lo..hi]) == Peak(s)
  {
    assert s[lo..hi][p - lo] == s[p];
    var q :| 0 <= q < hi - lo && Abs(s[lo..hi][q]) == Peak(s[lo..hi]);
    assert s[lo..hi][q] == s[lo + q];
  }

  // ---------------------------------------------------------------- trimSilence

  /** The adaptive threshold, `peak * silenceThres`. */
  function Cutoff(peak: real, ratio: real): real
  {
    peak * ratio
  }

  lemma CutoffAbovePeak(peak: real, ratio: real)
    requires peak > 0.0 && ratio > 1.0
    ensures Cutoff(peak, ratio) > peak
  {
  }

  lemma CutoffWithinPeak(peak: real, ratio: real)
    requires peak >= 0.0 && ratio <= 1.0
    ensures Cutoff(peak, ratio) <= peak
  {
  }

  /** The forward scan: the first index whose sample reaches `thresh`, or |s|. */
  function FirstLoud(s: seq<real>, thresh: real): (i: nat)
    ensures i <= |s|
    ensures forall j :: 0 <= j < i ==> Abs(s[j]) < thresh
    ensures i < |s| ==> Abs(s[i]) >= thresh
  {
    if s == [] || Abs(s[0]) >= thresh then 0
    else
      var i := 1 + FirstLoud(s[1..], thresh);
      assert forall j :: 1 <= j < i ==> s[j] == s[1..][j - 1];
      i
  }

  /** The backward scan: the last index whose sample reaches `thresh`, or -1. */
  function LastLoud(s: seq<real>, thresh: real): (i: int)
    ensures -1 <= i < |s|
    ensures forall j :: i < j < |s| ==> Abs(s[j]) < thresh
    ensures i >= 0 ==> Abs(s[i]) >= thresh
  {
    if s == [] then -1
    else if Abs(s[|s| - 1]) >= thresh then |s| - 1
    else LastLoud(s[..|s| - 1], thresh)
  }

  /** `start` and `end` as the two scans over channel 0 leave them: `end`
      stays at the last index when `start` ran off the end. */
  function ScanBounds(ch0: seq<real>, thresh: real): (b: (nat, int))
    ensures b.0 == FirstLoud(ch0, thresh)
    ensures b.0 < |ch0| ==> && b.0 <= b.1 < |ch0| && Abs(ch0[b.1]) >= thresh
                            && forall j :: b.1 < j < |ch0| ==> Abs(ch0[j]) < thresh
    ensures b.0 == |ch0| ==> b.1 == |ch0| - 1
  {
    var start := FirstLoud(ch0, thresh);
    (start, if start < |ch0| then LastLoud(ch0, thresh) else |ch0| - 1)
  }

  /** Frames lo to hi - 1 of every channel. */
  function Slice(buf: Buffer, lo: nat, hi: nat): (out: Buffer)
    requires lo < hi <= buf.Length()
    ensures |out.channels| == |buf.channels| && out.sampleRate == buf.sampleRate
    ensures out.Length() == hi - lo
    ensures forall c, i :: 0 <= c < |out.channels| && 0 <= i < hi - lo ==>
              out.channels[c][i] == buf.channels[c][lo + i]
  {
    AudioBuffer(seq(|buf.channels|, c requires 0 <= c < |buf.channels| => buf.channels[c][lo..hi]),
                buf.sampleRate)
  }

  /** The end of trimSilence once the two scans have set `start` and `end`. */
  function TrimFrom(buf: Buffer, start: nat, end: int): Option<Buffer>
    requires end < buf.Length()
  {
    if start == 0 && end == buf.Length() - 1 then Some(buf)
    else if end < start then None
    else Some(Slice(buf, start, end + 1))
  }

  /** trimSilence: None where the engine asks Web Audio for a buffer of
      length 0, which throws. */
  function TrimSpec(buf: Buffer, ratio: real): Option<Buffer>
  {
    var ch0 := buf.channels[0];
    var peak := Peak(ch0);
    if peak == 0.0 then Some(buf)
    else
      var (start, end) := ScanBounds(ch0, Cutoff(peak, ratio));
      TrimFrom(buf, start, end)
  }

  /** The peak loop over one channel. */
  method ChannelPeak(s: seq<real>) returns (peak: real)
    ensures peak == Peak(s)
  {
    peak := 0.0;
    for i := 0 to |s|
      invariant peak == Peak(s[..i])
    {
      var a := Abs(s[i]);
      if a > peak {
        peak := a;
      }
      assert s[..i + 1][..i] == s[..i];
    }
    assert s[..|s|] == s;
  }

  /** The forward scan `while (start < len && |ch0[start]| < thresh) start++`. */
  method ScanStart(ch0: seq<real>, thresh: real) returns (start: nat)
    ensures start == FirstLoud(ch0, thresh)
  {
    start := 0;
    while start < |ch0| && Abs(ch0[start]) < thresh
      invariant 0 <= start <= |ch0|
      invariant forall j :: 0 <= j < start ==> Abs(ch0[j]) < thresh
    {
      start := start + 1;
    }
    FirstLoudUnique(ch0, thresh, start);
  }

  /** The backward scan `while (end > start && |ch0[end]| < thresh) end--`
      from the last index. */
  method ScanEnd(ch0: seq<real>, thresh: real, start: nat) returns (end: int)
    requires start == FirstLoud(ch0, thresh)
    ensures end == ScanBounds(ch0, thresh).1
  {
    end := |ch0| - 1;
    while end > start && Abs(ch0[end]) < thresh
      invariant start < |ch0| ==> start <= end < |ch0|
      invariant start == |ch0| ==> end == |ch0| - 1
      invariant forall j :: end < j < |ch0| ==> Abs(ch0[j]) < thresh
    {
      end := end - 1;
    }
    if start < |ch0| {
      LastLoudUnique(ch0, thresh, end);
    }
  }

  /** A new buffer holding frames [lo, hi) of every channel. */
  method CopyRange(buf: Buffer, lo: nat, hi: nat) returns (out: Buffer)
    requires lo < hi <= buf.Length()
    ensures out == Slice(buf, lo, hi)
  {
    var chans: seq<seq<real>> := [];
    for c := 0 to |buf.channels|
      invariant |chans| == c
      invariant forall d :: 0 <= d < c ==> chans[d] == buf.channels[d][lo..hi]
    {
      chans := chans + [buf.channels[c][lo..hi]];
    }
    out := AudioBuffer(chans, buf.sampleRate);
    assert out.channels == Slice(buf, lo, hi).channels;
  }

  method TrimSilence(buf: Buffer, ratio: real) returns (r: Option<Buffer>)
    ensures r == TrimSpec(buf, ratio)
  {
    var ch0 := buf.channels[0];
    var peak := ChannelPeak(ch0);
    if peak == 0.0 {
      return Some(buf);
    }
    var thresh := Cutoff(peak, ratio);
    var start := ScanStart(ch0, thresh);
    var end := ScanEnd(ch0, thresh, start);
    assert TrimSpec(buf, ratio) == TrimFrom(buf, start, end);
    if start == 0 && end == |ch0| - 1 {
      return Some(buf);
    }
    if end < start {
      return None;
    }
    var out := CopyRange(buf, start, end + 1);
    r := Some(out);
  }

  lemma FirstLoudUnique(s: seq<real>, thresh: real, k: nat)
    requires k <= |s|
    requires forall j :: 0 <= j < k ==> Abs(s[j]) < thresh
    requires k < |s| ==> Abs(s[k]) >= thresh
    ensures k == FirstLoud(s, thresh)
  {
  }

  lemma LastLoudUnique(s: seq<real>, thresh: real, k: int)
    requires 0 <= k < |s| && Abs(s[k]) >= thresh
    requires forall j :: k < j < |s| ==> Abs(s[j]) < thresh
    ensures k == LastLoud(s, thresh)
  {
  }

  /** The trimmed clip is the input itself exactly when channel 0 is silent or
      neither scan dropped a sample. */
  lemma TrimUnchangedIff(buf: Buffer, ratio: real)
    ensures var ch0 := buf.channels[0];
            var b := ScanBounds(ch0, Cutoff(Peak(ch0), ratio));
            TrimSpec(buf, ratio) == Some(buf)
            <==> Peak(ch0) == 0.0 || (b.0 == 0 && b.1 == |ch0| - 1)
  {
    var ch0 := buf.channels[0];
    var (start, end) := ScanBounds(ch0, Cutoff(Peak(ch0), ratio));
    if Peak(ch0) != 0.0 && !(start == 0 && end == |ch0| - 1) && start <= end {
      assert Slice(buf, start, end + 1).Length() < buf.Length();
    }
  }

  /** Trimming fails (the zero-length buffer) exactly when channel 0 is not
      silent and the ratio exceeds 1, so that no sample reaches the cutoff. */
  lemma TrimFailsIff(buf: Buffer, ratio: real)
    ensures TrimSpec(buf, ratio).None? <==> Peak(buf.channels[0]) > 0.0 && ratio > 1.0
  {
    var ch0 := buf.channels[0];
    var peak := Peak(ch0);
    if peak > 0.0 {
      if ratio > 1.0 {
        CutoffAbovePeak(peak, ratio);
        NothingReaches(ch0, Cutoff(peak, ratio));
      } else {
        CutoffWithinPeak(peak, ratio);
        PeakReaches(ch0, Cutoff(peak, ratio));
      }
    }
  }

  /** A cutoff above the peak is reached by no sample. */
  lemma NothingReaches(s: seq<real>, thresh: real)
    requires thresh > Peak(s)
    ensures FirstLoud(s, thresh) == |s|
  {
    FirstLoudUnique(s, thresh, |s|);
  }

  /** A cutoff at or below a positive peak is reached inside the sequence. */
  lemma PeakReaches(s: seq<real>, thresh: real)
    requires Peak(s) > 0.0 && thresh <= Peak(s)
    ensures FirstLoud(s, thresh) < |s|
  {
    var p :| 0 <= p < |s| && Abs(s[p]) == Peak(s);
    assert FirstLoud(s, thresh) <= p;
  }

  /** For a ratio in (0, 1] and a non-silent channel 0 the scans meet inside
      the clip: everything before `start` and after `end` is below the cutoff,
      the samples at `start` and `end` reach it, and the peak lies between. */
  lemma TrimScan(buf: Buffer, ratio: real)
    requires 0.0 < ratio <= 1.0 && Peak(buf.channels[0]) > 0.0
    ensures var ch0 := buf.channels[0];
            var cutoff := Cutoff(Peak(ch0), ratio);
            var (start, end) := ScanBounds(ch0, cutoff);
            && 0 <= start <= end < |ch0|
            && (forall j :: 0 <= j < start ==> Abs(ch0[j]) < cutoff)
            && (forall j :: end < j < |ch0| ==> Abs(ch0[j]) < cutoff)
            && Abs(ch0[start]) >= cutoff && Abs(ch0[end]) >= cutoff
            && forall p :: 0 <= p < |ch0| && Abs(ch0[p]) == Peak(ch0) ==> start <= p <= end
  {
    var ch0 := buf.channels[0];
    var cutoff := Cutoff(Peak(ch0), ratio);
    var p :| 0 <= p < |ch0| && Abs(ch0[p]) == Peak(ch0);
    CutoffWithinPeak(Peak(ch0), ratio);
    assert FirstLoud(ch0, cutoff) <= p;
  }

  /** The trimmed buffer keeps the channel count and sample rate, holds
      end - start + 1 frames, and frame i of every channel is input frame
      start + i. */
  lemma TrimShape(buf: Buffer, ratio: real)
    requires 0.0 < ratio <= 1.0
    ensures TrimSpec(buf, ratio).Some?
    ensures var out := TrimSpec(buf, ratio).value;
            var ch0 := buf.channels[0];
            var (start, end) := ScanBounds(ch0, Cutoff(Peak(ch0), ratio));
            && |out.channels| == |buf.channels| && out.sampleRate == buf.sampleRate
            && (Peak(ch0) > 0.0 ==>
                  && out.Length() == end - start + 1
                  && forall c, i :: 0 <= c < |out.channels| && 0 <= i < out.Length() ==>
                       out.channels[c][i] == buf.channels[c][start + i])
  {
    TrimFailsIff(buf, ratio);
    if Peak(buf.channels[0]) > 0.0 {
      TrimScan(buf, ratio);
    }
  }

  /** Trimming is idempotent: the peak sample survives the first trim, so a
      second trim with the same ratio finds nothing to drop. */
  lemma TrimIdempotent(buf: Buffer, ratio: real)
    requires 0.0 < ratio <= 1.0
    ensures TrimSpec(buf, ratio).Some?
    ensures TrimSpec(TrimSpec(buf, ratio).value, ratio) == TrimSpec(buf, ratio)
  {
    TrimFailsIff(buf, ratio);
    var out := TrimSpec(buf, ratio).value;
    var ch0 := buf.channels[0];
    if Peak(ch0) != 0.0 && out != buf {
      TrimScan(buf, ratio);
      var (start, end) := ScanBounds(ch0, Cutoff(Peak(ch0), ratio));
      assert out == Slice(buf, start, end + 1);
      SliceIsTrimmed(buf, ratio, start, end);
    }
  }

  /** A slice that keeps the peak and starts and ends on samples reaching the
      cutoff is its own trim. */
  lemma SliceIsTrimmed(buf: Buffer, ratio: real, start: nat, end: nat)
    requires start <= end < buf.Length() && Peak(buf.channels[0]) > 0.0
    requires var ch0 := buf.channels[0];
             var cutoff := Cutoff(Peak(ch0), ratio);
             && Abs(ch0[start]) >= cutoff && Abs(ch0[end]) >= cutoff
             && forall p :: 0 <= p < |ch0| && Abs(ch0[p]) == Peak(ch0) ==> start <= p <= end
    ensures TrimSpec(Slice(buf, start, end + 1), ratio) == Some(Slice(buf, start, end + 1))
  {
    SliceKeepsPeak(buf, start, end);
    LoudEndsKept(Slice(buf, start, end + 1), ratio);
  }

  /** A slice of the frames `start` to `end` that holds every peak sample has
      the same peak, and its channel 0 begins and ends on those two frames. */
  lemma SliceKeepsPeak(buf: Buffer, start: nat, end: nat)
    requires start <= end < buf.Length() && Peak(buf.channels[0]) > 0.0
    requires var ch0 := buf.channels[0];
             forall p :: 0 <= p < |ch0| && Abs(ch0[p]) == Peak(ch0) ==> start <= p <= end
    ensures var ch0' := Slice(buf, start, end + 1).channels[0];
            && |ch0'| == end - start + 1
            && Peak(ch0') == Peak(buf.channels[0])
            && ch0'[0] == buf.channels[0][start] && ch0'[|ch0'| - 1] == buf.channels[0][end]
  {
    var ch0 := buf.channels[0];
    var ch0' := Slice(buf, start, end + 1).channels[0];
    assert ch0' == ch0[start..end + 1];
    var p :| 0 <= p < |ch0| && Abs(ch0[p]) == Peak(ch0);
    PeakOfSlice(ch0, start, end + 1, p);
  }

  /** A buffer whose first and last channel-0 samples reach the cutoff is
      returned unchanged. */
  lemma LoudEndsKept(buf: Buffer, ratio: real)
    requires buf.Length() > 0 && Peak(buf.channels[0]) > 0.0
    requires var ch0 := buf.channels[0];
             var cutoff := Cutoff(Peak(ch0), ratio);
             Abs(ch0[0]) >= cutoff && Abs(ch0[|ch0| - 1]) >= cutoff
    ensures TrimSpec(buf, ratio) == Some(buf)
  {
    var ch0 := buf.channels[0];
    var cutoff := Cutoff(Peak(ch0), ratio);
    FirstLoudUnique(ch0, cutoff, 0);
    LastLoudUnique(ch0, cutoff, |ch0| - 1);
    assert ScanBounds(ch0, cutoff) == (0, |ch0| - 1);
  }

  // ---------------------------------------------------------------- fadeAndNorm

  /** The attack and decay windows in samples, each at most the clip length. */
  function FadeInLength(buf: Buffer): (n: nat)
    ensures n <= buf.Length()
  {
    Min((buf.sampleRate as real * ATTACK).Floor, buf.Length())
  }

  function FadeOutLength(buf: Buffer): (n: nat)
    ensures n <= buf.Length()
  {
    Min((buf.sampleRate as real * DECAY).Floor, buf.Length())
  }

  /** The envelope at frame k of n: rising k/fadeIn over the attack, falling
      (n-k)/fadeOut over the decay, 1 in between. */
  function Gain(k: nat, n: nat, fadeIn: nat, fadeOut: nat): (g: real)
    requires k < n && fadeIn <= n && fadeOut <= n
    ensures 0.0 <= g <= 1.0
    ensures k < fadeIn ==> g < 1.0
    ensures k >= fadeIn && k >= n - fadeOut ==> g > 0.0
    ensures fadeIn <= k < n - fadeOut ==> g == 1.0
  {
    if k < fadeIn then
      FractionBounds(k as real, fadeIn as real);
      k as real / fadeIn as real
    else if k >= n - fadeOut then
      FractionBounds((n - k) as real, fadeOut as real);
      (n - k) as real / fadeOut as real
    else 1.0
  }

  /** The per-channel normalisation factor: TARGET_PEAK / peak, or 1 for a
      silent channel. */
  function Norm(peak: real): (f: real)
    requires peak >= 0.0
    ensures f > 0.0
    ensures peak > 0.0 ==> f * peak == TARGET_PEAK
  {
    if peak != 0.0 then TARGET_PEAK / peak else 1.0
  }

  /** `inp[k] * gain * norm`. */
  function Scaled(x: real, gain: real, norm: real): real
  {
    x * gain * norm
  }

  function FadeChannel(s: seq<real>, fadeIn: nat, fadeOut: nat): (out: seq<real>)
    requires fadeIn <= |s| && fadeOut <= |s|
    ensures |out| == |s|
  {
    seq(|s|, k requires 0 <= k < |s| => Scaled(s[k], Gain(k, |s|, fadeIn, fadeOut), Norm(Peak(s))))
  }

  /** fadeAndNorm: an empty buffer is returned as it is; otherwise every
      channel is enveloped and normalised into a buffer of the same shape. */
  function FadeSpec(buf: Buffer): (out: Buffer)
    ensures |out.channels| == |buf.channels| && out.sampleRate == buf.sampleRate
    ensures out.Length() == buf.Length()
    ensures buf.Length() == 0 ==> out == buf
  {
    var n := buf.Length();
    if n == 0 then buf
    else
      var fadeIn, fadeOut := FadeInLength(buf), FadeOutLength(buf);
      AudioBuffer(seq(|buf.channels|, c requires 0 <= c < |buf.channels| =>
                        FadeChannel(buf.channels[c], fadeIn, fadeOut)),
                  buf.sampleRate)
  }

  method FadeAndNorm(buf: Buffer) returns (out: Buffer)
    ensures out == FadeSpec(buf)
  {
    var n := buf.Length();
    if n == 0 {
      return buf;
    }
    var fadeIn := Min((buf.sampleRate as real * ATTACK).Floor, n);
    var fadeOut := Min((buf.sampleRate as real * DECAY).Floor, n);
    var chans: seq<seq<real>> := [];
    for c := 0 to |buf.channels|
      invariant |chans| == c
      invariant forall d :: 0 <= d < c ==> chans[d] == FadeChannel(buf.channels[d], fadeIn, fadeOut)
    {
      var outp := new real[n];
      FadeChannelInto(buf.channels[c], outp, fadeIn, fadeOut);
      chans := chans + [outp[..]];
    }
    assert chans == FadeSpec(buf).channels;
    out := AudioBuffer(chans, buf.sampleRate);
  }

  /** The body of fadeAndNorm's channel loop: the peak loop, then the
      envelope-and-normalise loop writing `outp[k]`. */
  method FadeChannelInto(inp: seq<real>, outp: array<real>, fadeIn: nat, fadeOut: nat)
    requires outp.Length == |inp| && fadeIn <= |inp| && fadeOut <= |inp|
    modifies outp
    ensures outp[..] == FadeChannel(inp, fadeIn, fadeOut)
  {
    var n := |inp|;
    var peak := 0.0;
    for k := 0 to n
      invariant peak == Peak(inp[..k])
    {
      var a := Abs(inp[k]);
      peak := if peak > a then peak else a;
      assert inp[..k + 1][..k] == inp[..k];
    }
    assert inp[..n] == inp;
    var norm := if peak != 0.0 then TARGET_PEAK / peak else 1.0;
    EnvelopeInto(inp, outp, fadeIn, fadeOut, norm);
    assert outp[..] == FadeChannel(inp, fadeIn, fadeOut);
  }

  /** The envelope-and-normalise loop: `outp[k] = inp[k] * gain * norm`. */
  method EnvelopeInto(inp: seq<real>, outp: array<real>, fadeIn: nat, fadeOut: nat, norm: real)
    requires outp.Length == |inp| && fadeIn <= |inp| && fadeOut <= |inp|
    modifies outp
    ensures forall k :: 0 <= k < |inp| ==> outp[k] == Scaled(inp[k], Gain(k, |inp|, fadeIn, fadeOut), norm)
  {
    var n := |inp|;
    for k := 0 to n
      invariant forall j :: 0 <= j < k ==> outp[j] == Scaled(inp[j], Gain(j, n, fadeIn, fadeOut), norm)
    {
      var gain := 1.0;
      if k < fadeIn {
        gain := k as real / fadeIn as real;
      } else if k >= n - fadeOut {
        gain := (n - k) as real / fadeOut as real;
      }
      outp[k] := Scaled(inp[k], gain, norm);
    }
  }

  lemma AbsMul(x: real, y: real)
    requires y >= 0.0
    ensures Abs(x * y) == Abs(x) * y
  {
  }

  lemma ScaleChain(ax: real, g: real, peak: real, f: real)
    requires 0.0 <= ax <= peak && 0.0 <= g <= 1.0 && f > 0.0 && peak * f == TARGET_PEAK
    ensures ax * g * f <= TARGET_PEAK
  {
    MulMonotone(ax, peak, g);
    MulMonotone(g, 1.0, peak);
    MulMonotone(ax * g, peak, f);
  }

  /** One scaled sample stays within the target peak. */
  lemma ScaledSampleBound(x: real, g: real, peak: real)
    requires Abs(x) <= peak && 0.0 <= g <= 1.0
    ensures Abs(Scaled(x, g, Norm(peak))) <= TARGET_PEAK
  {
    if peak == 0.0 {
      assert x == 0.0;
    } else {
      var f := Norm(peak);
      AbsMul(x, g);
      AbsMul(x * g, f);
      ScaleChain(Abs(x), g, peak, f);
    }
  }

  /** The loudest sample, outside the fades, lands exactly on the target. */
  lemma ScaledAtPeak(x: real, peak: real)
    requires peak > 0.0 && Abs(x) == peak
    ensures Abs(Scaled(x, 1.0, Norm(peak))) == TARGET_PEAK
  {
    AbsMul(x, Norm(peak));
  }

  /** No sample of an enveloped, normalised channel exceeds -3 dBFS. */
  lemma FadeChannelBounded(s: seq<real>, fadeIn: nat, fadeOut: nat)
    requires fadeIn <= |s| && fadeOut <= |s|
    ensures forall k :: 0 <= k < |s| ==> Abs(FadeChannel(s, fadeIn, fadeOut)[k]) <= TARGET_PEAK
  {
    forall k | 0 <= k < |s|
      ensures Abs(FadeChannel(s, fadeIn, fadeOut)[k]) <= TARGET_PEAK
    {
      ScaledSampleBound(s[k], Gain(k, |s|, fadeIn, fadeOut), Peak(s));
    }
  }

  /** No output sample of fadeAndNorm exceeds -3 dBFS in magnitude. */
  lemma FadeBounded(buf: Buffer)
    ensures var out := FadeSpec(buf);
            forall c, k :: 0 <= c < |out.channels| && 0 <= k < out.Length() ==>
              Abs(out.channels[c][k]) <= TARGET_PEAK
  {
    var n := buf.Length();
    if n > 0 {
      var out := FadeSpec(buf);
      forall c | 0 <= c < |buf.channels|
        ensures forall k :: 0 <= k < n ==> Abs(out.channels[c][k]) <= TARGET_PEAK
      {
        FadeChannelBounded(buf.channels[c], FadeInLength(buf), FadeOutLength(buf));
      }
    }
  }

  /** When a channel's loudest sample sits between the attack and the decay,
      fadeAndNorm brings that channel's peak to exactly TARGET_PEAK. */
  lemma FadeReachesTarget(buf: Buffer, c: nat, k: nat)
    requires c < |buf.channels| && k < buf.Length()
    requires Peak(buf.channels[c]) > 0.0 && Abs(buf.channels[c][k]) == Peak(buf.channels[c])
    requires FadeInLength(buf) <= k < buf.Length() - FadeOutLength(buf)
    ensures Peak(FadeSpec(buf).channels[c]) == TARGET_PEAK
  {
    var s := buf.channels[c];
    var fadeIn, fadeOut := FadeInLength(buf), FadeOutLength(buf);
    var out := FadeChannel(s, fadeIn, fadeOut);
    assert FadeSpec(buf).channels[c] == out;
    assert Gain(k, |s|, fadeIn, fadeOut) == 1.0;
    assert out[k] == Scaled(s[k], 1.0, Norm(Peak(s)));
    ScaledAtPeak(s[k], Peak(s));
    FadeChannelBounded(s, fadeIn, fadeOut);
    var q :| 0 <= q < |out| && Abs(out[q]) == Peak(out);
  }

  /** The preprocessing the engine applies on a cache miss,
      `fadeAndNorm(trimSilence(raw))`. */
  function Preprocess(raw: Buffer, ratio: real): Option<Buffer>
  {
    match TrimSpec(raw, ratio)
    case None => None
    case Some(trimmed) => Some(FadeSpec(trimmed))
  }

  /** The cache-miss path of `playChar`: trim, then fade and normalise. */
  method PreprocessClip(raw: Buffer, ratio: real) returns (r: Option<Buffer>)
    ensures r == Preprocess(raw, ratio)
  {
    var trimmed := TrimSilence(raw, ratio);
    if trimmed.None? {
      return None;
    }
    var processed := FadeAndNorm(trimmed.value);
    r := Some(processed);
  }

  /** For a ratio in (0, 1] preprocessing always succeeds, keeps the channel
      count and sample rate, never lengthens the clip, and bounds every sample
      by TARGET_PEAK. */
  lemma PreprocessSound(raw: Buffer, ratio: real)
    requires 0.0 < ratio <= 1.0
    ensures Preprocess(raw, ratio).Some?
    ensures var out := Preprocess(raw, ratio).value;
            && |out.channels| == |raw.channels| && out.sampleRate == raw.sampleRate
            && out.Length() <= raw.Length()
            && forall c, k :: 0 <= c < |out.channels| && 0 <= k < out.Length() ==>
                 Abs(out.channels[c][k]) <= TARGET_PEAK
  {
    TrimShape(raw, ratio);
    var trimmed := TrimSpec(raw, ratio).value;
    FadeBounded(trimmed);
    var ch0 := raw.channels[0];
    if Peak(ch0) > 0.0 {
      TrimScan(raw, ratio);
    }
  }
}
