/** Types shared by the recording store, the clip preprocessor, the scheduler
    and the WAV serialiser. */
module Common {

  datatype Option<T> = None | Some(value: T)

  /** One byte of an encoded clip. */
  type byte = b: int | 0 <= b < 256

  /** A stored clip: the raw encoded bytes of a Blob. */
  type Blob = seq<byte>

  function Abs(x: real): (r: real)
    ensures r >= 0.0 && (r == x || r == -x)
  {
    if x < 0.0 then -x else x
  }

  /** A fraction a / b with 0 <= a <= b lies in [0, 1]. */
  lemma FractionBounds(a: real, b: real)
    requires 0.0 <= a <= b && b > 0.0
    ensures 0.0 <= a / b <= 1.0
    ensures a < b ==> a / b < 1.0
    ensures a > 0.0 ==> a / b > 0.0
  {
    var q := a / b;
    assert q * b == a;
    assert (1.0 - q) * b == b - a;
    SignOfFactor(q, b);
    SignOfFactor(1.0 - q, b);
  }

  /** A positive factor keeps the sign of the other factor. */
  lemma SignOfFactor(x: real, c: real)
    requires c > 0.0
    ensures x * c > 0.0 <==> x > 0.0
    ensures x * c >= 0.0 <==> x >= 0.0
  {
  }

  function Min(a: int, b: int): int
  {
    if a < b then a else b
  }

  /** Multiplying by a non-negative number keeps order. */
  lemma MulMonotone(a: real, b: real, k: real)
    requires a <= b && k >= 0.0
    ensures a * k <= b * k
  {
  }

  /** Dividing by a positive number keeps strict order. */
  lemma DivStrictMono(a: real, b: real, c: real)
    requires a < b && c > 0.0
    ensures a / c < b / c
  {
    var d := b / c - a / c;
    assert d * c == b - a;
  }

  /** A decoded Web Audio buffer: one sample sequence per channel, all of the
      same length, at a positive sample rate. Samples are reals, not Float32. */
  datatype AudioBuffer = AudioBuffer(channels: seq<seq<real>>, sampleRate: nat)
  {
    predicate Valid()
    {
      && |channels| >= 1
      && sampleRate > 0
      && forall c :: 0 <= c < |channels| ==> |channels[c]| == |channels[0]|
    }

    /** `buf.length`: the number of sample frames. */
    function Length(): nat
      requires |channels| >= 1
    {
      |channels[0]|
    }

    /** `buf.duration` in seconds. */
    function Duration(): real
      requires Valid()
    {
      Length() as real / sampleRate as real
    }
  }

  type Buffer = b: AudioBuffer | b.Valid() witness AudioBuffer([[]], 1)
}
