/** The Animalese playback engine (the `useAnimalese` hook): the buffer cache,
    the per-character scheduling rule, the generation loop with its guard,
    and stopping. Audio output is replaced by a log of emissions, each
    recording the letter, the start time and the duration handed to
    `src.start`; decoding a stored clip is the parameter `decode`. */
module Scheduler {
  import opened Common
  import Clip
  import Recordings

  const XFADE: real := 0.02        // cross-fade, seconds
  const LEAD_IN: real := 0.1       // first character starts at currentTime + LEAD_IN
  const DOT_PAUSE: real := 0.5     // pause for '.', before speed scaling
  const SHORT_PAUSE: real := 0.05  // pause for other symbols and unrecorded letters

  const DEFAULT_SILENCE_THRESHOLD: real := 0.35
  const DEFAULT_PITCH: real := 1.65
  const DEFAULT_SPEED: real := 3.30
  const DEFAULT_WHITESPACE_PAUSE: real := 0.08

  /** `decodeAudioData`, a foreign call: None when it rejects. */
  type Decoder = Blob -> Option<Buffer>

  /** The cache key `${L}_${silenceThres}`, kept as its two parts. */
  datatype CacheKey = CacheKey(letter: char, thres: real)

  /** One scheduled source: the letter played, its start time and its
      duration on the audio clock. */
  datatype Emission = Emission(letter: char, start: real, dur: real)

  /** The hook's mutable state. `active` holds the sources that have not
      ended, each named by its position in `scheduled`. */
  datatype State = State(
    cache: map<CacheKey, Buffer>,
    active: seq<nat>,
    stopFlag: bool,
    isPlaying: bool,
    scheduled: seq<Emission>)

  /** The four user controls. */
  datatype Params = Params(silenceThres: real, pitch: real, speed: real, spacePause: real)
  {
    predicate Valid()
    {
      speed > 0.0
    }
  }

  /** What `playChar` hands back: the next cursor, or the exception that
      ends the generation loop. */
  datatype Step = Next(t: real) | Thrown

  /** Which `requestStop` a stop request runs: the engine's, or the one that
      keeps the flag raised (see RequestStopSpec). */
  datatype StopRule = AsWritten | Intended

  // ------------------------------------------------------------ characters

  predicate IsAsciiLetter(c: char)
  {
    'A' <= c <= 'Z' || 'a' <= c <= 'z'
  }

  /** `toUpperCase` on a character matching /[A-Za-z]/. */
  function ToUpper(c: char): (u: char)
    requires IsAsciiLetter(c)
    ensures Recordings.IsLetter(u)
    ensures 'A' <= c <= 'Z' ==> u == c
    ensures 'a' <= c <= 'z' ==> u as int == c as int - 32
  {
    if 'a' <= c <= 'z' then (c as int - 32) as char else c
  }

  /** The characters `String.prototype.trim` removes: ECMAScript white
      space and line terminators. */
  predicate IsJsWhitespace(c: char)
  {
    var n := c as int;
    || 0x09 <= n <= 0x0D || n == 0x20 || n == 0xA0 || n == 0x1680
    || 0x2000 <= n <= 0x200A || n == 0x2028 || n == 0x2029
    || n == 0x202F || n == 0x205F || n == 0x3000 || n == 0xFEFF
  }

  /** `!text.trim()`: nothing is left once white space is trimmed. */
  predicate Blank(text: string)
  {
    forall i :: 0 <= i < |text| ==> IsJsWhitespace(text[i])
  }

  /** A duration scaled by the playback speed. */
  function Scale(len: real, speed: real): real
    requires speed > 0.0
  {
    len / speed
  }

  // ------------------------------------------------------------ state steps

  /** `stopSound`: every active source is stopped and forgotten, the flag is
      lowered and the engine reports that it is not playing. */
  function StopSoundSpec(s: State): (r: State)
    ensures r.active == [] && !r.stopFlag && !r.isPlaying
    ensures r.cache == s.cache && r.scheduled == s.scheduled
  {
    s.(active := [], stopFlag := false, isPlaying := false)
  }

  /** `requestStop` as the engine has it: raise the flag, then `stopSound`,
      which lowers it again. */
  function RequestStopAsWrittenSpec(s: State): (r: State)
    ensures !r.stopFlag && r.active == [] && !r.isPlaying
  {
    StopSoundSpec(s.(stopFlag := true))
  }

  /** `requestStop` with the flag raised after the sources are stopped, so
      that the next `playChar` throws and the generation loop ends. */
  function RequestStopSpec(s: State): (r: State)
    ensures r.stopFlag && r.active == [] && !r.isPlaying
  {
    StopSoundSpec(s).(stopFlag := true)
  }

  function ApplyStop(s: State, rule: StopRule): State
  {
    match rule
    case AsWritten => RequestStopAsWrittenSpec(s)
    case Intended => RequestStopSpec(s)
  }

  /** `filter(s => s !== src)`. */
  function Without(a: seq<nat>, id: nat): seq<nat>
  {
    if a == [] then []
    else if a[0] == id then Without(a[1..], id)
    else [a[0]] + Without(a[1..], id)
  }

  /** A source's `onended`: it drops itself, and only itself, from the list. */
  lemma {:induction false} WithoutRemovesOnlyId(a: seq<nat>, id: nat)
    ensures forall x :: x in Without(a, id) <==> x in a && x != id
    ensures |Without(a, id)| <= |a|
    ensures id !in a ==> Without(a, id) == a
  {
    if a != [] {
      WithoutRemovesOnlyId(a[1..], id);
      assert a == [a[0]] + a[1..];
    }
  }

  function OnEndedSpec(s: State, id: nat): State
  {
    s.(active := Without(s.active, id))
  }

  /** The processed buffer for `key`: the cached one, or on a miss the
      decoded clip trimmed, faded and normalised (None when decoding
      rejects or the trim asks for an empty buffer, both of which throw). */
  function Lookup(cache: map<CacheKey, Buffer>, key: CacheKey, blob: Blob, decode: Decoder): Option<Buffer>
  {
    if key in cache then Some(cache[key])
    else
      match decode(blob)
      case None => None
      case Some(raw) => Clip.Preprocess(raw, key.thres)
  }

  /** The audio-clock times a letter's sound is scheduled at are all valid.
      `setValueAtTime`, `linearRampToValueAtTime` and `start` throw a
      RangeError on a negative time; the earliest times passed are `t0` and
      `t0 + dur - XFADE`. */
  predicate Schedulable(t0: real, dur: real)
  {
    t0 >= 0.0 && t0 + dur - XFADE >= 0.0
  }

  /** `playChar(char, t0)`: the new state and the next cursor. */
  function PlayCharSpec(s: State, p: Params, recs: Recordings.Recordings, decode: Decoder,
                        c: char, t0: real): (State, Step)
    requires p.Valid()
  {
    if s.stopFlag then (s, Thrown)
    else if c == ' ' then (s, Next(t0 + Scale(p.spacePause, p.speed)))
    else if c == '.' then (s, Next(t0 + Scale(DOT_PAUSE, p.speed)))
    else if !IsAsciiLetter(c) then (s, Next(t0 + Scale(SHORT_PAUSE, p.speed)))
    else
      var L := ToUpper(c);
      var key := CacheKey(L, p.silenceThres);
      if L !in recs then (s, Next(t0 + Scale(SHORT_PAUSE, p.speed)))
      else
        match Lookup(s.cache, key, recs[L], decode)
        case None => (s, Thrown)
        case Some(buf) =>
          var dur := Scale(buf.Duration(), p.speed);
          var cached := s.(cache := s.cache[key := buf]);
          if !Schedulable(t0, dur) then (cached, Thrown)
          else
            (cached.(active := s.active + [|s.scheduled|],
                     scheduled := s.scheduled + [Emission(L, t0, dur)]),
             Next(t0 + dur - XFADE))
  }

  /** The pending stop request one character later. */
  function Countdown(stopAt: Option<nat>): Option<nat>
  {
    match stopAt
    case Some(k) => if k == 0 then None else Some(k - 1)
    case None => None
  }

  /** `for (const c of text) t = await playChar(c, t)`, with a stop request
      arriving just before character `stopAt` when that is Some. */
  function RunSpec(s: State, p: Params, recs: Recordings.Recordings, decode: Decoder,
                   text: string, t: real, stopAt: Option<nat>, rule: StopRule): (State, Step)
    requires p.Valid()
    decreases |text|
  {
    if text == [] then (s, Next(t))
    else
      var s1 := if stopAt == Some(0) then ApplyStop(s, rule) else s;
      var (s2, step) := PlayCharSpec(s1, p, recs, decode, text[0], t);
      if step.Thrown? then (s2, Thrown)
      else RunSpec(s2, p, recs, decode, text[1..], step.t, Countdown(stopAt), rule)
  }

  /** `generateAnimalese(text)`: nothing for blank text or an incomplete
      recording set; otherwise stop what plays, raise isPlaying, run the
      loop from `now + LEAD_IN`, and stop everything once it settles. */
  function GenerateSpec(s: State, p: Params, recs: Recordings.Recordings, decode: Decoder,
                        text: string, now: real, stopAt: Option<nat>, rule: StopRule): State
    requires p.Valid()
  {
    if Blank(text) || !Recordings.IsComplete(recs) then s
    else
      var s0 := StopSoundSpec(s).(stopFlag := false, isPlaying := true);
      StopSoundSpec(RunSpec(s0, p, recs, decode, text, now + LEAD_IN, stopAt, rule).0)
  }

  // ------------------------------------------------------------ properties

  /** The cursor advance of `playChar` for a session that is not stopping. */
  lemma AdvanceRule(s: State, p: Params, recs: Recordings.Recordings, decode: Decoder, c: char, t0: real)
    requires p.Valid() && !s.stopFlag
    ensures var (s', step) := PlayCharSpec(s, p, recs, decode, c, t0);
            && (c == ' ' ==> s' == s && step == Next(t0 + p.spacePause / p.speed))
            && (c == '.' ==> s' == s && step == Next(t0 + 0.5 / p.speed))
            && (!IsAsciiLetter(c) && c != ' ' && c != '.' ==> s' == s && step == Next(t0 + 0.05 / p.speed))
            && (IsAsciiLetter(c) && ToUpper(c) !in recs ==> s' == s && step == Next(t0 + 0.05 / p.speed))
            && (IsAsciiLetter(c) && ToUpper(c) in recs ==>
                  var key := CacheKey(ToUpper(c), p.silenceThres);
                  match Lookup(s.cache, key, recs[ToUpper(c)], decode)
                  case None => s' == s && step == Thrown
                  case Some(buf) =>
                    var dur := buf.Duration() / p.speed;
                    && key in s'.cache && s'.cache[key] == buf
                    && (Schedulable(t0, dur) ==>
                          && s'.scheduled == s.scheduled + [Emission(ToUpper(c), t0, dur)]
                          && step == Next(t0 + dur - XFADE))
                    && (!Schedulable(t0, dur) ==> s'.scheduled == s.scheduled && step == Thrown))
  {
  }

  /** 'a' and 'A' share one cache entry and schedule the same emission. */
  lemma CaseInsensitive(s: State, p: Params, recs: Recordings.Recordings, decode: Decoder, c: char, t0: real)
    requires p.Valid() && 'a' <= c <= 'z'
    ensures PlayCharSpec(s, p, recs, decode, c, t0) == PlayCharSpec(s, p, recs, decode, ToUpper(c), t0)
  {
  }

  /** A cached entry is reused: the clip is not decoded again, whatever the
      decoder would return, and the cache does not change. */
  lemma CacheHitReuses(s: State, p: Params, recs: Recordings.Recordings, d1: Decoder, d2: Decoder,
                       c: char, t0: real)
    requires p.Valid() && IsAsciiLetter(c) && CacheKey(ToUpper(c), p.silenceThres) in s.cache
    ensures PlayCharSpec(s, p, recs, d1, c, t0) == PlayCharSpec(s, p, recs, d2, c, t0)
    ensures PlayCharSpec(s, p, recs, d1, c, t0).0.cache == s.cache
  {
  }

  /** A character throws exactly when the session is stopping, or a recorded
      letter misses the cache and its clip fails to decode or (with a
      threshold above 1) trims to nothing, or its buffer is found but would
      be scheduled at a negative audio-clock time. */
  lemma ThrowsIff(s: State, p: Params, recs: Recordings.Recordings, decode: Decoder, c: char, t0: real)
    requires p.Valid()
    ensures PlayCharSpec(s, p, recs, decode, c, t0).1 == Thrown <==>
              || s.stopFlag
              || (&& IsAsciiLetter(c) && ToUpper(c) in recs
                  && CacheKey(ToUpper(c), p.silenceThres) !in s.cache
                  && (|| decode(recs[ToUpper(c)]).None?
                      || (Clip.Peak(decode(recs[ToUpper(c)]).value.channels[0]) > 0.0
                          && p.silenceThres > 1.0)))
              || (&& IsAsciiLetter(c) && ToUpper(c) in recs
                  && var found := Lookup(s.cache, CacheKey(ToUpper(c), p.silenceThres), recs[ToUpper(c)], decode);
                     found.Some? && !Schedulable(t0, found.value.Duration() / p.speed))
  {
    if !s.stopFlag && IsAsciiLetter(c) && ToUpper(c) in recs {
      var raw := decode(recs[ToUpper(c)]);
      if raw.Some? {
        Clip.TrimFailsIff(raw.value, p.silenceThres);
      }
    }
  }

  /** Every cache key carries the given threshold. */
  predicate CacheCurrent(cache: map<CacheKey, Buffer>, thres: real)
  {
    forall k :: k in cache ==> k.thres == thres && Recordings.IsLetter(k.letter)
  }

  /** Keys carry the threshold: once every entry was made under `t1`, a
      lookup under any other threshold misses and processes the clip again
      from the decoder, whatever the cache holds. */
  lemma ThresholdSeparatesKeys(cache: map<CacheKey, Buffer>, t1: real, t2: real,
                               L: char, blob: Blob, decode: Decoder)
    requires CacheCurrent(cache, t1) && t1 != t2
    ensures CacheKey(L, t2) !in cache
    ensures Lookup(cache, CacheKey(L, t2), blob, decode) == Lookup(map[], CacheKey(L, t2), blob, decode)
  {
    forall k | k in cache
      ensures k != CacheKey(L, t2)
    {
      assert k.thres == t1;
    }
  }

  /** Every active source names a scheduled emission. */
  predicate ActiveScheduled(active: seq<nat>, n: nat)
  {
    forall i :: 0 <= i < |active| ==> active[i] < n
  }

  /** The generation loop only appends to the schedule, only adds cache
      entries under the current threshold, and never changes an entry. */
  lemma {:induction false} RunGrows(s: State, p: Params, recs: Recordings.Recordings, decode: Decoder,
                                    text: string, t: real, stopAt: Option<nat>, rule: StopRule)
    requires p.Valid() && CacheCurrent(s.cache, p.silenceThres)
    ensures var r := RunSpec(s, p, recs, decode, text, t, stopAt, rule).0;
            && s.scheduled <= r.scheduled
            && CacheCurrent(r.cache, p.silenceThres)
            && (forall k :: k in s.cache ==> k in r.cache && r.cache[k] == s.cache[k])
    decreases |text|
  {
    if text != [] {
      var s1 := if stopAt == Some(0) then ApplyStop(s, rule) else s;
      var (s2, step) := PlayCharSpec(s1, p, recs, decode, text[0], t);
      if step.Next? {
        RunGrows(s2, p, recs, decode, text[1..], step.t, Countdown(stopAt), rule);
      }
    }
  }

  /** A space, a '.', another symbol or an unrecorded letter at the head of
      the text only moves the cursor: the rest is scheduled as if the text
      started after it, at the later time. */
  lemma {:induction false} PauseThenRest(s: State, p: Params, recs: Recordings.Recordings, decode: Decoder,
                                         c: char, rest: string, t: real, rule: StopRule)
    requires p.Valid() && !s.stopFlag
    requires !IsAsciiLetter(c) || ToUpper(c) !in recs
    ensures var gap := if c == ' ' then p.spacePause else if c == '.' then DOT_PAUSE else SHORT_PAUSE;
            RunSpec(s, p, recs, decode, [c] + rest, t, None, rule)
              == RunSpec(s, p, recs, decode, rest, t + gap / p.speed, None, rule)
  {
    assert ([c] + rest)[0] == c && ([c] + rest)[1..] == rest;
  }

  /** Two recorded letters in a row: the second starts one cross-fade before
      the first one's scaled duration has elapsed, and the cursor ends one
      cross-fade before the second one's scaled duration has elapsed. Either
      letter may be decoded during the run (`ba` and `bb` are the buffers
      found); the second is looked up in the cache as the first one left it.
      Both letters' times must be valid on the audio clock. */
  lemma TwoLetters(s: State, p: Params, recs: Recordings.Recordings, decode: Decoder,
                   a: char, b: char, t: real, rule: StopRule, ba: Buffer, bb: Buffer)
    requires p.Valid() && !s.stopFlag && IsAsciiLetter(a) && IsAsciiLetter(b)
    requires ToUpper(a) in recs && ToUpper(b) in recs
    requires var ka := CacheKey(ToUpper(a), p.silenceThres);
             && Lookup(s.cache, ka, recs[ToUpper(a)], decode) == Some(ba)
             && Lookup(s.cache[ka := ba], CacheKey(ToUpper(b), p.silenceThres), recs[ToUpper(b)], decode) == Some(bb)
    requires Schedulable(t, ba.Duration() / p.speed)
    requires Schedulable(t + ba.Duration() / p.speed - XFADE, bb.Duration() / p.speed)
    ensures var r := RunSpec(s, p, recs, decode, [a, b], t, None, rule);
            var da := ba.Duration() / p.speed;
            var db := bb.Duration() / p.speed;
            && r.0.scheduled == s.scheduled + [Emission(ToUpper(a), t, da), Emission(ToUpper(b), t + da - XFADE, db)]
            && r.1 == Next(t + da - XFADE + db - XFADE)
  {
    var da := ba.Duration() / p.speed;
    var db := bb.Duration() / p.speed;
    var (s1, st1) := PlayCharSpec(s, p, recs, decode, a, t);
    LetterStep(s, p, recs, decode, a, t, ba);
    var (s2, st2) := PlayCharSpec(s1, p, recs, decode, b, st1.t);
    LetterStep(s1, p, recs, decode, b, st1.t, bb);
    assert [a, b][0] == a && [a, b][1..] == [b] && [b][0] == b && [b][1..] == [];
    assert RunSpec(s1, p, recs, decode, [b], st1.t, None, rule) == (s2, st2);
  }

  /** One recorded letter whose buffer `buf` is found: it is cached; when
      its times are valid on the audio clock it is made active and scheduled
      at the cursor, which moves on by its scaled duration less one
      cross-fade, and otherwise it throws with nothing scheduled. */
  lemma LetterStep(s: State, p: Params, recs: Recordings.Recordings, decode: Decoder, c: char, t: real,
                   buf: Buffer)
    requires p.Valid() && !s.stopFlag && IsAsciiLetter(c) && ToUpper(c) in recs
    requires Lookup(s.cache, CacheKey(ToUpper(c), p.silenceThres), recs[ToUpper(c)], decode) == Some(buf)
    ensures var dur := buf.Duration() / p.speed;
            var (r, step) := PlayCharSpec(s, p, recs, decode, c, t);
            && r.cache == s.cache[CacheKey(ToUpper(c), p.silenceThres) := buf] && !r.stopFlag
            && (Schedulable(t, dur) ==>
                  && r.scheduled == s.scheduled + [Emission(ToUpper(c), t, dur)]
                  && step == Next(t + dur - XFADE))
            && (!Schedulable(t, dur) ==> r.scheduled == s.scheduled && step == Thrown)
  {
  }

  /** `playChar` reads the state only through the cache, the schedule and
      the flag, and never changes the flag. */
  lemma PlayCharCongruent(s: State, s': State, p: Params, recs: Recordings.Recordings, decode: Decoder,
                          c: char, t0: real)
    requires p.Valid() && s.stopFlag == s'.stopFlag
    requires s.cache == s'.cache && s.scheduled == s'.scheduled
    ensures var (r, step) := PlayCharSpec(s, p, recs, decode, c, t0);
            var (r', step') := PlayCharSpec(s', p, recs, decode, c, t0);
            && r.cache == r'.cache && r.scheduled == r'.scheduled && step == step'
            && r.stopFlag == s.stopFlag && r'.stopFlag == s'.stopFlag
  {
  }

  /** With the engine's `requestStop` the flag is already low
      again when the next character is played, so a stop request changes
      neither the cache, nor the schedule, nor how the loop ends. */
  lemma {:induction false} AsWrittenStopIsIgnored(s: State, s': State, p: Params, recs: Recordings.Recordings,
                                                  decode: Decoder, text: string, t: real, k: nat)
    requires p.Valid() && !s.stopFlag && !s'.stopFlag
    requires s.cache == s'.cache && s.scheduled == s'.scheduled
    ensures var r := RunSpec(s, p, recs, decode, text, t, Some(k), AsWritten);
            var r' := RunSpec(s', p, recs, decode, text, t, None, AsWritten);
            r.0.cache == r'.0.cache && r.0.scheduled == r'.0.scheduled && r.1 == r'.1
    decreases |text|
  {
    if text != [] {
      var s1 := if k == 0 then RequestStopAsWrittenSpec(s) else s;
      PlayCharCongruent(s1, s', p, recs, decode, text[0], t);
      var (s2, step) := PlayCharSpec(s1, p, recs, decode, text[0], t);
      var (s2', step') := PlayCharSpec(s', p, recs, decode, text[0], t);
      if step.Next? {
        if k == 0 {
          IgnoreActive(s2, s2', p, recs, decode, text[1..], step.t, AsWritten);
        } else {
          AsWrittenStopIsIgnored(s2, s2', p, recs, decode, text[1..], step.t, k - 1);
        }
      }
    }
  }

  /** Without a stop request the active list and isPlaying do not influence
      the cache, the schedule or the outcome. */
  lemma {:induction false} IgnoreActive(s: State, s': State, p: Params, recs: Recordings.Recordings,
                                        decode: Decoder, text: string, t: real, rule: StopRule)
    requires p.Valid() && s.stopFlag == s'.stopFlag
    requires s.cache == s'.cache && s.scheduled == s'.scheduled
    ensures var r := RunSpec(s, p, recs, decode, text, t, None, rule);
            var r' := RunSpec(s', p, recs, decode, text, t, None, rule);
            r.0.cache == r'.0.cache && r.0.scheduled == r'.0.scheduled && r.1 == r'.1
    decreases |text|
  {
    if text != [] {
      PlayCharCongruent(s, s', p, recs, decode, text[0], t);
      var (s2, step) := PlayCharSpec(s, p, recs, decode, text[0], t);
      var (s2', step') := PlayCharSpec(s', p, recs, decode, text[0], t);
      if step.Next? {
        IgnoreActive(s2, s2', p, recs, decode, text[1..], step.t, rule);
      }
    }
  }

  /** With the flag kept raised, a stop request before character k ends the
      loop there: the schedule is exactly that of the first k characters. */
  lemma {:induction false} StopHaltsScheduling(s: State, p: Params, recs: Recordings.Recordings,
                                               decode: Decoder, text: string, t: real, k: nat)
    requires p.Valid() && !s.stopFlag && k < |text|
    ensures var r := RunSpec(s, p, recs, decode, text, t, Some(k), Intended);
            var prefix := RunSpec(s, p, recs, decode, text[..k], t, None, Intended);
            && r.1 == Thrown
            && r.0.scheduled == prefix.0.scheduled
            && r.0.cache == prefix.0.cache
    decreases k
  {
    assert text[0] == text[..k + 1][0];
    if k == 0 {
      assert text[..0] == [];
    } else {
      var (s2, step) := PlayCharSpec(s, p, recs, decode, text[0], t);
      assert text[..k][0] == text[0] && text[..k][1..] == text[1..][..k - 1];
      if step.Next? {
        StopHaltsScheduling(s2, p, recs, decode, text[1..], step.t, k - 1);
      }
    }
  }

  /** Blank text or an incomplete recording set leaves the engine as it was. */
  lemma GenerateGuard(s: State, p: Params, recs: Recordings.Recordings, decode: Decoder,
                      text: string, now: real, stopAt: Option<nat>, rule: StopRule)
    requires p.Valid() && (Blank(text) || !Recordings.IsComplete(recs))
    ensures GenerateSpec(s, p, recs, decode, text, now, stopAt, rule) == s
  {
  }

  /** A generation that runs always settles with no active source, the flag
      low and isPlaying false, and keeps what it scheduled and cached. */
  lemma GenerateSettles(s: State, p: Params, recs: Recordings.Recordings, decode: Decoder,
                        text: string, now: real, stopAt: Option<nat>, rule: StopRule)
    requires p.Valid() && CacheCurrent(s.cache, p.silenceThres)
    ensures var r := GenerateSpec(s, p, recs, decode, text, now, stopAt, rule);
            && (r == s || (r.active == [] && !r.stopFlag && !r.isPlaying))
            && s.scheduled <= r.scheduled
            && CacheCurrent(r.cache, p.silenceThres)
  {
    if !(Blank(text) || !Recordings.IsComplete(recs)) {
      var s0 := StopSoundSpec(s).(stopFlag := false, isPlaying := true);
      RunGrows(s0, p, recs, decode, text, now + LEAD_IN, stopAt, rule);
    }
  }

  // ------------------------------------------------------------ the hook

  class Animalese {
    var isPlaying: bool
    var silenceThres: real
    var pitch: real
    var speed: real
    var spacePause: real
    var cache: map<CacheKey, Buffer>
    var active: seq<nat>
    var stopFlag: bool
    var scheduled: seq<Emission>

    ghost predicate Valid()
      reads this
    {
      && speed > 0.0
      && CacheCurrent(cache, silenceThres)
      && ActiveScheduled(active, |scheduled|)
    }

    function Snapshot(): State
      reads this
    {
      State(cache, active, stopFlag, isPlaying, scheduled)
    }

    function Settings(): (p: Params)
      reads this
      ensures p.speed == speed
    {
      Params(silenceThres, pitch, speed, spacePause)
    }

    constructor ()
      ensures Valid()
      ensures Settings() == Params(DEFAULT_SILENCE_THRESHOLD, DEFAULT_PITCH, DEFAULT_SPEED, DEFAULT_WHITESPACE_PAUSE)
      ensures Snapshot() == State(map[], [], false, false, [])
    {
      isPlaying := false;
      silenceThres := DEFAULT_SILENCE_THRESHOLD;
      pitch := DEFAULT_PITCH;
      speed := DEFAULT_SPEED;
      spacePause := DEFAULT_WHITESPACE_PAUSE;
      cache := map[];
      active := [];
      stopFlag := false;
      scheduled := [];
    }

    /** setSilenceThres, with the effect that wipes the cache whenever the
        threshold changes. */
    method SetSilenceThreshold(v: real)
      requires Valid()
      modifies this
      ensures Valid()
      ensures Settings() == old(Settings()).(silenceThres := v)
      ensures cache == if v != old(silenceThres) then map[] else old(cache)
      ensures Snapshot() == old(Snapshot()).(cache := cache)
    {
      if v != silenceThres {
        cache := map[];
      }
      silenceThres := v;
    }

    method SetPitch(v: real)
      requires Valid()
      modifies this
      ensures Valid()
      ensures Settings() == old(Settings()).(pitch := v) && Snapshot() == old(Snapshot())
    {
      pitch := v;
    }

    method SetSpeed(v: real)
      requires Valid() && v > 0.0
      modifies this
      ensures Valid()
      ensures Settings() == old(Settings()).(speed := v) && Snapshot() == old(Snapshot())
    {
      speed := v;
    }

    method SetWhitespacePause(v: real)
      requires Valid()
      modifies this
      ensures Valid()
      ensures Settings() == old(Settings()).(spacePause := v) && Snapshot() == old(Snapshot())
    {
      spacePause := v;
    }

    method StopSound()
      requires Valid()
      modifies this
      ensures Valid() && Settings() == old(Settings())
      ensures Snapshot() == StopSoundSpec(old(Snapshot()))
    {
      active := [];
      stopFlag := false;
      isPlaying := false;
    }

    /** The engine's `requestStop`. */
    method RequestStopAsWritten()
      requires Valid()
      modifies this
      ensures Valid() && Settings() == old(Settings())
      ensures Snapshot() == RequestStopAsWrittenSpec(old(Snapshot()))
    {
      stopFlag := true;
      StopSound();
    }

    /** `requestStop` keeping the flag raised until the loop has seen it. */
    method RequestStop()
      requires Valid()
      modifies this
      ensures Valid() && Settings() == old(Settings())
      ensures Snapshot() == RequestStopSpec(old(Snapshot()))
    {
      StopSound();
      stopFlag := true;
    }

    /** The `onended` handler of source `id`. */
    method OnEnded(id: nat)
      requires Valid()
      modifies this
      ensures Valid() && Settings() == old(Settings())
      ensures Snapshot() == OnEndedSpec(old(Snapshot()), id)
    {
      WithoutRemovesOnlyId(active, id);
      active := Without(active, id);
      forall i | 0 <= i < |active| ensures active[i] < |scheduled| {
        assert active[i] in old(active);
      }
    }

    /** The unmount effect: stop, and drop the cache. */
    method Unmount()
      requires Valid()
      modifies this
      ensures Valid() && Settings() == old(Settings())
      ensures Snapshot() == StopSoundSpec(old(Snapshot())).(cache := map[])
    {
      StopSound();
      cache := map[];
    }

    /** The cache lookup of `playChar`: a hit returns the stored buffer, a
        miss decodes and preprocesses the clip and stores the result. */
    method CachedBuffer(key: CacheKey, blob: Blob, decode: Decoder) returns (r: Option<Buffer>)
      requires Valid() && key.thres == silenceThres && Recordings.IsLetter(key.letter)
      modifies this
      ensures Valid() && Settings() == old(Settings())
      ensures r == Lookup(old(cache), key, blob, decode)
      ensures Snapshot() == old(Snapshot()).(cache := if r.Some? then old(cache)[key := r.value] else old(cache))
    {
      if key in cache {
        return Some(cache[key]);
      }
      var raw := decode(blob);
      if raw.None? {
        return None;
      }
      r := Clip.PreprocessClip(raw.value, key.thres);
      if r.Some? {
        cache := cache[key := r.value];
      }
    }

    method PlayChar(recs: Recordings.Recordings, decode: Decoder, c: char, t0: real) returns (step: Step)
      requires Valid()
      modifies this
      ensures Valid() && Settings() == old(Settings())
      ensures Snapshot() == PlayCharSpec(old(Snapshot()), Settings(), recs, decode, c, t0).0
      ensures step == PlayCharSpec(old(Snapshot()), Settings(), recs, decode, c, t0).1
    {
      if stopFlag {
        return Thrown;
      }
      if c == ' ' {
        return Next(t0 + Scale(spacePause, speed));
      }
      if c == '.' {
        return Next(t0 + Scale(DOT_PAUSE, speed));
      }
      if !IsAsciiLetter(c) {
        return Next(t0 + Scale(SHORT_PAUSE, speed));
      }
      var L := ToUpper(c);
      var key := CacheKey(L, silenceThres);
      if L !in recs {
        return Next(t0 + Scale(SHORT_PAUSE, speed));
      }
      var got := CachedBuffer(key, recs[L], decode);
      if got.None? {
        return Thrown;
      }
      var buf := got.value;
      var dur := Scale(buf.Duration(), speed);
      if !Schedulable(t0, dur) {
        return Thrown;
      }
      active := active + [|scheduled|];
      scheduled := scheduled + [Emission(L, t0, dur)];
      step := Next(t0 + dur - XFADE);
    }

    /** `generateAnimalese(text)`; `now` is the audio clock at the start, and
        `stopAt`, when Some(k), is a stop request that arrives while the loop
        waits before character k. */
    method Generate(text: string, recs: Recordings.Recordings, decode: Decoder, now: real, stopAt: Option<nat>)
      requires Valid()
      modifies this
      ensures Valid() && Settings() == old(Settings())
      ensures Snapshot() == GenerateSpec(old(Snapshot()), Settings(), recs, decode, text, now, stopAt, Intended)
    {
      if Blank(text) || !Recordings.IsComplete(recs) {
        return;
      }
      StopSound();
      stopFlag := false;
      isPlaying := true;
      var t := now + LEAD_IN;
      ghost var goal := RunSpec(Snapshot(), Settings(), recs, decode, text, t, stopAt, Intended);
      var pending := stopAt;
      var i := 0;
      while i < |text|
        invariant Valid() && Settings() == old(Settings())
        invariant 0 <= i <= |text|
        invariant RunSpec(Snapshot(), Settings(), recs, decode, text[i..], t, pending, Intended) == goal
      {
        if pending == Some(0) {
          RequestStop();
        }
        var step := PlayChar(recs, decode, text[i], t);
        assert text[i..][0] == text[i] && text[i..][1..] == text[i + 1..];
        if step.Thrown? {
          assert Snapshot() == goal.0;
          break;
        }
        t := step.t;
        pending := Countdown(pending);
        i := i + 1;
      }
      assert i == |text| ==> Snapshot() == goal.0;
      StopSound();
    }
  }
}
