# Animalese engine, modelled in Dafny

Animalese turns typed text into "animal-speak": every letter of the text is
played as a short clip of the user's own voice for that letter. Clips are
sped up and overlapped. The model covers four parts:

- **Clip preprocessing** (`Clip`, in `clip.dfy`). `trimSilence` cuts the quiet
  head and tail of a decoded letter clip. The cut uses an adaptive threshold:
  peak times the silence ratio. `fadeAndNorm` scales every sample by its
  envelope gain (a linear 5 ms attack and a 15 ms decay) and by 0.707 over the
  channel's peak before the fade. No output sample exceeds 0.707, and a
  channel reaches 0.707 when its loudest sample lies outside both fade
  windows. Each is a
  function stating the result, plus a method that runs the engine's loops and
  is proved to compute that function.
- **Scheduling** (`Scheduler`, in `scheduler.dfy`). This is the
  `useAnimalese` hook, modelled as the class `Animalese`. Its fields are the
  four controls, the buffer cache, the list of active sources, the stop flag,
  `isPlaying`, and a log of scheduled emissions that stands in for the audio
  output. The pure functions `PlayCharSpec`, `RunSpec` and `GenerateSpec`
  specify the methods, and the lemmas are stated about them: the cursor
  advance rule, the cache, the generation guard, and stopping.
- **WAV serialisation** (`Wav`, in `wav.dfy`). This is the code that runs when
  a recording is stored:
  - `applyFade` works in place on the channel arrays;
  - `interleave` merges two channels;
  - the 16-bit sample encoding;
  - the 44-byte RIFF/WAVE header, following the WAVE form of the Microsoft/IBM
    Multimedia Programming Interface and Data Specifications 1.0.

  The header fields and every sample are proved to read back from the bytes
  written.
- **Recording bookkeeping** (`Recordings`, in `recordings.dfy`). The
  recordings map, its progress and completeness atoms, and the loader's
  updates to the map.

`common.dfy` holds the shared types. The main one is the decoded audio buffer:
a value holding one sample sequence per channel and a positive sample rate.

Decoding (`decodeAudioData`) is a call into the browser. The model takes it as
a parameter `decode: Blob -> Option<Buffer>`, where `None` means the promise
rejects. The cosine fade-in ramp of `applyFade` is likewise a parameter,
`ramp: real -> real`.

One failure is not softened into a pause. When a clip's decode rejects, or
its trim asks for a zero-length buffer, the exception leaves `playChar`. The
`catch` in `generateAnimalese` then ends the whole generation. The same
happens when a letter would be scheduled at a negative audio-clock time: the
gain automation and `src.start` throw a RangeError. That happens when very
short clips, each shorter than the 0.02 s cross-fade once scaled by the
speed, pull the cursor below zero. The processed buffer is cached before the
throw. `Scheduler.ThrowsIff` states exactly when a character throws.

The cache is keyed by letter and threshold only. A re-recorded letter
therefore keeps playing its old processed clip until the threshold changes or
the hook unmounts. The model has the same behaviour, because the recordings
are a parameter that the cache never consults.

## Model

| member | source | states |
|---|---|---|
| Recordings.Alphabet | src/components/RecordVoice/RecordingsLoader.tsx:13 | the literal the loader splits has 26 entries and its entry i is the character with code 65 + i, so it runs through 'A'..'Z' in order with no letter missing or repeated |
| Recordings.Letters | src/components/RecordVoice/RecordingsLoader.tsx:13 | the set of letters is exactly the characters 'A'..'Z' and has 26 elements |
| Recordings.Initial | src/atoms/recordingAtoms.ts:8 | the initial map has progress 0 and is not complete |
| Recordings.Progress | src/atoms/recordingAtoms.ts:9 | progress is the number of keys of the map |
| Recordings.CompleteIffAllLetters | src/atoms/recordingAtoms.ts:9-10 | when every key is a letter, progress is at most 26 and the set is complete exactly when every letter has a clip |
| Recordings.OnRecordingStored | src/components/RecordVoice/RecordingsLoader.tsx:35-41 | nothing fetched leaves the map unchanged; otherwise the letter's clip is overwritten, other keys keep their clips, and progress rises by 1 exactly when the letter was absent |
| Recordings.StoreLastLetter | src/components/RecordVoice/RecordingsLoader.tsx:39 | storing a letter keeps keys letter-only and completes the set exactly when it was the only missing letter |
| Recordings.OnRecordingsCleared | src/components/RecordVoice/RecordingsLoader.tsx:43-45 | after a clear the map is empty, progress is 0 and the set is incomplete |
| Recordings.LoadAllRecordings | src/components/RecordVoice/RecordingsLoader.tsx:11-25 | the loaded map holds exactly the letters the store has, with their clips; progress is at most 26; complete exactly when the store has every letter |
| Clip.Peak | src/hooks/useAnimalese.ts:53-58 | the peak is non-negative, bounds every absolute sample, is reached by some sample, and is 0 for no samples |
| Clip.ChannelPeak | src/hooks/useAnimalese.ts:54-58 | the peak loop computes Peak |
| Clip.FirstLoud | src/hooks/useAnimalese.ts:66 | the first index reaching the threshold: every earlier sample is below it |
| Clip.LastLoud | src/hooks/useAnimalese.ts:67 | the last index reaching the threshold: every later sample is below it |
| Clip.ScanBounds | src/hooks/useAnimalese.ts:65-67 | start is the first index reaching the threshold; when it lies inside the clip, end is the last index reaching the threshold, so start <= end and every later sample is below the threshold; when start ran off the end, end stays at the last index |
| Clip.ScanStart | src/hooks/useAnimalese.ts:65-66 | the forward while loop computes FirstLoud |
| Clip.ScanEnd | src/hooks/useAnimalese.ts:65-67 | the backward while loop, started at the last index, computes the end of ScanBounds |
| Clip.Slice | src/hooks/useAnimalese.ts:71-76 | the slice keeps channel count and rate, has hi - lo frames, and frame i of each channel is input frame lo + i |
| Clip.CopyRange | src/hooks/useAnimalese.ts:71-77 | the buffer built from the per-channel copy loop's channels is Slice |
| Clip.TrimSilence | src/hooks/useAnimalese.ts:50-78 | the engine's trimSilence computes TrimSpec, None being the zero-length createBuffer that throws |
| Clip.TrimUnchangedIff | src/hooks/useAnimalese.ts:59-69 | the input comes back unchanged exactly when channel 0 is silent or neither scan dropped a sample |
| Clip.TrimFailsIff | src/hooks/useAnimalese.ts:62-73 | trimming fails exactly when channel 0 is not silent and the ratio exceeds 1 |
| Clip.CutoffWithinPeak | src/hooks/useAnimalese.ts:62 | a ratio of at most 1 gives a threshold of at most the peak |
| Clip.CutoffAbovePeak | src/hooks/useAnimalese.ts:62 | a ratio above 1 gives a threshold above a positive peak |
| Clip.NothingReaches | src/hooks/useAnimalese.ts:66 | a threshold above the peak sends the forward scan to the end |
| Clip.PeakReaches | src/hooks/useAnimalese.ts:66 | a threshold at or below a positive peak stops the forward scan inside the clip |
| Clip.TrimScan | src/hooks/useAnimalese.ts:62-67 | for a ratio in (0, 1] and a non-silent channel 0: 0 <= start <= end < len, samples outside are below peak*ratio, those at start and end reach it, and every peak sample lies between |
| Clip.TrimShape | src/hooks/useAnimalese.ts:71-76 | for a ratio in (0, 1] trimming succeeds, keeps channels and rate, has end - start + 1 frames, and out[c][i] = in[c][start + i] |
| Clip.PeakOfSlice | src/hooks/useAnimalese.ts:71-76 | a slice that keeps a peak sample has the same peak |
| Clip.LoudEndsKept | src/hooks/useAnimalese.ts:69 | a clip whose first and last channel-0 samples reach the cutoff comes back unchanged |
| Clip.SliceKeepsPeak | src/hooks/useAnimalese.ts:71-76 | the slice of frames start..end that holds every peak sample has the same peak and begins and ends on frames start and end |
| Clip.SliceIsTrimmed | src/hooks/useAnimalese.ts:65-76 | a slice that starts and ends on loud samples and keeps the peak is its own trim |
| Clip.TrimIdempotent | src/hooks/useAnimalese.ts:50-78 | for a ratio in (0, 1], trimming the trimmed clip again returns it unchanged |
| Clip.FadeInLength | src/hooks/useAnimalese.ts:83 | the attack window never exceeds the clip length |
| Clip.FadeOutLength | src/hooks/useAnimalese.ts:84 | the decay window never exceeds the clip length |
| Clip.Gain | src/hooks/useAnimalese.ts:98-100 | the envelope lies in [0, 1], is below 1 in the attack, positive in the decay, and 1 in between (so no division by zero is reached) |
| Clip.Norm | src/hooks/useAnimalese.ts:95 | the factor is positive and maps a positive peak onto 0.707 |
| Clip.FadeSpec | src/hooks/useAnimalese.ts:80-87 | an empty buffer comes back unchanged; otherwise channel count, rate and length are kept |
| Clip.FadeChannelInto | src/hooks/useAnimalese.ts:89-102 | the peak loop and the gain loop fill the output channel with in[k] * gain(k) * norm |
| Clip.EnvelopeInto | src/hooks/useAnimalese.ts:97-102 | the gain loop writes in[k] * gain(k) * norm at every index k |
| Clip.FadeAndNorm | src/hooks/useAnimalese.ts:80-105 | the engine's fadeAndNorm computes FadeSpec |
| Clip.ScaledSampleBound | src/hooks/useAnimalese.ts:101 | a sample scaled by a gain in [0, 1] and its channel's norm is at most 0.707 in absolute value |
| Clip.FadeChannelBounded | src/hooks/useAnimalese.ts:97-101 | every faded sample of a channel is at most 0.707 in absolute value |
| Clip.FadeBounded | src/hooks/useAnimalese.ts:89-103 | every output sample of every channel is at most 0.707 in absolute value |
| Clip.FadeReachesTarget | src/hooks/useAnimalese.ts:93-101 | when a channel's peak sample lies outside both fade windows, that channel's output peak is exactly 0.707 |
| Clip.PreprocessClip | src/hooks/useAnimalese.ts:130 | trim then fade-and-normalise computes Preprocess |
| Clip.PreprocessSound | src/hooks/useAnimalese.ts:130 | for a ratio in (0, 1] preprocessing succeeds, keeps channels and rate, never lengthens the clip, and bounds every sample by 0.707 |
| Scheduler.ToUpper | src/hooks/useAnimalese.ts:121 | upper-casing an ASCII letter gives one of 'A'..'Z', maps 'a'..'z' down by 32 and keeps capitals |
| Scheduler.StopSoundSpec | src/hooks/useAnimalese.ts:107-112 | stopping leaves no active source, the flag low and isPlaying false, and keeps cache and schedule |
| Scheduler.RequestStopAsWrittenSpec | src/hooks/useAnimalese.ts:181 | the engine's requestStop ends with the flag low, no active source and isPlaying false |
| Scheduler.RequestStopSpec | src/hooks/useAnimalese.ts:181 | the corrected requestStop ends with the flag raised, no active source and isPlaying false |
| Scheduler.WithoutRemovesOnlyId | src/hooks/useAnimalese.ts:158-160 | onended's filter keeps exactly the other ids, never grows the list, and changes nothing when the id is absent |
| Scheduler.AdvanceRule | src/hooks/useAnimalese.ts:115-162 | ' ' advances by spacePause/speed, '.' by 0.5/speed, other symbols and unrecorded letters by 0.05/speed; a recorded letter schedules its buffer at t0 and advances by duration/speed - 0.02, or throws when its buffer cannot be made; a found buffer is cached, and when its times t0 or t0 + dur - 0.02 would be negative it throws with nothing scheduled |
| Scheduler.CaseInsensitive | src/hooks/useAnimalese.ts:121-122 | a lower-case letter plays exactly as its capital: same cache entry, same emission, same cursor |
| Scheduler.ThresholdSeparatesKeys | src/hooks/useAnimalese.ts:122-133 | once every cached entry was made under one threshold, a letter looked up under a different threshold is not in the cache and is decoded and processed again, exactly as with an empty cache |
| Scheduler.CacheHitReuses | src/hooks/useAnimalese.ts:127-133 | with the entry cached the outcome does not depend on the decoder and the cache is unchanged |
| Scheduler.ThrowsIff | src/hooks/useAnimalese.ts:116-156 | a character throws exactly when the flag is raised, or a recorded letter misses the cache and its clip fails to decode or trims to nothing, or a recorded letter's buffer is found but t0 or t0 + dur - 0.02 is negative |
| Scheduler.RunGrows | src/hooks/useAnimalese.ts:127-175 | the loop only appends to the schedule, only adds entries under the current threshold, and never changes an existing entry |
| Scheduler.PauseThenRest | src/hooks/useAnimalese.ts:117-175 | a leading space, '.', symbol or unrecorded letter only shifts the rest of the text by its pause |
| Scheduler.TwoLetters | src/hooks/useAnimalese.ts:152-175 | two recorded letters, each taken from the cache or decoded during the run (the second looked up in the cache the first left), are scheduled at t and t + d1/speed - 0.02, and the cursor ends at t + d1/speed + d2/speed - 0.04, whenever those times are valid on the audio clock |
| Scheduler.LetterStep | src/hooks/useAnimalese.ts:122-162 | a recorded letter whose buffer is found is stored in the cache under its key without raising the stop flag; when t0 and t0 + dur - 0.02 are non-negative it is scheduled at t0 for its scaled duration and moves the cursor to t0 + dur - 0.02, and otherwise it throws with nothing scheduled |
| Scheduler.PlayCharCongruent | src/hooks/useAnimalese.ts:115-163 | playChar depends on the state only through cache, schedule and flag, and never changes the flag |
| Scheduler.AsWrittenStopIsIgnored | src/hooks/useAnimalese.ts:181 | with the engine's requestStop a stop request changes neither the cache, nor the schedule, nor how the loop ends |
| Scheduler.IgnoreActive | src/hooks/useAnimalese.ts:175 | without a stop request the active list and isPlaying do not influence cache, schedule or outcome |
| Scheduler.StopHaltsScheduling | src/hooks/useAnimalese.ts:116-181 | with the corrected requestStop, a request before character k ends the loop with exactly the schedule and cache of the first k characters |
| Scheduler.GenerateGuard | src/hooks/useAnimalese.ts:167 | blank text or an incomplete recording set leaves the engine as it was |
| Scheduler.GenerateSettles | src/hooks/useAnimalese.ts:166-179 | a generation either changes nothing or ends with no active source, the flag low and isPlaying false; it only appends to the schedule and keeps the cache keyed by the current threshold |
| Scheduler.Animalese.constructor | src/hooks/useAnimalese.ts:13-32 | defaults 0.35, 1.65, 3.30, 0.08; empty cache, no active source, flag low, not playing |
| Scheduler.Animalese.SetSilenceThreshold | src/hooks/useAnimalese.ts:36 | a changed threshold empties the cache; setting the same value keeps it; nothing else changes |
| Scheduler.Animalese.SetPitch | src/hooks/useAnimalese.ts:22 | only the pitch changes |
| Scheduler.Animalese.SetSpeed | src/hooks/useAnimalese.ts:23 | only the speed changes |
| Scheduler.Animalese.SetWhitespacePause | src/hooks/useAnimalese.ts:24 | only the whitespace pause changes |
| Scheduler.Animalese.StopSound | src/hooks/useAnimalese.ts:107-112 | the new state is StopSoundSpec of the old one |
| Scheduler.Animalese.RequestStopAsWritten | src/hooks/useAnimalese.ts:181 | the new state is RequestStopAsWrittenSpec of the old one |
| Scheduler.Animalese.RequestStop | src/hooks/useAnimalese.ts:181 | the new state is RequestStopSpec of the old one |
| Scheduler.Animalese.OnEnded | src/hooks/useAnimalese.ts:158-160 | only the ended source leaves the active list |
| Scheduler.Animalese.Unmount | src/hooks/useAnimalese.ts:35 | the unmount effect stops everything and empties the cache |
| Scheduler.Animalese.CachedBuffer | src/hooks/useAnimalese.ts:127-133 | a hit returns the entry; a miss decodes, preprocesses and stores the result; nothing else changes |
| Scheduler.Animalese.PlayChar | src/hooks/useAnimalese.ts:115-163 | the new state and the returned cursor are PlayCharSpec's, and the class invariant is kept |
| Scheduler.Animalese.Generate | src/hooks/useAnimalese.ts:166-179 | the new state is GenerateSpec's with the corrected requestStop, and the class invariant is kept |
| Wav.Ascii | src/util/audioHelper.ts:89-93 | one byte per character, equal to its code below 256 |
| Wav.LE32RoundTrip | src/util/audioHelper.ts:55-66 | the four bytes setUint32 writes read back as the value modulo 2^32 |
| Wav.LE32Inverse | src/util/audioHelper.ts:55-66 | any four bytes are re-encoded exactly by setUint32 of their value |
| Wav.LE16RoundTrip | src/util/audioHelper.ts:59-72 | the two bytes setUint16/setInt16 write read back as the value modulo 2^16, and as the value itself when it fits int16 |
| Wav.LE16Inverse | src/util/audioHelper.ts:59-72 | any two bytes are re-encoded exactly from their unsigned or signed reading |
| Wav.Clamp | src/util/audioHelper.ts:70 | the clamped sample lies in [-1, 1], equals the input inside, and saturates outside |
| Wav.Trunc | src/util/audioHelper.ts:72 | setInt16's integer conversion rounds toward zero |
| Wav.PcmSample | src/util/audioHelper.ts:70-72 | the stored integer lies in [-32768, 32767], has the sign of the sample, and saturates at +-1 |
| Wav.PcmMonotone | src/util/audioHelper.ts:70-72 | a larger sample never gets a smaller integer |
| Wav.PcmRoundTrip | src/util/audioHelper.ts:72 | each sample's two bytes read back as its integer |
| Wav.Interleaved | src/util/audioHelper.ts:77-87 | length \|L\| + \|R\|, with result[2i] = L[i] and result[2i+1] = R[i] |
| Wav.InterleaveSplits | src/util/audioHelper.ts:77-87 | the even positions of the interleave are L and the odd ones are R |
| Wav.Interleave | src/util/audioHelper.ts:77-87 | the two-counter loop fills a fresh array with Interleaved |
| Wav.Samples | src/util/audioHelper.ts:41-45 | with two channels the data holds 2 * length samples, frame i of the left channel at 2i and of the right at 2i + 1; otherwise it holds length samples, frame i of channel 0 at i |
| Wav.Header | src/util/audioHelper.ts:53-66 | the header is 44 bytes |
| Wav.Body | src/util/audioHelper.ts:68-73 | two bytes per sample |
| Wav.BodyAt | src/util/audioHelper.ts:68-73 | sample i is encoded at body bytes 2i and 2i+1 |
| Wav.WavSpec | src/util/audioHelper.ts:47-50 | the file is 44 + 2 * samples bytes |
| Wav.FrontLayout | src/util/audioHelper.ts:53-60 | "RIFF", the RIFF size, "WAVE", "fmt ", the chunk size 16, format 1 and the channel count sit at bytes 0, 4, 8, 12, 16, 20 and 22 |
| Wav.HeaderLayout | src/util/audioHelper.ts:53-66 | each header field sits at its fixed offset |
| Wav.WavLayout | src/util/audioHelper.ts:53-66 | reading the file back gives "RIFF", 36 + dataLen, "WAVE", "fmt ", 16, 1, channels, rate, rate * blockAlign, blockAlign = 2 * channels, 16, "data", dataLen, each modulo its field width |
| Wav.WavSampleAt | src/util/audioHelper.ts:68-73 | the int16 at offset 44 + 2i is sample i's encoding |
| Wav.DataMatchesChannelsIff | src/util/audioHelper.ts:41-49 | for a non-empty buffer, the data size equals frames * channels * 2 exactly when there are at most two channels |
| Wav.WriteString | src/util/audioHelper.ts:89-93 | the string's bytes are written at the offset; the bytes before it and after it are unchanged |
| Wav.SetUint32 | src/util/audioHelper.ts:55 | the value's four little-endian bytes are written at the offset; every other byte is unchanged |
| Wav.SetUint16 | src/util/audioHelper.ts:59 | the value's two little-endian bytes are written at the offset; every other byte is unchanged |
| Wav.SetInt16 | src/util/audioHelper.ts:72 | the truncated sample's two bytes are written at the offset; every other byte is unchanged |
| Wav.WriteRiffHeader | src/util/audioHelper.ts:53-56 | bytes 0..11 are "RIFF", the RIFF size and "WAVE"; bytes from 12 on are unchanged |
| Wav.WriteFmtChunk | src/util/audioHelper.ts:57-64 | bytes 12..35 are the fmt chunk; the bytes before 12 and from 36 on are unchanged |
| Wav.WriteDataHeader | src/util/audioHelper.ts:65-66 | bytes 36..43 are "data" and the data size; the bytes before 36 and from 44 on are unchanged |
| Wav.WriteHeader | src/util/audioHelper.ts:53-66 | the first 44 bytes of the view are Header, and the sample area from byte 44 on is unchanged |
| Wav.WriteSamples | src/util/audioHelper.ts:68-73 | the view is the header followed by Body of the samples |
| Wav.AudioBufferToWavBlob | src/util/audioHelper.ts:35-75 | the returned bytes are WavSpec of the buffer |
| Wav.FadeSamples | src/util/audioHelper.ts:14-15 | fadeSamples is the floor of 0.02 * sampleRate |
| Wav.FadeKeepsMiddle | src/util/audioHelper.ts:21-31 | samples at indices fs..len-fs-1 are untouched |
| Wav.OutGainBounds | src/util/audioHelper.ts:29-31 | at every index the fade-out writes, the index is in range and the factor (fs - i)/fs lies in (0, 1] and decreases along the tail |
| Wav.FadeSilencesFirst | src/util/audioHelper.ts:21-25 | with a ramp starting at 0 the first sample of every faded channel is 0 |
| Wav.FadeInInPlace | src/util/audioHelper.ts:21-26 | the fade-in loop leaves FadeIn of the old contents |
| Wav.FadeOutInPlace | src/util/audioHelper.ts:28-31 | the fade-out loop leaves FadeOut of the old contents, skipping negative indices |
| Wav.ApplyFade | src/util/audioHelper.ts:13-33 | every channel array ends as FadedChannel of its old contents, with fadeSamples from the sample rate |
| Wav.FadedBuffer | src/util/audioHelper.ts:13-33 | fading keeps channel count, rate and length |
| Wav.ProcessAudioBlob | src/util/audioHelper.ts:1-11 | a rejected decode gives no blob; otherwise the bytes are WavSpec of the faded buffer |

## Left out

- Web Audio objects are not modelled: `AudioContext`, `ensureContext`, `createBufferSource`, the `GainNode` envelope automation and `src.start`. Of their behaviour only the RangeError they raise for a negative time is kept. Each started source becomes an `Emission(letter, start, dur)` in a log, and `stop()` on a source becomes its removal from the active list.
- Detune (`Math.log2`) and pitch jitter (`Math.random`) are left out, and so pitch has no effect in the model. They are transcendental and random.
- The cosine ramp `(1 - cos(pi x)) / 2` of `applyFade` is a function parameter. `Wav.FadeSilencesFirst` assumes only that it is 0 at 0.
- Samples are real numbers. Float32 rounding, NaN and infinities are not modelled, and neither is the `undefined` a typed array returns for a negative index (that write is skipped, as the typed array does).
- Sample rates are natural numbers. Web Audio allows fractional rates.
- Asynchrony is not modelled: the `await`s, the `setTimeout` drain wait after the loop, and the interleaving of `onended` with the loop. A stop request is modelled as arriving between two characters (`stopAt`). `onended` is a separate method.
- The string cache key `${L}_${silenceThres}` is the pair `CacheKey(letter, thres)`. The two are equivalent, because number-to-string is injective on the values a slider gives.
- Text is a sequence of Unicode scalar values, which is what `for (const c of text)` iterates. Lone surrogates are not modelled.
- `Wav.Ascii` takes each character modulo 256. The engine only writes the constant ASCII tags.
- The WAV Blob's MIME type and `Blob` wrapping are left out; the model returns the bytes.
- IndexedDB, localStorage, MediaRecorder/getUserMedia and WaveSurfer are left out. They are I/O and library wrappers. The store's contents are a parameter map.
- The presentational components and the stale `src/atoms/recordingAtoms.js` are not part of this model.
- Scheduler.Animalese.SetSpeed: requires a positive speed, which the slider (0.5 to 4.0) guarantees. The hook itself accepts any number, and at 0 the cursor would become infinite.
- Scheduler.Animalese.Generate: is proved against the corrected `requestStop` (see Findings). `Scheduler.AsWrittenStopIsIgnored` states what the engine's version does.

## Findings

| source | as written | input that shows it | evidently intended | confidence | as-written member | corrected member |
|---|---|---|---|---|---|---|
| src/hooks/useAnimalese.ts:181 | `requestStop` raises `stopFlagRef`, then calls `stopSound`, which lowers it again. `playChar`'s check at line 116 never sees the flag, so the generation loop keeps scheduling characters after the user pressed stop. | Text "ABC" with 'B' not yet cached, and a stop request while 'B' is decoded: 'B' and 'C' are still scheduled. | A stop request ends the loop at the next character; the flag stays raised until `generateAnimalese` lowers it. | high; not executed | Scheduler.AsWrittenStopIsIgnored | Scheduler.StopHaltsScheduling |
