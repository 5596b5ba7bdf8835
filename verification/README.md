# Panmorph handpan transcriber: a Dafny model of its core

Panmorph turns a YouTube link into a list of notes, snaps each note to the
nearest note of a chosen handpan scale, draws the notes and plays them back.
This project models the parts of the program that decide what gets played
and when:

- **The scale catalogue** (`handpan_scales.dfy`). It holds the five scales
  with their exact frequencies and layout angles, and the default key. It
  proves that every scale has 8 or 9 notes, is laid out evenly from 0
  degrees, rises strictly in frequency and has distinct note names.
- **Pitch parsing and note mapping** (`youtube_extractor.dfy`).
  - `getNoteFrequency` finds the leftmost `([A-G][#b]?)(\d)` match. It looks
    the name up in a 17-entry table, falling back to 440, and scales by
    2^(octave - 4).
  - `mapToHandpanNotes` builds a name table in which the last note with a
    given name wins. Each transcribed note then takes its exact namesake, or
    else the earliest of the closest notes by frequency.
  - An empty handpan note list with a non-empty transcription raises a
    `TypeError` in JavaScript. The model returns it as `Failure(NoHandpanNotes)`.
- **The placeholder transcriber** (`transcribe.dfy`).
  - The video id is hashed with JavaScript's 32-bit arithmetic (`<<`, `&`)
    written out explicitly. The model proves this equals the polynomial
    String.hashCode hash truncated to 32 bits.
  - The hash then drives 8 to 19 notes, with onsets that strictly increase.
    The comment in the source says 8-20, but `% 12` never gives 20.
  - The response's `duration` is also modelled.
- **The audio player** (`audio_player.dfy`).
  - The `initAudio` latch: the body runs at most once, and the first call
    alone decides whether audio counts as initialised. `Tone.start()` may
    resolve, reject, or stay pending; a pending start leaves `initialized`
    unset and the awaiting `playSequence` sets no timers.
  - The `playSequence` timer schedule.
- **The application component** (`app.dfy`).
  - The note list handed to the mapper, the remapping effect, the search,
    click and auto-play handlers, the timers they set and the
    highlight/playing state those timers change.
  - `allHandpanNotes` is built from `ding`, `topNotes` and `bottomNotes`. No
    catalogue entry has those properties; an entry has only `name` and
    `notes`. So the list is empty for every scale, and every non-empty
    transcription fails to map.
  - In the search handler that failure is caught and reported as a failed
    transcription.
  - The remapping effect lists `allHandpanNotes`, a fresh array on every
    render, among its dependencies. It therefore runs after every render,
    and its failure is not caught there. The model reports it as the
    `thrown` result.
  - When the effect does not throw it calls `setCurrentNotes` with a fresh
    array, which React compares by identity, so the component renders again
    and the effect runs again, without end. The model reports this as the
    `rerenders` result, which is set exactly when nothing is thrown.
  - Both behaviours are modelled as written and proved
    (`App.AllHandpanNotesEmpty`, `App.RemapAlwaysFails`).

Every JavaScript `x || fallback` on a number is modelled with the zero case
spelled out. A missing or zero onset or duration takes the fallback.

## Model

| member | source | states |
|---|---|---|
| HandpanScales.Lookup | src/data/handpanScales.js:5-77 | a key yields an entry exactly when it is one of the five catalogue keys; the default key `d-kurd-19` yields D Kurd 19, and `d-kurd-17`, `d-minor-19`, `c-major-19`, `e-minor-19` their own scales |
| HandpanScales.CatalogueWellFormed | src/data/handpanScales.js:5-75 | every scale has 8 or 9 notes, the first at angle 0, angles increasing within [0, 360), frequencies positive and strictly rising, note names distinct |
| HandpanScales.CatalogueSteps | src/data/handpanScales.js:5-75 | note i of a scale sits at i times its step, 45 degrees for the 8-note D Kurd 17 and 40 for the 9-note scales, the step times the note count making the full circle |
| HandpanScales.AdjacentAscendingIsStrict | src/data/handpanScales.js:5-75 | notes that rise pairwise rise over every pair, the order the catalogue relies on |
| HandpanScales.EvenlySpacedOnCircle | src/data/handpanScales.js:3 | evenly spaced angles start at 0, stay in [0, 360) and increase |
| HandpanScales.SteppedIsLinear | src/data/handpanScales.js:3 | angles starting at 0 and growing by a fixed step put note i at i times the step |
| HandpanScales.ScaleWellFormed | src/data/handpanScales.js:5-75 | 8 or 9 notes stepped around the circle from 0, rising pairwise, distinct in name and positive in frequency form a well-formed, evenly spaced scale |
| HandpanScales.DefaultScaleInCatalogue | src/data/handpanScales.js:77 | the default key is a catalogue key, the first listed, naming D Kurd 19 |
| HandpanScales.CatalogueOrderIsComplete | src/data/handpanScales.js:5-75 | the listing order names every catalogue key exactly once |
| HandpanScales.CatalogueHasNoLayout | src/data/handpanScales.js:5-75 | no catalogue entry has a `ding`, `topNotes` or `bottomNotes` property |
| YoutubeExtractor.FirstMatchIsLeftmost | src/utils/youtubeExtractor.js:148 | the pitch search returns a match at its position and no earlier position matches; no result means no position matches |
| YoutubeExtractor.MatchAt | src/utils/youtubeExtractor.js:148 | a match at p is a letter, an optional accidental and a digit starting at p, whose name is that text and whose octave is that digit; the accidental form wins when present; no match means neither form is at p |
| YoutubeExtractor.FirstMatch | src/utils/youtubeExtractor.js:148 | a result is a match at a position at or after the start and inside the string |
| YoutubeExtractor.NoPitchGives440 | src/utils/youtubeExtractor.js:148-149 | a name with no pitch match costs 440 Hz |
| YoutubeExtractor.PitchFrequency | src/utils/youtubeExtractor.js:137-156 | letter, optional accidental and digit give table value (440 if absent) times 2^(octave-4) |
| YoutubeExtractor.ReferencePitches | src/utils/youtubeExtractor.js:137-156 | A4 = 440, A5 = 880, A3 = 220, C4 = 261.63 Hz |
| YoutubeExtractor.AccidentalPitch | src/utils/youtubeExtractor.js:148-155 | a letter, an accidental and a digit give the two-character name's table value (440 if absent) times 2^(octave-4) |
| YoutubeExtractor.SameBaseSameFrequency | src/utils/youtubeExtractor.js:148-155 | two spellings with equal table values have equal frequencies in every octave |
| YoutubeExtractor.SharpFlatAlias | src/utils/youtubeExtractor.js:138-146 | C#/Db, D#/Eb, F#/Gb, G#/Ab, A#/Bb give equal frequencies in every octave |
| YoutubeExtractor.UnknownNames | src/utils/youtubeExtractor.js:138-146 | Cb, E#, Fb and B# are not keys of the table |
| YoutubeExtractor.UnknownNamesUseA | src/utils/youtubeExtractor.js:152 | Cb, E#, Fb, B# are priced as A in the written octave |
| YoutubeExtractor.OctaveDoubles | src/utils/youtubeExtractor.js:153 | one octave up doubles the frequency |
| YoutubeExtractor.GetNoteFrequency | src/utils/youtubeExtractor.js:137-156 | every result is a positive frequency |
| YoutubeExtractor.NameTable | src/utils/youtubeExtractor.js:102-105 | a name is a key exactly when some handpan note has it, and maps to a handpan note of that very name |
| YoutubeExtractor.NameTableLastWins | src/utils/youtubeExtractor.js:103-105 | a name maps to the last note carrying it |
| YoutubeExtractor.NameTableDistinct | src/utils/youtubeExtractor.js:103-105 | with distinct names every note is found under its own name |
| YoutubeExtractor.ScanNearestCorrect | src/utils/youtubeExtractor.js:118-127 | the scan returns a closest note, and every earlier note is strictly farther |
| YoutubeExtractor.NearestIsEarliestClosest | src/utils/youtubeExtractor.js:118-127 | the chosen note is the earliest of the closest ones, and the only index with that property |
| YoutubeExtractor.ClosestIndex | src/utils/youtubeExtractor.js:118-127 | the loop with `minDiff` and strict `<` returns the earliest closest note |
| YoutubeExtractor.MapToHandpanNotes | src/utils/youtubeExtractor.js:101-134 | the two loops compute the specification of the whole mapping, including its failure on an empty note list |
| YoutubeExtractor.MapNotesShape | src/utils/youtubeExtractor.js:107-133 | the mapping fails exactly when there is a note to map and no handpan note; otherwise one output per input, in order, each carrying its input's onset |
| YoutubeExtractor.MapOneExact | src/utils/youtubeExtractor.js:109-114 | a name found in the table gives its last namesake with the input's onset |
| YoutubeExtractor.MapOneNearest | src/utils/youtubeExtractor.js:116-132 | an unknown name gives the earliest closest note by frequency, with the input's onset |
| YoutubeExtractor.MapOneIsMember | src/utils/youtubeExtractor.js:107-133 | every output is a handpan note with only its onset replaced |
| YoutubeExtractor.MapOne | src/utils/youtubeExtractor.js:107-133 | mapping one note fails exactly when there are no handpan notes, and otherwise keeps the note's onset |
| YoutubeExtractor.MapNotes | src/utils/youtubeExtractor.js:107-133 | a successful mapping has one output per input, and with any handpan note the mapping succeeds |
| YoutubeExtractor.GFourOnDKurd19 | src/utils/youtubeExtractor.js:116-132 | G4 at 0.5 s on D Kurd 19 maps to A4 (440 Hz, angle 40) at 0.5 s |
| YoutubeExtractor.GFourNotOnDKurd19 | src/utils/youtubeExtractor.js:109-114 | D Kurd 19 has no note named G4, so G4 takes the nearest-frequency path |
| Transcribe.ToInt32 | api/transcribe.js:124 | the 32-bit result lies in [-2^31, 2^31) and is congruent to the input modulo 2^32 |
| Transcribe.HashStepIsTimes31 | api/transcribe.js:123-124 | one step `((hash << 5) - hash) + code`, truncated, is 31 * hash + code modulo 2^32 |
| Transcribe.HashStep | api/transcribe.js:123-124 | one step of the hash loop leaves a 32-bit signed integer |
| Transcribe.HashOf | api/transcribe.js:121-125 | the hash stays a 32-bit signed integer |
| Transcribe.HashIsTruncatedPolynomial | api/transcribe.js:121-125 | the hash loop computes the polynomial hash with base 31, truncated to 32 bits |
| Transcribe.NoteCount | api/transcribe.js:130 | `8 + Math.abs(hash) % 12` lies between 8 and 19 |
| Transcribe.NoteAt | api/transcribe.js:133-136 | note i names a pool pitch and starts within [0.5 i, 0.5 i + 0.2] s |
| Transcribe.GenerateNotesFromVideoId | api/transcribe.js:116-141 | the two loops produce exactly the notes the hash determines |
| Transcribe.NoteCountRange | api/transcribe.js:130 | hash 0 and every multiple of 12 give 8 notes, hash 11 and -11 give 19, so both ends of 8..19 are reached |
| Transcribe.GeneratedNotesFacts | api/transcribe.js:128-138 | 8 to 19 notes, all from the pool, note i starting within [0.5 i, 0.5 i + 0.2] s, onsets non-negative and strictly increasing |
| Transcribe.ResponseDuration | api/transcribe.js:50 | no notes give 0; when no onset is later than the last, the duration is at least 0.5 s past every onset |
| Transcribe.GeneratedDuration | api/transcribe.js:50 | the duration of generated notes lies in [0.5 n, 0.5 n + 0.2] and at least 0.5 s past every onset |
| AudioPlayer.InitStep | src/utils/audioPlayer.js:8-23 | a call from a consistent state keeps `initialized` implying `initAttempted` and leaves `initAttempted` set; once it was set the call changes nothing |
| AudioPlayer.LatchedStaysLatched | src/utils/audioPlayer.js:9 | after the first attempt no call runs the body or changes a flag |
| AudioPlayer.FirstCallDecides | src/utils/audioPlayer.js:8-23 | over any series of calls the body runs once at most, and the first call's outcome fixes the flags for good |
| AudioPlayer.PendingStartSuspends | src/utils/audioPlayer.js:13-15 | a first call with a stopped context and a pending `Tone.start()` never returns, leaves `initialized` unset for good, and no later call waits again |
| AudioPlayer.RunningContextSkipsStart | src/utils/audioPlayer.js:13-16 | a running context skips `Tone.start()` and still sets `initialized` |
| AudioPlayer.Player.constructor | src/utils/audioPlayer.js:5-6 | both flags start unset |
| AudioPlayer.Player.InitAudio | src/utils/audioPlayer.js:8-23 | the flags move by one latch step; `Tone.start()` is called only on the first call with a stopped context, and the call is reported as never returning exactly when that start stays pending |
| AudioPlayer.DurationOr | src/utils/audioPlayer.js:153 | a given non-zero duration is kept, and the result is never zero |
| AudioPlayer.ScheduleSequence | src/utils/audioPlayer.js:149-155 | one timer per note, note i at i * 60000/tempo ms with its frequency and duration |
| AudioPlayer.SequenceSpacing | src/utils/audioPlayer.js:149-154 | the first note plays at once, and successive notes are 60000/tempo ms apart: 500 ms at tempo 120 |
| AudioPlayer.Player.PlaySequence | src/utils/audioPlayer.js:146-156 | audio is initialised by one latch step; if that step waits on a pending start no timer is set, otherwise the whole schedule is |
| App.Compose | src/App.jsx:27 | the list holds exactly the ding, top and bottom notes that are present, as many as there are of them, the ding first |
| App.AllHandpanNotes | src/App.jsx:24-27 | every note handed to the mapper belongs to the layout of a catalogue entry under the selected key |
| App.DingComesFirst | src/App.jsx:27 | an entry with a ding puts it first in the list |
| App.AllHandpanNotesEmpty | src/App.jsx:24-27 | the note list handed to the mapper is empty for every key |
| App.RemapAlwaysFails | src/App.jsx:27-32 | every non-empty transcription fails to map, whatever the scale |
| App.DingWinsTies | src/App.jsx:27 | a ding as close as every other note wins a tie, because it is listed first |
| App.StartDelay | src/App.jsx:81 | a non-zero onset is the delay in seconds; a missing or zero onset falls back to i half-seconds |
| App.ResetDelay | src/App.jsx:93-98 | the reset fires after the last note's highlight ends |
| App.NoteTimers | src/App.jsx:79-90 | k iterations set 2k timers, each a note start or a note end |
| App.AutoPlaySchedule | src/App.jsx:79-98 | one run sets 2n+1 timers, the reset last and only there |
| App.NoteTimersAt | src/App.jsx:79-90 | after k iterations there are 2k timers, note i's start at index 2i and its end at 2i+1 |
| App.ScheduleShape | src/App.jsx:79-98 | one run sets 2n+1 timers: each note starts at its delay and ends 500 ms later, then comes the reset |
| App.ResetAfterEveryNoteWhenSorted | src/App.jsx:79-98 | with positive onsets none later than the last, the reset fires after every highlight ends |
| App.UnsortedResetComesEarly | src/App.jsx:93-98 | onsets 5 s then 1 s put the reset at 2000 ms, before the first note starts at 5000 ms |
| App.Without | src/App.jsx:87 | the filter removes every copy of the name, keeps every other name as often as before and in the same order |
| App.Highlight | src/App.jsx:39-98 | a start highlights its note alone, an end removes its name and keeps the rest in order, a release or the reset clears all; from at most one note, at most one remains |
| App.NoteOffRemovesOnlyThatName | src/App.jsx:87 | an end leaves its name out and every other name untouched |
| App.AtMostOneHighlighted | src/App.jsx:39-98 | from at most one highlighted note, any order of timer events keeps at most one |
| App.AppState.constructor | src/App.jsx:17-22 | the initial state: default scale, no notes, not loading, not playing, nothing highlighted |
| App.AppState.HandleScaleChange | src/App.jsx:45-47 | the selected key becomes the given key |
| App.AppState.RemapEffect | src/App.jsx:27-37 | with no transcription the notes are cleared; otherwise they become the mapping, or the mapping's error is thrown and the notes stay; a fresh array is stored, and the component renders again, exactly when nothing is thrown |
| App.AppState.HandleYouTubeSearch | src/App.jsx:49-67 | an invalid link alerts and changes nothing; a failed transcription or mapping alerts and keeps the notes; otherwise the notes are stored and mapped; loading ends in all but the first case |
| App.AppState.HandleNoteClick | src/App.jsx:39-43 | the clicked note alone is highlighted, and a release is set for 300 ms later |
| App.AppState.HandleAutoPlay | src/App.jsx:69-99 | with no notes it alerts and changes nothing; otherwise playing starts, the highlight clears and exactly the schedule's timers are set |
| App.AppState.FireTimer | src/App.jsx:83-98 | a fired timer changes the highlight as the event says and ends playback only for the reset, keeping at most one note highlighted |

## Left out

- URL validation and video-id extraction (`validateYouTubeUrl`, `extractYouTubeVideoId`): the search handler takes their verdict as a boolean parameter.
- The transcription request (`transcribeYouTubeAudio`, `fetch`, the endpoint's HTTP handling and CORS headers): the handler takes the outcome as a `Result` parameter. The endpoint's note generation and `duration` expression are modelled.
- Tone.js synthesis (`playNote`, the synth, the envelopes): a note that starts is recorded in its timer event, not played. What the audio context reports during start-up is a parameter.
- Real time: the timers are returned as a list of (delay, event) pairs. The order they fire in is an arbitrary event sequence (`App.Replay`), and JavaScript's clamping of delays is not modelled.
- React rendering and the drawn handpan and score: the effect is a method that the runtime is taken to call after each render.
- Floating point: frequencies, delays and onsets are exact reals. Products such as 392 * 2^(octave-4) are exact, not rounded to IEEE-754 doubles.
- Property lookups on `Object.prototype` (a note named `toString`, say): the name tables are plain maps.
- Transcribed notes are taken to carry a string name and an optional numeric onset; other JavaScript values are not modelled.
- AudioPlayer.ScheduleSequence: requires a positive tempo. A tempo of zero or below would give infinite or negative delays in JavaScript; no caller passes one.
- App.AppState.HandleNoteClick: the release timer is set after `playNote` resolves in the source. The model sets it at once, with no waiting for audio.
- App.ScheduleShape: each end timer is set by its start timer in the source. The model gives its delay from the start of the run, as start delay plus 500 ms.
- App.AppState.RemapEffect: one run of the effect reports whether it causes another render (`rerenders`). The endless series of renders that follows is not unrolled, because rendering is outside the model.
- AudioPlayer.Player.PlaySequence: a `Tone.start()` that stays pending is taken never to settle. The call never returns, no timer is set and the flags stay (unset, set). A start that settles much later, finishing `initAudio` then, is not modelled.
