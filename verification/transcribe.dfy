/** The placeholder transcription of the serverless endpoint
    (api/transcribe.js): a 32-bit string hash of the video id drives a
    deterministic list of notes, and the response carries a duration derived
    from the last note. */
module Transcribe {

  const TwoTo31: int := 0x8000_0000
  const TwoTo32: int := 0x1_0000_0000

  /** A UTF-16 code unit, the value `charCodeAt` returns. */
  type CodeUnit = c: int | 0 <= c < 0x1_0000

  /** JavaScript's ToInt32: the integer congruent to x modulo 2^32 that lies
      in [-2^31, 2^31). */
  function ToInt32(x: int): (r: int)
    ensures -TwoTo31 <= r < TwoTo31
    ensures (x - r) % TwoTo32 == 0
  {
    (x + TwoTo31) % TwoTo32 - TwoTo31
  }

  /** Congruent inputs give the same 32-bit value. */
  lemma ToInt32Congruent(x: int, y: int, k: int)
    requires x == y + k * TwoTo32
    ensures ToInt32(x) == ToInt32(y)
  {
    var q := (y + TwoTo31) / TwoTo32;
    var r := (y + TwoTo31) % TwoTo32;
    assert x + TwoTo31 == (q + k) * TwoTo32 + r;
  }

  /** ToInt32(x) is x minus a whole number of 2^32 steps. */
  lemma ToInt32Offset(x: int) returns (k: int)
    ensures ToInt32(x) == x + k * TwoTo32
  {
    k := -((x + TwoTo31) / TwoTo32);
  }

  /** One step of the loop, as written: `((hash << 5) - hash) + code`, where
      `<<` first truncates hash to 32 bits and truncates the shifted value,
      and then `hash & hash` truncates the sum. */
  function HashStep(hash: int, code: CodeUnit): (h: int)
    ensures -TwoTo31 <= h < TwoTo31
  {
    var shifted := ToInt32(ToInt32(hash) * 32);
    ToInt32(shifted - hash + code)
  }

  /** The step is Java's String.hashCode step, 31 * hash + code, taken
      modulo 2^32. */
  lemma HashStepIsTimes31(hash: int, code: CodeUnit)
    ensures HashStep(hash, code) == ToInt32(31 * hash + code)
  {
    var k1 := ToInt32Offset(hash);
    var k2 := ToInt32Offset(ToInt32(hash) * 32);
    var shifted := ToInt32(ToInt32(hash) * 32);
    assert shifted - hash + code == 31 * hash + code + (32 * k1 + k2) * TwoTo32;
    ToInt32Congruent(shifted - hash + code, 31 * hash + code, 32 * k1 + k2);
  }

  /** The hash after the whole id: the loop's fold from 0, left to right. */
  function HashOf(videoId: seq<CodeUnit>): (h: int)
    ensures -TwoTo31 <= h < TwoTo31
  {
    if |videoId| == 0 then 0
    else HashStep(HashOf(videoId[..|videoId| - 1]), videoId[|videoId| - 1])
  }

  /** Reference: the polynomial sum of code[k] * 31^(n-1-k), unbounded. */
  function Polynomial(s: seq<CodeUnit>): int {
    if |s| == 0 then 0 else 31 * Polynomial(s[..|s| - 1]) + s[|s| - 1]
  }

  /** The loop computes the polynomial hash truncated to 32 bits, the value
      of Java's String.hashCode on the same code units. */
  lemma {:induction false} HashIsTruncatedPolynomial(videoId: seq<CodeUnit>)
    ensures HashOf(videoId) == ToInt32(Polynomial(videoId))
  {
    if |videoId| > 0 {
      var init := videoId[..|videoId| - 1];
      var c := videoId[|videoId| - 1];
      HashIsTruncatedPolynomial(init);
      HashStepIsTimes31(HashOf(init), c);
      StepRespectsTruncation(HashOf(init), Polynomial(init), c);
    }
  }

  /** Truncating before a step gives the same 32-bit value as truncating
      after it. */
  lemma StepRespectsTruncation(h: int, p: int, c: CodeUnit)
    requires h == ToInt32(p)
    ensures ToInt32(31 * h + c) == ToInt32(31 * p + c)
  {
    var k := ToInt32Offset(p);
    ToInt32Congruent(31 * h + c, 31 * p + c, 31 * k);
  }

  /** A generated note: a pitch name and an onset in seconds. */
  datatype Note = Note(note: string, time: real)

  const NotePool: seq<string> :=
    ["C4", "D4", "E4", "F4", "G4", "A4", "B4", "C5", "D5", "E5", "F5", "G5", "A5"]

  function Abs(x: int): nat {
    if x < 0 then -x else x
  }

  /** `8 + (Math.abs(hash) % 12)`: between 8 and 19 notes. */
  function NoteCount(hash: int): (n: nat)
    ensures 8 <= n <= 19
  {
    8 + Abs(hash) % 12
  }

  /** Note i: the pool entry at |hash + 7i| mod 13, at 0.5 i seconds plus
      0.1 times |hash + i| mod 3. */
  function NoteAt(hash: int, i: nat): (n: Note)
    ensures n.note in NotePool
    ensures i as real * 0.5 <= n.time <= i as real * 0.5 + 0.2
  {
    Note(NotePool[Abs(hash + i * 7) % |NotePool|],
         i as real * 0.5 + (Abs(hash + i) % 3) as real * 0.1)
  }

  /** The notes generated for a video id. */
  function GeneratedNotes(videoId: seq<CodeUnit>): seq<Note> {
    var hash := HashOf(videoId);
    seq(NoteCount(hash), i requires 0 <= i => NoteAt(hash, i))
  }

  /** generateNotesFromVideoId: the hash loop, then the note loop. */
  method GenerateNotesFromVideoId(videoId: seq<CodeUnit>) returns (notes: seq<Note>)
    ensures notes == GeneratedNotes(videoId)
  {
    var hash := 0;
    for i := 0 to |videoId|
      invariant hash == HashOf(videoId[..i])
    {
      assert videoId[..i + 1][..i] == videoId[..i];
      hash := HashStep(hash, videoId[i]);
    }
    assert videoId[..|videoId|] == videoId;

    notes := [];
    var numNotes := 8 + Abs(hash) % 12;
    for i := 0 to numNotes
      invariant |notes| == i
      invariant forall k :: 0 <= k < i ==> notes[k] == NoteAt(hash, k)
    {
      var noteIndex := Abs(hash + i * 7) % |NotePool|;
      notes := notes + [Note(NotePool[noteIndex], i as real * 0.5 + (Abs(hash + i) % 3) as real * 0.1)];
    }
  }

  /** Both ends of the range are reached: 8 notes for hash 0 and for every
      multiple of 12, 19 for hash 11 and for -11; 20 never is. */
  lemma NoteCountRange(hash: int)
    ensures NoteCount(0) == 8 && NoteCount(11) == 19 && NoteCount(-11) == 19
    ensures hash % 12 == 0 ==> NoteCount(hash) == 8
  {
  }

  /** Every generated note names a pool pitch, and note i starts within
      [0.5 i, 0.5 i + 0.2] seconds, so onsets are non-negative and strictly
      increasing. */
  lemma GeneratedNotesFacts(videoId: seq<CodeUnit>)
    ensures 8 <= |GeneratedNotes(videoId)| <= 19
    ensures forall i :: 0 <= i < |GeneratedNotes(videoId)| ==> GeneratedNotes(videoId)[i].note in NotePool
    ensures forall i :: 0 <= i < |GeneratedNotes(videoId)| ==>
              i as real * 0.5 <= GeneratedNotes(videoId)[i].time <= i as real * 0.5 + 0.2
    ensures forall i, j :: 0 <= i < j < |GeneratedNotes(videoId)| ==>
              0.0 <= GeneratedNotes(videoId)[i].time < GeneratedNotes(videoId)[j].time
  {
    var ns := GeneratedNotes(videoId);
    forall i, j | 0 <= i < j < |ns| ensures 0.0 <= ns[i].time < ns[j].time {
      assert ns[i].time <= i as real * 0.5 + 0.2;
      assert j as real * 0.5 <= ns[j].time;
    }
  }

  /** The response's `duration`: the last note's onset plus half a second,
      or 0 without notes. When no onset is later than the last one, it lies
      half a second or more past every onset. */
  function ResponseDuration(notes: seq<Note>): (d: real)
    ensures |notes| == 0 ==> d == 0.0
    ensures (forall i :: 0 <= i < |notes| ==> notes[i].time <= notes[|notes| - 1].time) ==>
              forall i :: 0 <= i < |notes| ==> notes[i].time + 0.5 <= d
  {
    if |notes| > 0 then notes[|notes| - 1].time + 0.5 else 0.0
  }

  /** For generated notes the duration is within [0.5 n, 0.5 n + 0.2] for n
      notes and lies half a second or more past every onset. */
  lemma GeneratedDuration(videoId: seq<CodeUnit>)
    ensures var ns := GeneratedNotes(videoId);
            && (|ns| as real) * 0.5 <= ResponseDuration(ns) <= (|ns| as real) * 0.5 + 0.2
            && forall i :: 0 <= i < |ns| ==> ns[i].time + 0.5 <= ResponseDuration(ns)
  {
    GeneratedNotesFacts(videoId);
  }
}
