/** Pitch-name parsing and the mapping of transcribed notes onto the notes of
    one handpan (src/utils/youtubeExtractor.js). */
module YoutubeExtractor {

  import opened Wrappers
  import opened HandpanScales

  /** A note as the transcription delivers it: a pitch name and an onset in
      seconds, which may be missing. */
  datatype TranscribedNote = TranscribedNote(note: string, time: Option<real>)

  /** A handpan note with the onset of the transcribed note it replaces. */
  datatype MappedNote = MappedNote(note: string, frequency: real, position: int, time: Option<real>)

  /** `{ ...hpNote, time }`: the handpan note's fields plus the given onset. */
  function WithTime(h: HandpanNote, time: Option<real>): MappedNote {
    MappedNote(h.note, h.frequency, h.position, time)
  }

  // ---------------------------------------------------------------------
  // getNoteFrequency

  /** Octave-4 frequencies in twelve-tone equal temperament, A4 = 440 Hz,
      with sharps and flats of the same key given the same value. */
  const NoteTable: map<string, real> := map[
    "C" := 261.63, "C#" := 277.18, "Db" := 277.18,
    "D" := 293.66, "D#" := 311.13, "Eb" := 311.13,
    "E" := 329.63,
    "F" := 349.23, "F#" := 369.99, "Gb" := 369.99,
    "G" := 392.00, "G#" := 415.30, "Ab" := 415.30,
    "A" := 440.00, "A#" := 466.16, "Bb" := 466.16,
    "B" := 493.88]

  predicate IsLetter(c: char) { 'A' <= c <= 'G' }

  predicate IsAccidental(c: char) { c == '#' || c == 'b' }

  predicate IsDigit(c: char) { '0' <= c <= '9' }

  function DigitValue(c: char): (d: nat)
    requires IsDigit(c)
    ensures d <= 9
  {
    c as int - '0' as int
  }

  /** One match of `([A-G][#b]?)(\d)`: where it starts, the letter with its
      accidental, and the octave digit's value. */
  datatype PitchMatch = PitchMatch(start: nat, name: string, octave: nat)

  /** The pattern tried at position p. The optional accidental is greedy, so
      the letter-accidental-digit form is tried before letter-digit. */
  function MatchAt(s: string, p: nat): (m: Option<PitchMatch>)
    ensures m.Some? ==>
              var n := |m.value.name|;
              && m.value.start == p
              && (n == 1 || n == 2)
              && p + n < |s|
              && (n == 2 ==> IsAccidental(s[p + 1]))
              && IsLetter(s[p]) && IsDigit(s[p + n])
              && m.value.name == s[p..p + n]
              && m.value.octave == DigitValue(s[p + n])
    ensures p + 2 < |s| && IsLetter(s[p]) && IsAccidental(s[p + 1]) && IsDigit(s[p + 2]) ==>
              m.Some? && |m.value.name| == 2
    ensures m.None? ==> !(p + 1 < |s| && IsLetter(s[p]) && IsDigit(s[p + 1]))
  {
    if p + 1 < |s| && IsLetter(s[p]) then
      if p + 2 < |s| && IsAccidental(s[p + 1]) && IsDigit(s[p + 2]) then
        Some(PitchMatch(p, s[p..p + 2], DigitValue(s[p + 2])))
      else if IsDigit(s[p + 1]) then
        Some(PitchMatch(p, s[p..p + 1], DigitValue(s[p + 1])))
      else
        None
    else
      None
  }

  /** The unanchored search: the first position at or after `from` where the
      pattern matches. */
  function FirstMatch(s: string, from: nat): (m: Option<PitchMatch>)
    ensures m.Some? ==> from <= m.value.start < |s| && MatchAt(s, m.value.start) == m
    decreases |s| - from
  {
    if from >= |s| then None
    else if MatchAt(s, from).Some? then MatchAt(s, from)
    else FirstMatch(s, from + 1)
  }

  /** 2 to the power e, for the octave multiplier `Math.pow(2, octave - 4)`. */
  function Pow2(e: int): (r: real)
    ensures r > 0.0
    decreases if e < 0 then -e else e
  {
    if e == 0 then 1.0
    else if e > 0 then 2.0 * Pow2(e - 1)
    else Pow2(e + 1) / 2.0
  }

  /** `noteMap[note] || 440`: the table value, or 440 for a name that is not
      a key. */
  function BaseFrequency(name: string): (f: real)
    ensures f > 0.0
  {
    if name in NoteTable then NoteTable[name] else 440.0
  }

  /** The frequency of a pitch name; 440 when no pitch is found in it. */
  function GetNoteFrequency(noteName: string): (f: real)
    ensures f > 0.0
  {
    match FirstMatch(noteName, 0)
    case None => 440.0
    case Some(m) => BaseFrequency(m.name) * Pow2(m.octave - 4)
  }

  /** The search finds the LEFTMOST match: it matches where it says, and the
      pattern fails at every earlier position; when it finds nothing the
      pattern fails everywhere. */
  lemma {:induction false} FirstMatchIsLeftmost(s: string, from: nat)
    ensures FirstMatch(s, from).Some? ==>
              var m := FirstMatch(s, from).value;
              from <= m.start && MatchAt(s, m.start) == Some(m)
              && forall q :: from <= q < m.start ==> MatchAt(s, q).None?
    ensures FirstMatch(s, from).None? ==> forall q :: from <= q ==> MatchAt(s, q).None?
    decreases |s| - from
  {
    if from < |s| && MatchAt(s, from).None? {
      FirstMatchIsLeftmost(s, from + 1);
    }
  }

  /** Without any match of the pattern the result is 440. */
  lemma NoPitchGives440(s: string)
    requires forall q: nat :: MatchAt(s, q).None?
    ensures GetNoteFrequency(s) == 440.0
  {
    FirstMatchIsLeftmost(s, 0);
  }

  /** A pitch written as letter, optional accidental and one digit has
      frequency table[name] * 2^(octave - 4), with 440 standing in for a
      name that is not in the table. */
  lemma PitchFrequency(letter: char, accidental: string, digit: char)
    requires IsLetter(letter) && IsDigit(digit)
    requires accidental == [] || (|accidental| == 1 && IsAccidental(accidental[0]))
    ensures GetNoteFrequency([letter] + accidental + [digit])
            == BaseFrequency([letter] + accidental) * Pow2(DigitValue(digit) - 4)
  {
    var s := [letter] + accidental + [digit];
    var name := [letter] + accidental;
    assert s[0] == letter;
    if accidental == [] {
      assert s[1] == digit;
      assert s[0..1] == name;
    } else {
      assert s[1] == accidental[0] && s[2] == digit;
      assert s[0..2] == name;
    }
    assert FirstMatch(s, 0) == MatchAt(s, 0);
  }

  /** The reference pitches: A4 is 440 Hz, A5 880 Hz, C4 261.63 Hz. */
  lemma ReferencePitches()
    ensures GetNoteFrequency("A4") == 440.0
    ensures GetNoteFrequency("A5") == 880.0
    ensures GetNoteFrequency("A3") == 220.0
    ensures GetNoteFrequency("C4") == 261.63
  {
    PitchFrequency('A', "", '4');
    assert "A4" == ['A'] + "" + ['4'];
    PitchFrequency('A', "", '5');
    assert "A5" == ['A'] + "" + ['5'];
    PitchFrequency('A', "", '3');
    assert "A3" == ['A'] + "" + ['3'];
    PitchFrequency('C', "", '4');
    assert "C4" == ['C'] + "" + ['4'];
    assert ['C'] + "" == "C";
  }

  /** The same law for a letter with an accidental. */
  lemma AccidentalPitch(letter: char, accidental: char, digit: char)
    requires IsLetter(letter) && IsAccidental(accidental) && IsDigit(digit)
    ensures GetNoteFrequency([letter, accidental, digit])
            == BaseFrequency([letter, accidental]) * Pow2(DigitValue(digit) - 4)
  {
    PitchFrequency(letter, [accidental], digit);
    assert [letter] + [accidental] + [digit] == [letter, accidental, digit];
    assert [letter] + [accidental] == [letter, accidental];
  }

  /** Two spellings with the same table value sound the same in every
      octave. */
  lemma SameBaseSameFrequency(l1: char, a1: char, l2: char, a2: char, digit: char)
    requires IsLetter(l1) && IsAccidental(a1) && IsLetter(l2) && IsAccidental(a2) && IsDigit(digit)
    requires BaseFrequency([l1, a1]) == BaseFrequency([l2, a2])
    ensures GetNoteFrequency([l1, a1, digit]) == GetNoteFrequency([l2, a2, digit])
  {
    var s1 := [l1, a1, digit];
    var s2 := [l2, a2, digit];
    assert s1[0..2] == [l1, a1] && s2[0..2] == [l2, a2];
    assert FirstMatch(s1, 0) == Some(PitchMatch(0, [l1, a1], DigitValue(digit)));
    assert FirstMatch(s2, 0) == Some(PitchMatch(0, [l2, a2], DigitValue(digit)));
  }

  /** A sharp and the flat of the next letter name the same frequency, in
      every octave. */
  lemma SharpFlatAlias(digit: char)
    requires IsDigit(digit)
    ensures GetNoteFrequency(['C', '#', digit]) == GetNoteFrequency(['D', 'b', digit])
    ensures GetNoteFrequency(['D', '#', digit]) == GetNoteFrequency(['E', 'b', digit])
    ensures GetNoteFrequency(['F', '#', digit]) == GetNoteFrequency(['G', 'b', digit])
    ensures GetNoteFrequency(['G', '#', digit]) == GetNoteFrequency(['A', 'b', digit])
    ensures GetNoteFrequency(['A', '#', digit]) == GetNoteFrequency(['B', 'b', digit])
  {
    SameBaseSameFrequency('C', '#', 'D', 'b', digit);
    SameBaseSameFrequency('D', '#', 'E', 'b', digit);
    SameBaseSameFrequency('F', '#', 'G', 'b', digit);
    SameBaseSameFrequency('G', '#', 'A', 'b', digit);
    SameBaseSameFrequency('A', '#', 'B', 'b', digit);
  }

  /** Cb, E#, Fb and B# match the pattern but are not table keys. */
  lemma UnknownNames()
    ensures "Cb" !in NoteTable && "E#" !in NoteTable && "Fb" !in NoteTable && "B#" !in NoteTable
  {
  }

  /** So they are priced as A in the written octave. */
  lemma UnknownNamesUseA(digit: char)
    requires IsDigit(digit)
    ensures GetNoteFrequency(['C', 'b', digit]) == 440.0 * Pow2(DigitValue(digit) - 4)
    ensures GetNoteFrequency(['E', '#', digit]) == 440.0 * Pow2(DigitValue(digit) - 4)
    ensures GetNoteFrequency(['F', 'b', digit]) == 440.0 * Pow2(DigitValue(digit) - 4)
    ensures GetNoteFrequency(['B', '#', digit]) == 440.0 * Pow2(DigitValue(digit) - 4)
  {
    UnknownNames();
    AccidentalPitch('C', 'b', digit);
    AccidentalPitch('E', '#', digit);
    AccidentalPitch('F', 'b', digit);
    AccidentalPitch('B', '#', digit);
  }

  /** One octave up doubles the frequency. */
  lemma OctaveDoubles(letter: char, accidental: string, digit: char)
    requires IsLetter(letter) && IsDigit(digit) && digit < '9'
    requires accidental == [] || (|accidental| == 1 && IsAccidental(accidental[0]))
    ensures GetNoteFrequency([letter] + accidental + [(digit as int + 1) as char])
            == 2.0 * GetNoteFrequency([letter] + accidental + [digit])
  {
    var up := (digit as int + 1) as char;
    PitchFrequency(letter, accidental, digit);
    PitchFrequency(letter, accidental, up);
    var e := DigitValue(digit) - 4;
    assert DigitValue(up) - 4 == e + 1;
    if e + 1 > 0 {
      assert Pow2(e + 1) == 2.0 * Pow2(e);
    } else {
      assert Pow2(e) == Pow2(e + 1) / 2.0;
    }
  }

  // ---------------------------------------------------------------------
  // mapToHandpanNotes

  /** The name table the `forEach` fills: each note is stored under its name,
      later notes overwriting earlier ones. */
  function NameTable(hp: seq<HandpanNote>): (t: map<string, HandpanNote>)
    ensures forall n :: n in t <==> exists j :: 0 <= j < |hp| && hp[j].note == n
    ensures forall n :: n in t ==> t[n].note == n && t[n] in hp
  {
    if |hp| == 0 then map[]
    else
      var last := hp[|hp| - 1];
      var t := NameTable(hp[..|hp| - 1]);
      assert forall j :: 0 <= j < |hp| - 1 ==> hp[..|hp| - 1][j] == hp[j];
      t[last.note := last]
  }

  /** Duplicate names: the entry stored under a name is the LAST note
      carrying it. */
  lemma {:induction false} NameTableLastWins(hp: seq<HandpanNote>, j: nat)
    requires j < |hp|
    requires forall k :: j < k < |hp| ==> hp[k].note != hp[j].note
    ensures hp[j].note in NameTable(hp) && NameTable(hp)[hp[j].note] == hp[j]
  {
    if j < |hp| - 1 {
      var init := hp[..|hp| - 1];
      assert forall k :: j < k < |init| ==> init[k] == hp[k];
      NameTableLastWins(init, j);
      assert init[j] == hp[j];
    }
  }

  /** With distinct names (as in every catalogue scale) each note is found
      under its own name. */
  lemma NameTableDistinct(hp: seq<HandpanNote>, j: nat)
    requires j < |hp| && DistinctNames(hp)
    ensures NameTable(hp)[hp[j].note] == hp[j]
  {
    NameTableLastWins(hp, j);
  }

  /** `Math.abs(hpNote.frequency - targetFreq)` */
  function AbsDiff(frequency: real, target: real): real {
    if frequency >= target then frequency - target else target - frequency
  }

  /** Index k is a closest note to the target, and every earlier note is
      strictly farther away (the earliest of the closest). */
  ghost predicate IsNearest(hp: seq<HandpanNote>, target: real, k: nat) {
    && k < |hp|
    && (forall j :: 0 <= j < |hp| ==> AbsDiff(hp[k].frequency, target) <= AbsDiff(hp[j].frequency, target))
    && (forall j :: 0 <= j < k ==> AbsDiff(hp[k].frequency, target) < AbsDiff(hp[j].frequency, target))
  }

  /** The scan from index j with `best` the closest note so far; a note
      replaces it only when it is strictly closer. */
  function ScanNearest(hp: seq<HandpanNote>, target: real, j: nat, best: nat): (k: nat)
    requires best < |hp| && j <= |hp|
    ensures k < |hp|
    decreases |hp| - j
  {
    if j == |hp| then best
    else if AbsDiff(hp[j].frequency, target) < AbsDiff(hp[best].frequency, target) then
      ScanNearest(hp, target, j + 1, j)
    else
      ScanNearest(hp, target, j + 1, best)
  }

  /** The closest note, starting from the first one. */
  function Nearest(hp: seq<HandpanNote>, target: real): (k: nat)
    requires |hp| > 0
    ensures k < |hp|
  {
    ScanNearest(hp, target, 0, 0)
  }

  lemma {:induction false} ScanNearestCorrect(hp: seq<HandpanNote>, target: real, j: nat, best: nat)
    requires best < |hp| && j <= |hp| && best <= j
    requires forall i :: 0 <= i < j ==> AbsDiff(hp[best].frequency, target) <= AbsDiff(hp[i].frequency, target)
    requires forall i :: 0 <= i < best ==> AbsDiff(hp[best].frequency, target) < AbsDiff(hp[i].frequency, target)
    ensures IsNearest(hp, target, ScanNearest(hp, target, j, best))
    decreases |hp| - j
  {
    if j < |hp| {
      if AbsDiff(hp[j].frequency, target) < AbsDiff(hp[best].frequency, target) {
        ScanNearestCorrect(hp, target, j + 1, j);
      } else {
        ScanNearestCorrect(hp, target, j + 1, best);
      }
    }
  }

  /** The scan returns the earliest closest note, and that index is the only
      one with this property. */
  lemma NearestIsEarliestClosest(hp: seq<HandpanNote>, target: real)
    requires |hp| > 0
    ensures IsNearest(hp, target, Nearest(hp, target))
    ensures forall k: nat :: IsNearest(hp, target, k) ==> k == Nearest(hp, target)
  {
    ScanNearestCorrect(hp, target, 0, 0);
  }

  /** Reading `handpanNotes[0].frequency` of an empty list throws. */
  datatype MapError = NoHandpanNotes

  /** One transcribed note: the entry stored under its name if there is one,
      otherwise the closest note by frequency; the onset is carried over. */
  function MapOne(t: TranscribedNote, hp: seq<HandpanNote>): (r: Result<MappedNote, MapError>)
    ensures r.Failure? <==> |hp| == 0
    ensures r.Success? ==> r.value.time == t.time
  {
    var table := NameTable(hp);
    if t.note in table then Success(WithTime(table[t.note], t.time))
    else if |hp| == 0 then Failure(NoHandpanNotes)
    else Success(WithTime(hp[Nearest(hp, GetNoteFrequency(t.note))], t.time))
  }

  /** The notes mapped one by one in order; the first failure ends the map. */
  function MapNotes(ts: seq<TranscribedNote>, hp: seq<HandpanNote>): (r: Result<seq<MappedNote>, MapError>)
    ensures r.Success? ==> |r.value| == |ts|
    ensures |hp| > 0 ==> r.Success?
    decreases |ts|
  {
    if |ts| == 0 then Success([])
    else match MapNotes(ts[..|ts| - 1], hp)
      case Failure(e) => Failure(e)
      case Success(prefix) =>
        match MapOne(ts[|ts| - 1], hp)
        case Failure(e) => Failure(e)
        case Success(m) => Success(prefix + [m])
  }

  /** The map fails exactly when there is a note to map and no handpan note
      to map it to; otherwise it has one output per input, in order, each
      the single-note mapping of its input, carrying that input's onset. */
  lemma {:induction false} MapNotesShape(ts: seq<TranscribedNote>, hp: seq<HandpanNote>)
    ensures MapNotes(ts, hp).Failure? <==> |ts| > 0 && |hp| == 0
    ensures MapNotes(ts, hp).Failure? ==> MapNotes(ts, hp) == Failure(NoHandpanNotes)
    ensures MapNotes(ts, hp).Success? ==>
              var out := MapNotes(ts, hp).value;
              && |out| == |ts|
              && (forall i :: 0 <= i < |ts| ==> MapOne(ts[i], hp) == Success(out[i]))
              && (forall i :: 0 <= i < |ts| ==> out[i].time == ts[i].time)
    decreases |ts|
  {
    if |ts| > 0 {
      var init := ts[..|ts| - 1];
      MapNotesShape(init, hp);
      if |hp| > 0 {
        var out := MapNotes(ts, hp).value;
        forall i | 0 <= i < |ts| ensures MapOne(ts[i], hp) == Success(out[i]) {
          if i < |ts| - 1 {
            assert init[i] == ts[i];
          }
        }
      }
    }
  }

  /** Exact path: when a handpan note has the input's name, the output is
      the last such note with the input's onset. */
  lemma MapOneExact(t: TranscribedNote, hp: seq<HandpanNote>, j: nat)
    requires j < |hp| && hp[j].note == t.note
    requires forall k :: j < k < |hp| ==> hp[k].note != t.note
    ensures MapOne(t, hp) == Success(WithTime(hp[j], t.time))
  {
    NameTableLastWins(hp, j);
  }

  /** Fallback path: when no handpan note has the input's name, the output
      is the earliest of the notes closest to the input's frequency. */
  lemma MapOneNearest(t: TranscribedNote, hp: seq<HandpanNote>)
    requires |hp| > 0
    requires forall k :: 0 <= k < |hp| ==> hp[k].note != t.note
    ensures exists k: nat :: IsNearest(hp, GetNoteFrequency(t.note), k)
                             && MapOne(t, hp) == Success(WithTime(hp[k], t.time))
  {
    var target := GetNoteFrequency(t.note);
    NearestIsEarliestClosest(hp, target);
    var k := Nearest(hp, target);
    assert IsNearest(hp, target, k) && MapOne(t, hp) == Success(WithTime(hp[k], t.time));
  }

  /** Every output is one of the handpan notes with only the onset
      replaced. */
  lemma MapOneIsMember(t: TranscribedNote, hp: seq<HandpanNote>)
    requires MapOne(t, hp).Success?
    ensures exists j :: 0 <= j < |hp| && MapOne(t, hp).value == WithTime(hp[j], t.time)
  {
    var table := NameTable(hp);
    if t.note in table {
      var j :| 0 <= j < |hp| && hp[j].note == t.note;
      while j + 1 < |hp| && exists k :: j < k < |hp| && hp[k].note == t.note
        invariant j < |hp| && hp[j].note == t.note
        decreases |hp| - j
      {
        var later :| j < later < |hp| && hp[later].note == t.note;
        j := later;
      }
      assert forall k :: j < k < |hp| ==> hp[k].note != t.note;
      MapOneExact(t, hp, j);
    } else {
      var k := Nearest(hp, GetNoteFrequency(t.note));
      NearestIsEarliestClosest(hp, GetNoteFrequency(t.note));
    }
  }

  /** The closest-note scan of the fallback path, as the source writes it:
      `closest` starts as the first note and is replaced only by a strictly
      closer one. */
  method ClosestIndex(hp: seq<HandpanNote>, target: real) returns (closest: nat)
    requires |hp| > 0
    ensures IsNearest(hp, target, closest)
    ensures closest == Nearest(hp, target)
  {
    closest := 0;
    var minDiff := AbsDiff(hp[0].frequency, target);
    for j := 0 to |hp|
      invariant closest < |hp| && closest <= j
      invariant minDiff == AbsDiff(hp[closest].frequency, target)
      invariant forall i :: 0 <= i < j ==> minDiff <= AbsDiff(hp[i].frequency, target)
      invariant forall i :: 0 <= i < closest ==> minDiff < AbsDiff(hp[i].frequency, target)
    {
      var diff := AbsDiff(hp[j].frequency, target);
      if diff < minDiff {
        minDiff := diff;
        closest := j;
      }
    }
    NearestIsEarliestClosest(hp, target);
  }

  /** mapToHandpanNotes: fill the name table, then map each transcribed note
      in order. */
  method MapToHandpanNotes(transcribedNotes: seq<TranscribedNote>, handpanNotes: seq<HandpanNote>)
    returns (r: Result<seq<MappedNote>, MapError>)
    ensures r == MapNotes(transcribedNotes, handpanNotes)
  {
    var noteMap: map<string, HandpanNote> := map[];
    for k := 0 to |handpanNotes|
      invariant noteMap == NameTable(handpanNotes[..k])
    {
      assert handpanNotes[..k + 1][..k] == handpanNotes[..k];
      noteMap := noteMap[handpanNotes[k].note := handpanNotes[k]];
    }
    assert handpanNotes[..|handpanNotes|] == handpanNotes;

    var out: seq<MappedNote> := [];
    for i := 0 to |transcribedNotes|
      invariant MapNotes(transcribedNotes[..i], handpanNotes) == Success(out)
    {
      var transNote := transcribedNotes[i];
      assert transcribedNotes[..i + 1][..i] == transcribedNotes[..i];
      if transNote.note in noteMap {
        out := out + [WithTime(noteMap[transNote.note], transNote.time)];
      } else {
        if |handpanNotes| == 0 {
          MapNotesShape(transcribedNotes, handpanNotes);
          return Failure(NoHandpanNotes);
        }
        var targetFreq := GetNoteFrequency(transNote.note);
        var closest := ClosestIndex(handpanNotes, targetFreq);
        out := out + [WithTime(handpanNotes[closest], transNote.time)];
      }
    }
    assert transcribedNotes[..|transcribedNotes|] == transcribedNotes;
    return Success(out);
  }

  /** A G4 (392 Hz) is not on D Kurd 19; its closest note is A4 at 440 Hz
      (48 Hz away, against 98.34 Hz to D4 and 74.16 Hz to Bb4). */
  lemma GFourOnDKurd19()
    ensures MapOne(TranscribedNote("G4", Some(0.5)), DKurd19.notes)
            == Success(MappedNote("A4", 440.00, 40, Some(0.5)))
  {
    var hp := DKurd19.notes;
    GFourIs392();
    GFourNotOnDKurd19();
    ClosestToGFourOnDKurd19();
    NearestIsEarliestClosest(hp, 392.0);
  }

  lemma GFourIs392()
    ensures GetNoteFrequency("G4") == 392.0
  {
    PitchFrequency('G', "", '4');
    assert "G4" == ['G'] + "" + ['4'];
    assert ['G'] + "" == "G";
  }

  lemma GFourNotOnDKurd19()
    ensures "G4" !in NameTable(DKurd19.notes)
  {
  }

  lemma ClosestToGFourOnDKurd19()
    ensures IsNearest(DKurd19.notes, 392.0, 1)
  {
  }
}
