/** The application component (src/App.jsx): which handpan notes the mapper
    is given, the timers auto-play sets, and how the highlighted notes and
    the playing flag change when those timers fire. */
module App {

  import opened Wrappers
  import opened HandpanScales
  import opened YoutubeExtractor

  // ---------------------------------------------------------------------
  // allHandpanNotes

  /** The three properties the component reads from the selected entry:
      `ding`, `topNotes` and `bottomNotes`, each possibly undefined. */
  datatype InstrumentLayout = InstrumentLayout(
    ding: Option<HandpanNote>,
    topNotes: Option<seq<HandpanNote>>,
    bottomNotes: Option<seq<HandpanNote>>)

  /** Destructuring `handpanScales[selectedScale] || {}`: the entry's three
      properties, or nothing at all from the empty object. */
  function ReadLayout(entry: Option<ScaleEntry>): InstrumentLayout {
    match entry
    case Some(e) => InstrumentLayout(e.ding, e.topNotes, e.bottomNotes)
    case None => InstrumentLayout(None, None, None)
  }

  /** The notes a layout provides. */
  ghost predicate InLayout(layout: InstrumentLayout, h: HandpanNote) {
    || layout.ding == Some(h)
    || (layout.topNotes.Some? && h in layout.topNotes.value)
    || (layout.bottomNotes.Some? && h in layout.bottomNotes.value)
  }

  /** `ding ? [ding, ...topNotes, ...bottomNotes] : [...topNotes, ...bottomNotes]`
      with `topNotes` and `bottomNotes` defaulting to `[]`: every note of the
      layout once per occurrence, the ding first. */
  function Compose(layout: InstrumentLayout): (r: seq<HandpanNote>)
    ensures forall h :: h in r <==> InLayout(layout, h)
    ensures |r| == (if layout.ding.Some? then 1 else 0)
                   + (if layout.topNotes.Some? then |layout.topNotes.value| else 0)
                   + (if layout.bottomNotes.Some? then |layout.bottomNotes.value| else 0)
    ensures layout.ding.Some? ==> r[0] == layout.ding.value
  {
    var top := if layout.topNotes.Some? then layout.topNotes.value else [];
    var bottom := if layout.bottomNotes.Some? then layout.bottomNotes.value else [];
    match layout.ding
    case Some(d) => [d] + top + bottom
    case None => top + bottom
  }

  /** The notes handed to the mapper for the selected key: only notes the
      selected entry's layout provides, and none for an unknown key. */
  function AllHandpanNotes(selectedScale: string): (r: seq<HandpanNote>)
    ensures forall h :: h in r ==>
              selectedScale in CatalogueOrder && InLayout(ReadLayout(Lookup(selectedScale)), h)
  {
    Compose(ReadLayout(Lookup(selectedScale)))
  }

  /** Whatever the key, known or not, the list is empty: no entry defines
      the three properties, and the empty object has none either. */
  lemma AllHandpanNotesEmpty(selectedScale: string)
    ensures AllHandpanNotes(selectedScale) == []
  {
    CatalogueHasNoLayout();
    if selectedScale in Catalogue {
      assert Lookup(selectedScale) == Some(Catalogue[selectedScale]);
    }
  }

  /** Hence every non-empty transcription fails to map, on every key: the
      mapper reads the frequency of the first element of an empty list. */
  lemma RemapAlwaysFails(selectedScale: string, ts: seq<TranscribedNote>)
    requires |ts| > 0
    ensures MapNotes(ts, AllHandpanNotes(selectedScale)) == Failure(NoHandpanNotes)
  {
    AllHandpanNotesEmpty(selectedScale);
    MapNotesShape(ts, AllHandpanNotes(selectedScale));
  }

  /** An entry that did define a ding would see it first in the list. */
  lemma DingComesFirst(e: ScaleEntry)
    requires e.ding.Some?
    ensures Compose(ReadLayout(Some(e)))[0] == e.ding.value
  {
  }

  /** The order of the composed list decides ties: a ding that is at least
      as close as every other note is the one chosen. */
  lemma DingWinsTies(layout: InstrumentLayout, target: real)
    requires layout.ding.Some?
    requires forall h :: h in Compose(layout) ==>
               AbsDiff(layout.ding.value.frequency, target) <= AbsDiff(h.frequency, target)
    ensures Nearest(Compose(layout), target) == 0
    ensures Compose(layout)[0] == layout.ding.value
  {
    var hp := Compose(layout);
    assert hp[0] == layout.ding.value;
    assert IsNearest(hp, target, 0);
    NearestIsEarliestClosest(hp, target);
  }

  // ---------------------------------------------------------------------
  // The auto-play schedule

  /** What a timer does when it fires: highlight a note and play it for
      half a second; remove a note's highlight; end playback; or clear the
      highlight after a click. */
  datatype UiEvent =
    | NoteOn(note: string, frequency: real)
    | NoteOff(note: string)
    | PlaybackDone
    | ClickRelease

  /** A pending timer, its delay in milliseconds counted from the call that
      set it in motion. */
  datatype Timer = Timer(delayMs: real, event: UiEvent)

  /** `time || fallback`: a missing or zero onset is replaced. */
  function TimeOr(time: Option<real>, fallback: real): real {
    match time
    case Some(t) => if t != 0.0 then t else fallback
    case None => fallback
  }

  /** How long a highlight lasts: the end timer is set 500 ms after the
      start timer fires. */
  const HighlightMs: real := 500.0

  /** `(note.time || i * 0.5) * 1000`: a non-zero onset is the delay in
      seconds; a missing or zero onset falls back to i half-seconds. */
  function StartDelay(notes: seq<MappedNote>, i: nat): (d: real)
    requires i < |notes|
    ensures notes[i].time.Some? && notes[i].time.value != 0.0 ==> d == notes[i].time.value * 1000.0
    ensures notes[i].time.None? || notes[i].time == Some(0.0) ==> d == 500.0 * i as real
  {
    TimeOr(notes[i].time, i as real * 0.5) * 1000.0
  }

  /** `(last.time || n * 0.5) * 1000 + 1000`: from the LAST note's onset,
      not the latest one. It always falls after the last note's highlight
      ends. */
  function ResetDelay(notes: seq<MappedNote>): (d: real)
    requires |notes| > 0
    ensures StartDelay(notes, |notes| - 1) + HighlightMs < d
  {
    TimeOr(notes[|notes| - 1].time, |notes| as real * 0.5) * 1000.0 + 1000.0
  }

  /** The start and end timers of the first k notes, in loop order. */
  function NoteTimers(notes: seq<MappedNote>, k: nat): (r: seq<Timer>)
    requires k <= |notes|
    ensures |r| == 2 * k
    ensures forall j :: 0 <= j < |r| ==> r[j].event.NoteOn? || r[j].event.NoteOff?
  {
    if k == 0 then []
    else
      var i := k - 1;
      NoteTimers(notes, i)
      + [Timer(StartDelay(notes, i), NoteOn(notes[i].note, notes[i].frequency)),
         Timer(StartDelay(notes, i) + HighlightMs, NoteOff(notes[i].note))]
  }

  /** Every timer one auto-play run sets: a start and an end per note, then
      the reset. */
  function AutoPlaySchedule(notes: seq<MappedNote>): (r: seq<Timer>)
    requires |notes| > 0
    ensures |r| == 2 * |notes| + 1
    ensures r[|r| - 1] == Timer(ResetDelay(notes), PlaybackDone)
    ensures forall k :: 0 <= k < |r| - 1 ==> r[k].event != PlaybackDone
  {
    NoteTimers(notes, |notes|) + [Timer(ResetDelay(notes), PlaybackDone)]
  }

  lemma {:induction false} NoteTimersAt(notes: seq<MappedNote>, k: nat, i: nat)
    requires i < k <= |notes|
    ensures |NoteTimers(notes, k)| == 2 * k
    ensures NoteTimers(notes, k)[2 * i] == Timer(StartDelay(notes, i), NoteOn(notes[i].note, notes[i].frequency))
    ensures NoteTimers(notes, k)[2 * i + 1] == Timer(StartDelay(notes, i) + HighlightMs, NoteOff(notes[i].note))
  {
    if i < k - 1 {
      NoteTimersAt(notes, k - 1, i);
    } else if k > 1 {
      NoteTimersAt(notes, k - 1, 0);
    }
  }

  /** One run sets 2n + 1 timers: note i starts at its own delay and ends
      500 ms later, and the reset comes last. */
  lemma ScheduleShape(notes: seq<MappedNote>)
    requires |notes| > 0
    ensures |AutoPlaySchedule(notes)| == 2 * |notes| + 1
    ensures forall i :: 0 <= i < |notes| ==>
              && AutoPlaySchedule(notes)[2 * i] == Timer(StartDelay(notes, i), NoteOn(notes[i].note, notes[i].frequency))
              && AutoPlaySchedule(notes)[2 * i + 1] == Timer(StartDelay(notes, i) + HighlightMs, NoteOff(notes[i].note))
    ensures AutoPlaySchedule(notes)[2 * |notes|] == Timer(ResetDelay(notes), PlaybackDone)
  {
    NoteTimersAt(notes, |notes|, 0);
    forall i | 0 <= i < |notes|
      ensures && AutoPlaySchedule(notes)[2 * i] == Timer(StartDelay(notes, i), NoteOn(notes[i].note, notes[i].frequency))
              && AutoPlaySchedule(notes)[2 * i + 1] == Timer(StartDelay(notes, i) + HighlightMs, NoteOff(notes[i].note))
    {
      NoteTimersAt(notes, |notes|, i);
    }
  }

  /** With every onset given, non-zero and no later than the last one (as
      for sorted input), the reset comes after every highlight ends. */
  lemma ResetAfterEveryNoteWhenSorted(notes: seq<MappedNote>)
    requires |notes| > 0
    requires forall i :: 0 <= i < |notes| ==> notes[i].time.Some? && notes[i].time.value > 0.0
    requires forall i :: 0 <= i < |notes| ==> notes[i].time.value <= notes[|notes| - 1].time.value
    ensures forall i :: 0 <= i < |notes| ==> StartDelay(notes, i) + HighlightMs < ResetDelay(notes)
  {
  }

  /** Without that ordering the reset can fire before an earlier note even
      starts: onsets 5 s then 1 s reset at 2000 ms, the first note starting
      at 5000 ms, after playback has been marked over. */
  lemma UnsortedResetComesEarly()
    ensures var notes := [MappedNote("A4", 440.00, 40, Some(5.0)), MappedNote("D4", 293.66, 0, Some(1.0))];
            ResetDelay(notes) == 2000.0 && StartDelay(notes, 0) == 5000.0
  {
  }

  // ---------------------------------------------------------------------
  // The highlighted notes

  /** r can be obtained from s by deleting elements, order kept. */
  ghost predicate SubsequenceOf(r: seq<string>, s: seq<string>)
    decreases |s|
  {
    if |r| == 0 then true
    else if |s| == 0 then false
    else if r[0] == s[0] then SubsequenceOf(r[1..], s[1..])
    else SubsequenceOf(r, s[1..])
  }

  /** `prev.filter((n) => n !== name)`: every other name kept as often as
      before and in the same order. */
  function Without(active: seq<string>, name: string): (r: seq<string>)
    ensures multiset(r) == multiset(active)[name := 0]
    ensures name !in r
    ensures SubsequenceOf(r, active)
    ensures |r| <= |active|
  {
    if |active| == 0 then []
    else
      assert active == [active[0]] + active[1..];
      if active[0] == name then Without(active[1..], name)
      else [active[0]] + Without(active[1..], name)
  }

  /** The highlight after one timer fires: a start shows its note alone, an
      end removes its note, the reset and a click release clear it. */
  function Highlight(active: seq<string>, e: UiEvent): (r: seq<string>)
    ensures |active| <= 1 ==> |r| <= 1
    ensures e.NoteOn? ==> r == [e.note]
    ensures e.NoteOff? ==> e.note !in r && SubsequenceOf(r, active)
    ensures e.PlaybackDone? || e.ClickRelease? ==> r == []
  {
    match e
    case NoteOn(name, _) => [name]
    case NoteOff(name) => Without(active, name)
    case PlaybackDone => []
    case ClickRelease => []
  }

  /** The highlight after timers fire in the given order. */
  function Replay(active: seq<string>, events: seq<UiEvent>): seq<string>
    decreases |events|
  {
    if |events| == 0 then active else Replay(Highlight(active, events[0]), events[1..])
  }

  /** An end removes every copy of its name and nothing else. */
  lemma NoteOffRemovesOnlyThatName(active: seq<string>, name: string)
    ensures name !in Highlight(active, NoteOff(name))
    ensures forall x :: x != name ==>
              multiset(Highlight(active, NoteOff(name)))[x] == multiset(active)[x]
  {
    assert multiset(Highlight(active, NoteOff(name)))[name] == 0;
  }

  /** At most one note is ever highlighted, whatever order the timers fire
      in. */
  lemma {:induction false} AtMostOneHighlighted(active: seq<string>, events: seq<UiEvent>)
    requires |active| <= 1
    ensures |Replay(active, events)| <= 1
    decreases |events|
  {
    if |events| > 0 {
      AtMostOneHighlighted(Highlight(active, events[0]), events[1..]);
    }
  }

  // ---------------------------------------------------------------------
  // The component's state

  /** What the component reports to the user through `alert`. */
  datatype Alert = InvalidUrl | TranscriptionFailed | NothingToPlay

  class AppState {
    var selectedScale: string
    var transcribedNotes: seq<TranscribedNote>
    var currentNotes: seq<MappedNote>
    var isLoading: bool
    var isPlaying: bool
    var activeNotes: seq<string>

    ghost predicate Valid()
      reads this
    {
      |activeNotes| <= 1
    }

    constructor ()
      ensures Valid()
      ensures selectedScale == DefaultScale
      ensures transcribedNotes == [] && currentNotes == [] && activeNotes == []
      ensures !isLoading && !isPlaying
    {
      selectedScale := DefaultScale;
      transcribedNotes := [];
      currentNotes := [];
      isLoading := false;
      isPlaying := false;
      activeNotes := [];
    }

    /** handleScaleChange */
    method HandleScaleChange(scaleKey: string)
      modifies this`selectedScale
      ensures selectedScale == scaleKey
    {
      selectedScale := scaleKey;
    }

    /** The remapping effect. Its dependency list holds `allHandpanNotes`, a
        fresh array on every render, so it runs after every render. A
        mapping error is not caught here; it is returned as `thrown`.
        Whenever it calls `setCurrentNotes` it passes a fresh array, which
        React compares by identity and so renders again: `rerenders`. */
    method RemapEffect() returns (thrown: Option<MapError>, rerenders: bool)
      modifies this`currentNotes
      ensures rerenders <==> thrown.None?
      ensures |transcribedNotes| == 0 ==> currentNotes == [] && thrown == None
      ensures |transcribedNotes| > 0 ==>
                match MapNotes(transcribedNotes, AllHandpanNotes(selectedScale))
                case Success(mapped) => currentNotes == mapped && thrown == None
                case Failure(e) => currentNotes == old(currentNotes) && thrown == Some(e)
    {
      if |transcribedNotes| > 0 {
        var mapped := MapToHandpanNotes(transcribedNotes, AllHandpanNotes(selectedScale));
        match mapped
        case Success(m) =>
          currentNotes := m;
          thrown := None;
        case Failure(e) =>
          thrown := Some(e);
      } else {
        currentNotes := [];
        thrown := None;
      }
      rerenders := thrown.None?;
    }

    /** handleYouTubeSearch, with the URL check and the transcription's
        outcome given: the notes are stored first, then mapped; any failure
        ends in the same alert. */
    method HandleYouTubeSearch(urlValid: bool, transcription: Result<seq<TranscribedNote>, string>)
      returns (alert: Option<Alert>)
      modifies this`transcribedNotes, this`currentNotes, this`isLoading
      ensures !urlValid ==>
                && alert == Some(InvalidUrl)
                && transcribedNotes == old(transcribedNotes) && currentNotes == old(currentNotes)
                && isLoading == old(isLoading)
      ensures urlValid ==> !isLoading
      ensures urlValid && transcription.Failure? ==>
                && alert == Some(TranscriptionFailed)
                && transcribedNotes == old(transcribedNotes) && currentNotes == old(currentNotes)
      ensures urlValid && transcription.Success? ==>
                && transcribedNotes == transcription.value
                && match MapNotes(transcription.value, AllHandpanNotes(old(selectedScale)))
                   case Success(mapped) => currentNotes == mapped && alert == None
                   case Failure(_) => currentNotes == old(currentNotes) && alert == Some(TranscriptionFailed)
    {
      if !urlValid {
        return Some(InvalidUrl);
      }
      isLoading := true;
      alert := None;
      if transcription.Success? {
        transcribedNotes := transcription.value;
        var mapped := MapToHandpanNotes(transcription.value, AllHandpanNotes(selectedScale));
        if mapped.Success? {
          currentNotes := mapped.value;
        } else {
          alert := Some(TranscriptionFailed);
        }
      } else {
        alert := Some(TranscriptionFailed);
      }
      isLoading := false;
    }

    /** handleNoteClick: highlight the clicked note; once it has been played
        a timer clears the highlight 300 ms later. */
    method HandleNoteClick(note: MappedNote) returns (release: Timer)
      requires Valid()
      modifies this`activeNotes
      ensures Valid()
      ensures activeNotes == [note.note]
      ensures release == Timer(300.0, ClickRelease)
    {
      activeNotes := [note.note];
      release := Timer(300.0, ClickRelease);
    }

    /** handleAutoPlay: with nothing to play, alert and change nothing;
        otherwise mark playback as running, clear the highlight, and set every
        timer of the run. No handle to them is kept. */
    method HandleAutoPlay() returns (alert: Option<Alert>, timers: seq<Timer>)
      requires Valid()
      modifies this`isPlaying, this`activeNotes
      ensures Valid()
      ensures |currentNotes| == 0 ==>
                && alert == Some(NothingToPlay) && timers == []
                && isPlaying == old(isPlaying) && activeNotes == old(activeNotes)
      ensures |currentNotes| > 0 ==>
                && alert == None && isPlaying && activeNotes == []
                && timers == AutoPlaySchedule(currentNotes)
    {
      if |currentNotes| == 0 {
        return Some(NothingToPlay), [];
      }
      alert := None;
      isPlaying := true;
      activeNotes := [];
      timers := [];
      for i := 0 to |currentNotes|
        invariant timers == NoteTimers(currentNotes, i)
      {
        var note := currentNotes[i];
        var delay := TimeOr(note.time, i as real * 0.5) * 1000.0;
        timers := timers + [Timer(delay, NoteOn(note.note, note.frequency)),
                            Timer(delay + 500.0, NoteOff(note.note))];
      }
      var totalDuration := TimeOr(currentNotes[|currentNotes| - 1].time, |currentNotes| as real * 0.5);
      timers := timers + [Timer(totalDuration * 1000.0 + 1000.0, PlaybackDone)];
    }

    /** A timer fires. */
    method FireTimer(e: UiEvent)
      requires Valid()
      modifies this`activeNotes, this`isPlaying
      ensures Valid()
      ensures activeNotes == Highlight(old(activeNotes), e)
      ensures isPlaying == (if e == PlaybackDone then false else old(isPlaying))
    {
      match e
      case NoteOn(name, _) =>
        activeNotes := [name];
      case NoteOff(name) =>
        activeNotes := Without(activeNotes, name);
      case PlaybackDone =>
        isPlaying := false;
        activeNotes := [];
      case ClickRelease =>
        activeNotes := [];
    }
  }
}
