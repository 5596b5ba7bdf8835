/** The fixed catalogue of handpan scales (src/data/handpanScales.js).
    Each scale is a list of notes with a pitch name, an exact frequency in Hz
    and a layout angle in degrees on the drawn instrument. */
module HandpanScales {

  import opened Wrappers

  datatype HandpanNote = HandpanNote(note: string, frequency: real, position: int)

  /** A catalogue entry. The literal defines `name` and `notes`; the
      application also reads `ding`, `topNotes` and `bottomNotes` from it,
      which are `None` (undefined) wherever the literal leaves them out. */
  datatype ScaleEntry = ScaleEntry(
    name: string,
    notes: seq<HandpanNote>,
    ding: Option<HandpanNote>,
    topNotes: Option<seq<HandpanNote>>,
    bottomNotes: Option<seq<HandpanNote>>)

  const DKurd19: ScaleEntry := ScaleEntry("D Kurd 19", [
    HandpanNote("D4", 293.66, 0),
    HandpanNote("A4", 440.00, 40),
    HandpanNote("Bb4", 466.16, 80),
    HandpanNote("C5", 523.25, 120),
    HandpanNote("D5", 587.33, 160),
    HandpanNote("E5", 659.25, 200),
    HandpanNote("F5", 698.46, 240),
    HandpanNote("A5", 880.00, 280),
    HandpanNote("Bb5", 932.33, 320)],
    None, None, None)

  const DKurd17: ScaleEntry := ScaleEntry("D Kurd 17", [
    HandpanNote("D4", 293.66, 0),
    HandpanNote("A4", 440.00, 45),
    HandpanNote("Bb4", 466.16, 90),
    HandpanNote("C5", 523.25, 135),
    HandpanNote("D5", 587.33, 180),
    HandpanNote("E5", 659.25, 225),
    HandpanNote("F5", 698.46, 270),
    HandpanNote("A5", 880.00, 315)],
    None, None, None)

  const DMinor19: ScaleEntry := ScaleEntry("D Minor 19", [
    HandpanNote("D4", 293.66, 0),
    HandpanNote("E4", 329.63, 40),
    HandpanNote("F4", 349.23, 80),
    HandpanNote("A4", 440.00, 120),
    HandpanNote("Bb4", 466.16, 160),
    HandpanNote("C5", 523.25, 200),
    HandpanNote("D5", 587.33, 240),
    HandpanNote("E5", 659.25, 280),
    HandpanNote("F5", 698.46, 320)],
    None, None, None)

  const CMajor19: ScaleEntry := ScaleEntry("C Major 19", [
    HandpanNote("C4", 261.63, 0),
    HandpanNote("D4", 293.66, 40),
    HandpanNote("E4", 329.63, 80),
    HandpanNote("F4", 349.23, 120),
    HandpanNote("G4", 392.00, 160),
    HandpanNote("A4", 440.00, 200),
    HandpanNote("B4", 493.88, 240),
    HandpanNote("C5", 523.25, 280),
    HandpanNote("D5", 587.33, 320)],
    None, None, None)

  const EMinor19: ScaleEntry := ScaleEntry("E Minor 19", [
    HandpanNote("E4", 329.63, 0),
    HandpanNote("F#4", 369.99, 40),
    HandpanNote("G4", 392.00, 80),
    HandpanNote("B4", 493.88, 120),
    HandpanNote("C5", 523.25, 160),
    HandpanNote("D5", 587.33, 200),
    HandpanNote("E5", 659.25, 240),
    HandpanNote("F#5", 739.99, 280),
    HandpanNote("G5", 783.99, 320)],
    None, None, None)

  /** The catalogue object, keyed by scale id. */
  const Catalogue: map<string, ScaleEntry> := map[
    "d-kurd-19" := DKurd19,
    "d-kurd-17" := DKurd17,
    "d-minor-19" := DMinor19,
    "c-major-19" := CMajor19,
    "e-minor-19" := EMinor19]

  /** The order in which the object literal defines its keys, which is the
      order the scale selector lists them in. */
  const CatalogueOrder: seq<string> :=
    ["d-kurd-19", "d-kurd-17", "d-minor-19", "c-major-19", "e-minor-19"]

  const DefaultScale: string := "d-kurd-19"

  /** `handpanScales[key]`: the entry stored under one of the five keys,
      and nothing for any other key. */
  function Lookup(key: string): (e: Option<ScaleEntry>)
    ensures e.Some? <==> key in CatalogueOrder
    ensures key == DefaultScale ==> e == Some(DKurd19)
    ensures key == "d-kurd-17" ==> e == Some(DKurd17)
    ensures key == "d-minor-19" ==> e == Some(DMinor19)
    ensures key == "c-major-19" ==> e == Some(CMajor19)
    ensures key == "e-minor-19" ==> e == Some(EMinor19)
  {
    if key in Catalogue then Some(Catalogue[key]) else None
  }

  // ---------------------------------------------------------------------
  // Properties a scale's note list has

  /** Neighbouring notes rise in frequency. */
  ghost predicate AdjacentAscending(ns: seq<HandpanNote>) {
    forall i :: 0 <= i < |ns| - 1 ==> ns[i].frequency < ns[i + 1].frequency
  }

  /** Every earlier note is strictly lower than every later note. */
  ghost predicate StrictlyAscending(ns: seq<HandpanNote>) {
    forall i, j :: 0 <= i < j < |ns| ==> ns[i].frequency < ns[j].frequency
  }

  ghost predicate DistinctNames(ns: seq<HandpanNote>) {
    forall i, j :: 0 <= i < j < |ns| ==> ns[i].note != ns[j].note
  }

  /** Note i sits at i times a fixed step, and the steps divide the circle
      evenly: 360 / 9 = 40 degrees, 360 / 8 = 45 degrees. */
  ghost predicate EvenlySpaced(ns: seq<HandpanNote>) {
    && |ns| > 0
    && 360 % |ns| == 0
    && forall i :: 0 <= i < |ns| ==> ns[i].position == i * (360 / |ns|)
  }

  ghost predicate WellFormedScale(ns: seq<HandpanNote>) {
    && 8 <= |ns| <= 9
    && ns[0].position == 0
    && (forall i :: 0 <= i < |ns| ==> 0 <= ns[i].position < 360)
    && (forall i, j :: 0 <= i < j < |ns| ==> ns[i].position < ns[j].position)
    && (forall i :: 0 <= i < |ns| ==> ns[i].frequency > 0.0)
    && StrictlyAscending(ns)
    && DistinctNames(ns)
  }

  lemma {:induction false} AdjacentAscendingIsStrict(ns: seq<HandpanNote>)
    requires AdjacentAscending(ns)
    ensures StrictlyAscending(ns)
  {
    if |ns| > 1 {
      AdjacentAscendingIsStrict(ns[1..]);
      forall i, j | 0 <= i < j < |ns| ensures ns[i].frequency < ns[j].frequency {
        if i > 0 {
          assert ns[i].frequency == ns[1..][i - 1].frequency;
          assert ns[j].frequency == ns[1..][j - 1].frequency;
        } else if j > 1 {
          assert ns[1].frequency == ns[1..][0].frequency;
          assert ns[j].frequency == ns[1..][j - 1].frequency;
        }
      }
    }
  }

  /** Multiplying by a positive step keeps strict order. */
  lemma {:induction false} StepMonotone(i: int, j: int, step: int)
    requires 0 <= i < j && step > 0
    ensures i * step < j * step
  {
    if j > i + 1 {
      StepMonotone(i, j - 1, step);
    }
  }

  /** Even spacing places the notes in increasing order inside [0, 360),
      the first one at 0. */
  lemma EvenlySpacedOnCircle(ns: seq<HandpanNote>)
    requires EvenlySpaced(ns)
    ensures ns[0].position == 0
    ensures forall i :: 0 <= i < |ns| ==> 0 <= ns[i].position < 360
    ensures forall i, j :: 0 <= i < j < |ns| ==> ns[i].position < ns[j].position
  {
    var n := |ns|;
    var step := 360 / n;
    assert step * n == 360;
    assert step > 0;
    forall i | 0 <= i < n ensures 0 <= ns[i].position < 360 {
      if i > 0 {
        StepMonotone(0, i, step);
      }
      StepMonotone(i, n, step);
    }
    forall i, j | 0 <= i < j < n ensures ns[i].position < ns[j].position {
      StepMonotone(i, j, step);
    }
  }

  /** The first note sits at angle 0 and each next one a fixed step further. */
  ghost predicate SteppedBy(ns: seq<HandpanNote>, step: int) {
    && |ns| > 0
    && ns[0].position == 0
    && forall i :: 0 <= i < |ns| - 1 ==> ns[i + 1].position == ns[i].position + step
  }

  /** Equal steps from 0 put note i at i times the step. */
  lemma {:induction false} SteppedIsLinear(ns: seq<HandpanNote>, step: int)
    requires SteppedBy(ns, step)
    ensures forall i :: 0 <= i < |ns| ==> ns[i].position == i * step
  {
    if |ns| > 1 {
      var init := ns[..|ns| - 1];
      assert forall i :: 0 <= i < |init| ==> init[i] == ns[i];
      SteppedIsLinear(init, step);
      var n := |ns|;
      assert ns[n - 2] == init[n - 2];
      assert ns[n - 1].position == (n - 2) * step + step;
      assert (n - 2) * step + step == (n - 1) * step;
    }
  }

  lemma ScaleWellFormed(ns: seq<HandpanNote>, step: int)
    requires ScaleFacts(ns, step)
    ensures WellFormedScale(ns)
    ensures EvenlySpaced(ns)
  {
    assert 360 / |ns| == step && 360 % |ns| == 0 by {
      if |ns| == 8 {
        assert step == 45;
      } else {
        assert step == 40;
      }
    }
    SteppedIsLinear(ns, step);
    EvenlySpacedOnCircle(ns);
    AdjacentAscendingIsStrict(ns);
  }

  // ---------------------------------------------------------------------
  // Facts about the catalogue

  /** The per-scale facts ScaleWellFormed needs, checked on the constants. */
  ghost predicate ScaleFacts(ns: seq<HandpanNote>, step: int) {
    && 8 <= |ns| <= 9
    && step * |ns| == 360
    && SteppedBy(ns, step)
    && AdjacentAscending(ns)
    && ns[0].frequency > 0.0
    && DistinctNames(ns)
  }

  // Each fact is checked on its own: together they cost the solver far more
  // than apart.

  lemma DKurd19Layout() ensures 8 <= |DKurd19.notes| <= 9 && SteppedBy(DKurd19.notes, 40) {}
  lemma DKurd19Ascending() ensures AdjacentAscending(DKurd19.notes) {}
  lemma DKurd19Names() ensures DistinctNames(DKurd19.notes) {}

  lemma DKurd19WellFormed()
    ensures WellFormedScale(DKurd19.notes) && EvenlySpaced(DKurd19.notes)
  {
    DKurd19Layout();
    DKurd19Ascending();
    DKurd19Names();
    ScaleWellFormed(DKurd19.notes, 40);
  }

  lemma DKurd17Layout() ensures 8 <= |DKurd17.notes| <= 9 && SteppedBy(DKurd17.notes, 45) {}
  lemma DKurd17Ascending() ensures AdjacentAscending(DKurd17.notes) {}
  lemma DKurd17Names() ensures DistinctNames(DKurd17.notes) {}

  lemma DKurd17WellFormed()
    ensures WellFormedScale(DKurd17.notes) && EvenlySpaced(DKurd17.notes)
  {
    DKurd17Layout();
    DKurd17Ascending();
    DKurd17Names();
    ScaleWellFormed(DKurd17.notes, 45);
  }

  lemma DMinor19Layout() ensures 8 <= |DMinor19.notes| <= 9 && SteppedBy(DMinor19.notes, 40) {}
  lemma DMinor19Ascending() ensures AdjacentAscending(DMinor19.notes) {}
  lemma DMinor19Names() ensures DistinctNames(DMinor19.notes) {}

  lemma DMinor19WellFormed()
    ensures WellFormedScale(DMinor19.notes) && EvenlySpaced(DMinor19.notes)
  {
    DMinor19Layout();
    DMinor19Ascending();
    DMinor19Names();
    ScaleWellFormed(DMinor19.notes, 40);
  }

  lemma CMajor19Layout() ensures 8 <= |CMajor19.notes| <= 9 && SteppedBy(CMajor19.notes, 40) {}
  lemma CMajor19Ascending() ensures AdjacentAscending(CMajor19.notes) {}
  lemma CMajor19Names() ensures DistinctNames(CMajor19.notes) {}

  lemma CMajor19WellFormed()
    ensures WellFormedScale(CMajor19.notes) && EvenlySpaced(CMajor19.notes)
  {
    CMajor19Layout();
    CMajor19Ascending();
    CMajor19Names();
    ScaleWellFormed(CMajor19.notes, 40);
  }

  lemma EMinor19Layout() ensures 8 <= |EMinor19.notes| <= 9 && SteppedBy(EMinor19.notes, 40) {}
  lemma EMinor19Ascending() ensures AdjacentAscending(EMinor19.notes) {}
  lemma EMinor19Names() ensures DistinctNames(EMinor19.notes) {}

  lemma EMinor19WellFormed()
    ensures WellFormedScale(EMinor19.notes) && EvenlySpaced(EMinor19.notes)
  {
    EMinor19Layout();
    EMinor19Ascending();
    EMinor19Names();
    ScaleWellFormed(EMinor19.notes, 40);
  }

  /** Every scale of the catalogue has 8 or 9 notes laid out evenly from
      angle 0, rising strictly in frequency, all positive, with distinct
      names (so a name table built from it has no collisions). */
  lemma CatalogueWellFormed()
    ensures forall key :: key in Catalogue ==> WellFormedScale(Catalogue[key].notes)
    ensures forall key :: key in Catalogue ==> EvenlySpaced(Catalogue[key].notes)
  {
    forall key | key in Catalogue
      ensures WellFormedScale(Catalogue[key].notes) && EvenlySpaced(Catalogue[key].notes)
    {
      if key == "d-kurd-19" {
        DKurd19WellFormed();
      } else if key == "d-kurd-17" {
        DKurd17WellFormed();
      } else if key == "d-minor-19" {
        DMinor19WellFormed();
      } else if key == "c-major-19" {
        CMajor19WellFormed();
      } else {
        EMinor19WellFormed();
      }
    }
  }

  /** The layout step is 45 degrees for the 8-note D Kurd 17 and 40 degrees
      for the four 9-note scales: note i sits at i times that step. */
  lemma CatalogueSteps()
    ensures forall key :: key in Catalogue ==>
              var step := if key == "d-kurd-17" then 45 else 40;
              && |Catalogue[key].notes| == 360 / step
              && forall i :: 0 <= i < |Catalogue[key].notes| ==> Catalogue[key].notes[i].position == i * step
  {
    forall key | key in Catalogue
      ensures var step := if key == "d-kurd-17" then 45 else 40;
              && |Catalogue[key].notes| == 360 / step
              && forall i :: 0 <= i < |Catalogue[key].notes| ==> Catalogue[key].notes[i].position == i * step
    {
      if key == "d-kurd-19" {
        DKurd19Layout();
        SteppedIsLinear(DKurd19.notes, 40);
      } else if key == "d-kurd-17" {
        DKurd17Layout();
        SteppedIsLinear(DKurd17.notes, 45);
      } else if key == "d-minor-19" {
        DMinor19Layout();
        SteppedIsLinear(DMinor19.notes, 40);
      } else if key == "c-major-19" {
        CMajor19Layout();
        SteppedIsLinear(CMajor19.notes, 40);
      } else {
        EMinor19Layout();
        SteppedIsLinear(EMinor19.notes, 40);
      }
    }
  }

  /** No entry defines `ding`, `topNotes` or `bottomNotes`: the literal
      gives each scale only a name and a note list. */
  lemma CatalogueHasNoLayout()
    ensures forall key :: key in Catalogue ==>
              && Catalogue[key].ding.None?
              && Catalogue[key].topNotes.None?
              && Catalogue[key].bottomNotes.None?
  {
  }

  /** The default key names an entry of the catalogue. */
  lemma DefaultScaleInCatalogue()
    ensures DefaultScale in Catalogue
    ensures Lookup(DefaultScale) == Some(DKurd19)
    ensures DefaultScale == CatalogueOrder[0]
  {
  }

  /** The listing order covers every key exactly once. */
  lemma CatalogueOrderIsComplete()
    ensures forall i, j :: 0 <= i < j < |CatalogueOrder| ==> CatalogueOrder[i] != CatalogueOrder[j]
    ensures forall key :: key in Catalogue <==> key in CatalogueOrder
  {
  }
}
