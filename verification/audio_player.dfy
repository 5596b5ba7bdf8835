/** The audio start-up latch and the sequence scheduler
    (src/utils/audioPlayer.js). Tone.js itself is outside the model: what it
    reports during start-up is a parameter. */
module AudioPlayer {

  import opened Wrappers

  /** How `Tone.start()` settles if it is called: it resolves, it rejects,
      or (without a user gesture) it stays pending. */
  datatype StartOutcome = Resolves | Rejects | Pending

  /** What the audio library reports while `initAudio` runs: whether its
      context is already running, and how `Tone.start()` settles. */
  datatype ToneEnv = ToneEnv(contextRunning: bool, start: StartOutcome)

  /** The two module-level flags. */
  datatype LatchState = LatchState(initialized: bool, initAttempted: bool)

  const Fresh: LatchState := LatchState(false, false)

  /** The only states the flags can reach: `initialized` is set after
      `initAttempted`. */
  ghost predicate Consistent(s: LatchState) {
    s.initialized ==> s.initAttempted
  }

  /** Whether a call runs the guarded body. */
  predicate BodyRuns(s: LatchState) {
    !s.initialized && !s.initAttempted
  }

  /** Whether a call invokes `Tone.start()`. */
  predicate StartCalled(s: LatchState, env: ToneEnv) {
    BodyRuns(s) && !env.contextRunning
  }

  /** Whether the call waits on a start that never settles, so that
      `await initAudio()` never returns. */
  predicate Suspends(s: LatchState, env: ToneEnv) {
    StartCalled(s, env) && env.start == Pending
  }

  /** The flags after one call: when the body runs, `initAttempted` is set
      first, and `initialized` only if the context was running or the start
      resolved; a rejection is swallowed, and a pending start leaves
      `initialized` unset. Every call keeps the flags consistent, leaves
      `initAttempted` set from a consistent state, and changes nothing once it was set. */
  function InitStep(s: LatchState, env: ToneEnv): (r: LatchState)
    ensures Consistent(s) ==> Consistent(r) && r.initAttempted
    ensures s.initAttempted ==> r == s
  {
    if BodyRuns(s) then LatchState(env.contextRunning || env.start == Resolves, true)
    else s
  }

  /** The flags after a series of calls, in order. */
  function RunInits(s: LatchState, envs: seq<ToneEnv>): LatchState
    decreases |envs|
  {
    if |envs| == 0 then s else RunInits(InitStep(s, envs[0]), envs[1..])
  }

  /** How many of those calls run the body. */
  function BodyRunCount(s: LatchState, envs: seq<ToneEnv>): nat
    decreases |envs|
  {
    if |envs| == 0 then 0
    else (if BodyRuns(s) then 1 else 0) + BodyRunCount(InitStep(s, envs[0]), envs[1..])
  }

  /** Once the latch is set no later call runs the body or changes a flag. */
  lemma {:induction false} LatchedStaysLatched(s: LatchState, envs: seq<ToneEnv>)
    requires Consistent(s) && s.initAttempted
    ensures BodyRunCount(s, envs) == 0
    ensures RunInits(s, envs) == s
    decreases |envs|
  {
    if |envs| > 0 {
      LatchedStaysLatched(InitStep(s, envs[0]), envs[1..]);
    }
  }

  /** From the fresh flags, the body runs at most once over any series of
      calls, and the first call alone decides the final flags: a rejected
      start leaves `initialized` false for good, and a running context or a
      resolved start sets it for good. */
  lemma {:induction false} FirstCallDecides(envs: seq<ToneEnv>)
    ensures BodyRunCount(Fresh, envs) <= 1
    ensures BodyRunCount(Fresh, envs) == (if |envs| == 0 then 0 else 1)
    ensures RunInits(Fresh, envs)
            == if |envs| == 0 then Fresh
               else LatchState(envs[0].contextRunning || envs[0].start == Resolves, true)
  {
    if |envs| > 0 {
      var after := InitStep(Fresh, envs[0]);
      LatchedStaysLatched(after, envs[1..]);
    }
  }

  /** A first call with a stopped context and a start that stays pending
      never returns; `initialized` stays unset and no later call tries
      again. */
  lemma PendingStartSuspends(env: ToneEnv, later: seq<ToneEnv>)
    requires !env.contextRunning && env.start == Pending
    ensures Suspends(Fresh, env)
    ensures RunInits(Fresh, [env] + later) == LatchState(false, true)
    ensures forall k :: 0 <= k < |later| ==> !Suspends(RunInits(Fresh, [env] + later[..k]), later[k])
  {
    FirstCallDecides([env] + later);
    forall k | 0 <= k < |later|
      ensures !Suspends(RunInits(Fresh, [env] + later[..k]), later[k])
    {
      assert ([env] + later[..k])[1..] == later[..k];
      LatchedStaysLatched(InitStep(Fresh, env), later[..k]);
    }
  }

  /** A running context skips `Tone.start()` and still sets `initialized`. */
  lemma RunningContextSkipsStart(env: ToneEnv)
    requires env.contextRunning
    ensures !StartCalled(Fresh, env)
    ensures InitStep(Fresh, env) == LatchState(true, true)
  {
  }

  // ---------------------------------------------------------------------
  // playSequence

  /** A note handed to `playSequence`: its frequency and an optional
      duration in seconds. */
  datatype SequenceNote = SequenceNote(frequency: real, duration: Option<real>)

  /** One pending `setTimeout`: after delayMs it plays the frequency for the
      duration. */
  datatype SoundTimer = SoundTimer(delayMs: real, frequency: real, duration: real)

  const DefaultTempo: real := 120.0

  /** `duration || 0.3`: a missing or zero duration becomes 0.3 s. */
  function DurationOr(d: Option<real>): (r: real)
    ensures r != 0.0
    ensures d.Some? && d.value != 0.0 ==> r == d.value
  {
    match d
    case Some(x) => if x != 0.0 then x else 0.3
    case None => 0.3
  }

  /** Seconds per beat, `60 / tempo`. */
  function BeatSeconds(tempo: real): real
    requires tempo > 0.0
  {
    60.0 / tempo
  }

  /** The timer `playSequence` sets for note i. */
  function SequenceTimer(notes: seq<SequenceNote>, tempo: real, i: nat): SoundTimer
    requires tempo > 0.0 && i < |notes|
  {
    SoundTimer(i as real * BeatSeconds(tempo) * 1000.0, notes[i].frequency, DurationOr(notes[i].duration))
  }

  /** The scheduling loop of `playSequence`. */
  method ScheduleSequence(notes: seq<SequenceNote>, tempo: real) returns (timers: seq<SoundTimer>)
    requires tempo > 0.0
    ensures |timers| == |notes|
    ensures forall i :: 0 <= i < |notes| ==> timers[i] == SequenceTimer(notes, tempo, i)
  {
    var delay := 60.0 / tempo;
    timers := [];
    for i := 0 to |notes|
      invariant |timers| == i
      invariant forall k :: 0 <= k < i ==> timers[k] == SequenceTimer(notes, tempo, k)
    {
      timers := timers + [SoundTimer(i as real * delay * 1000.0, notes[i].frequency, DurationOr(notes[i].duration))];
    }
  }

  /** The first note plays at once, and each next one 60000 / tempo ms
      later: every 500 ms at the default tempo of 120. */
  lemma SequenceSpacing(notes: seq<SequenceNote>, tempo: real)
    requires tempo > 0.0
    ensures |notes| > 0 ==> SequenceTimer(notes, tempo, 0).delayMs == 0.0
    ensures forall i :: 0 <= i < |notes| - 1 ==>
              SequenceTimer(notes, tempo, i + 1).delayMs - SequenceTimer(notes, tempo, i).delayMs
              == 60000.0 / tempo
    ensures tempo == DefaultTempo ==>
              forall i :: 0 <= i < |notes| ==> SequenceTimer(notes, tempo, i).delayMs == 500.0 * i as real
  {
    var b := BeatSeconds(tempo);
    assert b * tempo == 60.0;
    forall i | 0 <= i < |notes| - 1
      ensures SequenceTimer(notes, tempo, i + 1).delayMs - SequenceTimer(notes, tempo, i).delayMs == 60000.0 / tempo
    {
      assert (i + 1) as real * b * 1000.0 - i as real * b * 1000.0 == b * 1000.0;
      assert b * 1000.0 == 60000.0 / tempo;
    }
  }

  /** The module-level flags and the operations that use them. */
  class Player {
    var initialized: bool
    var initAttempted: bool

    function State(): LatchState
      reads this
    {
      LatchState(initialized, initAttempted)
    }

    constructor ()
      ensures State() == Fresh
    {
      initialized := false;
      initAttempted := false;
    }

    /** initAudio: run the body only if neither flag is set; latch
        `initAttempted` before trying to start the context. */
    method InitAudio(env: ToneEnv) returns (startCalled: bool, suspended: bool)
      modifies this
      ensures State() == InitStep(old(State()), env)
      ensures startCalled == StartCalled(old(State()), env)
      ensures suspended == Suspends(old(State()), env)
    {
      startCalled := false;
      suspended := false;
      if !initialized && !initAttempted {
        initAttempted := true;
        if !env.contextRunning {
          startCalled := true;
          match env.start
          case Pending =>
            suspended := true;
            return;
          case Rejects =>
            return;
          case Resolves =>
        }
        initialized := true;
      }
    }

    /** playSequence: initialise audio, then set one timer per note; while
        the start stays pending the call waits and sets none. */
    method PlaySequence(notes: seq<SequenceNote>, tempo: real, env: ToneEnv)
      returns (timers: seq<SoundTimer>)
      requires tempo > 0.0
      modifies this
      ensures State() == InitStep(old(State()), env)
      ensures Suspends(old(State()), env) ==> timers == []
      ensures !Suspends(old(State()), env) ==>
                && |timers| == |notes|
                && forall i :: 0 <= i < |notes| ==> timers[i] == SequenceTimer(notes, tempo, i)
    {
      var _, suspended := InitAudio(env);
      if suspended {
        return [];
      }
      timers := ScheduleSequence(notes, tempo);
    }
  }
}
