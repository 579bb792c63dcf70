/** The reactive effect that starts and stops the level meter's sampling
    timer, with Solid's dependency tracking made explicit: an effect re-runs
    only when a signal it read during its previous run is written with a new
    value, and it reads only what its condition evaluates.

    The condition `analyser && isRecording() && !isPaused()` tests the plain
    variable `analyser` first. When the effect first runs at mount the
    analyser is null, the `&&` stops there, no signal is read, and the effect
    is never scheduled again: the meter never samples. `RunAsWritten` models
    that evaluation; `RunCorrected` reads both signals before testing. */
module LevelEffect {

  /** The signals the condition can read (`analyser` is not a signal). */
  datatype Signal = IsRecordingSignal | IsPausedSignal

  /** What the effect sees: the analyser variable and the two signals. */
  datatype World = World(analyser: bool, isRecording: bool, isPaused: bool)

  /** The outcome of one run: the signals it read and whether it left a
      sampling timer running. */
  datatype EffectRun = EffectRun(deps: set<Signal>, sampling: bool)

  predicate Gate(w: World) {
    w.analyser && w.isRecording && !w.isPaused
  }

  /** The signals written with a new value between two worlds. */
  function Changed(before: World, after: World): (c: set<Signal>)
    ensures IsRecordingSignal in c <==> before.isRecording != after.isRecording
    ensures IsPausedSignal in c <==> before.isPaused != after.isPaused
  {
    (if before.isRecording != after.isRecording then {IsRecordingSignal} else {})
    + (if before.isPaused != after.isPaused then {IsPausedSignal} else {})
  }

  /** The condition as written, with JavaScript's short-circuit `&&`: a signal
      is read only if every operand before it was truthy. */
  function RunAsWritten(w: World): (r: EffectRun)
    ensures r.sampling <==> Gate(w)
    ensures !w.analyser ==> r.deps == {}
    ensures IsPausedSignal in r.deps ==> w.analyser && w.isRecording
  {
    if !w.analyser then EffectRun({}, false)
    else if !w.isRecording then EffectRun({IsRecordingSignal}, false)
    else EffectRun({IsRecordingSignal, IsPausedSignal}, !w.isPaused)
  }

  /** The condition with both signals read before the analyser is looked at. */
  function RunCorrected(w: World): (r: EffectRun)
    ensures r.sampling <==> Gate(w)
    ensures r.deps == {IsRecordingSignal, IsPausedSignal}
  {
    EffectRun({IsRecordingSignal, IsPausedSignal}, Gate(w))
  }

  /** The effect after the world moves from `before` to `after`: unchanged
      unless a signal it depends on changed, in which case it runs again. */
  function NextAsWritten(run: EffectRun, before: World, after: World): EffectRun {
    if Changed(before, after) * run.deps == {} then run else RunAsWritten(after)
  }

  function NextCorrected(run: EffectRun, before: World, after: World): EffectRun {
    if Changed(before, after) * run.deps == {} then run else RunCorrected(after)
  }

  /** The effect after mounting in `worlds[0]` and living through the rest. */
  function TraceAsWritten(worlds: seq<World>): EffectRun
    requires |worlds| > 0
  {
    if |worlds| == 1 then RunAsWritten(worlds[0])
    else NextAsWritten(TraceAsWritten(worlds[..|worlds| - 1]), worlds[|worlds| - 2], worlds[|worlds| - 1])
  }

  function TraceCorrected(worlds: seq<World>): EffectRun
    requires |worlds| > 0
  {
    if |worlds| == 1 then RunCorrected(worlds[0])
    else NextCorrected(TraceCorrected(worlds[..|worlds| - 1]), worlds[|worlds| - 2], worlds[|worlds| - 1])
  }

  /** As written: mounted without an analyser, the effect never runs again,
      whatever happens afterwards, so no sampling timer is ever started. */
  lemma {:induction false} AsWrittenNeverSamples(worlds: seq<World>)
    requires |worlds| > 0 && !worlds[0].analyser
    ensures TraceAsWritten(worlds) == EffectRun({}, false)
  {
    if |worlds| > 1 {
      AsWrittenNeverSamples(worlds[..|worlds| - 1]);
    }
  }

  /** Mount, Start (the analyser is built while not yet recording), then the
      countdown's end sets `isRecording`: the gate is open but the as-written
      effect is not sampling. */
  lemma LevelMeterStuckAtZero()
    ensures var worlds := [World(false, false, false), World(true, false, false), World(true, true, false)];
      && Gate(worlds[2])
      && !TraceAsWritten(worlds).sampling
      && TraceCorrected(worlds).sampling
  {
    var worlds := [World(false, false, false), World(true, false, false), World(true, true, false)];
    AsWrittenNeverSamples(worlds);
    assert worlds[..2][..1] == [World(false, false, false)];
    assert worlds[..2] == [World(false, false, false), World(true, false, false)];
  }

  /** The component changes the analyser only while the gate is closed on
      both sides (it is built before `isRecording` turns on and released
      after `isRecording` turns off). */
  predicate AnalyserQuiet(before: World, after: World) {
    before.analyser != after.analyser ==> !Gate(before) && !Gate(after)
  }

  predicate QuietTrace(worlds: seq<World>) {
    forall i :: 0 < i < |worlds| ==> AnalyserQuiet(worlds[i - 1], worlds[i])
  }

  /** Corrected: along any such history, the effect samples exactly when the
      gate is open in the latest world. */
  lemma {:induction false} CorrectedTracksGate(worlds: seq<World>)
    requires |worlds| > 0 && QuietTrace(worlds)
    ensures TraceCorrected(worlds).sampling <==> Gate(worlds[|worlds| - 1])
    ensures TraceCorrected(worlds).deps == {IsRecordingSignal, IsPausedSignal}
  {
    if |worlds| > 1 {
      var init := worlds[..|worlds| - 1];
      assert QuietTrace(init) by {
        forall i | 0 < i < |init|
          ensures AnalyserQuiet(init[i - 1], init[i])
        {
          assert init[i - 1] == worlds[i - 1] && init[i] == worlds[i];
        }
      }
      CorrectedTracksGate(init);
      assert AnalyserQuiet(worlds[|worlds| - 2], worlds[|worlds| - 1]);
    }
  }
}
