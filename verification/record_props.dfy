/** Properties of the recording session that relate several transitions:
    the countdown hand-off, cancellation, pause, stop, scrolling and the
    elapsed timer. */
module RecordProps {
  import opened Wrappers
  import opened Level
  import opened Download
  import opened Record

  /** `k` seconds of the countdown timer. */
  function CountdownTicks(s: Session, k: nat): Session {
    if k == 0 then s else CountdownTick(CountdownTicks(s, k - 1))
  }

  /** Before the last second of a countdown of `D` seconds, tick `k` only
      lowers the displayed count to `D - k`; nothing else changes. */
  lemma {:induction false} CountdownBeforeHandOff(s: Session, k: nat)
    requires s.countdownDuration >= 1 && k < s.countdownDuration
    ensures CountdownTicks(StartRecording(s, true), k)
            == StartRecording(s, true).(countdown := s.countdownDuration - k)
  {
    if k > 0 {
      CountdownBeforeHandOff(s, k - 1);
    }
  }

  /** Tick `D` ends the countdown: the overlay is hidden, the timer cleared,
      the count back at `D`, and recording runs unpaused from zero with
      rehearsal stopped. */
  lemma CountdownHandOff(s: Session)
    requires s.countdownDuration >= 1
    ensures var r := CountdownTicks(StartRecording(s, true), s.countdownDuration);
      && !r.showCountdown && !r.countdownTicking && r.countdown == s.countdownDuration
      && r.isRecording && !r.isPaused && r.recordingTime == 0 && !r.isRehearsing
      && r.media.recorder && r.elapsedTicking
  {
    CountdownBeforeHandOff(s, s.countdownDuration - 1);
  }

  /** Started from an idle session, recording begins on exactly the `D`-th
      tick of the countdown, not before. */
  lemma RecordingStartsOnLastTick(s: Session, k: nat)
    requires s.countdownDuration >= 1 && !s.isRecording && k <= s.countdownDuration
    ensures CountdownTicks(StartRecording(s, true), k).isRecording <==> k == s.countdownDuration
  {
    if k < s.countdownDuration {
      CountdownBeforeHandOff(s, k);
    } else {
      CountdownHandOff(s);
    }
  }

  /** A cancelled countdown never fires again, so recording cannot start. */
  lemma {:induction false} CancelledCountdownStaysIdle(s: Session, k: nat)
    ensures CountdownTicks(CancelCountdown(s), k) == CancelCountdown(s)
  {
    if k > 0 {
      CancelledCountdownStaysIdle(s, k - 1);
    }
  }

  /** Cancelling twice is cancelling once. */
  lemma CancelIdempotent(s: Session)
    ensures CancelCountdown(CancelCountdown(s)) == CancelCountdown(s)
  {
  }

  /** Pausing does not stop or reset anything, and two presses restore the
      session except that a running meter reads 0 until its next sample. */
  lemma PauseTwice(s: Session)
    requires Valid(s)
    ensures TogglePause(TogglePause(s)) == if s.media.recorder && LevelGate(s) then s.(audioLevel := 0.0) else s
  {
    if s.media.recorder {
      var once := TogglePause(s);
      assert once.isPaused == !s.isPaused && once.media == s.media;
      if s.isPaused {
        assert once == s.(isPaused := false);
      } else {
        assert once == s.(isPaused := true, audioLevel := 0.0);
      }
    }
  }

  /** A second Stop changes nothing and downloads nothing: each take is
      downloaded once. */
  lemma StopTwice(s: Session, now: Instant, later: Instant)
    requires ValidInstant(now) && ValidInstant(later)
    ensures StopRecording(StopRecording(s, now).session, later).session == StopRecording(s, now).session
    ensures StopRecording(StopRecording(s, now).session, later).download == None
  {
  }

  /** A scroll tick adds exactly the speed when its gate is open and leaves
      the position alone otherwise; with a speed from the slider an open gate
      strictly advances the text. */
  lemma ScrollTickIff(s: Session)
    requires Valid(s)
    ensures ScrollTick(s).scrollPosition == s.scrollPosition + s.scrollSpeed <==> ScrollGate(s)
    ensures ScrollTick(s).scrollPosition == s.scrollPosition <==> !ScrollGate(s)
    ensures ScrollGate(s) ==> ScrollTick(s).scrollPosition > s.scrollPosition
  {
  }

  function ScrollTicks(s: Session, n: nat): Session {
    if n == 0 then s else ScrollTick(ScrollTicks(s, n - 1))
  }

  /** `n` scroll ticks move the text by `n` times the speed, or not at all. */
  lemma {:induction false} ScrollTicksDistance(s: Session, n: nat)
    ensures ScrollGate(s) ==> ScrollTicks(s, n) == s.(scrollPosition := s.scrollPosition + n as real * s.scrollSpeed)
    ensures !ScrollGate(s) ==> ScrollTicks(s, n) == s
  {
    if n > 0 {
      ScrollTicksDistance(s, n - 1);
    }
  }

  /** Resetting the scroll after any number of ticks brings the text back to
      the top and touches nothing else. */
  lemma ResetAfterScrolling(s: Session, n: nat)
    ensures ResetScroll(ScrollTicks(s, n)) == ResetScroll(s)
  {
    ScrollTicksDistance(s, n);
  }

  function ElapsedTicks(s: Session, n: nat): Session {
    if n == 0 then s else ElapsedTick(ElapsedTicks(s, n - 1))
  }

  /** While its timer is live, `n` elapsed ticks add `n` seconds. */
  lemma {:induction false} ElapsedTicksCount(s: Session, n: nat)
    requires s.elapsedTicking
    ensures ElapsedTicks(s, n) == s.(recordingTime := s.recordingTime + n)
  {
    if n > 0 {
      ElapsedTicksCount(s, n - 1);
    }
  }

  /** The elapsed timer is not gated on pause: pausing and counting commute. */
  lemma ElapsedIgnoresPause(s: Session)
    ensures ElapsedTick(TogglePause(s)) == TogglePause(ElapsedTick(s))
  {
  }

  /** Any session reached from mount by any events keeps the invariant; in
      particular the meter stays within [0, 1] and reads 0 while its gate is
      closed, and the text never scrolls above the top. */
  lemma ReachableSessionsValid(events: seq<Event>)
    requires AllOk(events)
    ensures var r := Run(Initial, events);
      && 0.0 <= r.audioLevel <= 1.0 && (!LevelGate(r) ==> r.audioLevel == 0.0)
      && r.scrollPosition >= 0.0
      && (r.isPaused ==> r.isRecording)
  {
    assert Valid(Initial);
  }

  /** A saturated frame fills the meter and a silent one empties it while
      recording unpaused. */
  lemma LevelTickExtremes(s: Session, frame: seq<Byte>)
    requires |frame| == BinCount && LevelGate(s)
    ensures AllBins(frame, 0) ==> LevelTick(s, frame).audioLevel == 0.0
    ensures AllBins(frame, 255) ==> LevelTick(s, frame).audioLevel == 1.0
  {
    LevelZeroIff(frame);
    LevelOneIff(frame);
  }
}
