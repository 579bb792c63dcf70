/** The recording session controller of the `Record` component: recording,
    pause, countdown, teleprompter scroll, level meter and microphone list,
    as an immutable state with one pure transition per command or timer tick.

    Browser objects (the media stream, audio context, analyser node and media
    recorder) are reduced to "held / null" flags, and every `setInterval`
    timer to a flag saying whether it is live; a tick of a timer is an
    explicit event. */
module Record {
  import opened Wrappers
  import opened Level
  import opened Devices
  import opened Download

  /** Which browser handles the component currently holds (non-null). */
  datatype Media = Media(stream: bool, context: bool, analyser: bool, recorder: bool)

  const NoMedia: Media := Media(false, false, false, false)

  datatype Session = Session(
    // recording
    isRecording: bool,
    isPaused: bool,
    recordingTime: nat,
    audioLevel: real,
    // countdown overlay
    showCountdown: bool,
    countdown: int,
    countdownDuration: int,
    // teleprompter
    isRehearsing: bool,
    scrollSpeed: real,
    scrollPosition: real,
    // microphones
    availableMics: seq<DeviceInfo>,
    selectedMicId: string,
    // browser handles and live timers
    media: Media,
    countdownTicking: bool,
    elapsedTicking: bool)

  /** Choices offered by the countdown select. */
  const MinCountdown: int := 2
  const MaxCountdown: int := 15
  const DefaultCountdown: int := 3

  /** Range of the speed slider. */
  const MinSpeed: real := 0.5
  const MaxSpeed: real := 5.0
  const DefaultSpeed: real := 1.0

  /** The signals' initial values when the component mounts. */
  const Initial: Session := Session(
    false, false, 0, 0.0,
    false, DefaultCountdown, DefaultCountdown,
    false, DefaultSpeed, 0.0,
    [], "",
    NoMedia, false, false)

  /** The level meter samples the analyser only while recording unpaused. */
  predicate LevelGate(s: Session) {
    s.media.analyser && s.isRecording && !s.isPaused
  }

  /** The teleprompter advances while recording unpaused or while rehearsing. */
  predicate ScrollGate(s: Session) {
    (s.isRecording && !s.isPaused) || s.isRehearsing
  }

  /** The level effect's reset: whenever its gate is off the meter reads 0. */
  function SettleLevel(s: Session): (r: Session)
    ensures LevelGate(r) ==> r == s
    ensures !LevelGate(r) ==> r == s.(audioLevel := 0.0)
  {
    if LevelGate(s) then s else s.(audioLevel := 0.0)
  }

  /** The facts every reachable state keeps. */
  predicate Valid(s: Session) {
    && MinCountdown <= s.countdownDuration <= MaxCountdown
    && MinSpeed <= s.scrollSpeed <= MaxSpeed
    && s.scrollPosition >= 0.0
    && 0.0 <= s.audioLevel <= 1.0
    && (!LevelGate(s) ==> s.audioLevel == 0.0)
    && (s.elapsedTicking <==> s.isRecording)
    && (s.isPaused ==> s.isRecording)
    && (s.media.recorder ==> s.isRecording && s.media.stream)
    && s.media.context == s.media.stream
    && s.media.analyser == s.media.stream
    && (s.showCountdown <==> s.countdownTicking)
    && (s.countdownTicking ==> s.countdown >= 1)
  }

  /** The Start button. The click asks `getUserMedia` for
      `CaptureConstraint(selectedMicId)`; this transition is the moment that
      asynchronous request settles, with the platform's answer `granted`, so
      the countdown duration is the one configured by then. On success the
      analyser is built, the countdown overlay is shown at that duration and
      the one-second countdown timer starts. On refusal the component only
      alerts, and nothing changes. */
  function StartRecording(s: Session, granted: bool): (r: Session)
    ensures !granted ==> r == s
    ensures granted ==> r.media == s.media.(stream := true, context := true, analyser := true)
    ensures granted ==> r.showCountdown && r.countdownTicking && r.countdown == s.countdownDuration
    ensures granted ==>
              r.(media := s.media, showCountdown := s.showCountdown, countdown := s.countdown,
                 countdownTicking := s.countdownTicking) == s
  {
    if !granted then s
    else s.(media := s.media.(stream := true, context := true, analyser := true),
            showCountdown := true, countdown := s.countdownDuration, countdownTicking := true)
  }

  /** The hand-off at the end of the countdown: without a stream nothing
      happens; otherwise rehearsal stops, a recorder is created and the
      elapsed timer starts from zero. */
  function StartActualRecording(s: Session): (r: Session)
    ensures !s.media.stream ==> r == s
    ensures s.media.stream ==>
              && r.isRecording && !r.isPaused && r.recordingTime == 0 && !r.isRehearsing
              && r.media == s.media.(recorder := true) && r.elapsedTicking
    ensures s.media.stream ==>
              r.(isRecording := s.isRecording, isPaused := s.isPaused, recordingTime := s.recordingTime,
                 isRehearsing := s.isRehearsing, media := s.media, elapsedTicking := s.elapsedTicking) == s
  {
    if !s.media.stream then s
    else s.(isRehearsing := false, media := s.media.(recorder := true),
            isRecording := true, isPaused := false, recordingTime := 0, elapsedTicking := true)
  }

  /** One second of the countdown timer. A count above 1 is decremented and
      nothing else moves; at 1 or below the timer is cleared, the overlay
      hidden, the count reset to the configured duration, and the recording
      handed off. Without a live countdown timer there is no tick. */
  function CountdownTick(s: Session): (r: Session)
    ensures !s.countdownTicking ==> r == s
    ensures s.countdownTicking && s.countdown > 1 ==> r == s.(countdown := s.countdown - 1)
    ensures s.countdownTicking && s.countdown <= 1 ==>
              && !r.showCountdown && !r.countdownTicking && r.countdown == s.countdownDuration
              && r.isRecording == (s.isRecording || s.media.stream)
              && r.media == (if s.media.stream then s.media.(recorder := true) else s.media)
              && r.elapsedTicking == (s.elapsedTicking || s.media.stream)
              && (s.media.stream ==> !r.isPaused && r.recordingTime == 0 && !r.isRehearsing)
              && (!s.media.stream ==>
                    r.isPaused == s.isPaused && r.recordingTime == s.recordingTime && r.isRehearsing == s.isRehearsing)
    ensures s.countdownTicking && s.countdown <= 1 ==>
              r.(showCountdown := s.showCountdown, countdownTicking := s.countdownTicking, countdown := s.countdown,
                 isRecording := s.isRecording, isPaused := s.isPaused, recordingTime := s.recordingTime,
                 isRehearsing := s.isRehearsing, media := s.media, elapsedTicking := s.elapsedTicking) == s
  {
    if !s.countdownTicking then s
    else if s.countdown > 1 then s.(countdown := s.countdown - 1)
    else StartActualRecording(s.(countdownTicking := false, showCountdown := false)).(countdown := s.countdownDuration)
  }

  /** Pause / Resume. Without a recorder the button does nothing; otherwise
      only the paused flag flips, and the level effect's reset brings the
      meter to 0 once its gate is closed. */
  function TogglePause(s: Session): (r: Session)
    ensures !s.media.recorder ==> r == s
    ensures s.media.recorder ==> r.isPaused == !s.isPaused
    ensures s.media.recorder ==> r.audioLevel == if LevelGate(r) then s.audioLevel else 0.0
    ensures r.isRecording == s.isRecording && r.recordingTime == s.recordingTime
    ensures r.(isPaused := s.isPaused, audioLevel := s.audioLevel) == s
  {
    if !s.media.recorder then s
    else SettleLevel(s.(isPaused := !s.isPaused))
  }

  /** Releases every media handle; with nothing held it changes nothing. */
  function CleanupMedia(s: Session): (r: Session)
    ensures r.media == NoMedia
    ensures r.(media := s.media) == s
    ensures s.media == NoMedia ==> r == s
  {
    s.(media := NoMedia)
  }

  /** The file the recorder's `onstop` handler downloads: its name and the
      type of its blob. */
  datatype Saved = Saved(fileName: string, mimeType: string)

  /** What the Stop button leaves behind: the session and, when a recorder
      existed, the file its `onstop` handler downloads. */
  datatype Stopped = Stopped(session: Session, download: Option<Saved>)

  /** The Stop button, from any state: stops the recorder (which downloads the
      take), clears the elapsed timer, resets the recording flags and the
      elapsed time, and releases all media. `now` is the wall-clock time. */
  function StopRecording(s: Session, now: Instant): (r: Stopped)
    requires ValidInstant(now)
    ensures var t := r.session;
      && !t.isRecording && !t.isPaused && t.recordingTime == 0 && t.media == NoMedia
      && !t.elapsedTicking && t.audioLevel == 0.0
    ensures r.download.Some? <==> s.media.recorder
    ensures r.download.Some? ==> r.download.value == Saved(Filename(now), MimeType())
    ensures r.session.(isRecording := s.isRecording, isPaused := s.isPaused, recordingTime := s.recordingTime,
                       media := s.media, elapsedTicking := s.elapsedTicking, audioLevel := s.audioLevel) == s
  {
    var download := if s.media.recorder then Some(Saved(Filename(now), MimeType())) else None;
    var stopped := s.(elapsedTicking := false, isRecording := false, isPaused := false, recordingTime := 0);
    Stopped(SettleLevel(CleanupMedia(stopped)), download)
  }

  /** The overlay's Cancel button, from any state: clears the countdown timer,
      hides the overlay and releases the microphone. */
  function CancelCountdown(s: Session): (r: Session)
    ensures !r.showCountdown && !r.countdownTicking && r.media == NoMedia
    ensures r.audioLevel == 0.0
    ensures r.(showCountdown := s.showCountdown, countdownTicking := s.countdownTicking,
               media := s.media, audioLevel := s.audioLevel) == s
  {
    SettleLevel(CleanupMedia(s.(countdownTicking := false, showCountdown := false)))
  }

  /** One second of the elapsed timer: it counts while it is live, paused or
      not. */
  function ElapsedTick(s: Session): (r: Session)
    ensures s.elapsedTicking ==> r == s.(recordingTime := s.recordingTime + 1)
    ensures !s.elapsedTicking ==> r == s
  {
    if s.elapsedTicking then s.(recordingTime := s.recordingTime + 1) else s
  }

  /** One 100 ms step of the teleprompter. */
  function ScrollTick(s: Session): (r: Session)
    ensures ScrollGate(s) ==> r == s.(scrollPosition := s.scrollPosition + s.scrollSpeed)
    ensures !ScrollGate(s) ==> r == s
  {
    if ScrollGate(s) then s.(scrollPosition := s.scrollPosition + s.scrollSpeed) else s
  }

  function ResetScroll(s: Session): (r: Session)
    ensures r.scrollPosition == 0.0
    ensures r.(scrollPosition := s.scrollPosition) == s
  {
    s.(scrollPosition := 0.0)
  }

  function ToggleRehearse(s: Session): (r: Session)
    ensures r.isRehearsing == !s.isRehearsing
    ensures r.(isRehearsing := s.isRehearsing) == s
  {
    s.(isRehearsing := !s.isRehearsing)
  }

  /** One 100 ms sample of the level meter: while its gate is open the meter
      shows the frame's mean over 255; otherwise there is no sampling timer. */
  function LevelTick(s: Session, frame: seq<Byte>): (r: Session)
    requires |frame| == BinCount
    ensures LevelGate(s) ==> r == s.(audioLevel := LevelOf(frame))
    ensures !LevelGate(s) ==> r == s
  {
    if LevelGate(s) then s.(audioLevel := LevelOf(frame)) else s
  }

  /** The result of `enumerateDevices`: the microphones replace the list and
      the selection defaults to the first one. A failed enumeration is only
      logged. */
  function EnumerateMicrophones(s: Session, listed: Option<seq<DeviceInfo>>): (r: Session)
    ensures listed.None? ==> r == s
    ensures listed.Some? ==> r.availableMics == Microphones(listed.value)
    ensures listed.Some? ==> r.selectedMicId == DefaultSelection(s.selectedMicId, Microphones(listed.value))
    ensures r.(availableMics := s.availableMics, selectedMicId := s.selectedMicId) == s
  {
    match listed
    case None => s
    case Some(devices) =>
      var mics := Microphones(devices);
      s.(availableMics := mics, selectedMicId := DefaultSelection(s.selectedMicId, mics))
  }

  /** User commands and timer ticks. */
  datatype Event =
    | StartPressed(granted: bool)
    | CountdownSecond
    | ElapsedSecond
    | ScrollFrame
    | LevelFrame(frame: seq<Byte>)
    | PausePressed
    | StopPressed(now: Instant)
    | CancelPressed
    | RehearsePressed
    | ResetScrollPressed
    | SpeedChanged(speed: real)
    | DurationChosen(seconds: int)
    | MicChosen(deviceId: string)
    | DevicesListed(listed: Option<seq<DeviceInfo>>)

  /** What the platform and the controls can deliver: an analyser frame of
      the analyser's size, a slider value in range, one of the countdown
      options, a representable clock reading. */
  predicate EventOk(e: Event) {
    match e
    case LevelFrame(frame) => |frame| == BinCount
    case SpeedChanged(v) => MinSpeed <= v <= MaxSpeed
    case DurationChosen(d) => MinCountdown <= d <= MaxCountdown
    case StopPressed(now) => ValidInstant(now)
    case _ => true
  }

  /** Applies one event; every event keeps the session valid. */
  function Step(s: Session, e: Event): (r: Session)
    requires EventOk(e)
    ensures Valid(s) ==> Valid(r)
  {
    StepKeepsValid(s, e);
    Apply(s, e)
  }

  function Apply(s: Session, e: Event): Session
    requires EventOk(e)
  {
    match e
    case StartPressed(granted) => StartRecording(s, granted)
    case CountdownSecond => CountdownTick(s)
    case ElapsedSecond => ElapsedTick(s)
    case ScrollFrame => ScrollTick(s)
    case LevelFrame(frame) => LevelTick(s, frame)
    case PausePressed => TogglePause(s)
    case StopPressed(now) => StopRecording(s, now).session
    case CancelPressed => CancelCountdown(s)
    case RehearsePressed => ToggleRehearse(s)
    case ResetScrollPressed => ResetScroll(s)
    case SpeedChanged(v) => s.(scrollSpeed := v)
    case DurationChosen(d) => s.(countdownDuration := d)
    case MicChosen(id) => s.(selectedMicId := id)
    case DevicesListed(listed) => EnumerateMicrophones(s, listed)
  }

  lemma StepKeepsValid(s: Session, e: Event)
    requires EventOk(e)
    ensures Valid(s) ==> Valid(Apply(s, e))
  {
    match e
    case StartPressed(granted) => StartKeepsValid(s, granted);
    case CountdownSecond => CountdownKeepsValid(s);
    case LevelFrame(frame) => LevelKeepsValid(s, frame);
    case PausePressed => PauseKeepsValid(s);
    case StopPressed(now) => StopKeepsValid(s, now);
    case CancelPressed => CancelKeepsValid(s);
    case _ =>
  }

  lemma StartKeepsValid(s: Session, granted: bool)
    ensures Valid(s) ==> Valid(StartRecording(s, granted))
  {
  }

  lemma LevelKeepsValid(s: Session, frame: seq<Byte>)
    requires |frame| == BinCount
    ensures Valid(s) ==> Valid(LevelTick(s, frame))
  {
  }

  lemma PauseKeepsValid(s: Session)
    ensures Valid(s) ==> Valid(TogglePause(s))
  {
  }

  lemma CancelKeepsValid(s: Session)
    ensures Valid(s) ==> Valid(CancelCountdown(s))
  {
  }

  lemma CountdownKeepsValid(s: Session)
    ensures Valid(s) ==> Valid(CountdownTick(s))
  {
  }

  lemma StopKeepsValid(s: Session, now: Instant)
    requires ValidInstant(now)
    ensures Valid(s) ==> Valid(StopRecording(s, now).session)
  {
  }

  predicate AllOk(events: seq<Event>) {
    forall i :: 0 <= i < |events| ==> EventOk(events[i])
  }

  /** Applies events in order. */
  function Run(s: Session, events: seq<Event>): (r: Session)
    requires AllOk(events)
    ensures Valid(s) ==> Valid(r)
    decreases |events|
  {
    if |events| == 0 then s else Run(Step(s, events[0]), events[1..])
  }
}
