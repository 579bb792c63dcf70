/** The status badge of the recording panel: its text and its variant. */
module Status {
  import opened Wrappers
  import opened Download
  import opened Record

  datatype RecordingStatus = Ready | PausedStatus | RecordingStatus

  /** Ready unless recording; while recording, paused or not. */
  function StatusOf(s: Session): (st: RecordingStatus)
    ensures st == Ready <==> !s.isRecording
    ensures st == PausedStatus <==> s.isRecording && s.isPaused
    ensures st == RecordingStatus <==> s.isRecording && !s.isPaused
  {
    if s.isRecording then (if s.isPaused then PausedStatus else RecordingStatus) else Ready
  }

  function StatusText(st: RecordingStatus): string {
    match st
    case Ready => "READY"
    case PausedStatus => "PAUSED"
    case RecordingStatus => "RECORDING"
  }

  function VariantText(st: RecordingStatus): string {
    match st
    case Ready => "default"
    case PausedStatus => "secondary"
    case RecordingStatus => "destructive"
  }

  /** `getRecordingStatus`: the badge text, which names the session's status. */
  function RecordingStatusText(s: Session): (t: string)
    ensures ParseStatusText(t) == Some(StatusOf(s))
    ensures t == "READY" <==> !s.isRecording
    ensures t == "PAUSED" <==> s.isRecording && s.isPaused
    ensures t == "RECORDING" <==> s.isRecording && !s.isPaused
  {
    StatusTextRoundTrip(StatusOf(s));
    StatusText(StatusOf(s))
  }

  /** `getStatusVariant`: the badge variant, which names the session's status. */
  function StatusVariant(s: Session): (v: string)
    ensures ParseVariantText(v) == Some(StatusOf(s))
    ensures v == "default" <==> !s.isRecording
    ensures v == "secondary" <==> s.isRecording && s.isPaused
    ensures v == "destructive" <==> s.isRecording && !s.isPaused
  {
    VariantTextRoundTrip(StatusOf(s));
    VariantText(StatusOf(s))
  }

  /** Reads a badge text back. */
  function ParseStatusText(text: string): Option<RecordingStatus> {
    if text == "READY" then Some(Ready)
    else if text == "PAUSED" then Some(PausedStatus)
    else if text == "RECORDING" then Some(RecordingStatus)
    else None
  }

  /** Reads a badge variant back. */
  function ParseVariantText(text: string): Option<RecordingStatus> {
    if text == "default" then Some(Ready)
    else if text == "secondary" then Some(PausedStatus)
    else if text == "destructive" then Some(RecordingStatus)
    else None
  }

  /** The badge variant names its status unambiguously. */
  lemma VariantTextRoundTrip(st: RecordingStatus)
    ensures ParseVariantText(VariantText(st)) == Some(st)
  {
    match st
    case Ready =>
    case PausedStatus =>
      assert VariantText(st) != "default" by { assert VariantText(st)[0] == 's'; }
    case RecordingStatus =>
      assert VariantText(st) != "default" by { assert |VariantText(st)| == 11; }
      assert VariantText(st) != "secondary" by { assert |VariantText(st)| == 11; }
  }

  /** The badge text names its status unambiguously. */
  lemma StatusTextRoundTrip(st: RecordingStatus)
    ensures ParseStatusText(StatusText(st)) == Some(st)
  {
    match st
    case Ready =>
    case PausedStatus =>
      assert StatusText(st) != "READY" by { assert StatusText(st)[0] == 'P'; }
    case RecordingStatus =>
      assert StatusText(st) != "READY" by { assert |StatusText(st)| == 9; }
      assert StatusText(st) != "PAUSED" by { assert |StatusText(st)| == 9; }
  }

  /** The badge's text and variant always change together: two sessions show
      the same text exactly when they show the same variant. */
  lemma TextAndVariantAgree(a: Session, b: Session)
    ensures RecordingStatusText(a) == RecordingStatusText(b) <==> StatusVariant(a) == StatusVariant(b)
  {
  }

  /** After Stop the badge reads READY; at the end of a countdown that holds
      a stream it reads RECORDING; Pause then turns it to PAUSED. */
  lemma StatusThroughATake(s: Session, now: Instant)
    requires ValidInstant(now)
    ensures RecordingStatusText(StopRecording(s, now).session) == "READY"
    ensures s.countdownTicking && s.countdown <= 1 && s.media.stream ==>
              StatusOf(CountdownTick(s)) == RecordingStatus
    ensures StatusOf(s) == RecordingStatus && s.media.recorder ==> StatusOf(TogglePause(s)) == PausedStatus
  {
  }
}
