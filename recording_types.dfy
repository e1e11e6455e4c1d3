/**
 * Value types of the desktop recorder: the session configuration and its
 * defaults, the status of a session, the metadata written when it ends, and
 * the error taxonomy together with the tagged form the frontend receives.
 */
module RecordingTypes {
  import opened Wrappers

  /** An instant, in nanoseconds since the Unix epoch (the resolution of a UTC date-time). */
  type Timestamp = int

  type u16 = x: int | 0 <= x < 0x1_0000
  type u32 = x: int | 0 <= x < 0x1_0000_0000
  type byte = x: int | 0 <= x < 0x100

  /** A file-system path, as the text of a path buffer. */
  type Path = string

  datatype RecordingConfig = RecordingConfig(
    roomId: string,
    outputDir: Path,
    audioSampleRate: u32,
    audioChannels: u16,
    videoWidth: u32,
    videoHeight: u32,
    videoFps: u32)

  /** The configuration used when a caller supplies none: 48 kHz stereo, 1080p at 30 fps. */
  function DefaultConfig(): (c: RecordingConfig)
    ensures c.roomId == "" && c.outputDir == ""
    ensures c.audioSampleRate == 48000 && c.audioChannels == 2
    ensures c.videoWidth == 1920 && c.videoHeight == 1080 && c.videoFps == 30
  {
    RecordingConfig("", "", 48000, 2, 1920, 1080, 30)
  }

  /** Where a session is: only a paused session remembers both when it started and when it paused. */
  datatype RecordingStatus =
    | Idle
    | Recording(startedAt: Timestamp)
    | Paused(startedAt: Timestamp, pausedAt: Timestamp)
    | Stopped
  {
    /** A session that accepts participants and chunks and can be stopped. */
    predicate IsActive() { Recording? || Paused? }
  }

  datatype ParticipantMetadata = ParticipantMetadata(
    id: string,
    name: string,
    audioFile: Option<Path>,
    videoFile: Option<Path>,
    joinedAt: Timestamp,
    leftAt: Option<Timestamp>)

  datatype RecordingMetadata = RecordingMetadata(
    id: string,
    roomId: string,
    startedAt: Timestamp,
    stoppedAt: Option<Timestamp>,
    durationSeconds: nat,
    participants: map<string, ParticipantMetadata>,
    outputDirectory: Path)

  datatype RecordingError =
    | AlreadyRecording
    | NoActiveRecording
    | ParticipantNotFound(participantId: string)
    | IoError(ioMessage: string)
    | TrackError(detail: string)
    | InvalidChunkData
    | InvalidConfig(reason: string)

  /** The display text of an error; an I/O error is shown through its own message. */
  function Display(e: RecordingError): string
  {
    match e
    case AlreadyRecording => "Recording already in progress"
    case NoActiveRecording => "No active recording"
    case ParticipantNotFound(id) => "Participant not found: " + id
    case IoError(m) => "IO error: " + m
    case TrackError(d) => "Track error: " + d
    case InvalidChunkData => "Invalid chunk data"
    case InvalidConfig(r) => "Invalid configuration: " + r
  }

  /** The variant name in camel case, the `kind` tag of the serialised error. */
  function KindName(e: RecordingError): string
  {
    match e
    case AlreadyRecording => "alreadyRecording"
    case NoActiveRecording => "noActiveRecording"
    case ParticipantNotFound(_) => "participantNotFound"
    case IoError(_) => "ioError"
    case TrackError(_) => "trackError"
    case InvalidChunkData => "invalidChunkData"
    case InvalidConfig(_) => "invalidConfig"
  }

  /** The adjacently tagged object `{"kind": ..., "message": ...}` the frontend receives. */
  datatype SerializedError = SerializedError(kind: string, message: string)

  function Serialize(e: RecordingError): (s: SerializedError)
    ensures s.message == Display(e)
    ensures s.kind == KindName(e)
  {
    SerializedError(KindName(e), Display(e))
  }

  predicate SameVariant(a: RecordingError, b: RecordingError)
  {
    match (a, b)
    case (AlreadyRecording, AlreadyRecording) => true
    case (NoActiveRecording, NoActiveRecording) => true
    case (ParticipantNotFound(_), ParticipantNotFound(_)) => true
    case (IoError(_), IoError(_)) => true
    case (TrackError(_), TrackError(_)) => true
    case (InvalidChunkData, InvalidChunkData) => true
    case (InvalidConfig(_), InvalidConfig(_)) => true
    case _ => false
  }

  /** `s` starts with `prefix`. */
  predicate HasPrefix(s: string, prefix: string)
  {
    |prefix| <= |s| && s[..|prefix|] == prefix
  }

  /** What follows `prefix` in `s`, when `s` starts with it. */
  function After(s: string, prefix: string): Option<string>
  {
    if HasPrefix(s, prefix) then Some(s[|prefix|..]) else None
  }

  /** Reads a serialised error back: the inverse of Serialize. */
  function Deserialize(s: SerializedError): Option<RecordingError>
  {
    if s.kind == "alreadyRecording" then
      (if s.message == "Recording already in progress" then Some(AlreadyRecording) else None)
    else if s.kind == "noActiveRecording" then
      (if s.message == "No active recording" then Some(NoActiveRecording) else None)
    else if s.kind == "participantNotFound" then
      (match After(s.message, "Participant not found: ")
       case Some(id) => Some(ParticipantNotFound(id))
       case None => None)
    else if s.kind == "ioError" then
      (match After(s.message, "IO error: ")
       case Some(m) => Some(IoError(m))
       case None => None)
    else if s.kind == "trackError" then
      (match After(s.message, "Track error: ")
       case Some(d) => Some(TrackError(d))
       case None => None)
    else if s.kind == "invalidChunkData" then
      (if s.message == "Invalid chunk data" then Some(InvalidChunkData) else None)
    else if s.kind == "invalidConfig" then
      (match After(s.message, "Invalid configuration: ")
       case Some(r) => Some(InvalidConfig(r))
       case None => None)
    else None
  }

  lemma AfterPrefix(prefix: string, rest: string)
    ensures After(prefix + rest, prefix) == Some(rest)
  {
    assert (prefix + rest)[..|prefix|] == prefix;
    assert (prefix + rest)[|prefix|..] == rest;
  }

  /** Nothing is lost in serialisation: the error can be read back from its tagged form. */
  lemma SerializeRoundTrip(e: RecordingError)
    ensures Deserialize(Serialize(e)) == Some(e)
  {
    match e
    case ParticipantNotFound(id) => AfterPrefix("Participant not found: ", id);
    case IoError(m) => AfterPrefix("IO error: ", m);
    case TrackError(d) => AfterPrefix("Track error: ", d);
    case InvalidConfig(r) => AfterPrefix("Invalid configuration: ", r);
    case _ =>
  }

  /** Serialisation loses no information: distinct errors give distinct tagged objects. */
  lemma SerializeInjective(a: RecordingError, b: RecordingError)
    ensures Serialize(a) == Serialize(b) ==> a == b
  {
    SerializeRoundTrip(a);
    SerializeRoundTrip(b);
  }

  /** The kind tag is the variant: two errors share a kind exactly when they are the same variant. */
  lemma KindIsVariant(a: RecordingError, b: RecordingError)
    ensures KindName(a) == KindName(b) <==> SameVariant(a, b)
  {
  }
}
