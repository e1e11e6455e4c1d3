/**
 * The commands the desktop frontend invokes: each validates its arguments
 * before handing them to the recording manager, and `start_recording` fills
 * in the media parameters the caller left out.
 */
module Commands {
  import opened Wrappers
  import opened RecordingTypes
  import opened RecordingStorage
  import opened RecordingTrack
  import opened Recorder

  /** The Unicode White_Space characters, which string trimming removes. */
  predicate IsWhitespace(c: char)
  {
    || ('\U{9}' <= c <= '\U{D}') || c == ' ' || c == '\U{85}' || c == '\U{A0}' || c == '\U{1680}'
    || ('\U{2000}' <= c <= '\U{200A}') || c == '\U{2028}' || c == '\U{2029}' || c == '\U{202F}'
    || c == '\U{205F}' || c == '\U{3000}'
  }

  predicate IsBlank(s: string)
  {
    forall i :: 0 <= i < |s| ==> IsWhitespace(s[i])
  }

  /** `s` without its leading whitespace. */
  function TrimStart(s: string): string
    decreases |s|
  {
    if s != [] && IsWhitespace(s[0]) then TrimStart(s[1..]) else s
  }

  /** `s` without its trailing whitespace. */
  function TrimEnd(s: string): string
    decreases |s|
  {
    if s != [] && IsWhitespace(s[|s| - 1]) then TrimEnd(s[..|s| - 1]) else s
  }

  /** `s` without leading and trailing whitespace. */
  function Trim(s: string): string
  {
    TrimEnd(TrimStart(s))
  }

  /** Trimming the front leaves a suffix that starts with a non-space, or nothing when `s` is blank. */
  lemma {:induction false} TrimStartIsSuffix(s: string)
    ensures |TrimStart(s)| <= |s| && TrimStart(s) == s[|s| - |TrimStart(s)|..]
    ensures TrimStart(s) != [] ==> !IsWhitespace(TrimStart(s)[0])
    ensures TrimStart(s) == [] <==> IsBlank(s)
  {
    if s != [] && IsWhitespace(s[0]) {
      TrimStartIsSuffix(s[1..]);
      assert s[1..][|s[1..]| - |TrimStart(s)|..] == s[|s| - |TrimStart(s)|..];
      if IsBlank(s[1..]) {
        forall i | 0 <= i < |s| ensures IsWhitespace(s[i]) {
          if i > 0 { assert s[i] == s[1..][i - 1]; }
        }
      }
      if IsBlank(s) {
        forall i | 0 <= i < |s[1..]| ensures IsWhitespace(s[1..][i]) {
          assert s[1..][i] == s[i + 1];
        }
      }
    } else if s != [] {
      assert !IsWhitespace(s[0]);
    }
  }

  /** Trimming the back leaves a prefix that ends with a non-space, or nothing when `s` is blank. */
  lemma {:induction false} TrimEndIsPrefix(s: string)
    ensures |TrimEnd(s)| <= |s| && TrimEnd(s) == s[..|TrimEnd(s)|]
    ensures TrimEnd(s) != [] ==> !IsWhitespace(TrimEnd(s)[|TrimEnd(s)| - 1])
    ensures TrimEnd(s) == [] <==> IsBlank(s)
  {
    if s != [] && IsWhitespace(s[|s| - 1]) {
      var init := s[..|s| - 1];
      TrimEndIsPrefix(init);
      assert init[..|TrimEnd(s)|] == s[..|TrimEnd(s)|];
      if IsBlank(init) {
        forall i | 0 <= i < |s| ensures IsWhitespace(s[i]) {
          if i < |s| - 1 { assert s[i] == init[i]; }
        }
      }
      if IsBlank(s) {
        forall i | 0 <= i < |init| ensures IsWhitespace(init[i]) {
          assert init[i] == s[i];
        }
      }
    } else if s != [] {
      assert !IsWhitespace(s[|s| - 1]);
    }
  }

  /**
   * A string trims to nothing exactly when every character is whitespace;
   * otherwise the trimmed string is a slice of it with no whitespace at
   * either end.
   */
  lemma TrimEmptyIffBlank(s: string)
    ensures Trim(s) == [] <==> IsBlank(s)
    ensures Trim(s) != [] ==> !IsWhitespace(Trim(s)[0]) && !IsWhitespace(Trim(s)[|Trim(s)| - 1])
    ensures exists i, j :: 0 <= i <= j <= |s| && Trim(s) == s[i..j]
  {
    var t := TrimStart(s);
    TrimStartIsSuffix(s);
    TrimEndIsPrefix(t);
    var k := |s| - |t|;
    assert Trim(s) == s[k..k + |Trim(s)|];
  }

  /** The text of a path as its debug form shows it, between double quotes. */
  function Quoted(path: Path): string
  {
    "\"" + path + "\""
  }

  /** The session configuration, with each media parameter the caller omitted set to its default. */
  function BuildConfig(roomId: string, outputDir: Path, audioSampleRate: Option<u32>, audioChannels: Option<u16>,
                       videoWidth: Option<u32>, videoHeight: Option<u32>, videoFps: Option<u32>): RecordingConfig
  {
    RecordingConfig(
      roomId,
      outputDir,
      if audioSampleRate.Some? then audioSampleRate.value else 48000,
      if audioChannels.Some? then audioChannels.value else 2,
      if videoWidth.Some? then videoWidth.value else 1920,
      if videoHeight.Some? then videoHeight.value else 1080,
      if videoFps.Some? then videoFps.value else 30)
  }

  /**
   * The defaults the command fills in are those of the default configuration,
   * and a value the caller gives is always kept.
   */
  lemma BuildConfigDefaults(roomId: string, outputDir: Path, audioSampleRate: Option<u32>, audioChannels: Option<u16>,
                            videoWidth: Option<u32>, videoHeight: Option<u32>, videoFps: Option<u32>)
    ensures BuildConfig(roomId, outputDir, None, None, None, None, None)
            == DefaultConfig().(roomId := roomId, outputDir := outputDir)
    ensures var c := BuildConfig(roomId, outputDir, audioSampleRate, audioChannels, videoWidth, videoHeight, videoFps);
            && c.roomId == roomId && c.outputDir == outputDir
            && (audioSampleRate.Some? ==> c.audioSampleRate == audioSampleRate.value)
            && (audioChannels.Some? ==> c.audioChannels == audioChannels.value)
            && (videoWidth.Some? ==> c.videoWidth == videoWidth.value)
            && (videoHeight.Some? ==> c.videoHeight == videoHeight.value)
            && (videoFps.Some? ==> c.videoFps == videoFps.value)
            && (audioSampleRate.None? ==> c.audioSampleRate == DefaultConfig().audioSampleRate)
            && (audioChannels.None? ==> c.audioChannels == DefaultConfig().audioChannels)
            && (videoWidth.None? ==> c.videoWidth == DefaultConfig().videoWidth)
            && (videoHeight.None? ==> c.videoHeight == DefaultConfig().videoHeight)
            && (videoFps.None? ==> c.videoFps == DefaultConfig().videoFps)
  {
  }

  /**
   * Validates and starts a session. A room id that trims to nothing and an
   * output directory that does not exist (`dirExists`) are refused before the
   * manager is touched.
   */
  method StartRecordingCommand(manager: RecordingManager, roomId: string, outputDir: Path, dirExists: bool,
                               audioSampleRate: Option<u32>, audioChannels: Option<u16>,
                               videoWidth: Option<u32>, videoHeight: Option<u32>, videoFps: Option<u32>,
                               stamp: string, now: Timestamp, createDirError: Option<string>)
    returns (r: Result<string, RecordingError>)
    requires manager.Valid()
    modifies manager
    ensures manager.Valid() && manager.Repr == old(manager.Repr)
    ensures IsBlank(roomId) ==> r == Err(InvalidConfig("room_id cannot be empty")) && unchanged(manager)
    ensures !IsBlank(roomId) && !dirExists ==>
              r == Err(InvalidConfig("output directory does not exist: " + Quoted(outputDir))) && unchanged(manager)
    ensures !IsBlank(roomId) && dirExists && !old(manager.status).Idle? ==>
              r == Err(AlreadyRecording) && unchanged(manager)
    ensures !IsBlank(roomId) && dirExists && old(manager.status).Idle? ==>
              && (createDirError.Some? ==> r == Err(IoError(createDirError.value)) && unchanged(manager))
              && (createDirError.None? ==>
                    var id := RecordingId(roomId, stamp);
                    var dir := DirPrefix(outputDir) + id;
                    && r == Ok(id)
                    && manager.status == Recording(now)
                    && manager.config == Some(BuildConfig(roomId, outputDir, audioSampleRate, audioChannels,
                                                          videoWidth, videoHeight, videoFps))
                    && manager.storage == Some(StorageManager(dir, id))
                    && manager.metadata == Some(RecordingMetadata(id, roomId, now, None, 0, map[], dir))
                    && manager.recordingId == Some(id)
                    && manager.tracks == old(manager.tracks))
  {
    TrimEmptyIffBlank(roomId);
    if Trim(roomId) == [] {
      return Err(InvalidConfig("room_id cannot be empty"));
    }
    if !dirExists {
      return Err(InvalidConfig("output directory does not exist: " + Quoted(outputDir)));
    }
    var config := BuildConfig(roomId, outputDir, audioSampleRate, audioChannels, videoWidth, videoHeight, videoFps);
    r := manager.StartRecording(config, stamp, now, createDirError);
  }

  /** Validates and adds a participant; an id that trims to nothing is refused before the manager is touched. */
  method AddParticipantTrackCommand(manager: RecordingManager, participantId: string, participantName: string,
                                    recordAudio: bool, recordVideo: bool, now: Timestamp,
                                    audioCreateError: Option<string>, videoCreateError: Option<string>)
    returns (r: Result<Unit, RecordingError>)
    requires manager.Valid()
    modifies manager
    ensures manager.Valid() && fresh(manager.Repr - old(manager.Repr))
    ensures IsBlank(participantId) ==> r == Err(InvalidConfig("participant_id cannot be empty")) && unchanged(manager)
    ensures !IsBlank(participantId) && !old(manager.status).IsActive() ==>
              r == Err(NoActiveRecording) && manager.tracks == old(manager.tracks)
    ensures !IsBlank(participantId) && old(manager.status).IsActive() && participantId in old(manager.tracks) ==>
              r == Ok(Unit) && manager.tracks == old(manager.tracks)
    ensures r.Ok? ==> participantId in manager.tracks
  {
    TrimEmptyIffBlank(participantId);
    if Trim(participantId) == [] {
      return Err(InvalidConfig("participant_id cannot be empty"));
    }
    r := manager.AddParticipant(participantId, participantName, recordAudio, recordVideo, now,
                                audioCreateError, videoCreateError);
  }

  /**
   * Validates and forwards a chunk of `kind`; an empty chunk is refused and no
   * track is touched.
   */
  method AddChunkCommand(manager: RecordingManager, kind: MediaKind, participantId: string, chunk: seq<byte>,
                         delivered: bool)
    returns (r: Result<Unit, RecordingError>)
    requires manager.Valid()
    modifies if participantId in manager.tracks then {manager.tracks[participantId]} else {}
    ensures manager.Valid()
    ensures chunk == [] ==> r == Err(InvalidChunkData)
    ensures chunk == [] && participantId in manager.tracks ==> unchanged(manager.tracks[participantId])
    ensures chunk != [] && participantId !in manager.tracks ==> r == Err(ParticipantNotFound(participantId))
    ensures chunk != [] && participantId in manager.tracks ==>
              var t := manager.tracks[participantId];
              && (!old(t.Sender(kind)) ==> r == Ok(Unit) && unchanged(t))
              && (old(t.Sender(kind)) && !delivered ==>
                    r == Err(TrackError(if kind == Audio then "Failed to send audio chunk" else "Failed to send video chunk"))
                    && unchanged(t))
              && (old(t.Sender(kind)) && delivered ==>
                    && r == Ok(Unit)
                    && t.Channel(kind) == old(t.Channel(kind)) + [if kind == Audio then AudioChunk(chunk) else VideoChunk(chunk)]
                    && t.stats == AddReceived(old(t.stats), kind))
  {
    if chunk == [] {
      return Err(InvalidChunkData);
    }
    r := manager.AddChunk(kind, participantId, chunk, delivered);
  }
}
