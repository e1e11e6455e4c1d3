/**
 * The recording session manager: a state machine Idle → Recording ⇄ Paused →
 * Stopped that owns the session's storage, one track recorder per participant
 * and the metadata written when the session ends.
 */
module Recorder {
  import opened Wrappers
  import opened RecordingTypes
  import opened RecordingStorage
  import opened RecordingTrack

  const NanosPerSecond := 1_000_000_000

  /** Whole seconds in a span of nanoseconds, truncated toward zero. */
  function NumSeconds(nanos: int): int
  {
    if nanos >= 0 then nanos / NanosPerSecond else -((-nanos) / NanosPerSecond)
  }

  /** The whole seconds from `startedAt` to `stoppedAt`, never negative. */
  function DurationSeconds(startedAt: Timestamp, stoppedAt: Timestamp): nat
  {
    var s := NumSeconds(stoppedAt - startedAt);
    if s > 0 then s else 0
  }

  /**
   * The duration counts the full seconds elapsed: it is the largest whole
   * number of seconds that fits in the span, and 0 for a clock that went back.
   */
  lemma DurationBounds(startedAt: Timestamp, stoppedAt: Timestamp)
    ensures stoppedAt >= startedAt ==>
              DurationSeconds(startedAt, stoppedAt) * NanosPerSecond <= stoppedAt - startedAt
              < (DurationSeconds(startedAt, stoppedAt) + 1) * NanosPerSecond
    ensures stoppedAt < startedAt ==> DurationSeconds(startedAt, stoppedAt) == 0
  {
  }

  /** The files a track recorder handed back when it was stopped. */
  datatype TrackFiles = TrackFiles(audioFile: Option<Path>, videoFile: Option<Path>)

  /** A participant whose track stopped cleanly: its files and the time it left. */
  function Closed(m: ParticipantMetadata, files: TrackFiles, at: Timestamp): ParticipantMetadata
  {
    m.(audioFile := files.audioFile, videoFile := files.videoFile, leftAt := Some(at))
  }

  /** The participants' metadata once the tracks in `stopped` have been closed at `at`. */
  function CloseAll(parts: map<string, ParticipantMetadata>, stopped: map<string, TrackFiles>, at: Timestamp)
    : map<string, ParticipantMetadata>
  {
    map p | p in parts :: if p in stopped then Closed(parts[p], stopped[p], at) else parts[p]
  }

  /**
   * Closing keeps every participant; exactly those whose track stopped get
   * their files and a leave time, and the rest keep their entry as it was.
   */
  lemma CloseAllStampsStoppedTracks(parts: map<string, ParticipantMetadata>, stopped: map<string, TrackFiles>,
                                    at: Timestamp, p: string)
    requires p in parts
    ensures CloseAll(parts, stopped, at).Keys == parts.Keys
    ensures p in stopped ==>
              && CloseAll(parts, stopped, at)[p].leftAt == Some(at)
              && CloseAll(parts, stopped, at)[p].audioFile == stopped[p].audioFile
              && CloseAll(parts, stopped, at)[p].videoFile == stopped[p].videoFile
              && CloseAll(parts, stopped, at)[p].id == parts[p].id
              && CloseAll(parts, stopped, at)[p].joinedAt == parts[p].joinedAt
    ensures p !in stopped ==> CloseAll(parts, stopped, at)[p] == parts[p]
  {
  }

  /** The faults a participant's track meets when stopped; none when not given. */
  function FaultsFor(faults: map<string, TrackFaults>, p: string): TrackFaults
  {
    if p in faults then faults[p] else NoTrackFaults
  }

  /** The entry a newly added participant gets: no files yet and not left. */
  function Joined(participantId: string, participantName: string, now: Timestamp): ParticipantMetadata
  {
    ParticipantMetadata(participantId, participantName, None, None, now, None)
  }

  function StartedAt(status: RecordingStatus, fallback: Timestamp): Timestamp
  {
    match status
    case Recording(s) => s
    case Paused(s, _) => s
    case _ => fallback
  }

  /**
   * A freshly opened recorder of `participantId`: empty channels, no counts,
   * a writer exactly for each kind asked for, at that kind's file of the
   * participant in the session directory.
   */
  ghost predicate Opened(t: TrackRecorder, store: StorageManager, participantId: string, participantName: string,
                         recordAudio: bool, recordVideo: bool)
    reads t
  {
    && t.participantId == participantId
    && t.audioChannel == [] && t.videoChannel == [] && t.stats == NoStats
    && (t.audioWriter != null <==> recordAudio)
    && (t.videoWriter != null <==> recordVideo)
    && (recordAudio ==> t.audioWriter.path == JoinPath(store.outputDir, AudioFileName(participantId, participantName)))
    && (recordVideo ==> t.videoWriter.path == JoinPath(store.outputDir, VideoFileName(participantId, participantName)))
  }

  /** The held metadata, if any, with `participantId` noted as joined at `now`. */
  function WithJoined(metadata: Option<RecordingMetadata>, participantId: string, participantName: string,
                      now: Timestamp): (r: Option<RecordingMetadata>)
    ensures r.Some? <==> metadata.Some?
    ensures r.Some? ==> && r.value.participants.Keys == metadata.value.participants.Keys + {participantId}
                        && r.value.participants[participantId] == Joined(participantId, participantName, now)
                        && r.value == metadata.value.(participants := r.value.participants)
                        && (forall p :: p in metadata.value.participants && p != participantId ==>
                              r.value.participants[p] == metadata.value.participants[p])
  {
    if metadata.Some?
    then Some(metadata.value.(participants := metadata.value.participants[participantId := Joined(participantId, participantName, now)]))
    else None
  }

  /**
   * Creates the files a participant records into (audio first) and a track
   * recorder that writes them; the first file that cannot be created is the
   * error.
   */
  method OpenTrack(store: StorageManager, participantId: string, participantName: string,
                   recordAudio: bool, recordVideo: bool,
                   audioCreateError: Option<string>, videoCreateError: Option<string>)
    returns (r: Result<TrackRecorder, RecordingError>)
    ensures recordAudio && audioCreateError.Some? ==> r == Err(IoError(audioCreateError.value))
    ensures !(recordAudio && audioCreateError.Some?) && recordVideo && videoCreateError.Some? ==>
              r == Err(IoError(videoCreateError.value))
    ensures !(recordAudio && audioCreateError.Some?) && !(recordVideo && videoCreateError.Some?) ==> r.Ok?
    ensures r.Ok? ==>
              && fresh(r.value.Repr) && r.value.Valid()
              && Opened(r.value, store, participantId, participantName, recordAudio, recordVideo)
  {
    var audioWriter: MediaFileWriter? := null;
    if recordAudio {
      var created := store.CreateAudioFile(participantId, participantName, audioCreateError);
      if created.Err? {
        return Err(created.error);
      }
      audioWriter := created.value;
    }
    var videoWriter: MediaFileWriter? := null;
    if recordVideo {
      var created := store.CreateVideoFile(participantId, participantName, videoCreateError);
      if created.Err? {
        return Err(created.error);
      }
      videoWriter := created.value;
    }
    var track := new TrackRecorder(participantId, audioWriter, videoWriter);
    r := Ok(track);
  }

  /** Every object of the recorders in `tracks`. */
  ghost function Footprint(tracks: map<string, TrackRecorder>): set<object>
    reads set p | p in tracks :: tracks[p]
  {
    set p, o | p in tracks && o in tracks[p].Repr :: o
  }

  /** A recorder's audio writer and video writer, each present exactly when its thread exists. */
  type Writers = (MediaFileWriter?, MediaFileWriter?)

  /** The files a recorder with `writers` hands back when stopped under `faults`; None when a thread panicked. */
  function Outcome(faults: TrackFaults, writers: Writers): Option<TrackFiles>
  {
    if StopFails(faults, writers.0 != null, writers.1 != null) then None
    else Some(TrackFiles(FileOf(writers.0), FileOf(writers.1)))
  }

  /** The writers each recorder holds. */
  ghost function WritersOf(tracks: map<string, TrackRecorder>): map<string, Writers>
    reads set p | p in tracks :: tracks[p]
  {
    map p | p in tracks :: (tracks[p].audioWriter, tracks[p].videoWriter)
  }

  /** The files of every recorder, known by its writers, that `faults` lets stop cleanly. */
  function CleanStopsOf(writers: map<string, Writers>, faults: map<string, TrackFaults>): map<string, TrackFiles>
  {
    map p | p in writers && Outcome(FaultsFor(faults, p), writers[p]).Some? :: Outcome(FaultsFor(faults, p), writers[p]).value
  }

  /** The files of every recorder that `faults` lets stop cleanly. */
  ghost function CleanStops(tracks: map<string, TrackRecorder>, faults: map<string, TrackFaults>): map<string, TrackFiles>
    reads set p | p in tracks :: tracks[p]
  {
    CleanStopsOf(WritersOf(tracks), faults)
  }

  /** Stops one recorder; its files, or None when one of its threads panicked. */
  method StopOne(track: TrackRecorder, faults: TrackFaults) returns (files: Option<TrackFiles>)
    requires track.Valid()
    modifies track.Repr
    ensures track.Repr == old(track.Repr)
    ensures files == Outcome(faults, (old(track.audioWriter), old(track.videoWriter)))
  {
    var result := track.Stop(faults);
    if result.Err? {
      return None;
    }
    files := Some(TrackFiles(result.value.audioFile, result.value.videoFile));
  }

  /**
   * Halfway through stopping: each recorder still `remaining` is valid, inside
   * `live`, holds the writers noted for it and shares no object with another;
   * `stopped` holds the clean files of exactly the recorders already stopped.
   */
  ghost predicate Stopping(tracks: map<string, TrackRecorder>, remaining: set<string>, writers: map<string, Writers>,
                           live: set<object>, stopped: map<string, TrackFiles>, clean: map<string, TrackFiles>)
    reads live
  {
    forall q ::
      && (q in remaining ==>
            && q in tracks && q in writers
            && tracks[q] in live && tracks[q].Repr <= live && tracks[q].Valid()
            && (tracks[q].audioWriter, tracks[q].videoWriter) == writers[q]
            && (forall r :: r in remaining && r != q ==> r in tracks && tracks[r] in live && tracks[q].Repr !! tracks[r].Repr))
      && (q in stopped <==> q in clean && q !in remaining)
      && (q in stopped ==> stopped[q] == clean[q])
  }

  /** Before any recorder is stopped, valid and separate recorders are all live within their joint footprint. */
  lemma StoppingAtStart(tracks: map<string, TrackRecorder>, faults: map<string, TrackFaults>)
    requires forall p :: p in tracks ==> tracks[p].Valid()
    requires forall p, q :: p in tracks && q in tracks && p != q ==> tracks[p].Repr !! tracks[q].Repr
    ensures Stopping(tracks, tracks.Keys, WritersOf(tracks), Footprint(tracks), map[],
                     CleanStopsOf(WritersOf(tracks), faults))
  {
    forall q | q in tracks
      ensures tracks[q] in Footprint(tracks) && tracks[q].Repr <= Footprint(tracks)
    {
      assert tracks[q] in tracks[q].Repr;
    }
  }

  /** Each recorder in `remaining` is valid, inside `live`, holds the writers noted for it and shares no object with another. */
  ghost predicate Live(tracks: map<string, TrackRecorder>, remaining: set<string>, writers: map<string, Writers>,
                       live: set<object>)
    reads live
  {
    forall q :: q in remaining ==>
      && q in tracks && q in writers
      && tracks[q] in live && tracks[q].Repr <= live && tracks[q].Valid()
      && (tracks[q].audioWriter, tracks[q].videoWriter) == writers[q]
      && (forall r :: r in remaining && r != q ==> r in tracks && tracks[r] in live && tracks[q].Repr !! tracks[r].Repr)
  }

  /** `stopped` holds the clean files of exactly the recorders no longer `remaining`. */
  ghost predicate StoppedSoFar(stopped: map<string, TrackFiles>, clean: map<string, TrackFiles>, remaining: set<string>)
  {
    forall q :: (q in stopped <==> q in clean && q !in remaining) && (q in stopped ==> stopped[q] == clean[q])
  }

  /** Setting recorder `p` aside leaves the others live without its objects. */
  lemma StoppingWithout(tracks: map<string, TrackRecorder>, remaining: set<string>, writers: map<string, Writers>,
                        live: set<object>, stopped: map<string, TrackFiles>, clean: map<string, TrackFiles>, p: string)
    requires Stopping(tracks, remaining, writers, live, stopped, clean) && p in remaining
    ensures p in tracks && p in writers && tracks[p].Valid() && tracks[p].Repr <= live
    ensures (tracks[p].audioWriter, tracks[p].videoWriter) == writers[p]
    ensures Live(tracks, remaining - {p}, writers, live - tracks[p].Repr)
    ensures StoppedSoFar(stopped, clean, remaining)
  {
    forall q | q in remaining - {p}
      ensures tracks[q] !in tracks[p].Repr && tracks[q].Repr !! tracks[p].Repr
    {
      assert tracks[q] in tracks[q].Repr;
    }
  }

  /** Noting the outcome of recorder `p` once it is set aside restores the invariant for what remains. */
  lemma StoppingStep(tracks: map<string, TrackRecorder>, remaining: set<string>, writers: map<string, Writers>,
                     live: set<object>, stopped: map<string, TrackFiles>, clean: map<string, TrackFiles>,
                     p: string, files: Option<TrackFiles>)
    requires p in remaining && Live(tracks, remaining - {p}, writers, live) && StoppedSoFar(stopped, clean, remaining)
    requires files == (if p in clean then Some(clean[p]) else None)
    ensures Stopping(tracks, remaining - {p}, writers, live,
                     if files.Some? then stopped[p := files.value] else stopped, clean)
  {
  }

  /** Once nothing remains, `stopped` is every clean stop. */
  lemma StoppedAll(tracks: map<string, TrackRecorder>, writers: map<string, Writers>, live: set<object>,
                   stopped: map<string, TrackFiles>, clean: map<string, TrackFiles>)
    requires Stopping(tracks, {}, writers, live, stopped, clean)
    ensures stopped == clean
  {
  }

  /**
   * Stops one of the recorders still `remaining`, chosen in no particular
   * order, and notes its files in `stopped` if it stops cleanly.
   */
  method StopNext(tracks: map<string, TrackRecorder>, faults: map<string, TrackFaults>, remaining: set<string>,
                  stopped: map<string, TrackFiles>, ghost writers: map<string, Writers>, ghost live: set<object>)
    returns (remaining': set<string>, stopped': map<string, TrackFiles>, ghost live': set<object>)
    requires remaining != {} && Stopping(tracks, remaining, writers, live, stopped, CleanStopsOf(writers, faults))
    modifies live
    ensures remaining' < remaining && live' <= live
    ensures Stopping(tracks, remaining', writers, live', stopped', CleanStopsOf(writers, faults))
  {
    var p :| p in remaining;
    StoppingWithout(tracks, remaining, writers, live, stopped, CleanStopsOf(writers, faults), p);
    live' := live - tracks[p].Repr;
    var files := StopOne(tracks[p], FaultsFor(faults, p));
    StoppingStep(tracks, remaining, writers, live', stopped, CleanStopsOf(writers, faults), p, files);
    stopped' := if files.Some? then stopped[p := files.value] else stopped;
    remaining' := remaining - {p};
  }

  /**
   * Stops every recorder, in no particular order, and keeps the files of those
   * that stop cleanly; a recorder whose thread panicked is dropped.
   */
  method StopTracks(tracks: map<string, TrackRecorder>, faults: map<string, TrackFaults>)
    returns (stopped: map<string, TrackFiles>)
    requires forall p :: p in tracks ==> tracks[p].Valid()
    requires forall p, q :: p in tracks && q in tracks && p != q ==> tracks[p].Repr !! tracks[q].Repr
    modifies Footprint(tracks)
    ensures stopped == old(CleanStops(tracks, faults))
  {
    ghost var writers := WritersOf(tracks);
    ghost var scope := Footprint(tracks);
    ghost var live := scope;
    StoppingAtStart(tracks, faults);
    stopped := map[];
    var remaining := tracks.Keys;
    while remaining != {}
      invariant live <= scope
      invariant Stopping(tracks, remaining, writers, live, stopped, CleanStopsOf(writers, faults))
    {
      remaining, stopped, live := StopNext(tracks, faults, remaining, stopped, writers, live);
    }
    StoppedAll(tracks, writers, live, stopped, CleanStopsOf(writers, faults));
  }

  /** Records the files and the leave time of every participant whose track stopped cleanly. */
  method CloseParticipants(parts: map<string, ParticipantMetadata>, stopped: map<string, TrackFiles>, at: Timestamp)
    returns (closed: map<string, ParticipantMetadata>)
    ensures closed == CloseAll(parts, stopped, at)
  {
    closed := parts;
    var todo := stopped.Keys;
    while todo != {}
      invariant todo <= stopped.Keys
      invariant closed == CloseAll(parts, stopped - todo, at)
    {
      var p :| p in todo;
      if p in closed {
        closed := closed[p := Closed(closed[p], stopped[p], at)];
      }
      todo := todo - {p};
      assert closed == CloseAll(parts, stopped - todo, at);
    }
    assert stopped - todo == stopped;
  }

  class RecordingManager {
    var status: RecordingStatus
    var config: Option<RecordingConfig>
    var storage: Option<StorageManager>
    var tracks: map<string, TrackRecorder>
    var metadata: Option<RecordingMetadata>
    var recordingId: Option<string>
    ghost var Repr: set<object>

    /** Each track recorder is valid, owned, keyed by its participant and separate from the others. */
    ghost predicate Valid()
      reads this`tracks, this`Repr, Repr - {this}
    {
      && this in Repr
      && (forall p :: p in tracks ==>
            && tracks[p] in Repr
            && tracks[p].Repr <= Repr
            && this !in tracks[p].Repr
            && tracks[p].Valid()
            && tracks[p].participantId == p)
      && (forall p, q :: p in tracks && q in tracks && p != q ==> tracks[p].Repr !! tracks[q].Repr)
    }

    /**
     * The session invariant: an idle manager holds nothing; an active session
     * has its configuration, its storage and its id; a stopped one has handed
     * its metadata out and dropped its tracks; every track has a metadata
     * entry while the metadata is held.
     */
    ghost predicate Consistent()
      reads this
    {
      && (status.Idle? ==>
            config.None? && storage.None? && tracks == map[] && metadata.None? && recordingId.None?)
      && (status.IsActive() ==>
            config.Some? && storage.Some? && recordingId == Some(storage.value.recordingId))
      && (status.Stopped? ==>
            config.None? && storage.None? && tracks == map[] && metadata.None? && recordingId.Some?)
      && (metadata.Some? ==> tracks.Keys <= metadata.value.participants.Keys)
    }

    constructor ()
      ensures Valid() && Consistent() && fresh(Repr)
      ensures status == Idle && config == None && storage == None
      ensures tracks == map[] && metadata == None && recordingId == None
    {
      status := Idle;
      config := None;
      storage := None;
      tracks := map[];
      metadata := None;
      recordingId := None;
      Repr := {this};
    }

    /**
     * Starts a session from Idle only. `stamp` is the start time as formatted
     * for the directory name, `now` the start instant, and `createDirError`
     * the outcome of creating the session directory.
     */
    method StartRecording(config: RecordingConfig, stamp: string, now: Timestamp, createDirError: Option<string>)
      returns (r: Result<string, RecordingError>)
      requires Valid()
      modifies this
      ensures Valid() && Repr == old(Repr) && tracks == old(tracks)
      ensures old(Consistent()) ==> Consistent()
      ensures !old(status).Idle? ==> r == Err(AlreadyRecording) && unchanged(this)
      ensures old(status).Idle? && createDirError.Some? ==>
                r == Err(IoError(createDirError.value)) && unchanged(this)
      ensures old(status).Idle? && createDirError.None? ==>
                var id := RecordingId(config.roomId, stamp);
                var dir := DirPrefix(config.outputDir) + id;
                && r == Ok(id)
                && status == Recording(now)
                && this.config == Some(config)
                && storage == Some(StorageManager(dir, id))
                && metadata == Some(RecordingMetadata(id, config.roomId, now, None, 0, map[], dir))
                && recordingId == Some(id)
    {
      if !status.Idle? {
        return Err(AlreadyRecording);
      }
      var created := NewStorageManager(config.outputDir, config.roomId, stamp, createDirError);
      if created.Err? {
        return Err(created.error);
      }
      var store := created.value;
      var id := store.recordingId;
      metadata := Some(RecordingMetadata(id, config.roomId, now, None, 0, map[], store.outputDir));
      status := Recording(now);
      this.config := Some(config);
      storage := Some(store);
      recordingId := Some(id);
      r := Ok(id);
    }

    /**
     * Adds a participant's track recorder to an active (recording or paused)
     * session; a participant already present is left as it is. The outcome of
     * creating each file is given as `audioCreateError`/`videoCreateError`.
     */
    method AddParticipant(participantId: string, participantName: string, recordAudio: bool, recordVideo: bool,
                          now: Timestamp, audioCreateError: Option<string>, videoCreateError: Option<string>)
      returns (r: Result<Unit, RecordingError>)
      requires Valid()
      modifies this
      ensures Valid() && fresh(Repr - old(Repr))
      ensures old(Consistent()) ==> Consistent()
      ensures status == old(status) && config == old(config) && storage == old(storage)
      ensures recordingId == old(recordingId)
      ensures !old(status).IsActive() ==> r == Err(NoActiveRecording)
      ensures old(status).IsActive() && participantId in old(tracks) ==> r == Ok(Unit)
      ensures r.Err? || participantId in old(tracks) ==> tracks == old(tracks) && metadata == old(metadata)
      ensures old(status).IsActive() && participantId !in old(tracks) && old(config).Some? && old(storage).Some? ==>
                && (recordAudio && audioCreateError.Some? ==> r == Err(IoError(audioCreateError.value)))
                && (!(recordAudio && audioCreateError.Some?) && recordVideo && videoCreateError.Some? ==>
                      r == Err(IoError(videoCreateError.value)))
                && (!(recordAudio && audioCreateError.Some?) && !(recordVideo && videoCreateError.Some?) ==> r.Ok?)
      ensures r.Ok? && participantId !in old(tracks) ==>
                && old(storage).Some?
                && participantId in tracks && tracks == old(tracks)[participantId := tracks[participantId]]
                && fresh(tracks[participantId])
                && Opened(tracks[participantId], old(storage).value, participantId, participantName, recordAudio, recordVideo)
                && metadata == WithJoined(old(metadata), participantId, participantName, now)
    {
      if !status.IsActive() {
        return Err(NoActiveRecording);
      }
      if participantId in tracks {
        return Ok(Unit);
      }
      if config.None? || storage.None? {
        return Err(NoActiveRecording);
      }
      r := Admit(participantId, participantName, recordAudio, recordVideo, now, audioCreateError, videoCreateError);
    }

    /**
     * Opens a new participant's files and track recorder, takes ownership of
     * the recorder and notes the participant as joined in the metadata.
     */
    method Admit(participantId: string, participantName: string, recordAudio: bool, recordVideo: bool,
                 now: Timestamp, audioCreateError: Option<string>, videoCreateError: Option<string>)
      returns (r: Result<Unit, RecordingError>)
      requires Valid() && participantId !in tracks && storage.Some?
      modifies this`tracks, this`Repr, this`metadata
      ensures Valid() && fresh(Repr - old(Repr))
      ensures recordAudio && audioCreateError.Some? ==> r == Err(IoError(audioCreateError.value))
      ensures !(recordAudio && audioCreateError.Some?) && recordVideo && videoCreateError.Some? ==>
                r == Err(IoError(videoCreateError.value))
      ensures !(recordAudio && audioCreateError.Some?) && !(recordVideo && videoCreateError.Some?) ==> r.Ok?
      ensures r.Err? ==> tracks == old(tracks) && metadata == old(metadata)
      ensures r.Ok? ==>
                && participantId in tracks && tracks == old(tracks)[participantId := tracks[participantId]]
                && fresh(tracks[participantId])
                && Opened(tracks[participantId], storage.value, participantId, participantName, recordAudio, recordVideo)
                && metadata == WithJoined(old(metadata), participantId, participantName, now)
    {
      var made := OpenTrack(storage.value, participantId, participantName, recordAudio, recordVideo,
                              audioCreateError, videoCreateError);
      if made.Err? {
        return Err(made.error);
      }
      var track := made.value;
      metadata := WithJoined(metadata, participantId, participantName, now);
      InsertTrack(participantId, track);
      r := Ok(Unit);
    }

    /** Takes ownership of a new, separate track recorder under its participant's id. */
    method InsertTrack(participantId: string, track: TrackRecorder)
      requires Valid() && track.Valid() && track.participantId == participantId
      requires participantId !in tracks && this !in track.Repr && track.Repr !! Repr
      modifies this`tracks, this`Repr
      ensures Valid()
      ensures tracks == old(tracks)[participantId := track] && Repr == old(Repr) + track.Repr
    {
      tracks := tracks[participantId := track];
      Repr := Repr + track.Repr;
    }

    /**
     * Hands a chunk of `kind` to a participant's track recorder; an unknown
     * participant is an error. `delivered` says whether the track's channel
     * still accepts messages.
     */
    method AddChunk(kind: MediaKind, participantId: string, chunk: seq<byte>, delivered: bool)
      returns (r: Result<Unit, RecordingError>)
      requires Valid()
      modifies if participantId in tracks then {tracks[participantId]} else {}
      ensures Valid()
      ensures participantId !in tracks ==> r == Err(ParticipantNotFound(participantId))
      ensures participantId in tracks ==>
                var t := tracks[participantId];
                && (!old(t.Sender(kind)) ==> r == Ok(Unit) && unchanged(t))
                && (old(t.Sender(kind)) && !delivered ==>
                      r == Err(TrackError(if kind == Audio then "Failed to send audio chunk" else "Failed to send video chunk"))
                      && unchanged(t))
                && (old(t.Sender(kind)) && delivered ==>
                      && r == Ok(Unit)
                      && t.Channel(kind) == old(t.Channel(kind)) + [if kind == Audio then AudioChunk(chunk) else VideoChunk(chunk)]
                      && t.stats == AddReceived(old(t.stats), kind))
    {
      if participantId !in tracks {
        return Err(ParticipantNotFound(participantId));
      }
      var t := tracks[participantId];
      r := t.SendChunk(kind, chunk, delivered);
    }

    /**
     * Ends an active session at `now`: stops every track (the faults each one
     * meets are given in `faults`), closes the metadata of those that stopped
     * cleanly, and saves it (the outcome of saving is `saveError`). The tracks
     * and the held metadata are gone whether or not saving succeeds.
     */
    method StopRecording(now: Timestamp, faults: map<string, TrackFaults>, saveError: Option<string>)
      returns (r: Result<RecordingMetadata, RecordingError>)
      requires Valid()
      modifies Repr
      ensures Valid() && Repr == old(Repr)
      ensures old(Consistent()) ==> Consistent()
      ensures recordingId == old(recordingId)
      ensures !old(status).IsActive() ==> r == Err(NoActiveRecording) && unchanged(this)
      ensures old(status).IsActive() ==> tracks == map[] && metadata == None
      ensures old(status).IsActive() && (old(metadata).None? || (old(storage).Some? && saveError.Some?)) ==>
                && r == (if old(metadata).None? then Err(NoActiveRecording) else Err(IoError(saveError.value)))
                && status == old(status) && config == old(config) && storage == old(storage)
      ensures old(status).IsActive() && old(metadata).Some? && !(old(storage).Some? && saveError.Some?) ==>
                && status == Stopped && config == None && storage == None
                && r == Ok(old(metadata).value.(
                          stoppedAt := Some(now),
                          durationSeconds := DurationSeconds(old(status).startedAt, now),
                          participants := CloseAll(old(metadata).value.participants, old(CleanStops(tracks, faults)), now)))
    {
      if !status.IsActive() {
        return Err(NoActiveRecording);
      }
      var startedAt := StartedAt(status, now);
      var stoppedAt := now;
      var duration := DurationSeconds(startedAt, stoppedAt);

      var stopped := DropTracks(faults);

      if metadata.None? {
        return Err(NoActiveRecording);
      }
      var md := metadata.value;
      metadata := None;
      md := md.(stoppedAt := Some(stoppedAt), durationSeconds := duration);
      var parts := CloseParticipants(md.participants, stopped, stoppedAt);
      md := md.(participants := parts);

      if storage.Some? && saveError.Some? {
        return Err(IoError(saveError.value));
      }
      status := Stopped;
      config := None;
      storage := None;
      r := Ok(md);
    }

    /** Stops every track recorder and lets go of them all; the files of those that stopped cleanly. */
    method DropTracks(faults: map<string, TrackFaults>) returns (stopped: map<string, TrackFiles>)
      requires Valid()
      modifies Repr
      ensures Valid() && Repr == old(Repr) && tracks == map[]
      ensures status == old(status) && config == old(config) && storage == old(storage)
      ensures metadata == old(metadata) && recordingId == old(recordingId)
      ensures stopped == old(CleanStops(tracks, faults))
    {
      var taken := tracks;
      tracks := map[];
      assert Footprint(taken) <= Repr && this !in Footprint(taken);
      stopped := StopTracks(taken, faults);
    }

    /** Pauses a recording session; the start time is kept. */
    method PauseRecording(now: Timestamp) returns (r: Result<Unit, RecordingError>)
      modifies this`status
      ensures old(Consistent()) ==> Consistent()
      ensures old(status).Recording? ==> r == Ok(Unit) && status == Paused(old(status).startedAt, now)
      ensures !old(status).Recording? ==> r == Err(NoActiveRecording) && status == old(status)
    {
      if status.Recording? {
        status := Paused(status.startedAt, now);
        return Ok(Unit);
      }
      return Err(NoActiveRecording);
    }

    /** Resumes a paused session with its original start time. */
    method ResumeRecording() returns (r: Result<Unit, RecordingError>)
      modifies this`status
      ensures old(Consistent()) ==> Consistent()
      ensures old(status).Paused? ==> r == Ok(Unit) && status == Recording(old(status).startedAt)
      ensures !old(status).Paused? ==> r == Err(NoActiveRecording) && status == old(status)
    {
      if status.Paused? {
        status := Recording(status.startedAt);
        return Ok(Unit);
      }
      return Err(NoActiveRecording);
    }

    method GetStatus() returns (s: RecordingStatus)
      ensures s == status
    {
      return status;
    }

    method GetRecordingId() returns (id: Option<string>)
      ensures id == recordingId
    {
      return recordingId;
    }

    method GetMetadata() returns (m: Option<RecordingMetadata>)
      ensures m == metadata
    {
      return metadata;
    }
  }

  /** Pausing and then resuming gives back the recording status with its original start time. */
  method PauseResumeRestores(m: RecordingManager, now: Timestamp) returns (r1: Result<Unit, RecordingError>, r2: Result<Unit, RecordingError>)
    requires m.status.Recording?
    modifies m`status
    ensures r1 == Ok(Unit) && r2 == Ok(Unit) && m.status == old(m.status)
  {
    r1 := m.PauseRecording(now);
    r2 := m.ResumeRecording();
  }

  /**
   * A manager is good for one session: once a session has been stopped, a new
   * start is refused as if a session were still in progress.
   */
  method RestartAfterStopIsRejected(config: RecordingConfig, stamp: string, t0: Timestamp, t1: Timestamp, t2: Timestamp)
    returns (started: Result<string, RecordingError>, restarted: Result<string, RecordingError>)
    ensures started == Ok(RecordingId(config.roomId, stamp))
    ensures restarted == Err(AlreadyRecording)
  {
    var m := new RecordingManager();
    started := m.StartRecording(config, stamp, t0, None);
    var stopped := m.StopRecording(t1, map[], None);
    restarted := m.StartRecording(config, stamp, t2, None);
  }
}
