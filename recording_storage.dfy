/**
 * On-disk layout of a recording: the session directory named after the room
 * and the start time, one WebM file per participant and media kind, and the
 * writers that append browser-encoded chunks to those files.
 */
module RecordingStorage {
  import opened Wrappers
  import opened RecordingTypes

  // ---------------------------------------------------------------------------
  // File-name sanitising
  // ---------------------------------------------------------------------------

  /** The characters a sanitised file name may contain: ASCII letters, digits, '-' and '_'. */
  predicate IsFilenameSafe(c: char)
  {
    ('a' <= c <= 'z') || ('A' <= c <= 'Z') || ('0' <= c <= '9') || c == '-' || c == '_'
  }

  function SanitizeChar(c: char): char
  {
    if IsFilenameSafe(c) then c else '_'
  }

  /** Maps every character that is not file-name safe to '_', character by character. */
  function SanitizeFilename(name: string): (r: string)
    ensures |r| == |name|
  {
    seq(|name|, i requires 0 <= i < |name| => SanitizeChar(name[i]))
  }

  /** Safe characters pass through and every other character becomes '_'. */
  lemma SanitizeAt(name: string, i: nat)
    requires i < |name|
    ensures IsFilenameSafe(name[i]) ==> SanitizeFilename(name)[i] == name[i]
    ensures !IsFilenameSafe(name[i]) ==> SanitizeFilename(name)[i] == '_'
  {
  }

  /** Every character of a sanitised name is safe. */
  lemma SanitizeOutputSafe(name: string)
    ensures forall i :: 0 <= i < |SanitizeFilename(name)| ==> IsFilenameSafe(SanitizeFilename(name)[i])
  {
  }

  /** A name is left unchanged exactly when all its characters are already safe. */
  lemma SanitizeFixesExactlySafeNames(name: string)
    ensures SanitizeFilename(name) == name <==> forall i :: 0 <= i < |name| ==> IsFilenameSafe(name[i])
  {
  }

  /** Sanitising twice is sanitising once. */
  lemma SanitizeIdempotent(name: string)
    ensures SanitizeFilename(SanitizeFilename(name)) == SanitizeFilename(name)
  {
  }

  /** The three names the module's own unit test checks. */
  lemma SanitizeExamples()
    ensures SanitizeFilename("John Doe") == "John_Doe"
    ensures SanitizeFilename("user@example.com") == "user_example_com"
    ensures SanitizeFilename("test-user_123") == "test-user_123"
  {
  }

  // ---------------------------------------------------------------------------
  // Paths and names
  // ---------------------------------------------------------------------------

  /**
   * Appends `name` to `base` the way a Unix path buffer does: an absolute
   * `name` replaces `base`; otherwise a '/' is inserted unless `base` is empty
   * or already ends with one.
   */
  function JoinPath(base: Path, name: string): Path
  {
    if |name| > 0 && name[0] == '/' then name
    else if base == "" || base[|base| - 1] == '/' then base + name
    else base + "/" + name
  }

  /** `base` as the directory prefix a relative name is appended to. */
  function DirPrefix(base: Path): Path
  {
    if base == "" || base[|base| - 1] == '/' then base else base + "/"
  }

  /** A relative name lands directly under `base`: the joined path is the directory prefix followed by the name. */
  lemma JoinRelative(base: Path, name: string)
    requires |name| > 0 && name[0] != '/'
    ensures JoinPath(base, name) == DirPrefix(base) + name
    ensures HasPrefix(JoinPath(base, name), DirPrefix(base))
  {
    assert (DirPrefix(base) + name)[..|DirPrefix(base)|] == DirPrefix(base);
  }

  /** `recording-{room}-{timestamp}`, the session's id and directory name. */
  function RecordingId(roomId: string, timestamp: string): string
  {
    "recording-" + roomId + "-" + timestamp
  }

  /** For one start time, distinct rooms get distinct recording ids. */
  lemma {:induction false} RecordingIdInjective(room1: string, room2: string, timestamp: string)
    requires RecordingId(room1, timestamp) == RecordingId(room2, timestamp)
    ensures room1 == room2
  {
    var id := RecordingId(room1, timestamp);
    assert |room1| == |room2|;
    assert id[10..10 + |room1|] == room1;
    assert RecordingId(room2, timestamp)[10..10 + |room2|] == room2;
  }

  function AudioFileName(participantId: string, participantName: string): string
  {
    participantId + "-" + SanitizeFilename(participantName) + "-audio.webm"
  }

  function VideoFileName(participantId: string, participantName: string): string
  {
    participantId + "-" + SanitizeFilename(participantName) + "-video.webm"
  }

  /** No audio file name is ever a video file name, whatever the ids and names. */
  lemma {:induction false} AudioNeverVideo(id1: string, name1: string, id2: string, name2: string)
    ensures AudioFileName(id1, name1) != VideoFileName(id2, name2)
  {
    var a := AudioFileName(id1, name1);
    var v := VideoFileName(id2, name2);
    assert a[|a| - 10] == 'a';
    assert v[|v| - 10] == 'v';
  }

  /**
   * With ids of one length (the 36-character UUIDs the signaling server hands
   * out), two participants' audio files collide only when the ids are equal.
   */
  lemma {:induction false} AudioNamesSeparateIds(id1: string, name1: string, id2: string, name2: string)
    requires |id1| == |id2|
    requires AudioFileName(id1, name1) == AudioFileName(id2, name2)
    ensures id1 == id2
  {
    var a := AudioFileName(id1, name1);
    assert a[..|id1|] == id1;
    assert AudioFileName(id2, name2)[..|id2|] == id2;
  }

  /** Without equal lengths the '-' separator is ambiguous: two participants can be given one file. */
  lemma DifferentIdsCanShareAFile()
    ensures AudioFileName("a", "b-c") == AudioFileName("a-b", "c")
  {
    assert SanitizeFilename("b-c") == "b-c";
    assert SanitizeFilename("c") == "c";
  }

  /**
   * The participant id is not sanitised: an id that starts with '/' makes the
   * audio file an absolute path outside the session directory.
   */
  lemma {:induction false} AbsoluteIdEscapesDirectory(outputDir: Path, id: string, name: string)
    requires |id| > 0 && id[0] == '/'
    ensures JoinPath(outputDir, AudioFileName(id, name)) == AudioFileName(id, name)
  {
    assert AudioFileName(id, name)[0] == id[0];
  }

  // ---------------------------------------------------------------------------
  // The storage manager
  // ---------------------------------------------------------------------------

  /** The session directory and the id it is named after; fixed once created. */
  datatype StorageManager = StorageManager(outputDir: Path, recordingId: string)
  {
    /**
     * Creates the audio file of a participant; creation may fail with an I/O
     * error, given here as `createError`.
     */
    method CreateAudioFile(participantId: string, participantName: string, createError: Option<string>)
      returns (r: Result<MediaFileWriter, RecordingError>)
      ensures createError.Some? ==> r == Err(IoError(createError.value))
      ensures createError.None? ==> r.Ok? && fresh(r.value)
      ensures r.Ok? ==> r.value.path == JoinPath(outputDir, AudioFileName(participantId, participantName))
      ensures r.Ok? ==> r.value.chunkCount == 0 && r.value.contents == []
    {
      if createError.Some? {
        return Err(IoError(createError.value));
      }
      var w := new MediaFileWriter(JoinPath(outputDir, AudioFileName(participantId, participantName)));
      return Ok(w);
    }

    /** Creates the video file of a participant, like CreateAudioFile. */
    method CreateVideoFile(participantId: string, participantName: string, createError: Option<string>)
      returns (r: Result<MediaFileWriter, RecordingError>)
      ensures createError.Some? ==> r == Err(IoError(createError.value))
      ensures createError.None? ==> r.Ok? && fresh(r.value)
      ensures r.Ok? ==> r.value.path == JoinPath(outputDir, VideoFileName(participantId, participantName))
      ensures r.Ok? ==> r.value.chunkCount == 0 && r.value.contents == []
    {
      if createError.Some? {
        return Err(IoError(createError.value));
      }
      var w := new MediaFileWriter(JoinPath(outputDir, VideoFileName(participantId, participantName)));
      return Ok(w);
    }
  }

  /**
   * Opens the session directory `base/recording-{room}-{timestamp}`.
   * `timestamp` is the start time already formatted as `%Y-%m-%d_%H-%M-%S`;
   * creating the directory may fail with an I/O error, given as `createDirError`.
   */
  function NewStorageManager(baseDir: Path, roomId: string, timestamp: string, createDirError: Option<string>)
    : (r: Result<StorageManager, RecordingError>)
    ensures r.Ok? <==> createDirError.None?
    ensures r.Err? ==> r.error == IoError(createDirError.value)
    ensures r.Ok? ==> r.value.recordingId == RecordingId(roomId, timestamp)
    ensures r.Ok? ==> r.value.outputDir == DirPrefix(baseDir) + RecordingId(roomId, timestamp)
  {
    var id := RecordingId(roomId, timestamp);
    JoinRelative(baseDir, id);
    if createDirError.Some? then Err(IoError(createDirError.value))
    else Ok(StorageManager(JoinPath(baseDir, id), id))
  }

  // ---------------------------------------------------------------------------
  // File writers
  // ---------------------------------------------------------------------------

  /** A failed write: how many bytes reached the file before the error, and the error's text. */
  datatype IoFault = IoFault(written: nat, message: string)

  /** Writing all of an empty buffer performs no I/O and cannot fail. */
  function EffectiveFault(chunk: seq<byte>, fault: Option<IoFault>): Option<IoFault>
  {
    if chunk == [] then None else fault
  }

  /** The part of `chunk` that reaches the file. */
  function WrittenPart(chunk: seq<byte>, fault: Option<IoFault>): (w: seq<byte>)
    ensures |w| <= |chunk| && w == chunk[..|w|]
    ensures EffectiveFault(chunk, fault).None? ==> w == chunk
  {
    match EffectiveFault(chunk, fault)
    case None => chunk
    case Some(f) => chunk[..if f.written < |chunk| then f.written else |chunk|]
  }

  /**
   * An open WebM file. The audio and the video writer of the source are the
   * same structure, so one class stands for both.
   */
  class MediaFileWriter {
    const path: Path
    /** The chunks written in full. */
    var chunkCount: nat
    /** The bytes in the file. */
    var contents: seq<byte>

    constructor (path: Path)
      ensures this.path == path && chunkCount == 0 && contents == []
    {
      this.path := path;
      chunkCount := 0;
      contents := [];
    }

    /** Appends a chunk as it came from the browser; `fault` is the outcome the disk gives this write. */
    method WriteChunk(chunk: seq<byte>, fault: Option<IoFault>) returns (r: Result<Unit, RecordingError>)
      modifies this
      ensures contents == old(contents) + WrittenPart(chunk, fault)
      ensures EffectiveFault(chunk, fault).None? ==> r == Ok(Unit) && chunkCount == old(chunkCount) + 1
      ensures EffectiveFault(chunk, fault).Some? ==>
                r == Err(IoError(fault.value.message)) && chunkCount == old(chunkCount)
    {
      contents := contents + WrittenPart(chunk, fault);
      var f := EffectiveFault(chunk, fault);
      if f.Some? {
        return Err(IoError(f.value.message));
      }
      chunkCount := chunkCount + 1;
      return Ok(Unit);
    }

    /** Closes the file and hands back where it is. */
    method Finalize() returns (r: Result<Path, RecordingError>)
      ensures r == Ok(path)
    {
      return Ok(path);
    }
  }
}
