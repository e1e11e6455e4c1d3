/**
 * One participant's recorder: a channel per media kind feeding a writer
 * thread, and the counters those threads share. Each channel is the sequence
 * of messages sent on it; each thread's loop is a fold over that sequence,
 * run when the recorder is stopped and the thread is joined.
 */
module RecordingTrack {
  import opened Wrappers
  import opened RecordingTypes
  import opened RecordingStorage

  datatype MediaKind = Audio | Video

  datatype TrackMessage = AudioChunk(data: seq<byte>) | VideoChunk(data: seq<byte>) | Stop

  datatype TrackStats = TrackStats(
    audioChunksReceived: nat,
    videoChunksReceived: nat,
    audioBytesWritten: nat,
    videoBytesWritten: nat,
    errors: seq<string>)

  const NoStats := TrackStats(0, 0, 0, 0, [])

  /** The chunk a message carries for the thread of `kind`, if any. */
  function ChunkOf(kind: MediaKind, m: TrackMessage): Option<seq<byte>>
  {
    match m
    case AudioChunk(d) => if kind == Audio then Some(d) else None
    case VideoChunk(d) => if kind == Video then Some(d) else None
    case Stop => None
  }

  function BytesWritten(s: TrackStats, kind: MediaKind): nat
  {
    if kind == Audio then s.audioBytesWritten else s.videoBytesWritten
  }

  function AddBytes(s: TrackStats, kind: MediaKind, n: nat): TrackStats
  {
    if kind == Audio then s.(audioBytesWritten := s.audioBytesWritten + n)
    else s.(videoBytesWritten := s.videoBytesWritten + n)
  }

  function Received(s: TrackStats, kind: MediaKind): nat
  {
    if kind == Audio then s.audioChunksReceived else s.videoChunksReceived
  }

  function AddReceived(s: TrackStats, kind: MediaKind): TrackStats
  {
    if kind == Audio then s.(audioChunksReceived := s.audioChunksReceived + 1)
    else s.(videoChunksReceived := s.videoChunksReceived + 1)
  }

  /** The entry a failed write adds to the error list. */
  function WriteErrorText(kind: MediaKind, e: RecordingError): string
  {
    (if kind == Audio then "Audio write error: " else "Video write error: ") + Display(e)
  }

  // ---------------------------------------------------------------------------
  // The recording loop as a fold
  // ---------------------------------------------------------------------------

  /** What a recording thread has produced so far: the shared counters and its file. */
  datatype Sink = Sink(stats: TrackStats, file: seq<byte>, chunks: nat)

  function FirstFault(faults: seq<Option<IoFault>>): Option<IoFault>
  {
    if faults == [] then None else faults[0]
  }

  function LaterFaults(faults: seq<Option<IoFault>>): seq<Option<IoFault>>
  {
    if faults == [] then [] else faults[1..]
  }

  /** One chunk handed to the writer: bytes counted on success, one error entry on failure. */
  function WriteStep(kind: MediaKind, s: Sink, data: seq<byte>, fault: Option<IoFault>): Sink
  {
    match EffectiveFault(data, fault)
    case None => Sink(AddBytes(s.stats, kind, |data|), s.file + WrittenPart(data, fault), s.chunks + 1)
    case Some(f) =>
      Sink(s.stats.(errors := s.stats.errors + [WriteErrorText(kind, IoError(f.message))]),
           s.file + WrittenPart(data, fault), s.chunks)
  }

  /**
   * The loop of the thread of `kind` over the messages of its channel: it
   * writes its own chunks, skips the other kind's, and ends at the first Stop
   * or when the channel has nothing more. `faults[i]` is the outcome the disk
   * gives the write of `msgs[i]`; missing entries are successes.
   */
  function Consume(kind: MediaKind, msgs: seq<TrackMessage>, faults: seq<Option<IoFault>>, s: Sink): Sink
    decreases |msgs|
  {
    if msgs == [] || msgs[0].Stop? then s
    else match ChunkOf(kind, msgs[0])
      case None => Consume(kind, msgs[1..], LaterFaults(faults), s)
      case Some(d) => Consume(kind, msgs[1..], LaterFaults(faults), WriteStep(kind, s, d, FirstFault(faults)))
  }

  /** The chunks of `kind` before the first Stop, joined. */
  function Payload(kind: MediaKind, msgs: seq<TrackMessage>): seq<byte>
    decreases |msgs|
  {
    if msgs == [] || msgs[0].Stop? then []
    else match ChunkOf(kind, msgs[0])
      case None => Payload(kind, msgs[1..])
      case Some(d) => d + Payload(kind, msgs[1..])
  }

  /** How many chunks of `kind` come before the first Stop. */
  function Count(kind: MediaKind, msgs: seq<TrackMessage>): nat
    decreases |msgs|
  {
    if msgs == [] || msgs[0].Stop? then 0
    else if ChunkOf(kind, msgs[0]).Some? then 1 + Count(kind, msgs[1..])
    else Count(kind, msgs[1..])
  }

  predicate NoWriteFaults(faults: seq<Option<IoFault>>)
  {
    forall i :: 0 <= i < |faults| ==> faults[i].None?
  }

  /** Nothing after the first Stop reaches the thread. */
  lemma {:induction false} ConsumeEndsAtStop(kind: MediaKind, pre: seq<TrackMessage>, post: seq<TrackMessage>,
                                             faults: seq<Option<IoFault>>, s: Sink)
    ensures Consume(kind, pre + [Stop] + post, faults, s) == Consume(kind, pre, faults, s)
  {
    var msgs := pre + [Stop] + post;
    if pre == [] {
      assert msgs[0] == Stop;
    } else if pre[0].Stop? {
      assert msgs[0] == pre[0];
    } else {
      assert msgs[0] == pre[0];
      assert msgs[1..] == pre[1..] + [Stop] + post;
      match ChunkOf(kind, pre[0])
      case None => ConsumeEndsAtStop(kind, pre[1..], post, LaterFaults(faults), s);
      case Some(d) => ConsumeEndsAtStop(kind, pre[1..], post, LaterFaults(faults), WriteStep(kind, s, d, FirstFault(faults)));
    }
  }

  /** A thread that sees no chunk of its own kind before Stop changes nothing. */
  lemma {:induction false} ConsumeIgnoresOtherKind(kind: MediaKind, msgs: seq<TrackMessage>,
                                                   faults: seq<Option<IoFault>>, s: Sink)
    requires Count(kind, msgs) == 0
    ensures Consume(kind, msgs, faults, s) == s
  {
    if msgs != [] && !msgs[0].Stop? {
      ConsumeIgnoresOtherKind(kind, msgs[1..], LaterFaults(faults), s);
    }
  }

  /**
   * Without write faults the file receives exactly the chunks, in order, the
   * byte counter grows by their total length, and no error is recorded.
   */
  lemma {:induction false} ConsumeWithoutFaults(kind: MediaKind, msgs: seq<TrackMessage>,
                                                faults: seq<Option<IoFault>>, s: Sink)
    requires NoWriteFaults(faults)
    ensures Consume(kind, msgs, faults, s)
            == Sink(AddBytes(s.stats, kind, |Payload(kind, msgs)|), s.file + Payload(kind, msgs), s.chunks + Count(kind, msgs))
  {
    if msgs == [] || msgs[0].Stop? {
      assert s.file + [] == s.file;
    } else {
      var rest := LaterFaults(faults);
      assert NoWriteFaults(rest) by {
        if faults != [] {
          forall i | 0 <= i < |rest| ensures rest[i].None? { assert rest[i] == faults[i + 1]; }
        }
      }
      match ChunkOf(kind, msgs[0])
      case None =>
        ConsumeWithoutFaults(kind, msgs[1..], rest, s);
      case Some(d) =>
        var s1 := WriteStep(kind, s, d, FirstFault(faults));
        assert FirstFault(faults).None?;
        assert s1 == Sink(AddBytes(s.stats, kind, |d|), s.file + d, s.chunks + 1);
        ConsumeWithoutFaults(kind, msgs[1..], rest, s1);
        assert s.file + d + Payload(kind, msgs[1..]) == s.file + (d + Payload(kind, msgs[1..]));
    }
  }

  /**
   * Every chunk of the thread's kind is attempted, and a failed write does not
   * end the loop: full writes plus error entries add up to the chunks before
   * Stop. Earlier errors and file bytes are kept, and the counted bytes never
   * exceed what reached the file.
   */
  lemma {:induction false} ConsumeAccounts(kind: MediaKind, msgs: seq<TrackMessage>,
                                           faults: seq<Option<IoFault>>, s: Sink)
    ensures var r := Consume(kind, msgs, faults, s);
            && r.chunks >= s.chunks
            && |r.stats.errors| >= |s.stats.errors|
            && (r.chunks - s.chunks) + (|r.stats.errors| - |s.stats.errors|) == Count(kind, msgs)
            && r.stats.errors[..|s.stats.errors|] == s.stats.errors
            && |r.file| >= |s.file| && r.file[..|s.file|] == s.file
            && |r.file| - |s.file| <= |Payload(kind, msgs)|
            && BytesWritten(r.stats, kind) >= BytesWritten(s.stats, kind)
            && BytesWritten(r.stats, kind) - BytesWritten(s.stats, kind) <= |r.file| - |s.file|
            && r.stats.audioChunksReceived == s.stats.audioChunksReceived
            && r.stats.videoChunksReceived == s.stats.videoChunksReceived
  {
    if msgs == [] || msgs[0].Stop? {
    } else {
      var rest := LaterFaults(faults);
      match ChunkOf(kind, msgs[0])
      case None =>
        ConsumeAccounts(kind, msgs[1..], rest, s);
      case Some(d) =>
        var s1 := WriteStep(kind, s, d, FirstFault(faults));
        var w := WrittenPart(d, FirstFault(faults));
        assert s1.file == s.file + w;
        assert s1.file[..|s.file|] == s.file;
        assert s1.stats.errors[..|s.stats.errors|] == s.stats.errors;
        ConsumeAccounts(kind, msgs[1..], rest, s1);
        var r := Consume(kind, msgs, faults, s);
        assert r == Consume(kind, msgs[1..], rest, s1);
        assert r.file[..|s1.file|] == s1.file;
        assert r.file[..|s.file|] == s1.file[..|s.file|];
        assert r.stats.errors[..|s.stats.errors|] == s1.stats.errors[..|s.stats.errors|];
    }
  }

  /** The other kind's byte counter is never touched by a thread. */
  lemma {:induction false} ConsumeKeepsOtherBytes(kind: MediaKind, other: MediaKind, msgs: seq<TrackMessage>,
                                                  faults: seq<Option<IoFault>>, s: Sink)
    requires other != kind
    ensures BytesWritten(Consume(kind, msgs, faults, s).stats, other) == BytesWritten(s.stats, other)
  {
    if msgs != [] && !msgs[0].Stop? {
      match ChunkOf(kind, msgs[0])
      case None => ConsumeKeepsOtherBytes(kind, other, msgs[1..], LaterFaults(faults), s);
      case Some(d) =>
        ConsumeKeepsOtherBytes(kind, other, msgs[1..], LaterFaults(faults), WriteStep(kind, s, d, FirstFault(faults)));
    }
  }

  /** The chunks of a channel that carries only chunks of `kind`, joined in order. */
  function Concat(kind: MediaKind, chunks: seq<TrackMessage>): seq<byte>
    decreases |chunks|
  {
    if chunks == [] then []
    else (if chunks[0].Stop? then [] else chunks[0].data) + Concat(kind, chunks[1..])
  }

  predicate OnlyChunksOf(kind: MediaKind, msgs: seq<TrackMessage>)
  {
    forall i :: 0 <= i < |msgs| ==> ChunkOf(kind, msgs[i]).Some?
  }

  /** Up to the Stop that ends a channel of chunks, the thread sees every chunk. */
  lemma {:induction false} ChannelPayload(kind: MediaKind, chunks: seq<TrackMessage>)
    requires OnlyChunksOf(kind, chunks)
    ensures Payload(kind, chunks + [Stop]) == Concat(kind, chunks)
    ensures Count(kind, chunks + [Stop]) == |chunks|
  {
    var msgs := chunks + [Stop];
    if chunks == [] {
      assert msgs[0] == Stop;
    } else {
      assert msgs[0] == chunks[0];
      assert msgs[1..] == chunks[1..] + [Stop];
      assert OnlyChunksOf(kind, chunks[1..]) by {
        forall i | 0 <= i < |chunks[1..]| ensures ChunkOf(kind, chunks[1..][i]).Some? {
          assert chunks[1..][i] == chunks[i + 1];
        }
      }
      ChannelPayload(kind, chunks[1..]);
      assert ChunkOf(kind, chunks[0]).Some?;
    }
  }

  // ---------------------------------------------------------------------------
  // The recorder
  // ---------------------------------------------------------------------------

  /** What the environment does to a recorder's threads: panics and the outcome of each write. */
  datatype TrackFaults = TrackFaults(
    audioPanicked: bool,
    videoPanicked: bool,
    audioWrites: seq<Option<IoFault>>,
    videoWrites: seq<Option<IoFault>>)

  const NoTrackFaults := TrackFaults(false, false, [], [])

  datatype TrackRecordingResult = TrackRecordingResult(
    participantId: string,
    audioFile: Option<Path>,
    videoFile: Option<Path>,
    stats: TrackStats)

  /** The path of a writer's file, if there is a writer. */
  function FileOf(w: MediaFileWriter?): Option<Path>
  {
    if w == null then None else Some(w.path)
  }

  /** Joining fails when a thread that exists has panicked. */
  predicate StopFails(f: TrackFaults, hasAudio: bool, hasVideo: bool)
  {
    (hasAudio && f.audioPanicked) || (hasVideo && f.videoPanicked)
  }

  ghost function WriterSet(a: MediaFileWriter?, v: MediaFileWriter?): set<object>
  {
    (if a != null then {a} else {}) + (if v != null then {v} else {})
  }

  class TrackRecorder {
    const participantId: string
    /** The sending half of each channel, while it is held. */
    var audioSender: bool
    var videoSender: bool
    /** The messages sent on each channel that its thread has not yet consumed. */
    var audioChannel: seq<TrackMessage>
    var videoChannel: seq<TrackMessage>
    /** The writer of each thread; present exactly while that thread exists. */
    var audioWriter: MediaFileWriter?
    var videoWriter: MediaFileWriter?
    /** The counters the threads share with the recorder. */
    var stats: TrackStats
    ghost var Repr: set<object>

    /**
     * A live recorder: each channel exists exactly with its thread, each
     * channel carries only its own kind of chunk, every chunk accepted is
     * counted once, and nothing has been written yet.
     */
    ghost predicate Valid()
      reads this, Repr
    {
      && this in Repr
      && WriterSet(audioWriter, videoWriter) <= Repr
      && (audioWriter != null && videoWriter != null ==> audioWriter != videoWriter)
      && audioSender == (audioWriter != null)
      && videoSender == (videoWriter != null)
      && OnlyChunksOf(Audio, audioChannel)
      && OnlyChunksOf(Video, videoChannel)
      && stats.audioChunksReceived == |audioChannel|
      && stats.videoChunksReceived == |videoChannel|
      && stats.audioBytesWritten == 0 && stats.videoBytesWritten == 0 && stats.errors == []
    }

    /** Starts a thread, with its channel, for each writer given. */
    constructor (participantId: string, audioWriter: MediaFileWriter?, videoWriter: MediaFileWriter?)
      requires audioWriter != null && videoWriter != null ==> audioWriter != videoWriter
      ensures Valid()
      ensures Repr == {this} + WriterSet(audioWriter, videoWriter)
      ensures this.participantId == participantId
      ensures this.audioWriter == audioWriter && this.videoWriter == videoWriter
      ensures audioChannel == [] && videoChannel == [] && stats == NoStats
    {
      this.participantId := participantId;
      this.audioWriter := audioWriter;
      this.videoWriter := videoWriter;
      audioSender := audioWriter != null;
      videoSender := videoWriter != null;
      audioChannel := [];
      videoChannel := [];
      stats := NoStats;
      Repr := {this} + WriterSet(audioWriter, videoWriter);
    }

    function Sender(kind: MediaKind): bool
      reads this
    {
      if kind == Audio then audioSender else videoSender
    }

    function Channel(kind: MediaKind): seq<TrackMessage>
      reads this
    {
      if kind == Audio then audioChannel else videoChannel
    }

    /**
     * Sends a chunk to the thread of `kind`. Without that thread it is a
     * no-op; `delivered` says whether the channel still accepts messages (it
     * refuses once the thread has gone).
     */
    method SendChunk(kind: MediaKind, chunk: seq<byte>, delivered: bool) returns (r: Result<Unit, RecordingError>)
      requires Valid()
      modifies this
      ensures Valid() && Repr == old(Repr)
      ensures audioWriter == old(audioWriter) && videoWriter == old(videoWriter)
      ensures audioSender == old(audioSender) && videoSender == old(videoSender)
      ensures !old(Sender(kind)) ==> r == Ok(Unit) && unchanged(this)
      ensures old(Sender(kind)) && !delivered ==>
                r == Err(TrackError(if kind == Audio then "Failed to send audio chunk" else "Failed to send video chunk"))
                && unchanged(this)
      ensures old(Sender(kind)) && delivered ==>
                && r == Ok(Unit)
                && Channel(kind) == old(Channel(kind)) + [if kind == Audio then AudioChunk(chunk) else VideoChunk(chunk)]
                && stats == AddReceived(old(stats), kind)
      ensures kind == Audio ==> videoChannel == old(videoChannel)
      ensures kind == Video ==> audioChannel == old(audioChannel)
    {
      if !Sender(kind) {
        return Ok(Unit);
      }
      if !delivered {
        return Err(TrackError(if kind == Audio then "Failed to send audio chunk" else "Failed to send video chunk"));
      }
      if kind == Audio {
        audioChannel := audioChannel + [AudioChunk(chunk)];
      } else {
        videoChannel := videoChannel + [VideoChunk(chunk)];
      }
      stats := AddReceived(stats, kind);
      r := Ok(Unit);
    }

    /**
     * The body of the thread of `kind`: receive until Stop or until the
     * channel is exhausted, write each own chunk, count bytes of full writes,
     * log an error entry for each failed one, then close the file.
     */
    method RecordingLoop(kind: MediaKind, writer: MediaFileWriter, msgs: seq<TrackMessage>,
                         faults: seq<Option<IoFault>>) returns (r: Result<Path, RecordingError>)
      modifies this`stats, writer
      ensures r == Ok(writer.path)
      ensures Sink(stats, writer.contents, writer.chunkCount)
              == Consume(kind, msgs, faults, Sink(old(stats), old(writer.contents), old(writer.chunkCount)))
    {
      var i := 0;
      var pending := faults;
      while i < |msgs|
        invariant 0 <= i <= |msgs|
        invariant Consume(kind, msgs[i..], pending, Sink(stats, writer.contents, writer.chunkCount))
                  == Consume(kind, msgs, faults, Sink(old(stats), old(writer.contents), old(writer.chunkCount)))
      {
        var m := msgs[i];
        if m.Stop? {
          break;
        }
        assert msgs[i..][1..] == msgs[i + 1..];
        var chunk := ChunkOf(kind, m);
        if chunk.Some? {
          var written := writer.WriteChunk(chunk.value, FirstFault(pending));
          if written.Err? {
            stats := stats.(errors := stats.errors + [WriteErrorText(kind, written.error)]);
          } else {
            stats := AddBytes(stats, kind, |chunk.value|);
          }
        }
        i := i + 1;
        pending := LaterFaults(pending);
      }
      r := writer.Finalize();
    }

    /**
     * Sends Stop on each channel, then joins the audio thread and the video
     * thread in that order. A panicked thread makes the whole stop fail; the
     * result names the participant and the file of each thread that existed.
     */
    method Stop(faults: TrackFaults) returns (r: Result<TrackRecordingResult, RecordingError>)
      requires Valid()
      modifies Repr
      ensures Repr == old(Repr)
      ensures r.Err? <==> StopFails(faults, old(audioWriter) != null, old(videoWriter) != null)
      ensures r.Err? ==>
                r.error == TrackError(if old(audioWriter) != null && faults.audioPanicked
                                      then "Audio thread panicked" else "Video thread panicked")
      ensures r.Ok? ==>
                && r.value.participantId == participantId
                && r.value.audioFile == FileOf(old(audioWriter))
                && r.value.videoFile == FileOf(old(videoWriter))
      ensures r.Ok? ==>
                var a := if old(audioWriter) != null
                         then Consume(Audio, old(audioChannel) + [TrackMessage.Stop], faults.audioWrites,
                                      Sink(old(stats), old(audioWriter.contents), old(audioWriter.chunkCount)))
                         else Sink(old(stats), [], 0);
                var v := if old(videoWriter) != null
                         then Consume(Video, old(videoChannel) + [TrackMessage.Stop], faults.videoWrites,
                                      Sink(a.stats, old(videoWriter.contents), old(videoWriter.chunkCount)))
                         else Sink(a.stats, [], 0);
                && r.value.stats == v.stats
                && (old(audioWriter) != null ==>
                      old(audioWriter).contents == a.file && old(audioWriter).chunkCount == a.chunks)
                && (old(videoWriter) != null ==>
                      old(videoWriter).contents == v.file && old(videoWriter).chunkCount == v.chunks)
    {
      if audioSender {
        audioChannel := audioChannel + [TrackMessage.Stop];
        audioSender := false;
      }
      if videoSender {
        videoChannel := videoChannel + [TrackMessage.Stop];
        videoSender := false;
      }
      var audioFile: Option<Path> := None;
      if audioWriter != null {
        var w := audioWriter;
        audioWriter := null;
        if faults.audioPanicked {
          return Err(TrackError("Audio thread panicked"));
        }
        var res := RecordingLoop(Audio, w, audioChannel, faults.audioWrites);
        audioFile := Some(res.value);
      }
      var videoFile: Option<Path> := None;
      if videoWriter != null {
        var w := videoWriter;
        videoWriter := null;
        if faults.videoPanicked {
          return Err(TrackError("Video thread panicked"));
        }
        var res := RecordingLoop(Video, w, videoChannel, faults.videoWrites);
        videoFile := Some(res.value);
      }
      return Ok(TrackRecordingResult(participantId, audioFile, videoFile, stats));
    }
  }

  /**
   * A recorder stopped without faults: each thread's file receives every chunk
   * accepted on its channel, in order; its byte counter is their total length;
   * its full-write count is the number of chunks received; no error is logged.
   */
  lemma CleanThreadWritesEverything(kind: MediaKind, channel: seq<TrackMessage>, faults: seq<Option<IoFault>>, s: Sink)
    requires OnlyChunksOf(kind, channel)
    requires NoWriteFaults(faults)
    ensures Consume(kind, channel + [Stop], faults, s)
            == Sink(AddBytes(s.stats, kind, |Concat(kind, channel)|), s.file + Concat(kind, channel), s.chunks + |channel|)
  {
    ChannelPayload(kind, channel);
    ConsumeWithoutFaults(kind, channel + [Stop], faults, s);
  }
}
