# Podcast recorder: local recording and signaling, in Dafny

This project models the two server-side cores of a podcast recorder.

**Desktop recording engine.** A session is started for a room, which creates a
directory `recording-{room}-{timestamp}` under the chosen output directory.
Each participant gets at most one audio and one video WebM file, as requested. A track recorder
passes the participant's chunks through a channel per medium to a writer
thread. Stopping joins the threads, collects the files and the statistics,
stamps the files and the leave time of every participant whose track stopped
cleanly, and saves the session's metadata. The
commands the frontend calls validate their arguments before reaching the
manager. Errors serialise as `{kind, message}`.

**Signaling server.**
- It keeps an in-memory table of rooms with a capacity each.
- It hands out join tokens.
- It answers HTTP requests with JSON errors carrying the right status codes.
- It relays WebRTC negotiation messages over WebSockets between the
  participants of a room.

Modelling choices:
- Timestamps are integers, in nanoseconds.
- Paths are strings, joined with Unix rules.
- Everything the code gets from outside is a parameter: the clock, UUIDs, JWT
  signing, file-system failures, thread panics and channel delivery.
- The track recorder's channels are sequences of messages. A writer thread is
  a fold over its channel (`RecordingTrack.Consume`), run when the recorder
  is stopped.
- `Room` is a value. The server hands out clones of a room, and joining
  updates the stored room in place; replacing the table's entry with the
  updated value is equivalent.
- Every object whose fields the code updates in place is a class:
  - `RecordingManager`, `TrackRecorder`, `MediaFileWriter`;
  - `RoomStorage`, `PeerMap`.
- Every message a WebSocket connection hands to a peer's channel is appended
  to `PeerMap.sent`. That log is what the relay's contracts talk about.

## Model

| member | source | states |
|---|---|---|
| RecordingTypes.DefaultConfig | apps/desktop/src-tauri/src/recording/types.rs:17-29 | The default configuration has an empty room and directory, 48000 Hz stereo audio and 1920x1080 video at 30 fps. |
| RecordingTypes.Serialize | apps/desktop/src-tauri/src/recording/types.rs:98-115 | An error serialises to its display text as `message` and its variant name as `kind`. |
| RecordingTypes.SerializeRoundTrip | apps/desktop/src-tauri/src/recording/types.rs:61-115 | Every error can be read back from its serialised `{kind, message}` form. |
| RecordingTypes.SerializeInjective | apps/desktop/src-tauri/src/recording/types.rs:98-115 | Distinct errors never serialise alike. |
| RecordingTypes.KindIsVariant | apps/desktop/src-tauri/src/recording/types.rs:85-96 | Two errors have the same `kind` exactly when they are the same variant. |
| RecordingStorage.SanitizeFilename | apps/desktop/src-tauri/src/recording/storage.rs:85-92 | Sanitising keeps the name's length. |
| RecordingStorage.SanitizeAt | apps/desktop/src-tauri/src/recording/storage.rs:85-92 | A safe character (ASCII letter, digit, `-`, `_`) is kept. Every other character becomes `_`. |
| RecordingStorage.SanitizeOutputSafe | apps/desktop/src-tauri/src/recording/storage.rs:85-92 | Every character of a sanitised name is safe. |
| RecordingStorage.SanitizeFixesExactlySafeNames | apps/desktop/src-tauri/src/recording/storage.rs:85-92 | A name is left unchanged if and only if all its characters are safe. |
| RecordingStorage.SanitizeIdempotent | apps/desktop/src-tauri/src/recording/storage.rs:85-92 | Sanitising twice gives the same as sanitising once. |
| RecordingStorage.SanitizeExamples | apps/desktop/src-tauri/src/recording/storage.rs:143-148 | The module's three unit-test examples hold. |
| RecordingStorage.JoinRelative | apps/desktop/src-tauri/src/recording/storage.rs:17 | A relative name is joined directly under the base directory. |
| RecordingStorage.RecordingIdInjective | apps/desktop/src-tauri/src/recording/storage.rs:15-16 | For one start time, distinct rooms get distinct recording ids. |
| RecordingStorage.NewStorageManager | apps/desktop/src-tauri/src/recording/storage.rs:14-26 | It fails exactly when the directory cannot be created. On success the id is `recording-{room}-{timestamp}` and the directory is that id under the base. |
| RecordingStorage.AudioNeverVideo | apps/desktop/src-tauri/src/recording/storage.rs:37-71 | No audio file name equals any video file name. |
| RecordingStorage.AudioNamesSeparateIds | apps/desktop/src-tauri/src/recording/storage.rs:43 | If two ids have equal length, equal audio file names imply equal ids. |
| RecordingStorage.DifferentIdsCanShareAFile | apps/desktop/src-tauri/src/recording/storage.rs:43 | Ids `a` and `a-b`, with names `b-c` and `c`, get the same audio file name. |
| RecordingStorage.AbsoluteIdEscapesDirectory | apps/desktop/src-tauri/src/recording/storage.rs:43-44 | An id that starts with `/` puts the audio file at an absolute path outside the session directory. |
| RecordingStorage.StorageManager.CreateAudioFile | apps/desktop/src-tauri/src/recording/storage.rs:37-53 | A creation failure is an I/O error. Otherwise a fresh, empty writer is returned at `{id}-{sanitised name}-audio.webm` in the session directory. |
| RecordingStorage.StorageManager.CreateVideoFile | apps/desktop/src-tauri/src/recording/storage.rs:56-71 | The same as the audio file, with `-video.webm`. |
| RecordingStorage.WrittenPart | apps/desktop/src-tauri/src/recording/storage.rs:103-108 | What reaches the disk is a prefix of the chunk. Without a fault it is the whole chunk. |
| RecordingStorage.MediaFileWriter.constructor | apps/desktop/src-tauri/src/recording/storage.rs:48-52 | A new writer has its path, no chunks and no bytes. |
| RecordingStorage.MediaFileWriter.WriteChunk | apps/desktop/src-tauri/src/recording/storage.rs:103-108 | The file grows by the part of the chunk written. A complete write counts one more chunk and returns Ok. A failed write returns an I/O error and counts nothing. |
| RecordingStorage.MediaFileWriter.Finalize | apps/desktop/src-tauri/src/recording/storage.rs:110-113 | Finalising returns the file's path. |
| RecordingTrack.ConsumeEndsAtStop | apps/desktop/src-tauri/src/recording/track.rs:185-192 | A writer thread ignores everything after the first Stop. |
| RecordingTrack.ConsumeIgnoresOtherKind | apps/desktop/src-tauri/src/recording/track.rs:160-237 | A writer thread ignores chunks of the other medium. |
| RecordingTrack.ConsumeWithoutFaults | apps/desktop/src-tauri/src/recording/track.rs:173-183 | Without write faults, a thread appends every chunk to its file, counts each one, adds the bytes and records no error. |
| RecordingTrack.ConsumeAccounts | apps/desktop/src-tauri/src/recording/track.rs:173-183 | Chunks counted plus errors recorded equal the chunks read. Earlier errors and file contents are kept. The bytes counted never exceed the file's growth. Received counters do not change. |
| RecordingTrack.ConsumeKeepsOtherBytes | apps/desktop/src-tauri/src/recording/track.rs:160-237 | A thread never touches the other medium's byte count. |
| RecordingTrack.ChannelPayload | apps/desktop/src-tauri/src/recording/track.rs:89-112 | A channel of one medium's chunks followed by Stop carries exactly those chunks' bytes, in order. |
| RecordingTrack.CleanThreadWritesEverything | apps/desktop/src-tauri/src/recording/track.rs:160-237 | Without faults, a channel's chunks followed by Stop end up in the file in order, all counted, with no errors. |
| RecordingTrack.TrackRecorder.constructor | apps/desktop/src-tauri/src/recording/track.rs:39-86 | Each writer is wired to a sender of its medium. The channels are empty and the statistics zero. |
| RecordingTrack.TrackRecorder.SendChunk | apps/desktop/src-tauri/src/recording/track.rs:89-112 | Without a writer for the medium it is a no-op returning Ok. An undelivered chunk gives "Failed to send audio/video chunk". A delivered chunk is appended to its channel and counted as received. |
| RecordingTrack.TrackRecorder.RecordingLoop | apps/desktop/src-tauri/src/recording/track.rs:160-237 | The loop returns the writer's path. Its statistics, file and chunk count are the fold of the channel. |
| RecordingTrack.TrackRecorder.Stop | apps/desktop/src-tauri/src/recording/track.rs:115-157 | It fails exactly when a joined thread panicked, with "Audio/Video thread panicked". Otherwise the result has the participant, both files, and statistics folded over the channel plus Stop; the files hold the written bytes. |
| Recorder.DurationBounds | apps/desktop/src-tauri/src/recording/recorder.rs:196-197 | The duration is the whole seconds elapsed, truncated. It is 0 when the clock went back. |
| Recorder.CloseAllStampsStoppedTracks | apps/desktop/src-tauri/src/recording/recorder.rs:222-237 | Closing keeps every participant. Those whose track stopped get their files and the stop time. The others are unchanged. |
| Recorder.WithJoined | apps/desktop/src-tauri/src/recording/recorder.rs:133-146 | Metadata, when present, gains the participant as joined now with no files. Every other entry and field is kept. Absent metadata stays absent. |
| Recorder.OpenTrack | apps/desktop/src-tauri/src/recording/recorder.rs:105-125 | The audio file is created before the video file, and the first failure is the error. On success the recorder is fresh and valid, with writers at the expected paths. |
| Recorder.StopOne | apps/desktop/src-tauri/src/recording/recorder.rs:205-210 | It returns a track's files, or None when one of its threads panicked. |
| Recorder.StopNext | apps/desktop/src-tauri/src/recording/recorder.rs:203-211 | One more recorder, in no particular order, is stopped. Its files are kept if it stopped cleanly. The recorders still to stop stay valid and separate. |
| Recorder.StopTracks | apps/desktop/src-tauri/src/recording/recorder.rs:199-211 | Stopping all tracks in any order yields exactly the files of the tracks that stop cleanly. |
| Recorder.CloseParticipants | apps/desktop/src-tauri/src/recording/recorder.rs:222-237 | The loop computes `CloseAll`. |
| Recorder.RecordingManager.constructor | apps/desktop/src-tauri/src/recording/recorder.rs:24-35 | A new manager is idle, with nothing configured and no tracks. |
| Recorder.RecordingManager.StartRecording | apps/desktop/src-tauri/src/recording/recorder.rs:38-72 | It refuses with AlreadyRecording unless idle, and passes on a directory error. Otherwise it records, stores config and directory, opens empty metadata, and returns the id. The session invariant is kept. |
| Recorder.RecordingManager.AddParticipant | apps/desktop/src-tauri/src/recording/recorder.rs:75-151 | It refuses when no session is active. A known participant is Ok with no change. A file failure is passed on. Otherwise a track is added and metadata records the participant as joined. |
| Recorder.RecordingManager.Admit | apps/desktop/src-tauri/src/recording/recorder.rs:105-148 | A file failure is passed on. Otherwise a fresh recorder with writers for exactly the requested media is stored under the participant, the other tracks are untouched, and the metadata gains the participant as joined. |
| Recorder.RecordingManager.InsertTrack | apps/desktop/src-tauri/src/recording/recorder.rs:148 | A new recorder is stored under its participant, keeping the others separate. |
| Recorder.RecordingManager.DropTracks | apps/desktop/src-tauri/src/recording/recorder.rs:200-211 | The track table is taken and left empty. The result is exactly the files of the tracks that stop cleanly. Status, config, storage, metadata and id are unchanged. |
| Recorder.RecordingManager.AddChunk | apps/desktop/src-tauri/src/recording/recorder.rs:153-177 | An unknown participant gives ParticipantNotFound. Otherwise the chunk goes to that participant's recorder and to no other. |
| Recorder.RecordingManager.StopRecording | apps/desktop/src-tauri/src/recording/recorder.rs:180-255 | Idle or Stopped gives NoActiveRecording. Otherwise all tracks go. The metadata gets the stop time, the whole-second duration and the clean stops' files and leave times. A failed save passes the error on and keeps status, config and storage. |
| Recorder.RecordingManager.PauseRecording | apps/desktop/src-tauri/src/recording/recorder.rs:273-287 | Only a running session pauses, keeping its start time. Anything else gives NoActiveRecording. The session invariant is kept. |
| Recorder.RecordingManager.ResumeRecording | apps/desktop/src-tauri/src/recording/recorder.rs:290-301 | Only a paused session resumes, with its original start time. Anything else gives NoActiveRecording. The session invariant is kept. |
| Recorder.RecordingManager.GetStatus | apps/desktop/src-tauri/src/recording/recorder.rs:258-260 | Returns the current status. |
| Recorder.RecordingManager.GetRecordingId | apps/desktop/src-tauri/src/recording/recorder.rs:263-265 | Returns the current recording id. |
| Recorder.RecordingManager.GetMetadata | apps/desktop/src-tauri/src/recording/recorder.rs:268-270 | Returns the current metadata. |
| Recorder.PauseResumeRestores | apps/desktop/src-tauri/src/recording/recorder.rs:273-301 | Pausing then resuming a running session gives back its exact status. |
| Recorder.RestartAfterStopIsRejected | apps/desktop/src-tauri/src/recording/recorder.rs:42-44 | After a session has stopped, the manager (left Stopped at line 248) refuses every new start with AlreadyRecording. |
| Commands.TrimStartIsSuffix | apps/desktop/src-tauri/src/commands.rs:33 | Trimming the front gives a suffix that starts with a non-space, and is empty exactly for blank input. |
| Commands.TrimEndIsPrefix | apps/desktop/src-tauri/src/commands.rs:33 | Trimming the back gives a prefix that ends with a non-space, and is empty exactly for blank input. |
| Commands.TrimEmptyIffBlank | apps/desktop/src-tauri/src/commands.rs:33-35 | A string trims to nothing if and only if it is all whitespace. Otherwise the result is a slice with no whitespace at either end. |
| Commands.BuildConfigDefaults | apps/desktop/src-tauri/src/commands.rs:43-51 | With nothing given, the result is the default configuration for that room and directory. Each missing parameter, on its own, gets its default; each given one is kept. |
| Commands.StartRecordingCommand | apps/desktop/src-tauri/src/commands.rs:22-54 | A blank room id or a missing directory is refused with the exact message, and the manager is untouched. Otherwise a session that is not idle gives AlreadyRecording, and a directory error is passed on, with the manager untouched in both cases. On success the manager records with the completed configuration, the session directory and id, and fresh metadata, and the id is returned. |
| Commands.AddParticipantTrackCommand | apps/desktop/src-tauri/src/commands.rs:74-91 | A blank participant id is refused untouched. Otherwise the call is delegated. |
| Commands.AddChunkCommand | apps/desktop/src-tauri/src/commands.rs:94-115 | An empty chunk is InvalidChunkData with no track touched. An unknown participant gives ParticipantNotFound. A participant without a writer for the medium is Ok with no change. A chunk the channel does not accept gives "Failed to send audio/video chunk" with the track unchanged. Otherwise the chunk is appended to the channel and counted. |
| SignalingModels.DefaultIceServers | apps/signaling/src/models.rs:30-43 | A room starts with the two public Google STUN servers, without credentials. |
| SignalingModels.NewRoom | apps/signaling/src/models.rs:17-28 | A new room is empty and well formed, with the given creator and capacity and the default ICE servers. |
| SignalingModels.RequestedCapacity | apps/signaling/src/models.rs:115-117 | A request that names no capacity gets 10. |
| SignalingModels.AddParticipantRespectsCapacity | apps/signaling/src/models.rs:49-57 | Admission succeeds exactly when the room can take one more. A full room is unchanged. A new participant adds one. Capacity is never exceeded. |
| SignalingModels.PublicInfoCountsParticipants | apps/signaling/src/models.rs:59-67 | The public view counts the participants, shows the capacity, and shows room left exactly when the room can be joined. |
| SignalingStorage.RoomStorage.constructor | apps/signaling/src/storage.rs:37-46 | The table starts empty. |
| SignalingStorage.RoomStorage.CreateRoom | apps/signaling/src/storage.rs:48-56 | The new room is stored under its id, and the table stays valid. |
| SignalingStorage.RoomStorage.GetRoom | apps/signaling/src/storage.rs:58-64 | A room is found exactly when its id is in the table; otherwise RoomNotFound. |
| SignalingStorage.RoomStorage.DeleteRoom | apps/signaling/src/storage.rs:66-77 | A missing room gives RoomNotFound. Anyone but the creator gets Unauthorized. The creator removes exactly that room. |
| SignalingStorage.RoomStorage.JoinRoom | apps/signaling/src/storage.rs:79-100 | A missing room gives RoomNotFound and a full room gives RoomFull, both with the table unchanged. Otherwise the participant is admitted before the token is signed, so a signing failure still leaves them in. |
| SignalingHandlers.IntoResponse | apps/signaling/src/handlers.rs:70-88 | The response details are the error's display text. |
| SignalingHandlers.ResponseStatuses | apps/signaling/src/handlers.rs:72-79 | Statuses are 404, 409, 403 and 500. Statuses are equal exactly for errors of the same kind. The `error` field starts the `details`. |
| SignalingHandlers.CreateRoomHandler | apps/signaling/src/handlers.rs:16-28 | It stores a room with the requested capacity (10 by default) and returns its id and creation time. |
| SignalingHandlers.GetRoomHandler | apps/signaling/src/handlers.rs:30-38 | It returns the room's public info, never over capacity; a missing room is RoomNotFound. |
| SignalingHandlers.JoinRoomHandler | apps/signaling/src/handlers.rs:40-56 | It joins as a non-host. The storage errors are passed on. The answer carries the token, the participant id and the room's ICE servers. |
| SignalingHandlers.DeleteRoomHandler | apps/signaling/src/handlers.rs:58-65 | Only the creator deletes, answered by 204. The other cases pass on the storage error and change nothing. |
| SignalingWebsocket.TypeNameRoundTrip | apps/signaling/src/websocket.rs:27-35 | Message types read back from their lowercase names, and no other string reads as that type. |
| SignalingWebsocket.RegisteredPlacesPeer | apps/signaling/src/websocket.rs:95-101 | Registering puts the channel in the room, creating the room if needed, and changes nothing else. The map keeps no empty room. |
| SignalingWebsocket.UnregisteredRemovesPeer | apps/signaling/src/websocket.rs:184-192 | Unregistering removes the participant and drops a room left empty. Other entries are unchanged, and no empty room is kept. |
| SignalingWebsocket.UnregisterUndoesRegister | apps/signaling/src/websocket.rs:95-192 | For a participant not yet registered, registering then unregistering restores the map exactly. |
| SignalingWebsocket.PeerMap.constructor | apps/signaling/src/websocket.rs:92 | A new map is empty and has delivered nothing. |
| SignalingWebsocket.IterationOrder | apps/signaling/src/websocket.rs:213 | A room's participants are visited in some order that lists each exactly once. |
| SignalingWebsocket.RoomDeliveries | apps/signaling/src/websocket.rs:212-217 | One delivery to each room participant other than the excluded one, each on that participant's own channel, and nothing else. |
| SignalingWebsocket.PeerMap.Register | apps/signaling/src/websocket.rs:95-101 | The map becomes `Registered` of the old one. |
| SignalingWebsocket.PeerMap.Unregister | apps/signaling/src/websocket.rs:184-192 | The map becomes `Unregistered` of the old one. |
| SignalingWebsocket.PeerMap.Broadcast | apps/signaling/src/websocket.rs:210-219 | It delivers once to each room participant except the excluded one, on that participant's channel. An unknown room gets nothing. |
| SignalingWebsocket.PeerMap.SendTo | apps/signaling/src/websocket.rs:221-228 | It delivers to the named participant if in the room, and otherwise to nobody. |
| SignalingWebsocket.PeerMap.Route | apps/signaling/src/websocket.rs:148-164 | A message to "all" fans out to the room minus its `from`. Any other goes only to its `to`, unchanged. Nobody else receives it. |
| SignalingWebsocket.RelayFrames | apps/signaling/src/websocket.rs:137-171 | Every parsed text frame before the first read error reaches all its targets. Everything delivered is such a relay, to a registered participant. |
| SignalingWebsocket.RelayFrame | apps/signaling/src/websocket.rs:138-164 | One more frame is handled. A parsed text frame is routed to its targets. Anything else is skipped. The log only grows by relays. |
| SignalingWebsocket.HandleSocket | apps/signaling/src/websocket.rs:85-208 | With a shared map it delivers, within the room only: the join to everyone else, every relay, and the leave to those remaining. It ends with the map `Unregistered(Registered(...))` of the one it started with, and the room table loses the room only if the participant created it. |
| SignalingWebsocket.HandleSocketAsWritten | apps/signaling/src/websocket.rs:92 | With a map made per connection, the only deliveries are relays back to the participant itself. |
| SignalingWebsocket.IsolatedConnectionsNeverMeet | apps/signaling/src/websocket.rs:92 | As written, two participants in one room never receive anything from each other, including an offer addressed by name. |
| SignalingWebsocket.SharedMapDeliversOffer | apps/signaling/src/websocket.rs:108-164 | With a shared map, "b" receives both "a"'s join and "a"'s offer on its own channel. |

## Left out

- Threads, locks and async tasks. The track writer threads run as a fold over each channel, at the moment the recorder is stopped. The two WebSocket tasks and the connections run one after another. Interleavings of concurrent connections are not modelled.
- A thread panic is modelled only through its effect: `stop` then reports "thread panicked". The panic's cause is not modelled.
- The clock is one `now` per operation, given as a parameter. `start_recording` reads `Utc::now()` three times. The first read is in `StorageManager::new` (storage.rs:15); it is formatted as `%Y-%m-%d_%H-%M-%S` for the recording id. That reading is the free string `stamp`, not tied to `now`, and its format is not checked. The other two reads are the metadata start and the status start (recorder.rs:56, 64); they are merged into the one instant `now`. `stop_recording`'s stop time (recorder.rs:196) is that call's `now`.
- The u64 chunk counters and the `as u64` of the duration are unbounded naturals. No overflow is modelled.
- Paths are strings joined with Unix rules. The `{:?}` form of a path in the missing-directory message is modelled as the path between double quotes, without Debug escaping of quotes or control characters.
- WebM encoding, file handles and `File::create`/`write_all` are not modelled; file creation and writing are modelled only through the fault parameters.
- The metadata JSON written by `save_metadata` (storage.rs:74-83) is modelled only as its failure parameter of `StopRecording`.
- RecordingTrack.TrackRecorder.SendChunk: whether a chunk is `delivered` is a free parameter, independent of the panic outcome later given to `Stop`. In the source a send fails only once the writer thread has died, so the model also admits traces the program cannot produce, such as an undelivered chunk followed by a clean stop.
- Recorder.OpenTrack: when the video file cannot be created, the audio file already created stays on disk. The model returns the error and does not track that leftover file.
- HashMap iteration order is left open (`:|` choice). Track stopping and broadcast fan-out are proved for every order.
- JWT signing and verification (`generate_token`, storage.rs:102-126, and the token check in `ws_handler`, websocket.rs:54-83) are not modelled. The signed token, or its failure, is a parameter; the verified claims are an input of `HandleSocket`.
- UUID and `Utc::now()` generation in `Room::new`, `Participant::new` and `create_room` are not modelled; they are parameters.
- `update_room_activity` (websocket.rs:146) is not defined in storage.rs, so it is not part of this model.
- JSON parsing and serialisation of WebSocket messages are not modelled. A text frame carries its parse outcome. `serde_json::to_string` of the join and leave messages cannot fail on these values, so announcements are never skipped.
- A failed write on the socket ends the connection in the source. In the model a connection ends with a read error (`ErrorFrame`) or the end of its frames.
- The HTTP routing, CORS and configuration files (routes.rs, config.rs, both main.rs) are not part of this model.
- The desktop commands `stop_recording`, `pause_recording`, `resume_recording` and the `get_*` commands (commands.rs:56-137) only forward to the manager. The manager methods model them.
- SignalingWebsocket.HandleSocket: it states that every intended recipient is reached and that nothing leaves the room or reaches an unregistered participant. It does not state that no duplicate relay occurs.
- Commands.AddParticipantTrackCommand: on a successful delegation it states only that the participant has a track. The full new state is stated by `Recorder.RecordingManager.AddParticipant`.
- The relay trusts the client's `from` field. A message to "all" whose `from` is not the sender is echoed back to the sender. The model keeps this behaviour (`Route` excludes `m.from`) and does not report it as a defect.
- `delete_room` on disconnect (websocket.rs:207) passes the participant id as requester. It therefore removes the room only when its creator's id equals that participant id, and otherwise fails silently; `HandleSocket` states exactly this.

## Findings

| source | as written | input that shows it | evidently intended | confidence | as-written member | corrected member |
|---|---|---|---|---|---|---|
| apps/signaling/src/websocket.rs:92 | Every connection builds its own empty peer map, so each map only ever holds that connection's participant. | Participants "a" and "b" join room "r"; "a" sends an offer with `to` = "b": "b" receives nothing, not even the join announcement. | One peer map shared by all connections, so that join, leave and relayed messages reach the room's other participants. | not executed | SignalingWebsocket.IsolatedConnectionsNeverMeet | SignalingWebsocket.SharedMapDeliversOffer |
