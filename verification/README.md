# cross-recorder core, modelled in Dafny

cross-recorder is a desktop recorder. It captures a microphone track and a
system-audio track side by side, streams PCM chunks from the renderer to a
backend, and stores each session as one WAV file per track in a timestamped
directory. The backend also keeps a JSON catalog of finished recordings. This
project models the five pieces of logic under that plumbing and proves what
they promise:

- **RecordingSession** (`recording_session.dfy`): the session lifecycle.
  - A pure reducer over the `idle / acquiring / recording / degraded / stopping / error`
    states and the eight events.
  - A dispatcher that replaces the state and calls each `stateChange` listener
    once, but only when a transition happens.
  - `on` / unsubscribe over per-channel listener lists.
- **ChunkWriter** (`chunk_writer.dfy`): the renderer's chunk queue.
  - A FIFO drained one send at a time.
  - A per-track chunk counter, advanced before each send.
  - A running byte total.
  - A first-error-wins rule that poisons the queue. The transport's answers are an
    oracle sequence, and each drain runs to completion against them.
  - `getTotalBytes` and `getChunkCounts` read the writer's `totalBytes` and
    `chunkIndices` fields.
- **WavEncoder** (`wav_encoder.dfy`, over `bytes.dfy`): the 44-byte RIFF/WAVE PCM
  header.
  - Built through 8-, 16- and 32-bit little-endian stores that wrap as a DataView
    store wraps.
  - Comes with a field decoder and round-trip lemmas.
- **FileService** (`file_service.dfy`, `storage_invariant.dfy`, `timestamp.dfy`,
  `file_system.dfy`): the backend storage engine.
  - A registry of live sessions, each holding per-track descriptors and byte
    counters.
  - Over an abstract filesystem of directories, files and descriptors.
  - Covers `writeWavHeader`, `startSession`, `writeChunk`, `finalizeRecording` and
    `cancelSession`.
  - Covers the ISO-instant-to-directory-name rewrite and the duration/size metadata.
  - `StorageInvariant.Valid` states that every live session owns its directory and
    one file and descriptor per track. Every operation keeps it.
- **RecordingManager** (`recording_manager.dfy`): the catalog. It is one persisted
  ordered list, read and written as a whole, and it has get, add and delete.
- **Transport** (`transport.dfy`): the backend's `finalizeRecording` request
  handler. It finalizes the files, then appends the metadata to the catalog.
- **TrackFile** (`track_file.dfy`): the byte layout of one track file over its
  life. It follows where positional and offset writes land (see Findings).

Clocks, `statSync` sizes and generated ids are parameters: `now`, `nowIso` and
`statSize`. A file's contents in the storage model are abstract (`FileData`):
either empty or "a header with these parameters". The byte-level view of a track
file lives in `TrackFile`.

The duration formula follows the code (`FileService.ts:197-201`). For 88200 bytes
of mono 16-bit audio at 44100 Hz it gives 1000 ms (`FileService.DurationExample`).

## Model

| member | source | states |
|---|---|---|
| RecordingSession.Dispatch | src/mainview/audio/RecordingSession.ts:15-20 | with no transition the machine is unchanged and nobody is called; otherwise the state becomes the transition's result and each `stateChange` listener is called once, in registration order, with the new state |
| RecordingSession.DispatchNotifiesEachListenerOnce | src/mainview/audio/RecordingSession.ts:35-45 | a real transition calls exactly the registered listeners, none twice, each with the new state |
| RecordingSession.On | src/mainview/audio/RecordingSession.ts:22-29 | the listener is registered on its channel after the existing ones, whose order is kept; the list grows by one unless the listener was already there; other channels and the state are untouched, and no listener is registered twice |
| RecordingSession.Off | src/mainview/audio/RecordingSession.ts:30-32 | the unsubscribe function removes exactly that listener from that channel: an absent listener changes nothing, and otherwise its one position is cut out with the others kept in order; every other registration is kept |
| RecordingSession.Drop | src/mainview/audio/RecordingSession.ts:31 | `Set.delete`: the listener is gone, every other listener stays, a list without it is returned unchanged, and distinctness is kept |
| RecordingSession.DropAt | src/mainview/audio/RecordingSession.ts:31 | in a list without repeats, deleting a listener cuts out exactly its position and keeps the rest in order |
| RecordingSession.Transition | src/mainview/audio/RecordingSession.ts:47-166 | a state reacts exactly to its own events (idle to START; acquiring to ACQUIRED and ERROR; recording to TRACK_LOST, STOP and ERROR; degraded also to ALL_TRACKS_LOST; stopping to FINALIZED and ERROR; error to DISMISS) and ignores every other event; only FINALIZED from stopping and DISMISS from error lead back to idle |
| RecordingSession.Emit | src/mainview/audio/RecordingSession.ts:35-45 | one call per listener, in registration order, each given the same arguments |
| RecordingSession.Without | src/mainview/audio/RecordingSession.ts:100 | the filter drops every occurrence of the lost track and keeps every other track with its multiplicity |
| RecordingSession.StartOnlyFromIdle | src/mainview/audio/RecordingSession.ts:69-74 | START from idle gives acquiring with the requested tracks unchanged; in every other state START is ignored |
| RecordingSession.AcquiredOnlyFromAcquiring | src/mainview/audio/RecordingSession.ts:76-84 | ACQUIRED from acquiring gives recording with the session id, tracks and clock reading; elsewhere it is ignored |
| RecordingSession.ErrorRouting | src/mainview/audio/RecordingSession.ts:85-158 | ERROR goes acquiring to error with no last session, recording and degraded to stopping with the same id, stopping to error carrying the id, and is ignored in idle and error |
| RecordingSession.TrackLostOutcome | src/mainview/audio/RecordingSession.ts:99-134 | TRACK_LOST removes every occurrence of the track; with none left the session is stopping, otherwise degraded with the same id and start time and the track appended to the lost list (a fresh list from recording) |
| RecordingSession.AllTracksLostOnlyFromDegraded | src/mainview/audio/RecordingSession.ts:136-138 | ALL_TRACKS_LOST moves degraded to stopping and is ignored in every other state, recording included |
| RecordingSession.IdleOnlyViaFinalizedOrDismiss | src/mainview/audio/RecordingSession.ts:149-166 | a transition reaches idle exactly from stopping on FINALIZED or from error on DISMISS |
| RecordingSession.TransitionKeepsWellFormed | src/mainview/audio/RecordingSession.ts:95-143 | given non-empty acquisitions, no transition leaves a recording or degraded session with no active track, or a lost track that is still active |
| RecordingSession.ReplayKeepsWellFormed | src/mainview/audio/RecordingSession.ts:15-20 | the same holds along any sequence of dispatched events |
| RecordingSession.EmptyAcquireRecordsNothing | src/mainview/audio/RecordingSession.ts:77-84 | ACQUIRED with no tracks is accepted and gives a recording state with no active track, which is why the invariant needs non-empty acquisitions |
| RecordingSession.StepKeepsOwner | src/mainview/audio/RecordingSession.ts:76-159 | one dispatch keeps the session id the state carries, except that ACQUIRED in acquiring introduces the id it names |
| RecordingSession.ReplayKeepsOwner | src/mainview/audio/RecordingSession.ts:76-159 | along any event sequence the carried session id is the one named by the last accepted ACQUIRED, or the starting state's when there was none |
| RecordingSession.OwnerFromIdleIsLastAcquired | src/mainview/audio/RecordingSession.ts:78-83 | from a fresh session, any session id a later state carries is the one the last accepted ACQUIRED named |
| ChunkWriter.Drain | src/mainview/audio/ChunkWriter.ts:86-115 | a drain empties the queue (or does nothing on an errored writer), reports at most once, is errored after a report, and without a report has sent every entry |
| ChunkWriter.DrainSendsInOrder | src/mainview/audio/ChunkWriter.ts:88-99 | the i-th send carries the session, track and payload of the i-th queued entry |
| ChunkWriter.DrainStopsAtFailure | src/mainview/audio/ChunkWriter.ts:100-111 | every send before the last succeeded; an error is reported exactly when the last send failed; a drain that stops short has reported |
| ChunkWriter.DrainChunkIndices | src/mainview/audio/ChunkWriter.ts:90-91 | the i-th send's chunk index is its track's counter plus the number of earlier entries of the same track in the drain, whatever the other tracks do |
| ChunkWriter.DrainCounters | src/mainview/audio/ChunkWriter.ts:74-91 | after a drain each track's counter has grown by the number of its entries sent, the failed one included |
| ChunkWriter.DrainTotalBytes | src/mainview/audio/ChunkWriter.ts:106 | the byte total grows by the bytes reported by the successful responses only |
| ChunkWriter.Push | src/mainview/audio/ChunkWriter.ts:56-59 | an enqueue during a running drain appends the entry, unless the writer is errored, and changes nothing else |
| ChunkWriter.Enqueue | src/mainview/audio/ChunkWriter.ts:51-62 | an enqueue with no drain running drops its input on an errored writer; otherwise it drains the queue empty, and without a failure the new entry is sent last, after everything queued before it |
| ChunkWriter.Flush | src/mainview/audio/ChunkWriter.ts:64-68 | a flush sends nothing on an errored writer and otherwise drains the queue empty, sending at most what was queued |
| ChunkWriter.ErroredIsInert | src/mainview/audio/ChunkWriter.ts:56-67 | once errored, enqueue drops its input and flush sends and reports nothing |
| ChunkWriter.Reset | src/mainview/audio/ChunkWriter.ts:78-84 | reset gives an empty queue, not errored, no counters and a zero byte total |
| ChunkWriter.RunReportsAtMostOnce | src/mainview/audio/ChunkWriter.ts:51-115 | over any series of enqueue, push and flush calls the error callback fires at most once, and the writer is errored afterwards |
| ChunkWriter.NothingFollowsTheFailure | src/mainview/audio/ChunkWriter.ts:56-88 | after the error report, no later call sends or reports anything |
| WavEncoder.WriteString | src/mainview/audio/WavEncoder.ts:37-41 | the string's character codes, each wrapped to a byte, occupy `offset .. offset + length`; every other byte of the buffer is unchanged |
| WavEncoder.SetUint | src/mainview/audio/WavEncoder.ts:17-32 | a little-endian store of `width` bytes decodes to the value modulo 256^width; every byte outside those `width` is unchanged |
| WavEncoder.CreateWavHeaderIsLayout | src/mainview/audio/WavEncoder.ts:1-35 | the header built by the sequence of stores equals the field-by-field layout: the tags, sizes, format and rates each at their fixed offsets |
| WavEncoder.CreateWavHeader | src/mainview/audio/WavEncoder.ts:1-35 | the header is always exactly 44 bytes |
| WavEncoder.LayoutFields | src/mainview/audio/WavEncoder.ts:16-32 | "RIFF", "WAVE", "fmt " and "data" sit at 0, 8, 12 and 36; offsets 4 and 40 hold 36 + dataSize and dataSize; 16 holds 16, 20 holds 1, 22 channels, 24 sample rate, 28 byte rate, 32 block align, 34 bit depth |
| WavEncoder.ParseCreateWavHeader | src/mainview/audio/WavEncoder.ts:1-35 | decoding the built header gives exactly the expected fields, each wrapped to its width |
| WavEncoder.HeaderRoundTrip | src/mainview/audio/WavEncoder.ts:1-35 | when every field fits its width, decoding the header gives back the parameters it was built from |
| WavEncoder.CreateFromParsedHeader | src/mainview/audio/WavEncoder.ts:1-35 | conversely, a 44-byte header whose fields are consistent is rebuilt byte for byte from its decoded parameters |
| WavEncoder.StereoExample | src/mainview/audio/WavEncoder.test.ts:89-125 | 48000 Hz, 2 channels, 16 bit, 96000 data bytes give file size 96036, byte rate 192000, block align 4, 16 bits |
| WavEncoder.MonoExample | src/mainview/audio/WavEncoder.test.ts:140-154 | 44100 Hz mono 16 bit gives byte rate 88200 and block align 2 |
| FileService.WriteUInt | src/bun/services/FileService.ts:51-66 | a Buffer store fails with a range error exactly when the value exceeds the width's maximum, and otherwise stores its integer part |
| FileService.OpenTracks | src/bun/services/FileService.ts:85-97 | opening the requested tracks succeeds exactly when every track's header fits its field widths, fails otherwise only with a range error, and leaves the set of directories unchanged |
| FileService.BufferHeader | src/bun/services/FileService.ts:38-66 | the backend's header is 44 bytes when built, and the only way building it fails is a range error from a Buffer write |
| FileService.BufferHeaderIsWavHeader | src/bun/services/FileService.ts:38-66 | the backend's Buffer-built header fails exactly on out-of-range parameters, and otherwise holds the same 44 bytes as the renderer's `createWavHeader` |
| FileService.WriteWavHeader | src/bun/services/FileService.ts:38-69 | writing the header succeeds exactly when the parameters are in range and the descriptor is open, and creates or removes no file or descriptor |
| FileService.WriteWavHeaderEffect | src/bun/services/FileService.ts:68 | the write replaces the contents of the descriptor's file only |
| FileService.SetTrack | src/bun/services/FileService.ts:91 | `Map.set`: the key maps to the new track, a new key goes last, an existing key keeps its place, other keys are untouched |
| FileService.StartSession | src/bun/services/FileService.ts:71-109 | a session starts exactly when every requested header fits; it answers the session directory, and registers that one session only |
| StorageInvariant.StartSessionOpensEachTrack | src/bun/services/FileService.ts:83-99 | each requested kind gets one track, open, with zero bytes counted and a file holding the header with data size 0 |
| StorageInvariant.StartSessionChannels | src/bun/services/FileService.ts:91-96 | each track's channel count is the one of the last request of that kind: duplicate kinds collapse to the last |
| StorageInvariant.StartSessionKeepsValid | src/bun/services/FileService.ts:71-109 | starting a session keeps every live session valid |
| FileService.WriteChunk | src/bun/services/FileService.ts:111-136 | fails, changing nothing, when the session or track is unknown (each with its own error) or the track's descriptor is closed (`EBADF`, as after a finalize whose rename failed); otherwise only that track's count grows by the payload length, and the new total is returned |
| StorageInvariant.WriteChunkKeepsValid | src/bun/services/FileService.ts:111-136 | writing a chunk keeps the storage valid |
| StorageInvariant.WriteAllCounts | src/bun/services/FileService.ts:124-128 | on a track whose descriptor is open, after a series of chunks the track's count is its old count plus the total payload length |
| FileService.RewriteAndClose | src/bun/services/FileService.ts:150-160 | the rewrite loop keeps the set of directories and descriptors, and succeeds only if every final header is in range |
| StorageInvariant.RewriteAndCloseWrites | src/bun/services/FileService.ts:150-160 | after the loop each track's file holds the header carrying its channel count and byte count, and the directory's other files are untouched |
| StorageInvariant.RewriteAndCloseDescriptors | src/bun/services/FileService.ts:159 | after a successful loop every track's descriptor was open and is now closed |
| StorageInvariant.RewriteAndCloseSucceeds | src/bun/services/FileService.ts:150-160 | with every descriptor open and every header in range the loop succeeds |
| FileService.LongestTrack | src/bun/services/FileService.ts:172-195 | the chosen byte count is the maximum, the first track holding it supplies the channels, and the configured channels stand when every track is empty |
| FileService.DurationHalfExample | src/bun/services/FileService.ts:197-201 | 48048 bytes of mono 16-bit audio at 48000 Hz give 501 ms: exact 500.5 rounds up |
| FileService.DurationMs | src/bun/services/FileService.ts:197-201 | the duration is the rational duration in ms rounded half up, and there is none when the divisor is zero |
| FileService.DurationWholeSeconds | src/bun/services/FileService.ts:197-201 | a whole number of seconds of audio gives exactly 1000 ms per second |
| FileService.DurationExample | src/bun/services/FileService.ts:197-201 | 88200 bytes of mono 16-bit audio at 44100 Hz give 1000 ms |
| FileService.DurationOfLongest | src/bun/services/FileService.ts:172-201 | the duration is computed from the first strictly longest track, with its own channel count |
| FileService.DurationOfSilence | src/bun/services/FileService.ts:173-201 | with every track empty the duration uses the configured channels, and is 0 ms when the divisor is not zero |
| FileService.TrackInfos | src/bun/services/FileService.ts:177-195 | one track entry per track, in map order, with its kind, `<kind>.wav`, its path in the new directory, its channels and its file's size |
| FileService.Describe | src/bun/services/FileService.ts:203-212 | the metadata carries the session id, the timestamp name, the new directory, the instant, the config and the sum of the track sizes |
| FileService.FinalizeRecording | src/bun/services/FileService.ts:163-170 | a finalized recording is named after the clock reading turned into a directory name |
| FileService.FinalizeAs | src/bun/services/FileService.ts:138-223 | an unknown session fails and changes nothing; a failure keeps the registry and reports the session directory; a success removes the session and describes each of its tracks |
| StorageInvariant.FinalizeKeepsValid | src/bun/services/FileService.ts:138-223 | finalizing keeps every remaining session valid, whatever the outcome |
| StorageInvariant.FinalizeWritesHeaders | src/bun/services/FileService.ts:150-170 | after a successful finalize each track file, now in the recording directory, holds the header carrying its channels and byte count |
| StorageInvariant.FinalHeaderDecodes | src/bun/services/FileService.ts:152-158 | that final header decodes to the track's parameters, and its data size is the track's byte count |
| StorageInvariant.FinalizeSucceedsIff | src/bun/services/FileService.ts:145-170 | finalizing a live session succeeds exactly when every descriptor is open, every final header is in range, and the rename onto the recording directory is allowed |
| StorageInvariant.FinalizeFillsRecordingDir | src/bun/services/FileService.ts:169-170 | a successful finalize of a session with tracks leaves a non-empty recording directory |
| StorageInvariant.FinalizeOntoFullDirFails | src/bun/services/FileService.ts:169-170 | finalizing onto a non-empty directory of that name fails and keeps the session |
| StorageInvariant.SameSecondCollides | src/bun/services/FileService.ts:163-170 | two sessions finalized within the same second: the second finalize fails and its session stays live |
| Timestamp.FirstT | src/bun/services/FileService.ts:166 | the position of the first `T`, or the length when there is none |
| Timestamp.ReplaceFirstT | src/bun/services/FileService.ts:166 | only the first `T` becomes `_` |
| Timestamp.ReplaceColons | src/bun/services/FileService.ts:167 | every `:` becomes `-` and nothing else changes |
| Timestamp.StripMillis | src/bun/services/FileService.ts:168 | a trailing `.` three digits `Z` is dropped, and any other string is unchanged |
| Timestamp.TimestampName | src/bun/services/FileService.ts:163-168 | the directory name holds no `:` and is the instant's length, or five shorter when the millisecond suffix was cut |
| Timestamp.TimestampShape | src/bun/services/FileService.ts:163-168 | for an ISO instant the name has 19 characters: the instant's first 19 with `_` at 10 and `-` at 13 and 16 |
| Timestamp.TimestampNameCollides | src/bun/services/FileService.ts:163-168 | two instants give the same name exactly when they agree up to the second |
| Timestamp.TimestampExample | src/bun/services/FileService.ts:163-168 | `2024-01-02T03:04:05.678Z` gives `2024-01-02_03-04-05` |
| FileService.CloseAll | src/bun/services/FileService.ts:234-236 | the close loop leaves directories untouched and on success leaves every track's descriptor closed |
| StorageInvariant.CloseAllSucceedsIff | src/bun/services/FileService.ts:234-236 | the close loop succeeds exactly when every track's descriptor is open |
| FileService.CancelSession | src/bun/services/FileService.ts:225-252 | an unknown id succeeds and changes nothing; a failure keeps the registry; a success forgets the session, closes its descriptors, deletes its directory and keeps every other directory |
| StorageInvariant.CancelSucceedsIff | src/bun/services/FileService.ts:225-252 | cancelling a live session succeeds exactly when all of its descriptors are open |
| StorageInvariant.CancelKeepsValid | src/bun/services/FileService.ts:225-252 | cancelling keeps the storage valid |
| StorageInvariant.CancelIdempotent | src/bun/services/FileService.ts:228-231 | cancelling twice is cancelling once |
| RecordingTypes.TrackFileName | src/bun/services/FileService.ts:86 | a track's file name ends in `.wav`, and what precedes the suffix is exactly the kind's name |
| RecordingTypes.TrackFileNameInjective | src/bun/services/FileService.ts:86 | different kinds give different file names |
| FileSystem.RenameDir | src/bun/services/FileService.ts:170 | renaming a directory fails when the source is missing or the target is a non-empty directory; otherwise the directory's files move to the new name (directories nested beneath it are not modelled; see Left out) |
| FileSystem.RemoveDir | src/bun/services/FileService.ts:239-241 | a recursive removal deletes that directory and its files, leaves every other directory entry alone, and leaves a missing one alone (directories nested beneath it are not modelled; see Left out) |
| RecordingManager.ReadMetadataFile | src/bun/services/RecordingManager.ts:15-21 | no catalog file reads as the empty list, a parsed file as its list, and an unreadable one fails |
| RecordingManager.WriteMetadataFile | src/bun/services/RecordingManager.ts:23-26 | the recordings directory exists afterwards; the write succeeds exactly when the file is writable and then holds the list; other directories are untouched |
| RecordingManager.GetRecordings | src/bun/services/RecordingManager.ts:28-39 | the persisted list, the empty list when there is no file, and a read error naming the catalog path otherwise |
| RecordingManager.AddRecording | src/bun/services/RecordingManager.ts:41-54 | adding succeeds exactly when the catalog is readable and writable, and then lists the old entries followed by the new one; a failure keeps the catalog and names its path |
| RecordingManager.AddThenGet | src/bun/services/RecordingManager.ts:44-46 | after an add the listing is the old listing with the new entry at the end |
| RecordingManager.FindIndexFinds | src/bun/services/RecordingManager.ts:60 | the search finds a position exactly when some entry has the id, and that is the first such entry |
| RecordingManager.DeleteMissingChangesNothing | src/bun/services/RecordingManager.ts:59-63 | deleting an id not in the catalog fails with "recording not found" and changes nothing |
| RecordingManager.DeleteSucceedsIff | src/bun/services/RecordingManager.ts:56-96 | deleting succeeds exactly when the catalog is readable and writable and lists the id |
| RecordingManager.DeleteRecording | src/bun/services/RecordingManager.ts:56-96 | an unreadable catalog fails with a write error and touches nothing, and a failed delete keeps the catalog |
| RecordingManager.DeleteRemovesFirstMatch | src/bun/services/RecordingManager.ts:81-82 | a successful delete removes exactly the first entry with the id and keeps every other entry in order, later duplicates included |
| RecordingManager.SpliceRemovesFirst | src/bun/services/RecordingManager.ts:81 | splicing at the found position is removing the first match |
| RecordingManager.RemoveFirstKeepsOthers | src/bun/services/RecordingManager.ts:81 | removing the first match keeps all entries with other ids in order and drops one entry with the id |
| RecordingManager.RemoveFiles | src/bun/services/RecordingManager.ts:67-78 | a multi-track recording loses its directory, an older single-file one its file, and a missing path is left alone |
| RecordingManager.DeleteRemovesFiles | src/bun/services/RecordingManager.ts:67-78 | after a delete of a listed recording its directory or file is gone |
| RecordingManager.DeleteWriteFailureOrphansEntry | src/bun/services/RecordingManager.ts:67-94 | when the catalog cannot be written the delete fails with a write error, the files are already gone, and the listing is unchanged |
| RecordingManager.AddThenDelete | src/bun/services/RecordingManager.ts:41-96 | adding a recording with a new id and then deleting it gives back the old listing |
| Transport.HandleFinalize | src/bun/rpc.ts:34-48 | the request's answer is named after the clock reading |
| Transport.FinishRecording | src/bun/rpc.ts:34-48 | a successful request answers the session's metadata and removes that session only |
| Transport.FinalizeThenListed | src/bun/rpc.ts:34-48 | after a successful request the catalog lists what it listed before followed by the new recording, and the session is no longer live |
| Transport.ListedTracksHaveHeaders | src/bun/rpc.ts:34-48 | each track a successful request lists is a file in the recording directory that holds the header with its channels and final byte count |
| Transport.CatalogFailureLeavesUnlisted | src/bun/rpc.ts:43-46 | when the files were finalized but the catalog cannot be written, the request fails with the catalog's error, the session is gone and the recording is not listed |
| Transport.HandleFinalizeKeepsValid | src/bun/rpc.ts:34-48 | the request keeps the storage valid whatever its outcome |
| TrackFile.AsWrittenOverwritesAudio | src/bun/services/FileService.ts:125 | as written, the file is the final header followed by the audio without its first 44 bytes |
| TrackFile.AsWrittenHeaderOverclaims | src/bun/services/FileService.ts:66-68 | as written, the final header claims every payload byte, but 44 fewer follow it |
| TrackFile.WriteAt | src/bun/services/FileService.ts:68 | a positional write puts the data at `pos`, extends the file when needed, keeps every other byte, and leaves the descriptor's offset where it was |
| TrackFile.WriteHere | src/bun/services/FileService.ts:125 | a write at the offset puts the data there, keeps every other byte, and advances the offset past the data |
| TrackFile.OneChunkExample | src/bun/services/FileService.ts:111-170 | one 100-byte chunk gives a 100-byte file whose header claims 100 data bytes; the corrected layout gives 144 bytes |
| TrackFile.CorrectedKeepsAudio | src/bun/services/FileService.ts:111-170 | with each chunk written after the header, the file is the final header followed by all of the audio |
| TrackFile.CorrectedHeaderMatchesData | src/bun/services/FileService.ts:111-170 | then the header's data size equals the number of bytes after it, and those bytes are the audio |

## Left out

- Base64: payloads are byte sequences. The renderer's encoding and the backend's
  decoding preserve them and are not modelled.
- JSON: the catalog is a list of metadata values. The JSON text, its parse, and the
  serialisation of a non-finite `durationMs` as `null` are not modelled.
  `FileService.DurationMs` answers no duration in exactly the case where the
  number would be non-finite.
- Concurrency: each ChunkWriter drain runs to completion against its responses.
  An enqueue during a drain is `ChunkWriter.Push`. The `flushing` flag's interleavings
  and the transport's own latency are left out.
- The clock, `statSync` sizes and generated ids are parameters. The renderer's
  `Date.now()` is the `now` argument of the transition.
- Filesystem failures other than a closed descriptor, a non-empty rename target
  and an unknown path are left out:
  - `mkdirSync` and `openSync` are taken to succeed;
  - `writeSync` writes everything;
  - descriptors are numbered from a counter and never reused.
- File contents in the storage model are abstract: a file holds nothing or a header
  with known parameters. The byte layout is followed separately in `TrackFile`.
- `finalizeRecording`'s `_totalChunks` argument is unused by the code and is not
  modelled.
- `RecordingManager.DeleteRecording`: a listed older single-file recording whose path is
  a directory would make `unlinkSync` fail. The model removes the file name
  from a set of single files and does not model that failure.
- RecordingSession's `error` channel has listeners but no emitter in the code, so
  only `stateChange` is ever notified.
- `StorageInvariant.FinalizeWritesHeaders`: it states the header region of each file,
  not the file's size. The on-disk size depends on where the audio lands (see
  Findings), so it is left to `TrackFile`.
- `FileService.DurationMs`: it rounds the exact rational duration, whereas
  `Math.round` rounds a double. On exact half-millisecond values the double can fall
  just below the half, so the model can be 1 ms above the code. For example, 48048
  bytes of mono 16-bit audio at 48000 Hz give 500 ms in the code and 501 ms in the
  model (`FileService.DurationHalfExample`).
- Header parameters and recording settings are natural numbers. Negative,
  fractional or NaN sample rates, channel counts, bit depths and sizes are not
  modelled. `Buffer.write*` throws on those, and a `DataView` store converts them.
- Paths: `FileService.Join` concatenates with `/`. Node's `path.join` also
  normalises `.`, `..` and repeated separators and uses `\` on Windows; none of
  that is modelled.
- `RecordingSession.Emit`: assumes a listener returns normally and does not
  subscribe, unsubscribe or dispatch while it runs. The model calls a snapshot of
  the list taken when the emit starts. The code loops over the live `Set`
  (`RecordingSession.ts:39-43`):
  - a listener added during an emit is called in that emit;
  - a not-yet-called listener removed during an emit is skipped;
  - a throwing listener stops the remaining calls and makes `dispatch` throw.
- `RecordingSession.Dispatch`: assumes the same well-behaved listeners. If a listener
  throws, the code has already replaced the state (`RecordingSession.ts:18`) but
  calls only the listeners before it, and the exception escapes `dispatch`.
- `RecordingSession.DispatchNotifiesEachListenerOnce`: "exactly the registered
  listeners, each once" holds only under the same well-behaved listener assumption.
- `ChunkWriter.Drain`: assumes `onError` returns normally. The code calls it once
  inside the `try` when a send reports failure (`ChunkWriter.ts:100-104`). If that
  call throws, the `catch` calls it a second time (`ChunkWriter.ts:107-110`). If
  the second call throws too, `processQueue` rejects before `flushing = false`
  (`ChunkWriter.ts:114`), so the writer stays marked as flushing.
- `ChunkWriter.DrainStopsAtFailure`: "an error is reported exactly when the last send
  failed" counts one report. It assumes the `onError` that returns normally; a
  throwing one is reported twice, as described for `ChunkWriter.Drain`.
- `ChunkWriter.RunReportsAtMostOnce`: "the error callback fires at most once" holds
  only for an `onError` that returns; a throwing one is called twice.
- `FileSystem.RemoveDir`: the disk's directories are a flat map keyed by path.
  Removing one deletes only that key, whereas `rmSync(dir, { recursive: true })`
  also deletes every directory beneath it. Session ids are assumed not to contain
  a path separator, so no session directory lies under another. The renderer's
  `nanoid()` ids never contain one, but the backend accepts any id over RPC
  (`rpc.ts:50-51`).
- `FileSystem.RenameDir`: moves only the one key, whereas `renameSync` moves the
  whole subtree. It relies on the same assumption about session ids.
- `FileSystem.MkdirP`: creates only the named directory's own entry, whereas
  `mkdirSync(dir, { recursive: true })` (`FileService.ts:81`) also creates every
  missing parent. It relies on the same assumption about session ids.
- `StorageInvariant.FinalizeSucceedsIff`: relies on the same assumption. A live
  session with id `s/x` makes `mkdirSync` create `<root>/s` in the code. Finalizing
  another session with the name `s` then fails with `ENOTEMPTY` at `renameSync`
  (`FileService.ts:170`). In the model `<root>/s` does not exist, so the rename is
  allowed and the lemma promises success.
- `Transport.HandleFinalizeKeepsValid`: relies on the same assumption, through
  `StorageInvariant.FinalizeKeepsValid`. With live sessions `a` and `a/b`,
  finalizing `a` moves `a/b`'s directory in the code, while the model keeps `a/b`
  valid at its old path.
- `FileService.CancelSession`: "every other directory is kept" relies on that
  assumption. A session directory nested under the cancelled one would be deleted
  with it by the code.
- `StorageInvariant.CancelKeepsValid`: relies on the same assumption. With live
  sessions `a` and `a/b`, cancelling `a` deletes `a/b`'s directory in the code,
  while the model keeps `a/b` valid.
- `StorageInvariant.FinalizeKeepsValid`: relies on the same assumption. Finalizing
  `a` moves `a/b`'s directory in the code, while the model keeps `a/b` valid at its
  old path.
- Capture, audio processing, the UI, the updater and the remaining transport
  handlers are outside this model.

## Findings

| source | as written | input that shows it | evidently intended | confidence | as-written member | corrected member |
|---|---|---|---|---|---|---|
| src/bun/services/FileService.ts:68 and src/bun/services/FileService.ts:125 | `writeWavHeader` writes the header at explicit position 0, which leaves the descriptor's offset at 0. `writeChunk` writes at the offset, so the first 44 audio bytes land on the header, and the final header then overwrites them. | one 100-byte chunk at 48000 Hz mono 16 bit: the file has 100 bytes and its header claims 100 data bytes, but only 56 follow it | the audio follows the 44-byte header, so the file is 144 bytes and the header's data size counts the bytes after it | not executed | TrackFile.AsWrittenOverwritesAudio, TrackFile.OneChunkExample | TrackFile.CorrectedHeaderMatchesData, TrackFile.CorrectedKeepsAudio |

The rest of the model follows the corrected layout. `StorageInvariant` tracks
each file's header region and counts the payload per track, and it never places
audio bytes inside the header.
