/** The backend's request handler for finishing a recording: finalize the session's
    files, then append the returned metadata to the catalog. The storage engine and
    the catalog share one filesystem. */
module Transport {
  import opened Wrappers
  import opened RecordingTypes
  import opened FileSystem
  import opened FileService
  import opened RecordingManager
  import StorageInvariant
  import Timestamp

  /** The backend's state: the live recording sessions and the catalog's world. */
  datatype Backend = Backend(sessions: map<string, SessionEntry>, library: Library)

  /** The error a request handler rejects with: the storage engine's or the
      catalog's. */
  datatype RpcError = StorageFailed(storageError: StorageError) | CatalogFailed(catalogError: CatalogError)

  /** The backend after a request together with the handler's answer. */
  datatype Reply<T> = Reply(backend: Backend, result: Result<T, RpcError>)

  /** The storage engine's view of the backend. */
  function StorageOf(b: Backend): Storage {
    Storage(b.library.recordingsDir, b.sessions, b.library.disk)
  }

  /** The `finalizeRecording` request: finalize the session into the directory named
      after the instant `nowIso`, then add the metadata to the catalog. */
  function HandleFinalize(b: Backend, id: string, config: RecordingConfig, nowIso: string,
                          statSize: string -> nat): (r: Reply<RecordingMetadata>)
    ensures r.result.Success? ==> r.result.value.fileName == Timestamp.TimestampName(nowIso)
  {
    FinishRecording(b, id, config, Timestamp.TimestampName(nowIso), nowIso, statSize)
  }

  /** The request once the clock reading has been turned into the directory name
      `stamp`: finalize the session, then add the metadata to the catalog; a failure
      of either step rejects the request with that step's error, keeping what the
      steps before it did. */
  function FinishRecording(b: Backend, id: string, config: RecordingConfig, stamp: string, nowIso: string,
                           statSize: string -> nat): (r: Reply<RecordingMetadata>)
    ensures r.result.Success? ==>
      && r.result.value.id == id && r.result.value.config == config && r.result.value.fileName == stamp
    ensures r.result.Success? ==> id in b.sessions && r.backend.sessions == b.sessions - {id}
    ensures r.backend.library.recordingsDir == b.library.recordingsDir
  {
    var f := FinalizeAs(StorageOf(b), id, config, stamp, nowIso, statSize);
    var b1 := Backend(f.storage.sessions, b.library.(disk := f.storage.disk));
    match f.result
    case Failure(e) => Reply(b1, Failure(StorageFailed(e)))
    case Success(m) =>
      var added := AddRecording(b1.library, m);
      var b2 := b1.(library := added.library);
      if added.result.Failure? then Reply(b2, Failure(CatalogFailed(added.result.error)))
      else Reply(b2, Success(m))
  }

  /** A finished recording is listed: after a successful request the catalog lists
      what it listed before followed by the new recording, and its session is no
      longer live. */
  lemma FinalizeThenListed(b: Backend, id: string, config: RecordingConfig, stamp: string, nowIso: string, statSize: string -> nat)
    requires FinishRecording(b, id, config, stamp, nowIso, statSize).result.Success?
    ensures var r := FinishRecording(b, id, config, stamp, nowIso, statSize);
      var m := r.result.value;
      && GetRecordings(b.library).Success?
      && GetRecordings(r.backend.library) == Success(GetRecordings(b.library).value + [m])
      && id !in r.backend.sessions
  {
  }

  /** Every track a successful request lists is a file in the recording's directory
      holding the header that carries its channel count and final byte count. */
  lemma ListedTracksHaveHeaders(b: Backend, id: string, config: RecordingConfig, stamp: string, nowIso: string, statSize: string -> nat)
    requires StorageInvariant.Valid(StorageOf(b))
    requires FinishRecording(b, id, config, stamp, nowIso, statSize).result.Success?
    ensures var r := FinishRecording(b, id, config, stamp, nowIso, statSize);
      var m := r.result.value;
      var d := r.backend.library.disk;
      var slots := b.sessions[id].tracks;
      && |m.tracks| == |slots|
      && forall i :: 0 <= i < |m.tracks| ==>
           && m.filePath in d.dirs && m.tracks[i].fileName in d.dirs[m.filePath]
           && d.dirs[m.filePath][m.tracks[i].fileName]
              == Header(TrackHeader(config, m.tracks[i].channels, slots[i].track.bytesWritten))
  {
    var st := StorageOf(b);
    var f := FinalizeAs(st, id, config, stamp, nowIso, statSize);
    StorageInvariant.FinalizeWritesHeaders(st, id, config, stamp, nowIso, statSize);
    var b1 := Backend(f.storage.sessions, b.library.(disk := f.storage.disk));
    var added := AddRecording(b1.library, f.result.value);
    assert forall x :: x in f.storage.disk.dirs ==> x in added.library.disk.dirs && added.library.disk.dirs[x] == f.storage.disk.dirs[x];
  }

  /** When the files were finalized but the catalog could not be updated, the
      request fails with the catalog's error, the session is gone, and the catalog
      lists what it listed before: the recording is on disk but not listed. */
  lemma CatalogFailureLeavesUnlisted(b: Backend, id: string, config: RecordingConfig, stamp: string,
                                     nowIso: string, statSize: string -> nat)
    requires FinalizeAs(StorageOf(b), id, config, stamp, nowIso, statSize).result.Success?
    requires b.library.catalog.Unreadable? || !b.library.writable
    ensures var r := FinishRecording(b, id, config, stamp, nowIso, statSize);
      && r.result.Failure? && r.result.error.CatalogFailed?
      && r.result.error.catalogError == CatalogError.FileWriteError(MetadataPath(b.library))
      && id !in r.backend.sessions
      && r.backend.library.catalog == b.library.catalog
  {
  }

  /** The request keeps the storage engine's invariant, whatever its outcome. */
  lemma FinishKeepsValid(b: Backend, id: string, config: RecordingConfig, stamp: string, nowIso: string, statSize: string -> nat)
    requires StorageInvariant.Valid(StorageOf(b))
    ensures StorageInvariant.Valid(StorageOf(FinishRecording(b, id, config, stamp, nowIso, statSize).backend))
  {
    var f := FinalizeAs(StorageOf(b), id, config, stamp, nowIso, statSize);
    StorageInvariant.FinalizeKeepsValid(StorageOf(b), id, config, stamp, nowIso, statSize);
    var b1 := Backend(f.storage.sessions, b.library.(disk := f.storage.disk));
    assert StorageOf(b1) == f.storage;
    if f.result.Success? {
      var added := AddRecording(b1.library, f.result.value);
      MkdirKeepsValid(f.storage, added.library.disk);
    }
  }

  /** The `finalizeRecording` request keeps the storage engine's invariant,
      whatever its outcome. */
  lemma HandleFinalizeKeepsValid(b: Backend, id: string, config: RecordingConfig, nowIso: string, statSize: string -> nat)
    requires StorageInvariant.Valid(StorageOf(b))
    ensures StorageInvariant.Valid(StorageOf(HandleFinalize(b, id, config, nowIso, statSize).backend))
  {
    FinishKeepsValid(b, id, config, Timestamp.TimestampName(nowIso), nowIso, statSize);
  }

  /** Creating the recordings directory keeps every live session valid. */
  lemma MkdirKeepsValid(st: Storage, d1: Disk)
    requires StorageInvariant.Valid(st)
    requires d1.fds == st.disk.fds && d1.nextFd == st.disk.nextFd
    requires forall x :: x in st.disk.dirs ==> x in d1.dirs && d1.dirs[x] == st.disk.dirs[x]
    ensures StorageInvariant.Valid(st.(disk := d1))
  {
    forall id | id in st.sessions
      ensures StorageInvariant.SessionValid(st.recordingsDir, d1, id, st.sessions[id])
    {
      var e := st.sessions[id];
      assert StorageInvariant.KeepsSlotsOf(st.disk, d1, e.sessionDir);
      StorageInvariant.SessionSurvives(st.recordingsDir, st.disk, d1, id, e);
    }
  }
}
