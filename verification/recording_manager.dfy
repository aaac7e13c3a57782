/** The recordings catalog: one persisted, ordered list of recording metadata in
    `recordings.json` inside the recordings directory, read whole and rewritten whole
    by every operation. */
module RecordingManager {
  import opened Wrappers
  import opened RecordingTypes
  import opened FileSystem
  import FileService

  /** What the catalog file holds: no file yet, a list that parses, or text that
      does not parse (or cannot be read). */
  datatype CatalogFile = NoFile | Entries(list: seq<RecordingMetadata>) | Unreadable

  /** The catalog's world: the recordings directory, the catalog file, the
      filesystem holding the recordings' directories, the files of recordings in the
      older single-file format, and whether writing the catalog file goes through. */
  datatype Library = Library(
    recordingsDir: string,
    catalog: CatalogFile,
    disk: Disk,
    legacyFiles: set<string>,
    writable: bool)

  /** The tagged errors of the catalog operations. */
  datatype CatalogError =
    | FileReadError(path: string)
    | FileWriteError(path: string)
    | RecordingNotFound(recordingId: string)

  /** An operation's effect on the library together with its answer; a failed
      operation keeps the effects made before the failure. */
  datatype Effects<T> = Effects(library: Library, result: Result<T, CatalogError>)

  /** `recordings.json` in the recordings directory. */
  function MetadataPath(lib: Library): string {
    FileService.Join(lib.recordingsDir, "recordings.json")
  }

  /** `readMetadataFile`: a missing file reads as the empty list; text that does not
      parse throws. */
  function ReadMetadataFile(c: CatalogFile): (r: Option<seq<RecordingMetadata>>)
    ensures r.None? <==> c.Unreadable?
    ensures c.NoFile? ==> r == Some([])
    ensures c.Entries? ==> r == Some(c.list)
  {
    match c
    case NoFile => Some([])
    case Entries(list) => Some(list)
    case Unreadable => None
  }

  /** `writeMetadataFile`: create the recordings directory if needed, then replace the
      catalog file with `list`. */
  function WriteMetadataFile(lib: Library, list: seq<RecordingMetadata>): (r: Effects<()>)
    ensures r.library.recordingsDir in r.library.disk.dirs
    ensures r.result.Success? <==> lib.writable
    ensures r.result.Success? ==> r.library.catalog == Entries(list)
    ensures r.result.Failure? ==> r.library.catalog == lib.catalog && r.result.error == FileWriteError(MetadataPath(lib))
    ensures r.library.recordingsDir == lib.recordingsDir && r.library.legacyFiles == lib.legacyFiles
    ensures r.library.writable == lib.writable
    ensures r.library.disk.fds == lib.disk.fds
    ensures forall x :: x != lib.recordingsDir ==>
      (x in r.library.disk.dirs <==> x in lib.disk.dirs) && (x in lib.disk.dirs ==> r.library.disk.dirs[x] == lib.disk.dirs[x])
  {
    var made := lib.(disk := MkdirP(lib.disk, lib.recordingsDir));
    if lib.writable then Effects(made.(catalog := Entries(list)), Success(()))
    else Effects(made, Failure(FileWriteError(MetadataPath(lib))))
  }

  /** The list a readable catalog file presents. */
  function Listed(c: CatalogFile): seq<RecordingMetadata>
    requires !c.Unreadable?
  {
    ReadMetadataFile(c).value
  }

  /** `getRecordings`: the persisted list, the empty list when there is no catalog
      file, a read error when it does not parse. */
  function GetRecordings(lib: Library): (r: Result<seq<RecordingMetadata>, CatalogError>)
    ensures lib.catalog.NoFile? ==> r == Success([])
    ensures lib.catalog.Entries? ==> r == Success(lib.catalog.list)
    ensures lib.catalog.Unreadable? ==> r == Failure(FileReadError(MetadataPath(lib)))
  {
    match ReadMetadataFile(lib.catalog)
    case None => Failure(FileReadError(MetadataPath(lib)))
    case Some(list) => Success(list)
  }

  /** `addRecording`: append `m` to the persisted list. */
  function AddRecording(lib: Library, m: RecordingMetadata): (r: Effects<()>)
    ensures r.result.Success? <==> !lib.catalog.Unreadable? && lib.writable
    ensures r.result.Success? ==> r.library.catalog == Entries(Listed(lib.catalog) + [m])
    ensures r.result.Failure? ==> r.library.catalog == lib.catalog && r.result.error == FileWriteError(MetadataPath(lib))
    ensures r.library.legacyFiles == lib.legacyFiles && r.library.recordingsDir == lib.recordingsDir
  {
    match ReadMetadataFile(lib.catalog)
    case None => Effects(lib, Failure(FileWriteError(MetadataPath(lib))))
    case Some(list) => WriteMetadataFile(lib, list + [m])
  }

  /** `recordings.findIndex(r => r.id === id)`, with `|list|` standing for -1. */
  function FindIndex(list: seq<RecordingMetadata>, id: string): (i: nat)
    ensures i <= |list|
    ensures i < |list| ==> list[i].id == id
    ensures forall j :: 0 <= j < i ==> list[j].id != id
  {
    if |list| == 0 then 0
    else if list[0].id == id then 0
    else 1 + FindIndex(list[1..], id)
  }

  /** The files of a recording come off the disk: the whole directory for a
      multi-track recording, the single file for one of the older format; nothing
      when the path does not exist. */
  function RemoveFiles(lib: Library, rec: RecordingMetadata): (r: Library)
    ensures |rec.tracks| > 0 ==> r == lib.(disk := RemoveDir(lib.disk, rec.filePath))
    ensures |rec.tracks| == 0 ==> r == lib.(legacyFiles := lib.legacyFiles - {rec.filePath})
  {
    if |rec.tracks| > 0 then lib.(disk := RemoveDir(lib.disk, rec.filePath))
    else lib.(legacyFiles := lib.legacyFiles - {rec.filePath})
  }

  /** `deleteRecording`: find the first entry with the id, remove its files, splice
      it out of the list and persist the rest. */
  function DeleteRecording(lib: Library, id: string): (r: Effects<()>)
    ensures lib.catalog.Unreadable? ==> r == Effects(lib, Failure(FileWriteError(MetadataPath(lib))))
    ensures r.result.Success? ==> !lib.catalog.Unreadable? && lib.writable
    ensures r.result.Failure? ==> r.library.catalog == lib.catalog
    ensures r.library.recordingsDir == lib.recordingsDir
  {
    match ReadMetadataFile(lib.catalog)
    case None => Effects(lib, Failure(FileWriteError(MetadataPath(lib))))
    case Some(list) =>
      var i := FindIndex(list, id);
      if i == |list| then Effects(lib, Failure(RecordingNotFound(id)))
      else
        var cleared := RemoveFiles(lib, list[i]);
        WriteMetadataFile(cleared, list[..i] + list[i + 1..])
  }

  // ---------------------------------------------------------------------------
  // Properties

  /** Whether some entry of `list` has the id. */
  predicate HasId(list: seq<RecordingMetadata>, id: string) {
    exists j :: 0 <= j < |list| && list[j].id == id
  }

  /** The list without its first entry carrying `id`: an independent recursive
      reading of "splice out the first match". */
  function RemoveFirst(list: seq<RecordingMetadata>, id: string): seq<RecordingMetadata> {
    if |list| == 0 then []
    else if list[0].id == id then list[1..]
    else [list[0]] + RemoveFirst(list[1..], id)
  }

  /** The entries of `list` whose id differs from `id`, in order. */
  function Others(list: seq<RecordingMetadata>, id: string): seq<RecordingMetadata> {
    if |list| == 0 then []
    else (if list[0].id == id then [] else [list[0]]) + Others(list[1..], id)
  }

  /** The number of entries carrying `id`. */
  function Occurrences(list: seq<RecordingMetadata>, id: string): nat {
    if |list| == 0 then 0
    else (if list[0].id == id then 1 else 0) + Occurrences(list[1..], id)
  }

  /** Splicing at the first match is removing the first match. */
  lemma {:induction false} SpliceRemovesFirst(list: seq<RecordingMetadata>, id: string)
    requires FindIndex(list, id) < |list|
    ensures var i := FindIndex(list, id);
      list[..i] + list[i + 1..] == RemoveFirst(list, id)
  {
    if list[0].id != id {
      SpliceRemovesFirst(list[1..], id);
      var i := FindIndex(list[1..], id);
      assert FindIndex(list, id) == i + 1;
      assert RemoveFirst(list, id) == [list[0]] + RemoveFirst(list[1..], id);
      ConsSplice(list, i);
    }
  }

  /** Cutting entry i + 1 out of a list keeps its head in front of the tail with
      entry i cut out. */
  lemma ConsSplice<T>(list: seq<T>, i: nat)
    requires i + 1 < |list|
    ensures list[..i + 1] + list[i + 2..] == [list[0]] + (list[1..][..i] + list[1..][i + 1..])
  {
    assert list[..i + 1] == [list[0]] + list[1..][..i];
    assert list[i + 2..] == list[1..][i + 1..];
  }

  /** Removing the first match keeps every other entry in order and drops exactly
      one entry carrying the id. */
  lemma {:induction false} RemoveFirstKeepsOthers(list: seq<RecordingMetadata>, id: string)
    requires HasId(list, id)
    ensures Others(RemoveFirst(list, id), id) == Others(list, id)
    ensures Occurrences(RemoveFirst(list, id), id) + 1 == Occurrences(list, id)
    ensures |RemoveFirst(list, id)| + 1 == |list|
  {
    if list[0].id != id {
      var j :| 0 <= j < |list| && list[j].id == id;
      assert list[1..][j - 1].id == id;
      RemoveFirstKeepsOthers(list[1..], id);
      var rest := RemoveFirst(list[1..], id);
      assert ([list[0]] + rest)[0] == list[0] && ([list[0]] + rest)[1..] == rest;
    }
  }

  /** A found id is a present id and vice versa. */
  lemma FindIndexFinds(list: seq<RecordingMetadata>, id: string)
    ensures FindIndex(list, id) < |list| <==> HasId(list, id)
  {
    if HasId(list, id) {
      var j :| 0 <= j < |list| && list[j].id == id;
      assert FindIndex(list, id) <= j;
    }
  }

  /** A successful `deleteRecording` persisted the list without the first entry
      carrying the id: every other entry stays in its order, and later entries with
      the same id stay too. */
  lemma DeleteRemovesFirstMatch(lib: Library, id: string)
    requires DeleteRecording(lib, id).result.Success?
    ensures var after := DeleteRecording(lib, id).library.catalog;
      && HasId(Listed(lib.catalog), id)
      && after == Entries(RemoveFirst(Listed(lib.catalog), id))
      && Others(after.list, id) == Others(Listed(lib.catalog), id)
      && Occurrences(after.list, id) + 1 == Occurrences(Listed(lib.catalog), id)
  {
    var list := Listed(lib.catalog);
    FindIndexFinds(list, id);
    SpliceRemovesFirst(list, id);
    RemoveFirstKeepsOthers(list, id);
  }

  /** `deleteRecording` of an id that is not listed fails with RecordingNotFound and
      changes nothing, in particular writes nothing. */
  lemma DeleteMissingChangesNothing(lib: Library, id: string)
    requires !lib.catalog.Unreadable? && !HasId(Listed(lib.catalog), id)
    ensures DeleteRecording(lib, id) == Effects(lib, Failure(RecordingNotFound(id)))
  {
    FindIndexFinds(Listed(lib.catalog), id);
  }

  /** `deleteRecording` of a listed id on a writable catalog succeeds. */
  lemma DeleteSucceedsIff(lib: Library, id: string)
    ensures DeleteRecording(lib, id).result.Success?
            <==> !lib.catalog.Unreadable? && lib.writable && HasId(Listed(lib.catalog), id)
  {
    if !lib.catalog.Unreadable? {
      FindIndexFinds(Listed(lib.catalog), id);
    }
  }

  /** The entry `deleteRecording` found loses its files: its directory for a
      multi-track recording (unless that is the recordings directory itself, which
      the catalog write recreates), its single file otherwise. This happens before
      the catalog is written, so it holds even when that write fails. */
  lemma DeleteRemovesFiles(lib: Library, id: string)
    requires !lib.catalog.Unreadable? && HasId(Listed(lib.catalog), id)
    ensures var rec := Listed(lib.catalog)[FindIndex(Listed(lib.catalog), id)];
      var after := DeleteRecording(lib, id).library;
      && (|rec.tracks| > 0 && rec.filePath != lib.recordingsDir ==> rec.filePath !in after.disk.dirs)
      && (|rec.tracks| == 0 ==> rec.filePath !in after.legacyFiles)
  {
    FindIndexFinds(Listed(lib.catalog), id);
  }

  /** When the catalog cannot be written, `deleteRecording` fails yet has already
      removed the recording's files: the entry stays listed while its directory is
      gone. */
  lemma DeleteWriteFailureOrphansEntry(lib: Library, id: string)
    requires !lib.catalog.Unreadable? && HasId(Listed(lib.catalog), id) && !lib.writable
    ensures var rec := Listed(lib.catalog)[FindIndex(Listed(lib.catalog), id)];
      var r := DeleteRecording(lib, id);
      && r.result == Failure(FileWriteError(MetadataPath(lib)))
      && GetRecordings(r.library) == GetRecordings(lib)
      && (|rec.tracks| > 0 && rec.filePath != lib.recordingsDir ==> rec.filePath !in r.library.disk.dirs)
  {
    FindIndexFinds(Listed(lib.catalog), id);
  }

  /** After a successful `addRecording`, `getRecordings` lists what it listed before
      followed by the new entry. */
  lemma AddThenGet(lib: Library, m: RecordingMetadata)
    requires AddRecording(lib, m).result.Success?
    ensures GetRecordings(lib).Success?
    ensures GetRecordings(AddRecording(lib, m).library) == Success(GetRecordings(lib).value + [m])
  {
  }

  /** Adding an entry with a fresh id and deleting it again leaves the listed
      catalog as it was. */
  lemma AddThenDelete(lib: Library, m: RecordingMetadata)
    requires !lib.catalog.Unreadable? && lib.writable && !HasId(Listed(lib.catalog), m.id)
    ensures var added := AddRecording(lib, m).library;
      && DeleteRecording(added, m.id).result.Success?
      && GetRecordings(DeleteRecording(added, m.id).library) == GetRecordings(lib)
  {
    var list := Listed(lib.catalog);
    var added := AddRecording(lib, m).library;
    assert Listed(added.catalog) == list + [m];
    assert (list + [m])[|list|].id == m.id;
    DeleteSucceedsIff(added, m.id);
    DeleteRemovesFirstMatch(added, m.id);
    RemoveFirstAppended(list, m);
  }

  /** Removing the first match of an id that occurs only in the last entry removes
      that entry. */
  lemma {:induction false} RemoveFirstAppended(list: seq<RecordingMetadata>, m: RecordingMetadata)
    requires !HasId(list, m.id)
    ensures RemoveFirst(list + [m], m.id) == list
  {
    if |list| > 0 {
      assert list[0].id != m.id;
      assert (list + [m])[1..] == list[1..] + [m];
      assert !HasId(list[1..], m.id) by {
        forall j | 0 <= j < |list| - 1 ensures list[1..][j].id != m.id {
          assert list[1..][j] == list[j + 1];
        }
      }
      RemoveFirstAppended(list[1..], m);
    }
  }
}
