/** The invariant the storage engine keeps over its registry of live sessions, and
    what starting, writing, finalizing and cancelling do to the files it owns. */
module StorageInvariant {
  import opened Wrappers
  import opened Bytes
  import opened FileSystem
  import opened RecordingTypes
  import opened FileService
  import WavEncoder

  /** Session directories are named by session id, so distinct ids never share one. */
  lemma JoinInjective(dir: string, a: string, b: string)
    ensures Join(dir, a) == Join(dir, b) <==> a == b
  {
    if Join(dir, a) == Join(dir, b) {
      assert a == Join(dir, a)[|dir| + 1..];
      assert b == Join(dir, b)[|dir| + 1..];
    }
  }

  /** A track's descriptor was opened on `dir/<kind>.wav`, its recorded path is that
      file, and the file exists. */
  ghost predicate SlotValid(d: Disk, dir: string, s: Slot) {
    var name := TrackFileName(s.kind);
    && s.track.fd in d.fds
    && d.fds[s.track.fd].dir == dir
    && d.fds[s.track.fd].name == name
    && s.track.filePath == Join(dir, name)
    && dir in d.dirs
    && name in d.dirs[dir]
  }

  ghost predicate SessionValid(root: string, d: Disk, id: string, e: SessionEntry) {
    && e.sessionDir == Join(root, id)
    && DistinctKinds(e.tracks)
    && forall i :: 0 <= i < |e.tracks| ==> SlotValid(d, e.sessionDir, e.tracks[i])
  }

  /** Every live session owns the directory named after it and one file per track. */
  ghost predicate Valid(st: Storage) {
    && WellFormed(st.disk)
    && forall id :: id in st.sessions ==> SessionValid(st.recordingsDir, st.disk, id, st.sessions[id])
  }

  /** The state `startSession` leaves a track in: open on its file, nothing written
      yet, and the file holding the provisional header. */
  ghost predicate Fresh(d: Disk, dir: string, config: RecordingConfig, s: Slot) {
    && SlotValid(d, dir, s)
    && IsOpen(d, s.track.fd)
    && s.track.bytesWritten == 0
    && d.dirs[dir][TrackFileName(s.kind)] == Header(TrackHeader(config, s.track.channels, 0))
  }

  ghost predicate AllFresh(d: Disk, dir: string, config: RecordingConfig, slots: seq<Slot>) {
    && DistinctKinds(slots)
    && forall i :: 0 <= i < |slots| ==> Fresh(d, dir, config, slots[i])
  }

  /** The channel count a map holds for `k`, 0 when it holds none. */
  function ChannelsIn(slots: seq<Slot>, k: TrackKind): nat {
    match Lookup(slots, k)
    case Some(t) => t.channels
    case None => 0
  }

  /** The disk after opening `dir/name` and writing a header through the new
      descriptor. */
  function OpenAndWrite(d: Disk, dir: string, name: string, p: WavEncoder.HeaderParams): Result<Disk, Reason>
    requires dir in d.dirs
  {
    var made := OpenForWrite(d, dir, name);
    WriteWavHeader(made.disk, made.fd, p)
  }

  /** One step of the opening loop hands out the next descriptor and keeps the
      others. */
  lemma OpenAndWriteFds(d: Disk, dir: string, name: string, p: WavEncoder.HeaderParams)
    requires dir in d.dirs && WellFormed(d)
    requires OpenAndWrite(d, dir, name, p).Success?
    ensures var d1 := OpenAndWrite(d, dir, name, p).value;
      && WellFormed(d1)
      && d1.nextFd == d.nextFd + 1
      && d1.fds == d.fds[d.nextFd := FdEntry(dir, name, true)]
  {
  }

  /** One step of the opening loop leaves every other directory alone and adds
      `name` to the session directory. */
  lemma OpenAndWriteDirs(d: Disk, dir: string, name: string, p: WavEncoder.HeaderParams)
    requires dir in d.dirs && WellFormed(d)
    requires OpenAndWrite(d, dir, name, p).Success?
    ensures var d1 := OpenAndWrite(d, dir, name, p).value;
      && d1.dirs.Keys == d.dirs.Keys
      && (forall x :: x in d.dirs && x != dir ==> d1.dirs[x] == d.dirs[x])
      && d1.dirs[dir].Keys == d.dirs[dir].Keys + {name}
  {
    var made := OpenForWrite(d, dir, name);
    WriteWavHeaderEffect(made.disk, made.fd, p);
  }

  /** One step of the opening loop leaves `name` holding the header and every other
      file of the session directory as it was. */
  lemma OpenAndWriteFiles(d: Disk, dir: string, name: string, p: WavEncoder.HeaderParams)
    requires dir in d.dirs && WellFormed(d)
    requires OpenAndWrite(d, dir, name, p).Success?
    ensures var d1 := OpenAndWrite(d, dir, name, p).value;
      && dir in d1.dirs && name in d1.dirs[dir]
      && d1.dirs[dir][name] == Header(p)
      && (forall n :: n in d.dirs[dir] && n != name ==> n in d1.dirs[dir] && d1.dirs[dir][n] == d.dirs[dir][n])
  {
    var made := OpenForWrite(d, dir, name);
    WriteWavHeaderEffect(made.disk, made.fd, p);
  }

  /** The opening loop hands out fresh descriptors, keeps every existing one, and
      touches no directory but the session's, where it only adds files. */
  lemma {:induction false} OpenTracksFrame(d: Disk, dir: string, config: RecordingConfig, specs: seq<TrackSpec>, acc: seq<Slot>)
    requires dir in d.dirs && WellFormed(d)
    ensures var r := OpenTracks(d, dir, config, specs, acc);
      && WellFormed(r.disk)
      && r.disk.nextFd >= d.nextFd
      && (forall fd :: fd in d.fds ==> fd in r.disk.fds && r.disk.fds[fd] == d.fds[fd])
      && (forall x :: x in d.dirs && x != dir ==> r.disk.dirs[x] == d.dirs[x])
      && d.dirs[dir].Keys <= r.disk.dirs[dir].Keys
    decreases |specs|
  {
    if |specs| > 0 {
      var spec := specs[0];
      var name := TrackFileName(spec.trackKind);
      var p := TrackHeader(config, spec.channels, 0);
      var w := OpenAndWrite(d, dir, name, p);
      OpenTracksUnfold(d, dir, config, specs, acc);
      if w.Success? {
        OpenAndWriteFds(d, dir, name, p);
        OpenAndWriteDirs(d, dir, name, p);
        OpenTracksFrame(w.value, dir, config, specs[1..], SetTrack(acc, spec.trackKind, NewTrack(d, dir, spec)));
      }
    }
  }

  /** One step of the opening loop: on a failed header write the loop stops with the
      descriptor opened, otherwise it goes on with the new track set. */
  lemma OpenTracksUnfold(d: Disk, dir: string, config: RecordingConfig, specs: seq<TrackSpec>, acc: seq<Slot>)
    requires dir in d.dirs && |specs| > 0
    ensures var name := TrackFileName(specs[0].trackKind);
      var w := OpenAndWrite(d, dir, name, TrackHeader(config, specs[0].channels, 0));
      OpenTracks(d, dir, config, specs, acc)
      == if w.Success?
         then OpenTracks(w.value, dir, config, specs[1..], SetTrack(acc, specs[0].trackKind, NewTrack(d, dir, specs[0])))
         else Steps(OpenForWrite(d, dir, name).disk, Failure(w.error))
  {
  }

  /** The track one step of the opening loop sets in the map. */
  function NewTrack(d: Disk, dir: string, spec: TrackSpec): TrackState {
    TrackState(d.nextFd, Join(dir, TrackFileName(spec.trackKind)), 0, spec.channels)
  }

  /** One step of the opening loop keeps every track of the map fresh, the new one
      included. */
  lemma StepKeepsFresh(d: Disk, dir: string, config: RecordingConfig, acc: seq<Slot>, spec: TrackSpec)
    requires dir in d.dirs && WellFormed(d)
    requires AllFresh(d, dir, config, acc)
    requires OpenAndWrite(d, dir, TrackFileName(spec.trackKind), TrackHeader(config, spec.channels, 0)).Success?
    ensures AllFresh(OpenAndWrite(d, dir, TrackFileName(spec.trackKind), TrackHeader(config, spec.channels, 0)).value,
                     dir, config, SetTrack(acc, spec.trackKind, NewTrack(d, dir, spec)))
  {
    var name := TrackFileName(spec.trackKind);
    var p := TrackHeader(config, spec.channels, 0);
    OpenAndWriteFds(d, dir, name, p);
    OpenAndWriteDirs(d, dir, name, p);
    OpenAndWriteFiles(d, dir, name, p);
    var d1 := OpenAndWrite(d, dir, name, p).value;
    var slot := NewTrack(d, dir, spec);
    var acc1 := SetTrack(acc, spec.trackKind, slot);
    forall i | 0 <= i < |acc1|
      ensures Fresh(d1, dir, config, acc1[i])
    {
      if acc1[i].kind == spec.trackKind {
        assert acc1[i].track == slot;
      } else {
        assert acc1[i] == acc[i];
        assert Fresh(d, dir, config, acc[i]);
        TrackFileNameInjective(acc1[i].kind, spec.trackKind);
        assert acc[i].track.fd < d.nextFd;
      }
    }
  }

  /** One step of the opening loop sets the requested channel count for its kind and
      leaves the other kinds' counts alone. */
  lemma StepChannels(acc: seq<Slot>, kind: TrackKind, t: TrackState, k: TrackKind)
    ensures ChannelsIn(SetTrack(acc, kind, t), k) == if kind == k then t.channels else ChannelsIn(acc, k)
  {
  }

  /** A successful opening loop took its first step and went on from there. */
  lemma OpenTracksStep(d: Disk, dir: string, config: RecordingConfig, specs: seq<TrackSpec>, acc: seq<Slot>)
    requires dir in d.dirs && |specs| > 0
    requires OpenTracks(d, dir, config, specs, acc).result.Success?
    ensures var w := OpenAndWrite(d, dir, TrackFileName(specs[0].trackKind), TrackHeader(config, specs[0].channels, 0));
      && w.Success?
      && w.value.dirs.Keys == d.dirs.Keys
      && OpenTracks(d, dir, config, specs, acc)
         == OpenTracks(w.value, dir, config, specs[1..], SetTrack(acc, specs[0].trackKind, NewTrack(d, dir, specs[0])))
  {
  }

  /** After a successful opening loop every track of the map is fresh. */
  lemma {:induction false} OpenTracksOpensEach(d: Disk, dir: string, config: RecordingConfig, specs: seq<TrackSpec>, acc: seq<Slot>)
    requires dir in d.dirs && WellFormed(d)
    requires AllFresh(d, dir, config, acc)
    requires OpenTracks(d, dir, config, specs, acc).result.Success?
    ensures var r := OpenTracks(d, dir, config, specs, acc);
      AllFresh(r.disk, dir, config, r.result.value)
    decreases |specs|
  {
    if |specs| > 0 {
      var spec := specs[0];
      var name := TrackFileName(spec.trackKind);
      var p := TrackHeader(config, spec.channels, 0);
      var w := OpenAndWrite(d, dir, name, p);
      OpenTracksStep(d, dir, config, specs, acc);
      OpenAndWriteFds(d, dir, name, p);
      StepKeepsFresh(d, dir, config, acc, spec);
      OpenTracksOpensEach(w.value, dir, config, specs[1..], SetTrack(acc, spec.trackKind, NewTrack(d, dir, spec)));
    }
  }

  lemma SpecKindsCons(specs: seq<TrackSpec>)
    requires |specs| > 0
    ensures SpecKinds(specs) == {specs[0].trackKind} + SpecKinds(specs[1..])
  {
    assert forall i :: 1 <= i < |specs| ==> specs[1..][i - 1] == specs[i];
    assert forall i :: 0 <= i < |specs[1..]| ==> specs[1..][i] == specs[i + 1];
  }

  /** A successful opening loop leaves the map holding exactly the kinds it started
      with and the requested ones. */
  lemma {:induction false} OpenTracksKinds(d: Disk, dir: string, config: RecordingConfig, specs: seq<TrackSpec>, acc: seq<Slot>)
    requires dir in d.dirs
    requires OpenTracks(d, dir, config, specs, acc).result.Success?
    ensures Kinds(OpenTracks(d, dir, config, specs, acc).result.value) == Kinds(acc) + SpecKinds(specs)
    decreases |specs|
  {
    if |specs| > 0 {
      var spec := specs[0];
      var w := OpenAndWrite(d, dir, TrackFileName(spec.trackKind), TrackHeader(config, spec.channels, 0));
      OpenTracksStep(d, dir, config, specs, acc);
      OpenTracksKinds(w.value, dir, config, specs[1..], SetTrack(acc, spec.trackKind, NewTrack(d, dir, spec)));
      SpecKindsCons(specs);
    }
  }

  /** A successful opening loop leaves each kind with the channel count of its last
      request. */
  lemma {:induction false} OpenTracksChannels(d: Disk, dir: string, config: RecordingConfig, specs: seq<TrackSpec>, acc: seq<Slot>, k: TrackKind)
    requires dir in d.dirs
    requires OpenTracks(d, dir, config, specs, acc).result.Success?
    ensures ChannelsIn(OpenTracks(d, dir, config, specs, acc).result.value, k) == ChannelsFor(specs, k, ChannelsIn(acc, k))
    decreases |specs|
  {
    if |specs| > 0 {
      var spec := specs[0];
      var w := OpenAndWrite(d, dir, TrackFileName(spec.trackKind), TrackHeader(config, spec.channels, 0));
      OpenTracksStep(d, dir, config, specs, acc);
      var acc1 := SetTrack(acc, spec.trackKind, NewTrack(d, dir, spec));
      OpenTracksChannels(w.value, dir, config, specs[1..], acc1, k);
      StepChannels(acc, spec.trackKind, NewTrack(d, dir, spec), k);
    }
  }

  // ---------------------------------------------------------------------------
  // What survives an operation

  /** From `d` to `d1`, every descriptor still names the file it was opened on, and
      directory `dir`, if it existed, still holds every file it held. */
  ghost predicate KeepsSlotsOf(d: Disk, d1: Disk, dir: string) {
    && (forall fd :: fd in d.fds ==> fd in d1.fds && d1.fds[fd].dir == d.fds[fd].dir && d1.fds[fd].name == d.fds[fd].name)
    && (dir in d.dirs ==> dir in d1.dirs && d.dirs[dir].Keys <= d1.dirs[dir].Keys)
  }

  /** A session whose descriptors and directory survive stays valid. */
  lemma SessionSurvives(root: string, d: Disk, d1: Disk, id: string, e: SessionEntry)
    requires SessionValid(root, d, id, e) && KeepsSlotsOf(d, d1, e.sessionDir)
    ensures SessionValid(root, d1, id, e)
  {
    forall i | 0 <= i < |e.tracks|
      ensures SlotValid(d1, e.sessionDir, e.tracks[i])
    {
      assert SlotValid(d, e.sessionDir, e.tracks[i]);
    }
  }

  // ---------------------------------------------------------------------------
  // Starting a session

  /** A successful `startSession` registers one fresh track per requested kind: open
      on `<kind>.wav` in the session directory, nothing written yet, the file holding
      the provisional header; and no other kind. */
  lemma StartSessionOpensEachTrack(st: Storage, id: string, config: RecordingConfig, specs: seq<TrackSpec>)
    requires WellFormed(st.disk)
    requires StartSession(st, id, config, specs).result.Success?
    ensures var r := StartSession(st, id, config, specs);
      var e := r.storage.sessions[id];
      && AllFresh(r.storage.disk, e.sessionDir, config, e.tracks)
      && Kinds(e.tracks) == SpecKinds(specs)
  {
    var dir := Join(st.recordingsDir, id);
    var d0 := MkdirP(MkdirP(st.disk, st.recordingsDir), dir);
    OpenTracksOpensEach(d0, dir, config, specs, []);
    OpenTracksKinds(d0, dir, config, specs, []);
  }

  /** Each kind of a new session holds the channel count of its last request. */
  lemma StartSessionChannels(st: Storage, id: string, config: RecordingConfig, specs: seq<TrackSpec>, k: TrackKind)
    requires StartSession(st, id, config, specs).result.Success?
    ensures ChannelsIn(StartSession(st, id, config, specs).storage.sessions[id].tracks, k) == ChannelsFor(specs, k, 0)
  {
    var dir := Join(st.recordingsDir, id);
    var d0 := MkdirP(MkdirP(st.disk, st.recordingsDir), dir);
    OpenTracksChannels(d0, dir, config, specs, [], k);
  }

  /** `startSession`, whether it succeeds or not, keeps every live session valid, and
      on success the new one is valid too. */
  lemma StartSessionKeepsValid(st: Storage, id: string, config: RecordingConfig, specs: seq<TrackSpec>)
    requires Valid(st)
    ensures Valid(StartSession(st, id, config, specs).storage)
  {
    var root := st.recordingsDir;
    var dir := Join(root, id);
    var d0 := MkdirP(MkdirP(st.disk, root), dir);
    var made := OpenTracks(d0, dir, config, specs, []);
    OpenTracksFrame(d0, dir, config, specs, []);
    var r := StartSession(st, id, config, specs);
    assert r.storage.disk == made.disk;
    forall id1 | id1 in r.storage.sessions
      ensures SessionValid(root, made.disk, id1, r.storage.sessions[id1])
    {
      if id1 == id && made.result.Success? {
        StartSessionOpensEachTrack(st, id, config, specs);
        var e := r.storage.sessions[id];
        forall i | 0 <= i < |e.tracks|
          ensures SlotValid(made.disk, dir, e.tracks[i])
        {
          assert Fresh(made.disk, dir, config, e.tracks[i]);
        }
      } else {
        var e := st.sessions[id1];
        assert r.storage.sessions[id1] == e;
        JoinInjective(root, id1, id);
        assert KeepsSlotsOf(st.disk, made.disk, e.sessionDir);
        SessionSurvives(root, st.disk, made.disk, id1, e);
      }
    }
  }

  // ---------------------------------------------------------------------------
  // Appending audio

  /** `writeChunk` keeps the storage valid: it only changes a byte count. */
  lemma WriteChunkKeepsValid(st: Storage, id: string, kind: TrackKind, payload: seq<Byte>)
    requires Valid(st)
    ensures Valid(WriteChunk(st, id, kind, payload).storage)
  {
    var r := WriteChunk(st, id, kind, payload);
    if r.result.Success? {
      var e := st.sessions[id];
      assert SessionValid(st.recordingsDir, st.disk, id, e);
      var before := Lookup(e.tracks, kind).value;
      var j :| 0 <= j < |e.tracks| && e.tracks[j] == Slot(kind, before);
      RecountKeepsSlots(st.disk, e.sessionDir, e.tracks, j, r.result.value);
      var e2 := e.(tracks := SetTrack(e.tracks, kind, before.(bytesWritten := r.result.value)));
      assert SessionValid(st.recordingsDir, st.disk, id, e2);
      ReplaceSessionKeepsValid(st, id, e2);
    }
  }

  /** Replacing one live session by a valid entry keeps the storage valid. */
  lemma ReplaceSessionKeepsValid(st: Storage, id: string, e: SessionEntry)
    requires Valid(st) && SessionValid(st.recordingsDir, st.disk, id, e)
    ensures Valid(st.(sessions := st.sessions[id := e]))
  {
    var st2 := st.(sessions := st.sessions[id := e]);
    forall x | x in st2.sessions
      ensures SessionValid(st2.recordingsDir, st2.disk, x, st2.sessions[x])
    {
      if x != id {
        assert st2.sessions[x] == st.sessions[x];
      }
    }
  }

  /** Changing the byte count of track `j` keeps every slot of the map valid. */
  lemma RecountKeepsSlots(d: Disk, dir: string, tracks: seq<Slot>, j: nat, count: nat)
    requires j < |tracks| && DistinctKinds(tracks)
    requires forall i :: 0 <= i < |tracks| ==> SlotValid(d, dir, tracks[i])
    ensures var r := SetTrack(tracks, tracks[j].kind, tracks[j].track.(bytesWritten := count));
      forall i :: 0 <= i < |r| ==> SlotValid(d, dir, r[i])
  {
    var kind := tracks[j].kind;
    var r := SetTrack(tracks, kind, tracks[j].track.(bytesWritten := count));
    forall i | 0 <= i < |r|
      ensures SlotValid(d, dir, r[i])
    {
      if r[i].kind == kind {
        assert SlotValid(d, dir, tracks[j]);
      } else {
        assert r[i] == tracks[i];
      }
    }
  }

  /** The payload bytes of a series of chunks. */
  function TotalLength(payloads: seq<seq<Byte>>): nat {
    if |payloads| == 0 then 0 else |payloads[0]| + TotalLength(payloads[1..])
  }

  /** One `writeChunk` call after another for the same track, in order. */
  function WriteAll(st: Storage, id: string, kind: TrackKind, payloads: seq<seq<Byte>>): Storage
    decreases |payloads|
  {
    if |payloads| == 0 then st
    else WriteAll(WriteChunk(st, id, kind, payloads[0]).storage, id, kind, payloads[1..])
  }

  /** On an open track, a series of chunks all land: the track's count grows by their
      total length, the descriptor stays the same, and the disk is untouched. */
  lemma {:induction false} WriteAllCounts(st: Storage, id: string, kind: TrackKind, payloads: seq<seq<Byte>>)
    requires id in st.sessions && kind in Kinds(st.sessions[id].tracks)
    requires IsOpen(st.disk, Lookup(st.sessions[id].tracks, kind).value.fd)
    ensures var r := WriteAll(st, id, kind, payloads);
      && r.disk == st.disk
      && id in r.sessions && kind in Kinds(r.sessions[id].tracks)
      && Lookup(r.sessions[id].tracks, kind).value.fd == Lookup(st.sessions[id].tracks, kind).value.fd
      && Lookup(r.sessions[id].tracks, kind).value.bytesWritten
         == Lookup(st.sessions[id].tracks, kind).value.bytesWritten + TotalLength(payloads)
    decreases |payloads|
  {
    if |payloads| > 0 {
      var st1 := WriteChunk(st, id, kind, payloads[0]).storage;
      WriteAllCounts(st1, id, kind, payloads[1..]);
    }
  }

  // ---------------------------------------------------------------------------
  // Finalizing

  /** One step of the header-rewriting loop: on success, the first track's header was
      rewritten and its descriptor closed, and the loop went on from there. */
  lemma RewriteAndCloseUnfold(d: Disk, slots: seq<Slot>, config: RecordingConfig)
    requires |slots| > 0 && RewriteAndClose(d, slots, config).result.Success?
    ensures var t := slots[0].track;
      var w := WriteWavHeader(d, t.fd, TrackHeader(config, t.channels, t.bytesWritten));
      && w.Success? && Close(w.value, t.fd).Success?
      && RewriteAndClose(d, slots, config) == RewriteAndClose(Close(w.value, t.fd).value, slots[1..], config)
  {
  }

  /** The header-rewriting loop keeps every descriptor's file and every directory's
      file names; it only closes descriptors. */
  lemma {:induction false} RewriteAndCloseFrame(d: Disk, slots: seq<Slot>, config: RecordingConfig)
    ensures var r := RewriteAndClose(d, slots, config);
      && (forall fd :: fd in d.fds ==> r.disk.fds[fd] == d.fds[fd].(open := r.disk.fds[fd].open))
      && (forall fd :: IsOpen(r.disk, fd) ==> IsOpen(d, fd))
      && (forall x :: x in d.dirs ==> r.disk.dirs[x].Keys == d.dirs[x].Keys)
    decreases |slots|
  {
    if |slots| > 0 {
      var t := slots[0].track;
      var w := WriteWavHeader(d, t.fd, TrackHeader(config, t.channels, t.bytesWritten));
      if w.Success? {
        WriteWavHeaderEffect(d, t.fd, TrackHeader(config, t.channels, t.bytesWritten));
        var c := Close(w.value, t.fd);
        if c.Success? {
          RewriteAndCloseFrame(c.value, slots[1..], config);
        }
      }
    }
  }

  /** The track files a map names. */
  function FileNames(slots: seq<Slot>): set<string> {
    set i | 0 <= i < |slots| :: TrackFileName(slots[i].kind)
  }

  lemma FileNamesCons(slots: seq<Slot>)
    requires |slots| > 0
    ensures FileNames(slots) == {TrackFileName(slots[0].kind)} + FileNames(slots[1..])
  {
    assert forall i :: 1 <= i < |slots| ==> slots[1..][i - 1] == slots[i];
  }

  /** The tracks of one session: distinct kinds, each valid in `dir`. */
  ghost predicate SlotsValid(d: Disk, dir: string, slots: seq<Slot>) {
    && DistinctKinds(slots)
    && forall i :: 0 <= i < |slots| ==> SlotValid(d, dir, slots[i])
  }

  /** After one rewrite-and-close step the remaining tracks are still valid. */
  lemma RewriteStepKeepsSlots(d: Disk, dir: string, slots: seq<Slot>, config: RecordingConfig)
    requires |slots| > 0 && SlotsValid(d, dir, slots)
    requires var t := slots[0].track;
      var w := WriteWavHeader(d, t.fd, TrackHeader(config, t.channels, t.bytesWritten));
      w.Success? && Close(w.value, t.fd).Success?
    ensures var t := slots[0].track;
      var d1 := WriteWavHeader(d, t.fd, TrackHeader(config, t.channels, t.bytesWritten)).value;
      var d2 := Close(d1, t.fd).value;
      && SlotsValid(d2, dir, slots[1..])
      && dir in d2.dirs && TrackFileName(slots[0].kind) in d2.dirs[dir]
      && d2.dirs[dir][TrackFileName(slots[0].kind)] == Header(TrackHeader(config, t.channels, t.bytesWritten))
      && (forall n :: n in d.dirs[dir] && n != TrackFileName(slots[0].kind) ==> n in d2.dirs[dir] && d2.dirs[dir][n] == d.dirs[dir][n])
      && TrackFileName(slots[0].kind) !in FileNames(slots[1..])
      && forall i :: 0 <= i < |slots| - 1 ==> slots[1..][i].track.fd != t.fd
  {
    var t := slots[0].track;
    WriteWavHeaderEffect(d, t.fd, TrackHeader(config, t.channels, t.bytesWritten));
    var d1 := WriteWavHeader(d, t.fd, TrackHeader(config, t.channels, t.bytesWritten)).value;
    var d2 := Close(d1, t.fd).value;
    assert SlotValid(d, dir, slots[0]);
    forall i | 0 <= i < |slots| - 1
      ensures SlotValid(d2, dir, slots[1..][i])
    {
      assert SlotValid(d, dir, slots[i + 1]);
    }
    forall i | 0 <= i < |slots| - 1
      ensures TrackFileName(slots[1..][i].kind) != TrackFileName(slots[0].kind)
      ensures slots[1..][i].track.fd != t.fd
    {
      TrackFileNameInjective(slots[i + 1].kind, slots[0].kind);
      assert SlotValid(d, dir, slots[i + 1]);
    }
  }

  /** A successful rewrite loop leaves every track file holding the header with its
      final data size, and every other file of the session directory as it was. */
  lemma {:induction false} RewriteAndCloseWrites(d: Disk, dir: string, slots: seq<Slot>, config: RecordingConfig)
    requires SlotsValid(d, dir, slots)
    requires RewriteAndClose(d, slots, config).result.Success?
    ensures var r := RewriteAndClose(d, slots, config).disk;
      forall i :: 0 <= i < |slots| ==>
        var name := TrackFileName(slots[i].kind);
        dir in r.dirs && name in r.dirs[dir]
        && r.dirs[dir][name] == Header(TrackHeader(config, slots[i].track.channels, slots[i].track.bytesWritten))
    ensures var r := RewriteAndClose(d, slots, config).disk;
      dir in d.dirs ==> forall n :: n in d.dirs[dir] && n !in FileNames(slots) ==>
        dir in r.dirs && n in r.dirs[dir] && r.dirs[dir][n] == d.dirs[dir][n]
    decreases |slots|
  {
    if |slots| > 0 {
      var t := slots[0].track;
      RewriteAndCloseUnfold(d, slots, config);
      RewriteStepKeepsSlots(d, dir, slots, config);
      var d1 := WriteWavHeader(d, t.fd, TrackHeader(config, t.channels, t.bytesWritten)).value;
      var d2 := Close(d1, t.fd).value;
      RewriteAndCloseWrites(d2, dir, slots[1..], config);
      var r := RewriteAndClose(d, slots, config).disk;
      forall i | 0 <= i < |slots|
        ensures var name := TrackFileName(slots[i].kind);
          dir in r.dirs && name in r.dirs[dir]
          && r.dirs[dir][name] == Header(TrackHeader(config, slots[i].track.channels, slots[i].track.bytesWritten))
      {
        if i > 0 {
          assert slots[1..][i - 1] == slots[i];
        }
      }
      forall n | n in d.dirs[dir] && n !in FileNames(slots)
        ensures dir in r.dirs && n in r.dirs[dir] && r.dirs[dir][n] == d.dirs[dir][n]
      {
        FileNamesCons(slots);
      }
    }
  }

  /** A successful rewrite loop found every track's descriptor open and left it
      closed. */
  lemma {:induction false} RewriteAndCloseDescriptors(d: Disk, slots: seq<Slot>, config: RecordingConfig)
    requires RewriteAndClose(d, slots, config).result.Success?
    ensures var r := RewriteAndClose(d, slots, config).disk;
      forall i :: 0 <= i < |slots| ==> IsOpen(d, slots[i].track.fd) && !IsOpen(r, slots[i].track.fd)
    decreases |slots|
  {
    if |slots| > 0 {
      var t := slots[0].track;
      RewriteAndCloseUnfold(d, slots, config);
      var d1 := WriteWavHeader(d, t.fd, TrackHeader(config, t.channels, t.bytesWritten)).value;
      var d2 := Close(d1, t.fd).value;
      RewriteAndCloseDescriptors(d2, slots[1..], config);
      RewriteAndCloseFrame(d2, slots[1..], config);
      forall i | 1 <= i < |slots|
        ensures IsOpen(d, slots[i].track.fd)
      {
        assert slots[1..][i - 1] == slots[i];
      }
    }
  }

  /** The converse: when every track of a valid session is open and its final header
      fits, the rewrite loop succeeds. */
  lemma {:induction false} RewriteAndCloseSucceeds(d: Disk, dir: string, slots: seq<Slot>, config: RecordingConfig)
    requires SlotsValid(d, dir, slots)
    requires forall i :: 0 <= i < |slots| ==> IsOpen(d, slots[i].track.fd)
    requires forall i :: 0 <= i < |slots| ==>
      HeaderInRange(TrackHeader(config, slots[i].track.channels, slots[i].track.bytesWritten))
    ensures RewriteAndClose(d, slots, config).result.Success?
    decreases |slots|
  {
    if |slots| > 0 {
      var t := slots[0].track;
      var d1 := WriteWavHeader(d, t.fd, TrackHeader(config, t.channels, t.bytesWritten)).value;
      var d2 := Close(d1, t.fd).value;
      RewriteStepKeepsSlots(d, dir, slots, config);
      forall i | 0 <= i < |slots| - 1
        ensures IsOpen(d2, slots[1..][i].track.fd)
        ensures HeaderInRange(TrackHeader(config, slots[1..][i].track.channels, slots[1..][i].track.bytesWritten))
      {
        assert slots[1..][i] == slots[i + 1];
      }
      RewriteAndCloseSucceeds(d2, dir, slots[1..], config);
    }
  }

  /** The directory `finalizeRecording` moves a session to, for the directory name
      `stamp` derived from the clock. */
  function RecordingDir(st: Storage, stamp: string): string {
    Join(st.recordingsDir, stamp)
  }

  /** Whether `renameSync(from, to)` goes through on `d`. */
  predicate RenameAllowed(d: Disk, from: string, to: string) {
    from in d.dirs && (from == to || to !in d.dirs || |d.dirs[to]| == 0)
  }

  /** Whether a rename is allowed depends only on which directories exist and which
      names they hold, not on the files' contents. */
  lemma RenameAllowedByNames(d: Disk, d2: Disk, from: string, to: string)
    requires d2.dirs.Keys == d.dirs.Keys
    requires forall x :: x in d.dirs ==> d2.dirs[x].Keys == d.dirs[x].Keys
    ensures RenameAllowed(d2, from, to) <==> RenameAllowed(d, from, to)
  {
    if to in d.dirs {
      assert |d2.dirs[to]| == |d2.dirs[to].Keys| == |d.dirs[to].Keys| == |d.dirs[to]|;
    }
  }

  /** A directory holding valid tracks is not empty. */
  lemma TracksFillDir(d: Disk, dir: string, slots: seq<Slot>)
    requires forall i :: 0 <= i < |slots| ==> SlotValid(d, dir, slots[i])
    ensures |slots| > 0 ==> dir in d.dirs && |d.dirs[dir]| > 0
  {
    if |slots| > 0 {
      assert SlotValid(d, dir, slots[0]);
      assert TrackFileName(slots[0].kind) in d.dirs[dir].Keys;
    }
  }

  /** The rewrite loop of a valid storage keeps every session valid. */
  lemma RewriteKeepsSessions(st: Storage, slots: seq<Slot>, config: RecordingConfig)
    requires Valid(st)
    ensures var d1 := RewriteAndClose(st.disk, slots, config).disk;
      && WellFormed(d1)
      && forall id1 :: id1 in st.sessions ==> SessionValid(st.recordingsDir, d1, id1, st.sessions[id1])
  {
    var d1 := RewriteAndClose(st.disk, slots, config).disk;
    RewriteAndCloseFrame(st.disk, slots, config);
    forall id1 | id1 in st.sessions
      ensures SessionValid(st.recordingsDir, d1, id1, st.sessions[id1])
    {
      assert KeepsSlotsOf(st.disk, d1, st.sessions[id1].sessionDir);
      SessionSurvives(st.recordingsDir, st.disk, d1, id1, st.sessions[id1]);
    }
  }

  /** `finalizeRecording` keeps the storage valid whether it succeeds or fails. */
  lemma FinalizeKeepsValid(st: Storage, id: string, config: RecordingConfig, stamp: string, nowIso: string, statSize: string -> nat)
    requires Valid(st)
    ensures Valid(FinalizeAs(st, id, config, stamp, nowIso, statSize).storage)
  {
    if id in st.sessions {
      var root := st.recordingsDir;
      var e := st.sessions[id];
      var closed := RewriteAndClose(st.disk, e.tracks, config);
      RewriteKeepsSessions(st, e.tracks, config);
      var to := RecordingDir(st, stamp);
      var renamed := RenameDir(closed.disk, e.sessionDir, to);
      if closed.result.Success? && renamed.Success? && e.sessionDir != to {
        var moved := renamed.value;
        forall id1 | id1 in st.sessions && id1 != id
          ensures SessionValid(root, moved, id1, st.sessions[id1])
        {
          var e1 := st.sessions[id1];
          JoinInjective(root, id1, id);
          if e1.sessionDir == to {
            TracksFillDir(closed.disk, to, e1.tracks);
          } else {
            assert KeepsSlotsOf(closed.disk, moved, e1.sessionDir);
            SessionSurvives(root, closed.disk, moved, id1, e1);
          }
        }
      }
    }
  }

  /** A successful `finalizeRecording` rewrote and closed every track and then
      renamed the session directory. */
  lemma FinalizeSteps(st: Storage, id: string, config: RecordingConfig, stamp: string, nowIso: string, statSize: string -> nat)
    requires FinalizeAs(st, id, config, stamp, nowIso, statSize).result.Success?
    ensures id in st.sessions
    ensures var e := st.sessions[id];
      var closed := RewriteAndClose(st.disk, e.tracks, config);
      && closed.result.Success?
      && RenameDir(closed.disk, e.sessionDir, RecordingDir(st, stamp)).Success?
      && FinalizeAs(st, id, config, stamp, nowIso, statSize).storage.disk
         == RenameDir(closed.disk, e.sessionDir, RecordingDir(st, stamp)).value
  {
  }

  /** After a successful `finalizeRecording` the recording directory holds every
      track file, each with the header carrying the track's final byte count. */
  lemma FinalizeWritesHeaders(st: Storage, id: string, config: RecordingConfig, stamp: string, nowIso: string, statSize: string -> nat)
    requires Valid(st)
    requires FinalizeAs(st, id, config, stamp, nowIso, statSize).result.Success?
    ensures var d := FinalizeAs(st, id, config, stamp, nowIso, statSize).storage.disk;
      var slots := st.sessions[id].tracks;
      var dir := RecordingDir(st, stamp);
      forall i :: 0 <= i < |slots| ==>
        var name := TrackFileName(slots[i].kind);
        dir in d.dirs && name in d.dirs[dir]
        && d.dirs[dir][name] == Header(TrackHeader(config, slots[i].track.channels, slots[i].track.bytesWritten))
  {
    FinalizeSteps(st, id, config, stamp, nowIso, statSize);
    var e := st.sessions[id];
    assert SessionValid(st.recordingsDir, st.disk, id, e);
    RewriteAndCloseWrites(st.disk, e.sessionDir, e.tracks, config);
  }

  /** A final header decodes to the parameters it was written for; in particular its
      data size field reads back as the track's byte count. */
  lemma FinalHeaderDecodes(config: RecordingConfig, channels: nat, bytesWritten: nat)
    requires HeaderInRange(TrackHeader(config, channels, bytesWritten))
    ensures var h := WavEncoder.ParseHeader(WavEncoder.CreateWavHeader(TrackHeader(config, channels, bytesWritten)));
      && h.Some?
      && WavEncoder.ParamsOf(h.value) == TrackHeader(config, channels, bytesWritten)
      && h.value.dataSize == bytesWritten
  {
    Bytes.Pow256Values();
    WavEncoder.HeaderRoundTrip(TrackHeader(config, channels, bytesWritten));
  }

  /** `finalizeRecording` on a valid storage succeeds exactly when every track's
      descriptor is open, every final header fits its fields, and the session
      directory can be renamed onto the recording directory. */
  lemma FinalizeSucceedsIff(st: Storage, id: string, config: RecordingConfig, stamp: string, nowIso: string, statSize: string -> nat)
    requires Valid(st) && id in st.sessions
    ensures var slots := st.sessions[id].tracks;
      FinalizeAs(st, id, config, stamp, nowIso, statSize).result.Success?
      <==>
      && (forall i :: 0 <= i < |slots| ==> IsOpen(st.disk, slots[i].track.fd))
      && (forall i :: 0 <= i < |slots| ==>
            HeaderInRange(TrackHeader(config, slots[i].track.channels, slots[i].track.bytesWritten)))
      && RenameAllowed(st.disk, st.sessions[id].sessionDir, RecordingDir(st, stamp))
  {
    var e := st.sessions[id];
    assert SessionValid(st.recordingsDir, st.disk, id, e);
    var closed := RewriteAndClose(st.disk, e.tracks, config);
    RewriteAndCloseFrame(st.disk, e.tracks, config);
    RenameAllowedByNames(st.disk, closed.disk, e.sessionDir, RecordingDir(st, stamp));
    if closed.result.Success? {
      RewriteAndCloseDescriptors(st.disk, e.tracks, config);
    } else if (forall i :: 0 <= i < |e.tracks| ==> IsOpen(st.disk, e.tracks[i].track.fd))
      && (forall i :: 0 <= i < |e.tracks| ==>
            HeaderInRange(TrackHeader(config, e.tracks[i].track.channels, e.tracks[i].track.bytesWritten))) {
      RewriteAndCloseSucceeds(st.disk, e.sessionDir, e.tracks, config);
    }
  }

  /** A successful finalize of a session with tracks leaves its recording directory
      holding files. */
  lemma FinalizeFillsRecordingDir(st: Storage, id: string, config: RecordingConfig, stamp: string, nowIso: string, statSize: string -> nat)
    requires Valid(st) && id in st.sessions && |st.sessions[id].tracks| > 0
    requires FinalizeAs(st, id, config, stamp, nowIso, statSize).result.Success?
    ensures var d := FinalizeAs(st, id, config, stamp, nowIso, statSize).storage.disk;
      RecordingDir(st, stamp) in d.dirs && |d.dirs[RecordingDir(st, stamp)]| > 0
  {
    var d := FinalizeAs(st, id, config, stamp, nowIso, statSize).storage.disk;
    FinalizeWritesHeaders(st, id, config, stamp, nowIso, statSize);
    assert TrackFileName(st.sessions[id].tracks[0].kind) in d.dirs[RecordingDir(st, stamp)].Keys;
  }

  /** Finalizing onto a recording directory that already holds files fails and
      keeps the session registered. */
  lemma FinalizeOntoFullDirFails(st: Storage, id: string, config: RecordingConfig, stamp: string, nowIso: string, statSize: string -> nat)
    requires id in st.sessions
    requires var to := RecordingDir(st, stamp);
      to in st.disk.dirs && |st.disk.dirs[to]| > 0 && st.sessions[id].sessionDir != to
    ensures var r := FinalizeAs(st, id, config, stamp, nowIso, statSize);
      r.result.Failure? && id in r.storage.sessions
  {
    var e := st.sessions[id];
    var to := RecordingDir(st, stamp);
    var closed := RewriteAndClose(st.disk, e.tracks, config);
    RewriteAndCloseFrame(st.disk, e.tracks, config);
    assert |closed.disk.dirs[to]| == |closed.disk.dirs[to].Keys| == |st.disk.dirs[to].Keys| == |st.disk.dirs[to]|;
  }

  /** Two recordings finalized under the same directory name collide (by
      `Timestamp.TimestampNameCollides`, any two instants within the same second
      get the same name): once the first has moved its files into that directory,
      finalizing the other session fails and leaves it registered. (The other
      session's id is assumed not to be that directory name itself.) */
  lemma SameSecondCollides(st: Storage, a: string, b: string, config: RecordingConfig, config2: RecordingConfig,
                           stamp: string, t1: string, t2: string, statSize: string -> nat)
    requires Valid(st) && a in st.sessions && b in st.sessions && a != b
    requires |st.sessions[a].tracks| > 0
    requires b != stamp
    requires FinalizeAs(st, a, config, stamp, t1, statSize).result.Success?
    ensures var st1 := FinalizeAs(st, a, config, stamp, t1, statSize).storage;
      && FinalizeAs(st1, b, config2, stamp, t2, statSize).result.Failure?
      && b in FinalizeAs(st1, b, config2, stamp, t2, statSize).storage.sessions
  {
    var st1 := FinalizeAs(st, a, config, stamp, t1, statSize).storage;
    assert RecordingDir(st1, stamp) == RecordingDir(st, stamp);
    FinalizeFillsRecordingDir(st, a, config, stamp, t1, statSize);
    assert SessionValid(st.recordingsDir, st.disk, b, st.sessions[b]);
    JoinInjective(st.recordingsDir, b, stamp);
    FinalizeOntoFullDirFails(st1, b, config2, stamp, t2, statSize);
  }

  // ---------------------------------------------------------------------------
  // Cancelling a session

  /** Closing the first track leaves the other tracks valid, each open exactly when
      it was before. */
  lemma CloseStepKeepsSlots(d: Disk, dir: string, slots: seq<Slot>)
    requires |slots| > 0 && SlotsValid(d, dir, slots) && IsOpen(d, slots[0].track.fd)
    ensures var d1 := Close(d, slots[0].track.fd).value;
      && SlotsValid(d1, dir, slots[1..])
      && forall i :: 1 <= i < |slots| ==> (IsOpen(d1, slots[i].track.fd) <==> IsOpen(d, slots[i].track.fd))
    ensures var d1 := Close(d, slots[0].track.fd).value;
      (forall i :: 0 <= i < |slots[1..]| ==> IsOpen(d1, slots[1..][i].track.fd))
      <==> (forall i :: 1 <= i < |slots| ==> IsOpen(d, slots[i].track.fd))
  {
    var d1 := Close(d, slots[0].track.fd).value;
    assert SlotValid(d, dir, slots[0]);
    forall i | 1 <= i < |slots|
      ensures SlotValid(d1, dir, slots[i])
      ensures slots[i].track.fd != slots[0].track.fd
    {
      TrackFileNameInjective(slots[i].kind, slots[0].kind);
      assert SlotValid(d, dir, slots[i]);
    }
    forall i | 0 <= i < |slots| - 1
      ensures SlotValid(d1, dir, slots[1..][i])
      ensures IsOpen(d1, slots[1..][i].track.fd) <==> IsOpen(d, slots[i + 1].track.fd)
    {
      assert slots[1..][i] == slots[i + 1];
    }
  }

  /** The close loop over the tracks of one session succeeds exactly when every
      track's descriptor is open. */
  lemma {:induction false} CloseAllSucceedsIff(d: Disk, dir: string, slots: seq<Slot>)
    requires SlotsValid(d, dir, slots)
    ensures CloseAll(d, slots).result.Success? <==> forall i :: 0 <= i < |slots| ==> IsOpen(d, slots[i].track.fd)
    decreases |slots|
  {
    if |slots| > 0 && IsOpen(d, slots[0].track.fd) {
      var d1 := Close(d, slots[0].track.fd).value;
      CloseStepKeepsSlots(d, dir, slots);
      CloseAllSucceedsIff(d1, dir, slots[1..]);
      assert CloseAll(d, slots) == CloseAll(d1, slots[1..]);
    }
  }

  /** `cancelSession` of a live session on a valid storage succeeds exactly when
      every one of its tracks is still open. */
  lemma CancelSucceedsIff(st: Storage, id: string)
    requires Valid(st) && id in st.sessions
    ensures var slots := st.sessions[id].tracks;
      CancelSession(st, id).result.Success? <==> forall i :: 0 <= i < |slots| ==> IsOpen(st.disk, slots[i].track.fd)
  {
    var e := st.sessions[id];
    assert SessionValid(st.recordingsDir, st.disk, id, e);
    CloseAllSucceedsIff(st.disk, e.sessionDir, e.tracks);
  }

  /** `cancelSession` keeps the storage valid whether it succeeds or fails. */
  lemma CancelKeepsValid(st: Storage, id: string)
    requires Valid(st)
    ensures Valid(CancelSession(st, id).storage)
  {
    var r := CancelSession(st, id);
    if id in st.sessions {
      var dir := st.sessions[id].sessionDir;
      forall id1 | id1 in r.storage.sessions
        ensures SessionValid(st.recordingsDir, r.storage.disk, id1, st.sessions[id1])
      {
        var e1 := st.sessions[id1];
        if r.result.Success? {
          JoinInjective(st.recordingsDir, id1, id);
        }
        assert KeepsSlotsOf(st.disk, r.storage.disk, e1.sessionDir);
        SessionSurvives(st.recordingsDir, st.disk, r.storage.disk, id1, e1);
      }
    }
  }

  /** Cancelling twice is cancelling once: a cancel that succeeded forgot the
      session, and one that failed stopped at a descriptor that is closed by then,
      so the second attempt fails the same way at the first track. */
  lemma CancelIdempotent(st: Storage, id: string)
    ensures CancelSession(CancelSession(st, id).storage, id) == CancelSession(st, id)
  {
    if id in st.sessions {
      var s := st.sessions[id];
      var closed := CloseAll(st.disk, s.tracks);
      if closed.result.Failure? {
        CloseAllLeavesFirstClosed(st.disk, s.tracks);
      }
    }
  }

  /** After the close loop, whatever its outcome, the first track's descriptor is
      not open. */
  lemma CloseAllLeavesFirstClosed(d: Disk, slots: seq<Slot>)
    requires |slots| > 0
    ensures !IsOpen(CloseAll(d, slots).disk, slots[0].track.fd)
  {
    if IsOpen(d, slots[0].track.fd) {
      var d1 := Close(d, slots[0].track.fd).value;
      assert CloseAll(d, slots) == CloseAll(d1, slots[1..]);
    }
  }
}
