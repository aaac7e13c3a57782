/** The main-process storage engine: one WAV file per track in a per-session
    directory, a header written with a zero data size when the session starts,
    chunks appended while it runs, and at finalization the header rewritten with the
    real size, the descriptors closed and the directory renamed after the instant of
    finalization. The registry of live sessions is explicit state. */
module FileService {
  import opened Wrappers
  import opened Bytes
  import opened FileSystem
  import opened RecordingTypes
  import WavEncoder
  import Timestamp

  /** `path.join(dir, name)` for a single path segment `name`. */
  function Join(dir: string, name: string): string {
    dir + "/" + name
  }

  /** What the engine keeps per open track. */
  datatype TrackState = TrackState(fd: Fd, filePath: string, bytesWritten: nat, channels: nat)

  /** One entry of a session's track map; the sequence keeps the map's insertion
      order, which is the order finalization walks it in. */
  datatype Slot = Slot(kind: TrackKind, track: TrackState)

  datatype SessionEntry = SessionEntry(sessionDir: string, tracks: seq<Slot>)

  /** The engine's state: the recordings directory, the registry of live sessions
      and the filesystem. */
  datatype Storage = Storage(recordingsDir: string, sessions: map<string, SessionEntry>, disk: Disk)

  /** Why an operation failed; the message of the thrown error. */
  datatype Reason =
    | SessionNotFound
    | TrackNotFound
    | OutOfRange      // RangeError from a Buffer integer write
    | Io(error: IoError)

  /** The tagged errors the engine reports, each with the path it concerns. */
  datatype StorageError =
    | FileWriteError(path: string, reason: Reason)
    | FileReadError(path: string, reason: Reason)

  /** An operation's effect on the engine's state together with its answer; failed
      operations keep the filesystem effects made before the failure. */
  datatype Outcome<T> = Outcome(storage: Storage, result: Result<T, StorageError>)

  /** Filesystem effects of a multi-step helper and its answer. */
  datatype Steps<T> = Steps(disk: Disk, result: Result<T, Reason>)

  // ---------------------------------------------------------------------------
  // The track map

  /** The position of kind `k` in the map, or `|slots|` when it is absent. */
  function FindSlot(slots: seq<Slot>, k: TrackKind): (i: nat)
    ensures i <= |slots|
    ensures forall j :: 0 <= j < i ==> slots[j].kind != k
    ensures i < |slots| ==> slots[i].kind == k
  {
    if |slots| == 0 then 0
    else if slots[0].kind == k then 0
    else 1 + FindSlot(slots[1..], k)
  }

  function Kinds(slots: seq<Slot>): set<TrackKind> {
    set i | 0 <= i < |slots| :: slots[i].kind
  }

  predicate DistinctKinds(slots: seq<Slot>) {
    forall i, j :: 0 <= i < j < |slots| ==> slots[i].kind != slots[j].kind
  }

  /** `map.get(k)`. */
  function Lookup(slots: seq<Slot>, k: TrackKind): (r: Option<TrackState>)
    ensures r.Some? <==> k in Kinds(slots)
    ensures r.Some? ==> exists i :: 0 <= i < |slots| && slots[i] == Slot(k, r.value)
  {
    var i := FindSlot(slots, k);
    if i < |slots| then Some(slots[i].track) else None
  }

  /** `map.set(k, t)`: an existing key keeps its position, a new one goes last. */
  function SetTrack(slots: seq<Slot>, k: TrackKind, t: TrackState): (r: seq<Slot>)
    ensures Kinds(r) == Kinds(slots) + {k}
    ensures DistinctKinds(slots) ==> DistinctKinds(r)
    ensures |r| == if k in Kinds(slots) then |slots| else |slots| + 1
    ensures Lookup(r, k) == Some(t)
    ensures forall i :: 0 <= i < |slots| && slots[i].kind != k ==> r[i] == slots[i]
    ensures DistinctKinds(slots) ==> forall i :: 0 <= i < |r| && r[i].kind == k ==> r[i].track == t
    ensures forall k' :: k' != k ==> Lookup(r, k') == Lookup(slots, k')
  {
    var i := FindSlot(slots, k);
    if i < |slots| then
      ReplaceSlot(slots, i, k, t);
      slots[i := Slot(k, t)]
    else
      AppendSlot(slots, k, t);
      slots + [Slot(k, t)]
  }

  /** FindSlot returns the first position holding k. */
  lemma {:induction false} FindSlotAt(slots: seq<Slot>, k: TrackKind, i: nat)
    requires i <= |slots| && (i < |slots| ==> slots[i].kind == k)
    requires forall j :: 0 <= j < i ==> slots[j].kind != k
    ensures FindSlot(slots, k) == i
    decreases i
  {
    if i > 0 {
      assert slots[0].kind != k;
      FindSlotAt(slots[1..], k, i - 1);
    }
  }

  /** Overwriting the slot of k changes the lookup of k only. */
  lemma ReplaceSlot(slots: seq<Slot>, i: nat, k: TrackKind, t: TrackState)
    requires i == FindSlot(slots, k) && i < |slots|
    ensures var r := slots[i := Slot(k, t)];
      && Kinds(r) == Kinds(slots) && Lookup(r, k) == Some(t)
      && forall k' :: k' != k ==> Lookup(r, k') == Lookup(slots, k')
  {
    var r := slots[i := Slot(k, t)];
    assert forall j :: 0 <= j < |r| ==> r[j].kind == slots[j].kind;
    FindSlotAt(r, k, i);
    forall k' | k' != k
      ensures Lookup(r, k') == Lookup(slots, k')
    {
      var m := FindSlot(slots, k');
      FindSlotAt(r, k', m);
    }
  }

  /** Appending a slot for a new kind k changes the lookup of k only. */
  lemma AppendSlot(slots: seq<Slot>, k: TrackKind, t: TrackState)
    requires FindSlot(slots, k) == |slots|
    ensures var r := slots + [Slot(k, t)];
      && Kinds(r) == Kinds(slots) + {k} && Lookup(r, k) == Some(t)
      && forall k' :: k' != k ==> Lookup(r, k') == Lookup(slots, k')
  {
    var r := slots + [Slot(k, t)];
    assert forall j :: 0 <= j < |slots| ==> r[j] == slots[j];
    FindSlotAt(r, k, |slots|);
    forall k' | k' != k
      ensures Lookup(r, k') == Lookup(slots, k')
    {
      var m := FindSlot(slots, k');
      if m < |slots| {
        FindSlotAt(r, k', m);
      } else {
        FindSlotAt(r, k', |r|);
      }
    }
    assert Kinds(r) == Kinds(slots) + {k} by {
      assert r[|slots|].kind == k;
    }
  }

  // ---------------------------------------------------------------------------
  // The header, built through a Node Buffer

  /** `Buffer.writeUInt32LE` / `writeUInt16LE` of the value `num / den`: a value
      above the width's maximum throws a RangeError; otherwise its integer part is
      stored little-endian. */
  function WriteUInt(buf: seq<Byte>, offset: nat, width: nat, num: nat, den: nat): (r: Result<seq<Byte>, Reason>)
    requires den > 0 && offset + width <= |buf|
    ensures r.Success? <==> num <= (Pow256(width) - 1) * den
    ensures r.Failure? ==> r.error == OutOfRange
    ensures r.Success? ==> |r.value| == |buf|
    ensures r.Success? ==> r.value == WavEncoder.SetUint(buf, offset, width, num / den)
  {
    if num > (Pow256(width) - 1) * den then Failure(OutOfRange)
    else Success(WavEncoder.SetUint(buf, offset, width, num / den))
  }

  /** The header bytes `writeWavHeader` builds before writing them: the RIFF chunk
      descriptor, then the format and data chunks. */
  function BufferHeader(p: WavEncoder.HeaderParams): (r: Result<seq<Byte>, Reason>)
    ensures r.Failure? ==> r.error == OutOfRange
    ensures r.Success? ==> |r.value| == WavEncoder.HeaderSize
  {
    var b0 := Zeros(WavEncoder.HeaderSize);
    var b1 := WavEncoder.WriteString(b0, 0, "RIFF");
    var b2 :- WriteUInt(b1, 4, 4, 36 + p.dataSize, 1);
    var b3 := WavEncoder.WriteString(b2, 8, "WAVE");
    var b4 := WavEncoder.WriteString(b3, 12, "fmt ");
    BufferFormat(b4, p)
  }

  /** The writes of `writeWavHeader` from the format chunk's size field to the
      sample rate. */
  function BufferFormat(b4: seq<Byte>, p: WavEncoder.HeaderParams): (r: Result<seq<Byte>, Reason>)
    requires |b4| == WavEncoder.HeaderSize
    ensures r.Failure? ==> r.error == OutOfRange
    ensures r.Success? ==> |r.value| == WavEncoder.HeaderSize
  {
    match WriteUInt(b4, 16, 4, 16, 1)
    case Failure(e) => Failure(e)
    case Success(b5) =>
      match WriteUInt(b5, 20, 2, 1, 1)
      case Failure(e) => Failure(e)
      case Success(b6) =>
        var b7 :- WriteUInt(b6, 22, 2, p.channels, 1);
        var b8 :- WriteUInt(b7, 24, 4, p.sampleRate, 1);
        BufferRates(b8, p)
  }

  /** The writes of `writeWavHeader` from the byte rate to the data size. */
  function BufferRates(b8: seq<Byte>, p: WavEncoder.HeaderParams): (r: Result<seq<Byte>, Reason>)
    requires |b8| == WavEncoder.HeaderSize
    ensures r.Failure? ==> r.error == OutOfRange
    ensures r.Success? ==> |r.value| == WavEncoder.HeaderSize
  {
    var b9 :- WriteUInt(b8, 28, 4, ByteRateBits(p), 8);
    var b10 :- WriteUInt(b9, 32, 2, BlockAlignBits(p), 8);
    var b11 :- WriteUInt(b10, 34, 2, p.bitDepth, 1);
    var b12 := WavEncoder.WriteString(b11, 36, "data");
    var b13 :- WriteUInt(b12, 40, 4, p.dataSize, 1);
    Success(b13)
  }

  /** The byte rate times eight: `sampleRate * channels * (bitDepth / 8)` is this over 8. */
  function ByteRateBits(p: WavEncoder.HeaderParams): nat {
    p.sampleRate * p.channels * p.bitDepth
  }

  /** The block alignment times eight. */
  function BlockAlignBits(p: WavEncoder.HeaderParams): nat {
    p.channels * p.bitDepth
  }

  /** Every field of the header fits the width Node checks it against. */
  predicate HeaderInRange(p: WavEncoder.HeaderParams) {
    36 + p.dataSize <= 0xFFFF_FFFF
    && p.channels <= 0xFFFF
    && p.sampleRate <= 0xFFFF_FFFF
    && ByteRateBits(p) <= 0xFFFF_FFFF * 8
    && BlockAlignBits(p) <= 0xFFFF * 8
    && p.bitDepth <= 0xFFFF
  }

  /** The Buffer-built header refuses exactly the out-of-range parameters, and
      otherwise holds the same bytes as the renderer's DataView-built header. */
  lemma BufferHeaderIsWavHeader(p: WavEncoder.HeaderParams)
    ensures BufferHeader(p).Success? <==> HeaderInRange(p)
    ensures BufferHeader(p).Failure? ==> BufferHeader(p).error == OutOfRange
    ensures BufferHeader(p).Success? ==> BufferHeader(p).value == WavEncoder.CreateWavHeader(p)
  {
    if HeaderInRange(p) {
      InRangeHeaderIsWavHeader(p);
    } else {
      OutOfRangeHeaderFails(p);
    }
  }

  lemma InRangeHeaderIsWavHeader(p: WavEncoder.HeaderParams)
    requires HeaderInRange(p)
    ensures BufferHeader(p) == Success(WavEncoder.CreateWavHeader(p))
  {
    Pow256Values();
    var b1 := WavEncoder.WriteString(Zeros(WavEncoder.HeaderSize), 0, "RIFF");
    assert WriteUInt(b1, 4, 4, 36 + p.dataSize, 1) == Success(WavEncoder.SetUint(b1, 4, 4, 36 + p.dataSize));
    var b4 := WavEncoder.WriteDescriptor(p);
    InRangeFormat(b4, p);
    InRangeRates(WavEncoder.WriteFormat(b4, p), p);
  }

  /** In range, the format writes store what the renderer's encoder stores. */
  lemma InRangeFormat(b4: seq<Byte>, p: WavEncoder.HeaderParams)
    requires |b4| == WavEncoder.HeaderSize && HeaderInRange(p)
    ensures BufferFormat(b4, p) == BufferRates(WavEncoder.WriteFormat(b4, p), p)
  {
    Pow256Values();
    var b5 := WavEncoder.SetUint(b4, 16, 4, 16);
    assert WriteUInt(b4, 16, 4, 16, 1) == Success(b5);
    var b6 := WavEncoder.SetUint(b5, 20, 2, 1);
    assert WriteUInt(b5, 20, 2, 1, 1) == Success(b6);
    var b7 := WavEncoder.SetUint(b6, 22, 2, p.channels);
    assert WriteUInt(b6, 22, 2, p.channels, 1) == Success(b7);
    assert WriteUInt(b7, 24, 4, p.sampleRate, 1) == Success(WavEncoder.SetUint(b7, 24, 4, p.sampleRate));
  }

  /** In range, the rate and data writes store what the renderer's encoder stores. */
  lemma InRangeRates(b8: seq<Byte>, p: WavEncoder.HeaderParams)
    requires |b8| == WavEncoder.HeaderSize && HeaderInRange(p)
    ensures BufferRates(b8, p) == Success(WavEncoder.WriteRates(b8, p))
  {
    Pow256Values();
    var b9 := WavEncoder.SetUint(b8, 28, 4, WavEncoder.ByteRate(p));
    assert WriteUInt(b8, 28, 4, ByteRateBits(p), 8) == Success(b9);
    var b10 := WavEncoder.SetUint(b9, 32, 2, WavEncoder.BlockAlign(p));
    assert WriteUInt(b9, 32, 2, BlockAlignBits(p), 8) == Success(b10);
    var b11 := WavEncoder.SetUint(b10, 34, 2, p.bitDepth);
    assert WriteUInt(b10, 34, 2, p.bitDepth, 1) == Success(b11);
    var b12 := WavEncoder.WriteString(b11, 36, "data");
    assert WriteUInt(b12, 40, 4, p.dataSize, 1) == Success(WavEncoder.SetUint(b12, 40, 4, p.dataSize));
  }

  lemma OutOfRangeHeaderFails(p: WavEncoder.HeaderParams)
    requires !HeaderInRange(p)
    ensures BufferHeader(p) == Failure(OutOfRange)
  {
    Pow256Values();
    var b0 := Zeros(WavEncoder.HeaderSize);
    var b1 := WavEncoder.WriteString(b0, 0, "RIFF");
    var r2 := WriteUInt(b1, 4, 4, 36 + p.dataSize, 1);
    if r2.Failure? { return; }
    var b3 := WavEncoder.WriteString(r2.value, 8, "WAVE");
    var b4 := WavEncoder.WriteString(b3, 12, "fmt ");
    OutOfRangeFormat(b4, p);
  }

  /** Out of range, one of the format writes refuses its value. */
  lemma OutOfRangeFormat(b4: seq<Byte>, p: WavEncoder.HeaderParams)
    requires |b4| == WavEncoder.HeaderSize && !HeaderInRange(p) && 36 + p.dataSize <= 0xFFFF_FFFF
    ensures BufferFormat(b4, p) == Failure(OutOfRange)
  {
    Pow256Values();
    var r5 := WriteUInt(b4, 16, 4, 16, 1);
    var r6 := WriteUInt(r5.value, 20, 2, 1, 1);
    var r7 := WriteUInt(r6.value, 22, 2, p.channels, 1);
    if r7.Failure? { return; }
    var r8 := WriteUInt(r7.value, 24, 4, p.sampleRate, 1);
    if r8.Failure? { return; }
    OutOfRangeRates(r8.value, p);
  }

  /** Out of range with channels and sample rate fitting, a rate write refuses its value. */
  lemma OutOfRangeRates(b8: seq<Byte>, p: WavEncoder.HeaderParams)
    requires |b8| == WavEncoder.HeaderSize && !HeaderInRange(p)
    requires 36 + p.dataSize <= 0xFFFF_FFFF && p.channels <= 0xFFFF && p.sampleRate <= 0xFFFF_FFFF
    ensures BufferRates(b8, p) == Failure(OutOfRange)
  {
    Pow256Values();
    var r9 := WriteUInt(b8, 28, 4, ByteRateBits(p), 8);
    if r9.Failure? { return; }
    var r10 := WriteUInt(r9.value, 32, 2, BlockAlignBits(p), 8);
    if r10.Failure? { return; }
    var r11 := WriteUInt(r10.value, 34, 2, p.bitDepth, 1);
    if r11.Failure? { return; }
    assert false;
  }


  /** `writeWavHeader`: builds the header in a Buffer and writes it at position 0 of
      `fd`. The Buffer writes throw exactly when the parameters are out of range
      (`BufferHeaderIsWavHeader`), and the bytes written are then the canonical
      header of `p`, which the filesystem records as `Header(p)`. */
  function WriteWavHeader(d: Disk, fd: Fd, p: WavEncoder.HeaderParams): (r: Result<Disk, Reason>)
    ensures r.Success? <==> HeaderInRange(p) && IsOpen(d, fd)
    ensures r.Failure? && !HeaderInRange(p) ==> r.error == OutOfRange
    ensures r.Success? ==> r.value.fds == d.fds && r.value.nextFd == d.nextFd
    ensures r.Success? ==> r.value.dirs.Keys == d.dirs.Keys
  {
    if !HeaderInRange(p) then Failure(OutOfRange)
    else
      match WriteAtStart(d, fd, Header(p))
      case Failure(e) => Failure(Io(e))
      case Success(d1) => Success(d1)
  }

  /** A successful header write leaves every directory's file names alone, puts the
      header into the descriptor's file and changes no other file. */
  lemma WriteWavHeaderEffect(d: Disk, fd: Fd, p: WavEncoder.HeaderParams)
    requires WriteWavHeader(d, fd, p).Success?
    ensures var d1 := WriteWavHeader(d, fd, p).value;
      && (forall x :: x in d.dirs ==> d1.dirs[x].Keys == d.dirs[x].Keys)
      && (forall x, n :: x in d.dirs && n in d.dirs[x] ==>
            d1.dirs[x][n] == (if x == d.fds[fd].dir && n == d.fds[fd].name
                              then Header(p) else d.dirs[x][n]))
  {
  }

  /** The header parameters of a track: the session's rate and depth, the track's
      channel count and a data size. */
  function TrackHeader(config: RecordingConfig, channels: nat, dataSize: nat): WavEncoder.HeaderParams {
    WavEncoder.HeaderParams(config.sampleRate, channels, config.bitDepth, dataSize)
  }

  // ---------------------------------------------------------------------------
  // Starting a session

  /** Every requested track's initial header (data size 0) fits its fields. */
  predicate SpecsInRange(config: RecordingConfig, specs: seq<TrackSpec>) {
    forall i :: 0 <= i < |specs| ==> HeaderInRange(TrackHeader(config, specs[i].channels, 0))
  }

  function SpecKinds(specs: seq<TrackSpec>): set<TrackKind> {
    set i | 0 <= i < |specs| :: specs[i].trackKind
  }

  /** The channel count the track map ends up holding for kind `k` when `specs` are
      set in order over a map that held `prior` for it: the last request wins. */
  function ChannelsFor(specs: seq<TrackSpec>, k: TrackKind, prior: nat): nat
    decreases |specs|
  {
    if |specs| == 0 then prior
    else ChannelsFor(specs[1..], k, if specs[0].trackKind == k then specs[0].channels else prior)
  }

  /** The loop of `startSession`: for each requested track, open `<kind>.wav` in the
      session directory, write its initial header and set it in the track map. */
  function OpenTracks(d: Disk, dir: string, config: RecordingConfig, specs: seq<TrackSpec>, acc: seq<Slot>): (r: Steps<seq<Slot>>)
    requires dir in d.dirs
    ensures r.result.Success? <==> SpecsInRange(config, specs)
    ensures r.result.Failure? ==> r.result.error == OutOfRange
    ensures r.disk.dirs.Keys == d.dirs.Keys
    decreases |specs|
  {
    if |specs| == 0 then Steps(d, Success(acc))
    else
      var spec := specs[0];
      var name := TrackFileName(spec.trackKind);
      var made := OpenForWrite(d, dir, name);
      match WriteWavHeader(made.disk, made.fd, TrackHeader(config, spec.channels, 0))
      case Failure(e) => Steps(made.disk, Failure(e))
      case Success(d1) =>
        var slot := TrackState(made.fd, Join(dir, name), 0, spec.channels);
        var r := OpenTracks(d1, dir, config, specs[1..], SetTrack(acc, spec.trackKind, slot));
        assert SpecsInRange(config, specs) <==> SpecsInRange(config, specs[1..]) by {
          assert forall i :: 1 <= i < |specs| ==> specs[1..][i - 1] == specs[i];
        }
        r
  }

  /** `startSession`: create the session directory, open one file per requested
      track with a provisional header, and register the session. */
  function StartSession(st: Storage, id: string, config: RecordingConfig, specs: seq<TrackSpec>): (r: Outcome<string>)
    ensures r.storage.recordingsDir == st.recordingsDir
    ensures r.result.Success? <==> SpecsInRange(config, specs)
    ensures r.result.Success? ==> r.result.value == Join(st.recordingsDir, id)
    ensures r.result.Failure? ==> r.result.error == FileWriteError(Join(st.recordingsDir, id), OutOfRange)
    ensures r.result.Failure? ==> r.storage.sessions == st.sessions
    ensures r.result.Success? ==>
      && id in r.storage.sessions
      && r.storage.sessions[id].sessionDir == Join(st.recordingsDir, id)
      && r.storage.sessions == st.sessions[id := r.storage.sessions[id]]
  {
    var dir := Join(st.recordingsDir, id);
    var d0 := MkdirP(MkdirP(st.disk, st.recordingsDir), dir);
    var made := OpenTracks(d0, dir, config, specs, []);
    match made.result
    case Failure(e) => Outcome(st.(disk := made.disk), Failure(FileWriteError(dir, e)))
    case Success(slots) =>
      Outcome(Storage(st.recordingsDir, st.sessions[id := SessionEntry(dir, slots)], made.disk), Success(dir))
  }

  // ---------------------------------------------------------------------------
  // Appending audio

  /** `writeChunk` with the payload already decoded from base64: append it to the
      track's file and answer the track's running total. Nothing changes when the
      session or the track is unknown or the descriptor is no longer open. */
  function WriteChunk(st: Storage, id: string, kind: TrackKind, payload: seq<Byte>): (r: Outcome<nat>)
    ensures r.result.Success? <==>
      && id in st.sessions && kind in Kinds(st.sessions[id].tracks)
      && IsOpen(st.disk, Lookup(st.sessions[id].tracks, kind).value.fd)
    ensures r.result.Failure? ==> r.storage == st
    ensures id !in st.sessions ==> r.result == Failure(FileWriteError(id, SessionNotFound))
    ensures id in st.sessions && kind !in Kinds(st.sessions[id].tracks) ==>
      r.result == Failure(FileWriteError(st.sessions[id].sessionDir, TrackNotFound))
    ensures (&& id in st.sessions && kind in Kinds(st.sessions[id].tracks)
             && !IsOpen(st.disk, Lookup(st.sessions[id].tracks, kind).value.fd)) ==>
      r.result == Failure(FileWriteError(st.sessions[id].sessionDir, Io(BadDescriptor)))
    ensures r.result.Success? ==>
      var before := Lookup(st.sessions[id].tracks, kind).value;
      r.result.value == before.bytesWritten + |payload|
      && r.storage == st.(sessions := st.sessions[id := st.sessions[id].(tracks :=
           SetTrack(st.sessions[id].tracks, kind, before.(bytesWritten := r.result.value)))])
  {
    if id !in st.sessions then Outcome(st, Failure(FileWriteError(id, SessionNotFound)))
    else
      var s := st.sessions[id];
      match Lookup(s.tracks, kind)
      case None => Outcome(st, Failure(FileWriteError(s.sessionDir, TrackNotFound)))
      case Some(t) =>
        if !IsOpen(st.disk, t.fd) then Outcome(st, Failure(FileWriteError(s.sessionDir, Io(BadDescriptor))))
        else
          var total := t.bytesWritten + |payload|;
          Outcome(st.(sessions := st.sessions[id := s.(tracks := SetTrack(s.tracks, kind, t.(bytesWritten := total)))]),
                  Success(total))
  }

  // ---------------------------------------------------------------------------
  // Finalizing

  /** The first loop of `finalizeRecording`: for each track in map order, rewrite its
      header with the real data size and close its descriptor; the first failure
      stops the walk. */
  function RewriteAndClose(d: Disk, slots: seq<Slot>, config: RecordingConfig): (r: Steps<()>)
    ensures r.disk.dirs.Keys == d.dirs.Keys
    ensures r.disk.fds.Keys == d.fds.Keys && r.disk.nextFd == d.nextFd
    ensures r.result.Success? ==> forall i :: 0 <= i < |slots| ==>
      HeaderInRange(TrackHeader(config, slots[i].track.channels, slots[i].track.bytesWritten))
    decreases |slots|
  {
    if |slots| == 0 then Steps(d, Success(()))
    else
      var t := slots[0].track;
      match WriteWavHeader(d, t.fd, TrackHeader(config, t.channels, t.bytesWritten))
      case Failure(e) => Steps(d, Failure(e))
      case Success(d1) =>
        match Close(d1, t.fd)
        case Failure(e) => Steps(d1, Failure(Io(e)))
        case Success(d2) =>
          var r := RewriteAndClose(d2, slots[1..], config);
          assert forall i :: 1 <= i < |slots| ==> slots[1..][i - 1] == slots[i];
          r
  }

  /** The track that sets the recording's duration: the greatest byte count and the
      channel count of the first track holding it; the session's channel count when
      no track received any audio. */
  datatype Longest = Longest(maxBytes: nat, channels: nat)

  /** The `maxBytes` / `maxChannels` scan of `finalizeRecording` (strictly greater
      replaces, so the first of equal tracks wins). */
  function LongestTrack(slots: seq<Slot>, fallback: nat): (r: Longest)
    ensures forall i :: 0 <= i < |slots| ==> slots[i].track.bytesWritten <= r.maxBytes
    ensures r.maxBytes == 0 ==> r.channels == fallback
    ensures r.maxBytes > 0 ==> exists i :: 0 <= i < |slots| && FirstLongest(slots, i, r)
    decreases |slots|
  {
    if |slots| == 0 then Longest(0, fallback)
    else
      var init := slots[..|slots| - 1];
      var prev := LongestTrack(init, fallback);
      var last := slots[|slots| - 1].track;
      assert forall i :: 0 <= i < |init| ==> init[i] == slots[i];
      if last.bytesWritten > prev.maxBytes then
        var r := Longest(last.bytesWritten, last.channels);
        assert FirstLongest(slots, |slots| - 1, r);
        r
      else
        assert prev.maxBytes > 0 ==> exists i :: 0 <= i < |slots| && FirstLongest(slots, i, prev) by {
          if prev.maxBytes > 0 {
            var i :| 0 <= i < |init| && FirstLongest(init, i, prev);
            assert FirstLongest(slots, i, prev);
          }
        }
        prev
  }

  /** Track `i` holds the longest byte count `r.maxBytes` and its channel count, and
      every track before it is shorter. */
  predicate FirstLongest(slots: seq<Slot>, i: nat, r: Longest)
    requires i < |slots|
  {
    slots[i].track.bytesWritten == r.maxBytes && slots[i].track.channels == r.channels
    && forall j :: 0 <= j < i ==> slots[j].track.bytesWritten < r.maxBytes
  }

  /** `Math.round(maxBytes / (sampleRate * channels * (bitDepth / 8)) * 1000)` over
      exact rationals: the number of milliseconds nearest to the audio's length, a
      half rounding up. A zero denominator gives a non-finite number, here None. */
  function DurationMs(maxBytes: nat, sampleRate: nat, channels: nat, bitDepth: nat): (r: Option<nat>)
    ensures r.None? <==> sampleRate * channels * bitDepth == 0
    ensures r.Some? ==>
      var bits := sampleRate * channels * bitDepth;
      2 * bits * r.value <= 16000 * maxBytes + bits < 2 * bits * (r.value + 1)
  {
    var bits := sampleRate * channels * bitDepth;
    if bits == 0 then None
    else
      var q := (16000 * maxBytes + bits) / (2 * bits);
      assert 2 * bits * q <= 16000 * maxBytes + bits < 2 * bits * (q + 1) by {
        DivBounds(16000 * maxBytes + bits, 2 * bits);
      }
      Some(q)
  }

  lemma DivBounds(n: nat, d: nat)
    requires d > 0
    ensures d * (n / d) <= n < d * (n / d + 1)
  {
  }

  /** A quotient is pinned down by the bounds `DurationMs` promises. */
  lemma QuotientUnique(n: nat, d: nat, q: nat, q': nat)
    requires d > 0
    requires d * q <= n < d * (q + 1) && d * q' <= n < d * (q' + 1)
    ensures q == q'
  {
    assert d * q < d * (q' + 1) && d * q' < d * (q + 1);
  }

  /** Audio of a whole number of seconds, at a bit depth that fills whole bytes,
      lasts exactly that many thousand milliseconds. */
  lemma DurationWholeSeconds(seconds: nat, sampleRate: nat, channels: nat, bitDepth: nat)
    requires sampleRate * channels * bitDepth > 0 && bitDepth % 8 == 0
    ensures DurationMs(seconds * sampleRate * channels * (bitDepth / 8), sampleRate, channels, bitDepth)
            == Some(1000 * seconds)
  {
    var bits := sampleRate * channels * bitDepth;
    var bytes := seconds * sampleRate * channels * (bitDepth / 8);
    var r := DurationMs(bytes, sampleRate, channels, bitDepth);
    assert 16000 * bytes == 2 * bits * (1000 * seconds) by {
      assert bitDepth == 8 * (bitDepth / 8);
      calc {
        16000 * bytes;
        16000 * (seconds * (sampleRate * channels * (bitDepth / 8)));
        2000 * seconds * (sampleRate * channels * (8 * (bitDepth / 8)));
        2 * bits * (1000 * seconds);
      }
    }
    assert 2 * bits * (1000 * seconds) <= 16000 * bytes + bits < 2 * bits * (1000 * seconds + 1);
    QuotientUnique(16000 * bytes + bits, 2 * bits, r.value, 1000 * seconds);
  }

  /** 88200 bytes of 16-bit mono audio at 44100 Hz last one second. */
  lemma DurationExample()
    ensures DurationMs(88200, 44100, 1, 16) == Some(1000)
  {
    DurationWholeSeconds(1, 44100, 1, 16);
  }

  /** 48048 bytes of 16-bit mono audio at 48000 Hz are exactly 500.5 ms, which rounds
      half up to 501. */
  lemma DurationHalfExample()
    ensures DurationMs(48048, 48000, 1, 16) == Some(501)
  {
  }

  /** The track list of the metadata: each track's file in the renamed directory,
      sized by `statSync`. */
  function TrackInfos(slots: seq<Slot>, dir: string, statSize: string -> nat): (r: seq<TrackInfo>)
    ensures DescribesTracks(r, slots, dir, statSize)
  {
    seq(|slots|, i requires 0 <= i < |slots| =>
      var name := TrackFileName(slots[i].kind);
      TrackInfo(slots[i].kind, name, Join(dir, name), slots[i].track.channels, statSize(Join(dir, name))))
  }

  /** `infos` lists the tracks of `slots` in map order, each under its own file name
      in `dir`, with its channel count and the size `statSize` reports for it. */
  predicate DescribesTracks(infos: seq<TrackInfo>, slots: seq<Slot>, dir: string, statSize: string -> nat) {
    && |infos| == |slots|
    && forall i :: 0 <= i < |slots| ==>
         && infos[i].trackKind == slots[i].kind
         && infos[i].fileName == TrackFileName(slots[i].kind)
         && infos[i].filePath == Join(dir, infos[i].fileName)
         && infos[i].channels == slots[i].track.channels
         && infos[i].fileSizeBytes == statSize(infos[i].filePath)
  }

  /** The sum of the track files' sizes. */
  function TotalSize(infos: seq<TrackInfo>): nat {
    if |infos| == 0 then 0 else TotalSize(infos[..|infos| - 1]) + infos[|infos| - 1].fileSizeBytes
  }

  /** `finalizeRecording`: rewrite every header with the real data size and close the
      files, rename the session directory after the instant `nowIso`, and describe the
      recording; the session leaves the registry only when all of that succeeded.
      `statSize` stands for `fs.statSync(path).size`. */
  function FinalizeRecording(st: Storage, id: string, config: RecordingConfig, nowIso: string, statSize: string -> nat): (r: Outcome<RecordingMetadata>)
    ensures r.result.Success? ==> r.result.value.fileName == Timestamp.TimestampName(nowIso)
  {
    FinalizeAs(st, id, config, Timestamp.TimestampName(nowIso), nowIso, statSize)
  }

  /** `finalizeRecording` once the clock reading has been turned into the directory
      name `stamp`. */
  function FinalizeAs(st: Storage, id: string, config: RecordingConfig, stamp: string, nowIso: string,
                      statSize: string -> nat): (r: Outcome<RecordingMetadata>)
    ensures r.storage.recordingsDir == st.recordingsDir
    ensures id !in st.sessions ==> r == Outcome(st, Failure(FileWriteError(id, SessionNotFound)))
    ensures r.result.Failure? ==> r.storage.sessions == st.sessions
    ensures r.result.Failure? && id in st.sessions ==> r.result.error.path == st.sessions[id].sessionDir
    ensures r.result.Success? ==> id in st.sessions && r.storage.sessions == st.sessions - {id}
    ensures r.result.Success? ==>
      var m := r.result.value;
      m.id == id && m.fileName == stamp
      && m.filePath == Join(st.recordingsDir, m.fileName) && m.createdAt == nowIso && m.config == config
      && m.fileSizeBytes == TotalSize(m.tracks)
      && DescribesTracks(m.tracks, st.sessions[id].tracks, m.filePath, statSize)
  {
    if id !in st.sessions then Outcome(st, Failure(FileWriteError(id, SessionNotFound)))
    else
      var s := st.sessions[id];
      var closed := RewriteAndClose(st.disk, s.tracks, config);
      if closed.result.Failure? then
        Outcome(st.(disk := closed.disk), Failure(FileWriteError(s.sessionDir, closed.result.error)))
      else
        var newDir := Join(st.recordingsDir, stamp);
        match RenameDir(closed.disk, s.sessionDir, newDir)
        case Failure(e) => Outcome(st.(disk := closed.disk), Failure(FileWriteError(s.sessionDir, Io(e))))
        case Success(moved) =>
          Outcome(Storage(st.recordingsDir, st.sessions - {id}, moved),
                  Success(Describe(id, s.tracks, config, stamp, newDir, nowIso, statSize)))
  }

  /** The metadata `finalizeRecording` returns for a session moved to `newDir`. */
  function Describe(id: string, slots: seq<Slot>, config: RecordingConfig, stamp: string, newDir: string,
                    nowIso: string, statSize: string -> nat): (m: RecordingMetadata)
    ensures m.id == id && m.fileName == stamp && m.filePath == newDir && m.createdAt == nowIso && m.config == config
    ensures DescribesTracks(m.tracks, slots, newDir, statSize)
    ensures m.fileSizeBytes == TotalSize(m.tracks)
  {
    var infos := TrackInfos(slots, newDir, statSize);
    var longest := LongestTrack(slots, config.channels);
    var duration := DurationMs(longest.maxBytes, config.sampleRate, longest.channels, config.bitDepth);
    RecordingMetadata(id, stamp, newDir, infos, nowIso, duration, TotalSize(infos), config)
  }

  /** The duration is measured on the first track holding the most bytes, with
      that track's channel count. */
  lemma DurationOfLongest(id: string, slots: seq<Slot>, config: RecordingConfig, stamp: string, newDir: string,
                          nowIso: string, statSize: string -> nat, i: nat)
    requires i < |slots| && slots[i].track.bytesWritten > 0
    requires forall j :: 0 <= j < |slots| ==> slots[j].track.bytesWritten <= slots[i].track.bytesWritten
    requires forall j :: 0 <= j < i ==> slots[j].track.bytesWritten < slots[i].track.bytesWritten
    ensures Describe(id, slots, config, stamp, newDir, nowIso, statSize).durationMs
            == DurationMs(slots[i].track.bytesWritten, config.sampleRate, slots[i].track.channels, config.bitDepth)
  {
    var l := LongestTrack(slots, config.channels);
    assert l.maxBytes == slots[i].track.bytesWritten by {
      assert slots[i].track.bytesWritten <= l.maxBytes;
    }
    var k :| 0 <= k < |slots| && FirstLongest(slots, k, l);
    assert k == i by {
      assert !(k < i) && !(i < k);
    }
  }

  /** When no track received any audio the duration is computed from zero bytes
      and the configured channel count: zero, unless the format has no bits. */
  lemma DurationOfSilence(id: string, slots: seq<Slot>, config: RecordingConfig, stamp: string, newDir: string,
                          nowIso: string, statSize: string -> nat)
    requires forall j :: 0 <= j < |slots| ==> slots[j].track.bytesWritten == 0
    ensures var m := Describe(id, slots, config, stamp, newDir, nowIso, statSize);
      && m.durationMs == DurationMs(0, config.sampleRate, config.channels, config.bitDepth)
      && (config.sampleRate * config.channels * config.bitDepth > 0 ==> m.durationMs == Some(0))
  {
    var l := LongestTrack(slots, config.channels);
    assert l.maxBytes == 0 by {
      assert forall k :: 0 <= k < |slots| ==> !FirstLongest(slots, k, l) || l.maxBytes == 0;
    }
  }

  // ---------------------------------------------------------------------------
  // Cancelling

  /** The first loop of `cancelSession`: close every descriptor in map order; the
      first failure stops the walk. */
  function CloseAll(d: Disk, slots: seq<Slot>): (r: Steps<()>)
    ensures r.disk.dirs == d.dirs
    ensures r.disk.fds.Keys == d.fds.Keys && r.disk.nextFd == d.nextFd
    ensures forall fd :: fd in d.fds ==> r.disk.fds[fd] == d.fds[fd].(open := r.disk.fds[fd].open)
    ensures forall fd :: IsOpen(r.disk, fd) ==> IsOpen(d, fd)
    ensures r.result.Failure? ==> r.result.error == Io(BadDescriptor)
    ensures r.result.Success? ==> forall i :: 0 <= i < |slots| ==> !IsOpen(r.disk, slots[i].track.fd)
    decreases |slots|
  {
    if |slots| == 0 then Steps(d, Success(()))
    else
      match Close(d, slots[0].track.fd)
      case Failure(e) => Steps(d, Failure(Io(e)))
      case Success(d1) =>
        var r := CloseAll(d1, slots[1..]);
        assert forall i :: 1 <= i < |slots| ==> slots[1..][i - 1] == slots[i];
        assert r.result.Success? ==> !IsOpen(r.disk, slots[0].track.fd);
        r
  }

  /** `cancelSession`: close the files, delete the session directory and forget the
      session. Cancelling an unknown session succeeds without effect. */
  function CancelSession(st: Storage, id: string): (r: Outcome<()>)
    ensures r.storage.recordingsDir == st.recordingsDir
    ensures id !in st.sessions ==> r == Outcome(st, Success(()))
    ensures r.result.Failure? ==>
      && id in st.sessions && r.storage.sessions == st.sessions
      && r.result.error == FileReadError(st.sessions[id].sessionDir, Io(BadDescriptor))
    ensures r.result.Success? ==> r.storage.sessions == st.sessions - {id}
    ensures r.result.Success? && id in st.sessions ==>
      var s := st.sessions[id];
      && s.sessionDir !in r.storage.disk.dirs
      && (forall i :: 0 <= i < |s.tracks| ==> !IsOpen(r.storage.disk, s.tracks[i].track.fd))
      && forall x :: x != s.sessionDir ==>
           (x in r.storage.disk.dirs <==> x in st.disk.dirs)
           && (x in st.disk.dirs ==> r.storage.disk.dirs[x] == st.disk.dirs[x])
  {
    if id !in st.sessions then Outcome(st, Success(()))
    else
      var s := st.sessions[id];
      var closed := CloseAll(st.disk, s.tracks);
      if closed.result.Failure? then
        Outcome(st.(disk := closed.disk), Failure(FileReadError(s.sessionDir, closed.result.error)))
      else
        Outcome(Storage(st.recordingsDir, st.sessions - {id}, RemoveDir(closed.disk, s.sessionDir)), Success(()))
  }
}
