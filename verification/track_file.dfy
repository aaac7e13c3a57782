/** The bytes of one track file and the file offset of its descriptor, to follow
    where the storage engine's writes land. `startSession` and `finalizeRecording`
    write the header with an explicit position (0), which leaves the offset where
    it is; `writeChunk` writes without a position, at the offset. Right after
    `openSync(path, "w")` the offset is 0, so the audio lands on top of the header. */
module TrackFile {
  import opened Bytes
  import opened RecordingTypes
  import opened FileService
  import WavEncoder
  import StorageInvariant

  /** A file open for writing: its bytes and the descriptor's current offset. */
  datatype OpenFile = OpenFile(content: seq<Byte>, offset: nat)

  /** `openSync(path, "w")`: an empty file, offset 0. */
  const Truncated: OpenFile := OpenFile([], 0)

  /** The file's bytes after storing `data` at `pos`: the file grows as needed and
      a gap past the old end reads as zeros. */
  function StoreAt(content: seq<Byte>, pos: nat, data: seq<Byte>): (r: seq<Byte>)
    ensures |r| == if pos + |data| > |content| then pos + |data| else |content|
    ensures forall i :: pos <= i < pos + |data| ==> r[i] == data[i - pos]
    ensures forall i :: 0 <= i < |r| && !(pos <= i < pos + |data|) ==> r[i] == if i < |content| then content[i] else 0
  {
    var padded := if pos <= |content| then content else content + Zeros(pos - |content|);
    padded[..pos] + data + (if pos + |data| <= |padded| then padded[pos + |data|..] else [])
  }

  /** `writeSync(fd, buf, 0, buf.length, pos)`: a positional write; the offset
      does not move. */
  function WriteAt(f: OpenFile, data: seq<Byte>, pos: nat): (r: OpenFile)
    ensures r.offset == f.offset
    ensures |r.content| == if pos + |data| > |f.content| then pos + |data| else |f.content|
    ensures r.content[pos..pos + |data|] == data
    ensures forall i :: 0 <= i < |f.content| && !(pos <= i < pos + |data|) ==> r.content[i] == f.content[i]
  {
    f.(content := StoreAt(f.content, pos, data))
  }

  /** `writeSync(fd, buf, 0, buf.length)`: a write at the current offset, which
      then advances past the data. */
  function WriteHere(f: OpenFile, data: seq<Byte>): (r: OpenFile)
    ensures r.offset == f.offset + |data|
    ensures |r.content| == if r.offset > |f.content| then r.offset else |f.content|
    ensures r.content[f.offset..r.offset] == data
    ensures forall i :: 0 <= i < |f.content| && !(f.offset <= i < r.offset) ==> r.content[i] == f.content[i]
  {
    OpenFile(StoreAt(f.content, f.offset, data), f.offset + |data|)
  }

  /** The chunks' bytes one after another. */
  function Flatten(chunks: seq<seq<Byte>>): seq<Byte> {
    if |chunks| == 0 then [] else Flatten(chunks[..|chunks| - 1]) + chunks[|chunks| - 1]
  }

  /** `writeChunk` as written, for every chunk in turn. */
  function WriteChunksHere(f: OpenFile, chunks: seq<seq<Byte>>): OpenFile {
    if |chunks| == 0 then f else WriteHere(WriteChunksHere(f, chunks[..|chunks| - 1]), chunks[|chunks| - 1])
  }

  /** `writeChunk` with the position made explicit: each chunk goes right after
      the header and the `written` bytes before it. */
  function WriteChunksAfterHeader(f: OpenFile, chunks: seq<seq<Byte>>): OpenFile {
    if |chunks| == 0 then f
    else
      var g := WriteChunksAfterHeader(f, chunks[..|chunks| - 1]);
      WriteAt(g, chunks[|chunks| - 1], WavEncoder.HeaderSize + |Flatten(chunks[..|chunks| - 1])|)
  }

  /** A track file's bytes as the engine writes them: the provisional header at
      position 0, every chunk at the offset, the final header at position 0. */
  function RecordAsWritten(config: RecordingConfig, channels: nat, chunks: seq<seq<Byte>>): seq<Byte> {
    var first := WavEncoder.CreateWavHeader(TrackHeader(config, channels, 0));
    var last := WavEncoder.CreateWavHeader(TrackHeader(config, channels, |Flatten(chunks)|));
    WriteAt(WriteChunksHere(WriteAt(Truncated, first, 0), chunks), last, 0).content
  }

  /** The same life with every chunk written after the header and the audio before
      it. */
  function RecordCorrected(config: RecordingConfig, channels: nat, chunks: seq<seq<Byte>>): seq<Byte> {
    var first := WavEncoder.CreateWavHeader(TrackHeader(config, channels, 0));
    var last := WavEncoder.CreateWavHeader(TrackHeader(config, channels, |Flatten(chunks)|));
    WriteAt(WriteChunksAfterHeader(WriteAt(Truncated, first, 0), chunks), last, 0).content
  }

  // ---------------------------------------------------------------------------
  // Where the bytes land

  /** Two stores back to back are one store of both. */
  lemma StoreConsecutive(c: seq<Byte>, pos: nat, a: seq<Byte>, b: seq<Byte>)
    requires pos <= |c|
    ensures StoreAt(StoreAt(c, pos, a), pos + |a|, b) == StoreAt(c, pos, a + b)
  {
    var l := StoreAt(StoreAt(c, pos, a), pos + |a|, b);
    var r := StoreAt(c, pos, a + b);
    assert |l| == |r|;
    forall i | 0 <= i < |l|
      ensures l[i] == r[i]
    {
      if pos <= i < pos + |a| {
        assert r[i] == (a + b)[i - pos];
      } else if pos + |a| <= i < pos + |a| + |b| {
        assert r[i] == (a + b)[i - pos];
      }
    }
  }

  /** Storing over the whole front of a file replaces that front. */
  lemma StoreFront(c: seq<Byte>, h: seq<Byte>)
    requires |h| <= |c|
    ensures StoreAt(c, 0, h) == h + c[|h|..]
  {
  }

  /** Storing at the end of a file appends. */
  lemma StoreAtEnd(c: seq<Byte>, d: seq<Byte>)
    ensures StoreAt(c, |c|, d) == c + d
  {
  }

  /** Chunks written at the offset, from an offset inside the file, land one after
      another from that offset, and the offset ends past them. */
  lemma {:induction false} ChunksHereLand(f: OpenFile, chunks: seq<seq<Byte>>)
    requires f.offset <= |f.content|
    ensures WriteChunksHere(f, chunks) == OpenFile(StoreAt(f.content, f.offset, Flatten(chunks)), f.offset + |Flatten(chunks)|)
  {
    if |chunks| == 0 {
      assert StoreAt(f.content, f.offset, []) == f.content;
    } else {
      var init := chunks[..|chunks| - 1];
      ChunksHereLand(f, init);
      StoreConsecutive(f.content, f.offset, Flatten(init), chunks[|chunks| - 1]);
    }
  }

  /** Chunks written after a header land one after another behind it. */
  lemma {:induction false} ChunksAfterHeaderLand(h: seq<Byte>, chunks: seq<seq<Byte>>)
    requires |h| == WavEncoder.HeaderSize
    ensures WriteChunksAfterHeader(OpenFile(h, 0), chunks) == OpenFile(h + Flatten(chunks), 0)
  {
    if |chunks| > 0 {
      var init := chunks[..|chunks| - 1];
      ChunksAfterHeaderLand(h, init);
      StoreAtEnd(h + Flatten(init), chunks[|chunks| - 1]);
      assert (h + Flatten(init)) + chunks[|chunks| - 1] == h + Flatten(chunks);
    }
  }

  /** The provisional header written into the empty file is the whole file. */
  lemma HeaderIntoEmpty(h: seq<Byte>)
    ensures WriteAt(Truncated, h, 0) == OpenFile(h, 0)
  {
    assert StoreAt([], 0, h) == h;
  }

  /** As written, for any 44-byte headers: chunks of at least a header's length
      overwrite the provisional header, and the final header then overwrites the
      first 44 bytes of audio. */
  lemma {:induction false} AsWrittenLayout(first: seq<Byte>, last: seq<Byte>, chunks: seq<seq<Byte>>)
    requires |first| == |last| == WavEncoder.HeaderSize <= |Flatten(chunks)|
    ensures WriteAt(WriteChunksHere(WriteAt(Truncated, first, 0), chunks), last, 0).content
            == last + Flatten(chunks)[WavEncoder.HeaderSize..]
  {
    HeaderIntoEmpty(first);
    ChunksHereLand(OpenFile(first, 0), chunks);
    var written := StoreAt(first, 0, Flatten(chunks));
    assert written == Flatten(chunks);
    StoreFront(written, last);
  }

  /** With explicit positions, for any 44-byte headers: the file is the final header
      followed by all the chunks. */
  lemma {:induction false} CorrectedLayout(first: seq<Byte>, last: seq<Byte>, chunks: seq<seq<Byte>>)
    requires |first| == |last| == WavEncoder.HeaderSize
    ensures WriteAt(WriteChunksAfterHeader(WriteAt(Truncated, first, 0), chunks), last, 0).content
            == last + Flatten(chunks)
  {
    HeaderIntoEmpty(first);
    ChunksAfterHeaderLand(first, chunks);
    StoreFront(first + Flatten(chunks), last);
    assert (first + Flatten(chunks))[|last|..] == Flatten(chunks);
  }

  // ---------------------------------------------------------------------------
  // The finding

  /** As written, a track that received at least a header's worth of audio ends up
      as the final header followed by the audio minus its first 44 bytes: the start
      of the recording is gone. */
  lemma AsWrittenOverwritesAudio(config: RecordingConfig, channels: nat, chunks: seq<seq<Byte>>)
    requires |Flatten(chunks)| >= WavEncoder.HeaderSize
    ensures RecordAsWritten(config, channels, chunks)
            == WavEncoder.CreateWavHeader(TrackHeader(config, channels, |Flatten(chunks)|))
               + Flatten(chunks)[WavEncoder.HeaderSize..]
  {
    AsWrittenLayout(WavEncoder.CreateWavHeader(TrackHeader(config, channels, 0)),
                    WavEncoder.CreateWavHeader(TrackHeader(config, channels, |Flatten(chunks)|)), chunks);
  }

  /** As written, the header of such a track decodes and declares every byte
      received, while 44 fewer follow it. */
  lemma AsWrittenHeaderOverclaims(config: RecordingConfig, channels: nat, chunks: seq<seq<Byte>>)
    requires |Flatten(chunks)| >= WavEncoder.HeaderSize
    requires HeaderInRange(TrackHeader(config, channels, |Flatten(chunks)|))
    ensures var file := RecordAsWritten(config, channels, chunks);
      var h := WavEncoder.ParseHeader(file[..WavEncoder.HeaderSize]);
      && h.Some?
      && h.value.dataSize == |Flatten(chunks)|
      && |file| - WavEncoder.HeaderSize == h.value.dataSize - WavEncoder.HeaderSize
  {
    var last := WavEncoder.CreateWavHeader(TrackHeader(config, channels, |Flatten(chunks)|));
    AsWrittenOverwritesAudio(config, channels, chunks);
    assert RecordAsWritten(config, channels, chunks)[..WavEncoder.HeaderSize] == last;
    StorageInvariant.FinalHeaderDecodes(config, channels, |Flatten(chunks)|);
  }

  /** With the positions made explicit, a track file is the final header followed
      by all the audio, in order. */
  lemma CorrectedKeepsAudio(config: RecordingConfig, channels: nat, chunks: seq<seq<Byte>>)
    ensures RecordCorrected(config, channels, chunks)
            == WavEncoder.CreateWavHeader(TrackHeader(config, channels, |Flatten(chunks)|)) + Flatten(chunks)
  {
    CorrectedLayout(WavEncoder.CreateWavHeader(TrackHeader(config, channels, 0)),
                    WavEncoder.CreateWavHeader(TrackHeader(config, channels, |Flatten(chunks)|)), chunks);
  }

  /** The corrected file is a well-formed WAV file: its header decodes, and the data
      size it declares is exactly the number of bytes that follow it. */
  lemma CorrectedHeaderMatchesData(config: RecordingConfig, channels: nat, chunks: seq<seq<Byte>>)
    requires HeaderInRange(TrackHeader(config, channels, |Flatten(chunks)|))
    ensures var file := RecordCorrected(config, channels, chunks);
      var h := WavEncoder.ParseHeader(file[..WavEncoder.HeaderSize]);
      && h.Some?
      && h.value.dataSize == |file| - WavEncoder.HeaderSize
      && file[WavEncoder.HeaderSize..] == Flatten(chunks)
  {
    var file := RecordCorrected(config, channels, chunks);
    var last := WavEncoder.CreateWavHeader(TrackHeader(config, channels, |Flatten(chunks)|));
    CorrectedKeepsAudio(config, channels, chunks);
    assert file[..WavEncoder.HeaderSize] == last;
    StorageInvariant.FinalHeaderDecodes(config, channels, |Flatten(chunks)|);
  }

  /** One chunk of 100 bytes of 16-bit mono audio at 48000 Hz: as written the file
      is 100 bytes long although its header declares 100 data bytes; corrected, it
      is 144 bytes long. */
  lemma OneChunkExample(chunk: seq<Byte>)
    requires |chunk| == 100
    ensures var config := RecordingConfig(48000, 1, 16, true, false, Wrappers.None);
      var h := WavEncoder.ParseHeader(RecordAsWritten(config, 1, [chunk])[..44]);
      && |RecordAsWritten(config, 1, [chunk])| == 100
      && h.Some? && h.value.dataSize == 100
      && |RecordCorrected(config, 1, [chunk])| == 144
  {
    var config := RecordingConfig(48000, 1, 16, true, false, Wrappers.None);
    assert Flatten([chunk]) == chunk by {
      assert [chunk][..0] == [];
    }
    AsWrittenOverwritesAudio(config, 1, [chunk]);
    AsWrittenHeaderOverclaims(config, 1, [chunk]);
    CorrectedKeepsAudio(config, 1, [chunk]);
  }
}
