/** The records shared by the capture side, the storage engine and the catalog. */
module RecordingTypes {
  import opened Wrappers

  /** The two capture sources; a microphone track is mono, a system-audio track stereo. */
  datatype TrackKind = Mic | System

  /** The name a track kind has on the wire and on disk. */
  function KindName(k: TrackKind): string {
    match k
    case Mic => "mic"
    case System => "system"
  }

  /** `<kind>.wav`, the file a track is written to inside its session directory. */
  function TrackFileName(k: TrackKind): (name: string)
    ensures |name| > 4 && name[|name| - 4..] == ".wav"
    ensures name[..|name| - 4] == KindName(k)
  {
    KindName(k) + ".wav"
  }

  /** Distinct kinds are written to distinct files. */
  lemma TrackFileNameInjective(a: TrackKind, b: TrackKind)
    ensures TrackFileName(a) == TrackFileName(b) ==> a == b
  {
    assert |TrackFileName(Mic)| != |TrackFileName(System)|;
  }

  /** The settings a recording is made with; fixed for the lifetime of a session. */
  datatype RecordingConfig = RecordingConfig(
    sampleRate: nat,
    channels: nat,
    bitDepth: nat,
    micEnabled: bool,
    systemAudioEnabled: bool,
    micDeviceId: Option<string>)

  /** One track requested from the storage engine: its kind and channel count. */
  datatype TrackSpec = TrackSpec(trackKind: TrackKind, channels: nat)

  /** The final description of one track file of a finished recording. */
  datatype TrackInfo = TrackInfo(
    trackKind: TrackKind,
    fileName: string,
    filePath: string,
    channels: nat,
    fileSizeBytes: nat)

  /** A finished recording as the catalog stores it. `durationMs` is None when the
      duration division has a zero denominator (a non-finite number in the source).
      An entry of the older single-file format has an empty `tracks` list. */
  datatype RecordingMetadata = RecordingMetadata(
    id: string,
    fileName: string,
    filePath: string,
    tracks: seq<TrackInfo>,
    createdAt: string,
    durationMs: Option<nat>,
    fileSizeBytes: nat,
    config: RecordingConfig)
}
