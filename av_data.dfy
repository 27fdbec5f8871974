/** The generic media types of the av-data and av-codec crates that the adapter consumes and produces.
    Only the fields and variants the adapter reads or writes are spelled out; the pixel-format
    descriptor and the audio description are opaque. */
module AvData {
  import opened Ints

  datatype Option<+T> = None | Some(value: T)

  /** av-codec's error kinds, restricted to those the adapter produces. */
  datatype Error = MoreDataNeeded | Unsupported(reason: string)

  datatype Result<+T> = Ok(value: T) | Err(error: Error)

  /** A pixel-format descriptor (`Formaton`); its structure is not modelled. */
  type Formaton(==, 0)

  /** The descriptor of planar 8-bit YUV 4:2:0. */
  const YUV420: Formaton

  /** An audio stream description; not modelled. */
  type AudioInfo(==)

  /** A typed option value, as passed to `set_option`. */
  datatype Value =
    | I64(i: i64)
    | U64(u: u64)
    | Str(s: string)
    | Bool(b: bool)
    | Pair(num: i64, den: i64)
    | Format(f: Formaton)

  datatype VideoInfo = VideoInfo(width: usize, height: usize, format: Option<Formaton>)

  datatype MediaKind = Video(info: VideoInfo) | Audio(audio: AudioInfo)

  /** The generic stream parameters exchanged by `get_params` and `set_params`. */
  datatype CodecParams = CodecParams(
    kind: Option<MediaKind>,
    codecId: Option<string>,
    extradata: Option<seq<u8>>,
    bitRate: usize,
    convergenceWindow: usize,
    delay: usize)

  /** Presentation timing of a packet (the time base and private user data are not modelled). */
  datatype TimeInfo = TimeInfo(pts: Option<i64>, dts: Option<i64>, duration: Option<u64>)

  /** `TimeInfo::default()`: nothing is known. */
  const DefaultTimeInfo: TimeInfo := TimeInfo(None, None, None)

  /** A compressed packet handed to the caller. */
  datatype Packet = Packet(
    data: seq<u8>,
    pos: Option<usize>,
    streamIndex: isize,
    t: TimeInfo,
    isKey: bool,
    isCorrupted: bool)

  /** The registration record of a codec implementation. */
  datatype Descr = Descr(codec: string, name: string, desc: string, mime: string)
}
