# rav1e-av: the rav1e encoder behind the av-codec `Encoder` interface

This project models `src/lib.rs` of rav1e-av, the adapter that lets av-codec callers drive the
rav1e AV1 encoder. It proves properties of that model in Dafny. The adapter does three things:

- **Configuration.** `Rav1eEncoder` holds a rav1e `Config` and a live `Context` (the session).
  `set_option` writes one configuration field per recognised key, with the source's integer casts.
  `set_params` and `get_params` map the frame size between the configuration and av-data's
  `CodecParams`.
- **Status mapping.** `receive_packet` maps each rav1e `EncoderStatus` to an av-codec `Error`.
- **Packet conversion.** A rav1e packet becomes an av-data `Packet` with fixed defaults.

Modules:

- `Ints` (`ints.dfy`): the fixed-width integer types and the Rust `as` casts the adapter uses.
  `usize` is taken at its 64-bit width.
- `AvData` (`av_data.dfy`): the av-data and av-codec types the adapter reads and writes.
  The pixel-format descriptor (`Formaton`, with the constant `YUV420`) and the audio description are opaque.
- `Rav1e` (`rav1e.dfy`): the backend types.
  `Config` is a class with the five fields the adapter writes (`width`, `height`, `minQuantizer`, `quantizer`, `timeBase`).
  A session is a `Session` value: the settings it was created from and the log of calls made on it.
- `Rav1eAv` (`lib.dfy`): the adapter itself.
  Pure specification functions cover option decoding, parameter mapping, status mapping and packet conversion.
  The `Rav1eEncoder` class has `cfg` (updated in place by `SetOption` and `SetParams`) and a ghost `ctx` session.
  Only `SendFrame`, `ReceivePacket` and `Flush` touch the session, and each appends to its call log.
- `Rav1eAvProps` (`props.dfy`): the lemmas.
  It also defines `RunConfig`, any sequence of `set_option`/`set_params` calls on one encoder.
  Two lemmas cover it: such a sequence completes exactly when no call panics, and the final width is the one written last.

The session is created once, in `Des::create`, from the default configuration. Later option and
parameter calls change the stored configuration, and therefore what `get_params` reports and the
size of submitted frames. They never change the settings the session was created from.
`SessionKeepsCreationSettings` and `FramesFollowConfiguration` show this.

Notable behaviour of the adapter:

- `receive_packet` sets `stream_index` to 0, not to the backend's input frame number.
- `get_params` reports a bit rate and a delay of 0.
- `set_params` copies only width and height.
- `send_frame` submits a blank frame and never reads the frame it is given.
- `set_option` knows five keys and panics on any other.
- A time base is stored unchecked: a zero part is kept, and a negative part wraps to a large unsigned value.

## Model

| member | source | states |
|---|---|---|
| `Ints.U64AsU8` | src/lib.rs:119 | `v as u8` keeps the value modulo 256, and keeps it unchanged exactly when `v < 256` |
| `Ints.U64AsUsize` | src/lib.rs:117-120 | `v as usize` loses nothing on a 64-bit target |
| `Ints.I64AsU64` | src/lib.rs:122 | `v as u64` on a signed value is congruent to `v` modulo 2^64; it is unchanged exactly when `v >= 0`, and a negative value wraps to at least 2^63 |
| `Rav1eAv.DecodeOption` | src/lib.rs:116-125 | an option yields an assignment exactly when its key is `w`, `h`, `qmin` or `qmax` with an unsigned value, or `timebase` with a pair |
| `Rav1eAv.SetOptionSpec` | src/lib.rs:115-129 | `set_option` completes exactly for the recognised (key, value shape) pairs and panics otherwise |
| `Rav1eAv.Rav1eEncoder.SetOption` | src/lib.rs:115-129 | the object method returns `Ok(())` exactly when the option is recognised and panics otherwise. On success the new configuration is the one `SetOptionSpec` gives; on a panic it is unchanged. The session is never touched |
| `Rav1eAvProps.SetOptionWidth` | src/lib.rs:117 | `set_option("w", U64(v))` sets the width to `v` and nothing else |
| `Rav1eAvProps.SetOptionHeight` | src/lib.rs:118 | `set_option("h", U64(v))` sets the height to `v` and nothing else |
| `Rav1eAvProps.SetOptionMinQuantizer` | src/lib.rs:119 | `qmin` stores `v mod 256`, which equals `v` exactly when `v < 256` |
| `Rav1eAvProps.SetOptionQuantizer` | src/lib.rs:120 | `qmax` stores `v` in `quantizer` unchanged |
| `Rav1eAvProps.SetOptionTimeBase` | src/lib.rs:121-123 | `timebase` sets the time base to the pair cast to unsigned. It keeps the pair as given exactly when both parts are non-negative, and adds 2^64 to a negative part |
| `Rav1eAvProps.SetOptionPanics` | src/lib.rs:124-125 | an unknown key, or a known key with a value of the wrong shape, panics |
| `Rav1eAvProps.SetOptionChangesOneField` | src/lib.rs:116-123 | a recognised option changes no configuration field except the one it names |
| `Rav1eAvProps.SetOptionIdempotent` | src/lib.rs:116-123 | giving the same option twice is the same as giving it once |
| `Rav1eAvProps.SetOptionsCommute` | src/lib.rs:116-123 | options that write different fields can be given in either order |
| `Rav1eAvProps.SetOptionLastWins` | src/lib.rs:116-123 | of two options writing the same field, the later one decides the result |
| `Rav1eAv.ParamsOf` | src/lib.rs:131-144 | the reported parameters are always of the video kind and carry the configured width and height |
| `Rav1eAv.Rav1eEncoder.GetParams` | src/lib.rs:131-144 | the object's `get_params`, built from its configuration fields, returns `Ok(ParamsOf(...))` of the current configuration |
| `Rav1eAvProps.GetParamsFixedFields` | src/lib.rs:132-143 | `get_params` always reports codec id `"av1"`, no extradata, bit rate, convergence window and delay 0, and the YUV420 format |
| `Rav1eAvProps.DescriptorRecord` | src/lib.rs:158-165 | `AV1_DESCR` names codec `av1`, implementation `rav1e`, description "rav1e AV1 encoder" and MIME type `video/AV1`; its codec is the one `get_params` reports |
| `Rav1eAv.ApplyParams` | src/lib.rs:146-152 | `set_params` never changes the quantizers or the time base; with a video description it sets width and height to the description's |
| `Rav1eAvProps.SetThenGetParams` | src/lib.rs:131-152 | after `set_params` with a video description, `get_params` reports that width and height |
| `Rav1eAvProps.SetParamsIgnoresNonVideo` | src/lib.rs:146-152 | without a video description, `set_params` leaves the configuration unchanged |
| `Rav1eAvProps.GetThenSetParams` | src/lib.rs:131-152 | passing what `get_params` reported back to `set_params` changes nothing |
| `Rav1eAvProps.SetParamsIdempotent` | src/lib.rs:146-152 | a second identical `set_params` changes nothing more |
| `Rav1eAv.Rav1eEncoder.SetParams` | src/lib.rs:146-152 | the object method always returns `Ok(())`, updates the configuration as `ApplyParams` says, and leaves the session alone |
| `Rav1eAv.StatusError` | src/lib.rs:76-105 | `NeedMoreData` and only it becomes `MoreDataNeeded`; every other status becomes `Unsupported` with the status's name as its message |
| `Rav1eAvProps.StatusErrorRoundTrip` | src/lib.rs:76-105 | the status can be read back from its error, so no two statuses share an error |
| `Rav1eAvProps.StatusErrorOnto` | src/lib.rs:76-105 | an error reads back as a status exactly when the mapping produces that error from that status |
| `Rav1eAv.ConvertPacket` | src/lib.rs:66-74 | the packet is a key frame exactly when the backend's frame type is `KEY`. Its bytes are the backend's. It has no position, stream index 0, default timing, and is not marked corrupted |
| `Rav1eAvProps.ConvertPacketKeeps` | src/lib.rs:66-74 | two backend packets convert alike exactly when they have the same bytes and agree on being key frames |
| `Rav1eAv.ReceivePacketResult` | src/lib.rs:63-107 | `receive_packet` yields a packet exactly when the session emitted one; a status always yields its mapped error |
| `Rav1eAvProps.ReceivePacketDelivers` | src/lib.rs:65-75 | a successful `receive_packet` returns the session packet's bytes, flagged as a key frame exactly when the frame type is `KEY`, with no position, stream index 0, default timing and not corrupted |
| `Rav1eAv.Rav1eEncoder.ReceivePacket` | src/lib.rs:63-107 | the object method returns `ReceivePacketResult` of the session's answer and records one poll on the session |
| `Rav1eAv.Rav1eEncoder.Create` | src/lib.rs:31-39 | creation stores the default configuration and a session created from it with no calls made on it yet |
| `Rav1eAv.Rav1eEncoder.Configure` | src/lib.rs:47-49 | `configure` always succeeds |
| `Rav1eAv.Rav1eEncoder.GetExtradata` | src/lib.rs:52-54 | there is never any extradata |
| `Rav1eAv.Rav1eEncoder.SendFrame` | src/lib.rs:56-61 | `send_frame` always succeeds. It submits one frame with the configured width and height, whatever frame it was given |
| `Rav1eAv.Rav1eEncoder.Flush` | src/lib.rs:109-113 | `flush` always succeeds and records one flush on the session |
| `Rav1eAvProps.RunConfigCompletes` | src/lib.rs:115-152 | a sequence of `set_option`/`set_params` calls completes exactly when none of its options is unrecognised |
| `Rav1eAvProps.RunConfigWidth` | src/lib.rs:115-152 | after such a sequence, the width is the one written by the last `w` option or video `set_params`, or the starting width if no call wrote one |
| `Rav1eAvProps.SessionKeepsCreationSettings` | src/lib.rs:33-38 | after creation and `set_option("w", U64(w))`, `get_params` reports width `w`, but the session still holds the defaults it was created from |
| `Rav1eAvProps.FramesFollowConfiguration` | src/lib.rs:56-61 | after `set_params`, frames are submitted at the new size, while the session's creation settings stay the defaults |

## Left out

- The rav1e library: `Config::default()` becomes the `defaults` parameter of `Create`. `new_context().unwrap()` is assumed to succeed. Encoding is not modelled: the session's answer to `receive_packet` is a parameter.
- The fields of rav1e's configuration that the adapter never writes. This includes the chroma sampling passed to `rav1e::Frame::new`, so a submitted frame is recorded only by its width and height.
- `Rav1eAv.Rav1eEncoder.SendFrame`: the rav1e frame's contents are not modelled. The adapter never copies planes (a TODO in the source), and the result of the session's `send_frame` is discarded by the source.
- `Rav1eAv.Rav1eEncoder.SetOption`: a panic is modelled as the `Panicked` outcome, with the configuration as it was. Unwinding and poisoning of the encoder are not modelled.
- `Ints.U64AsUsize`: models 64-bit targets only; on a 32-bit target `v as usize` would truncate.
- The internals of `Formaton` (pixel formats), of audio descriptions and of av-data's `TimeInfo` time base and user data are not modelled.
- `Arc`, `Box<dyn Encoder>` and the `Descriptor` trait dispatch (`describe`) are plumbing and are not modelled.
