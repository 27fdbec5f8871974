/** Properties of the rav1e adapter: what each option writes, the parameter round trip, the
    status mapping and its inverse, the packet conversion, and what a whole sequence of
    configuration calls leaves behind. */
module Rav1eAvProps {
  import opened Ints
  import opened AvData
  import Rav1e
  import opened Rav1eAv

  // ---------------------------------------------------------------------------------------------
  // set_option, one call at a time

  lemma SetOptionWidth(s: Rav1e.Settings, v: u64)
    ensures SetOptionSpec(s, "w", U64(v)) == Some(s.(width := v))
  {
  }

  lemma SetOptionHeight(s: Rav1e.Settings, v: u64)
    ensures SetOptionSpec(s, "h", U64(v)) == Some(s.(height := v))
  {
  }

  /** `qmin` keeps only the low eight bits: the value is stored as given exactly when it is below 256. */
  lemma SetOptionMinQuantizer(s: Rav1e.Settings, v: u64)
    ensures SetOptionSpec(s, "qmin", U64(v)) == Some(s.(minQuantizer := v % 256))
    ensures SetOptionSpec(s, "qmin", U64(v)).value.minQuantizer == v <==> v < 256
  {
  }

  lemma SetOptionQuantizer(s: Rav1e.Settings, v: u64)
    ensures SetOptionSpec(s, "qmax", U64(v)) == Some(s.(quantizer := v))
  {
  }

  /** `timebase` stores the pair unchecked; a negative part wraps around to a large unsigned one. */
  lemma SetOptionTimeBase(s: Rav1e.Settings, num: i64, den: i64)
    ensures SetOptionSpec(s, "timebase", Pair(num, den))
              == Some(s.(timeBase := Rav1e.Rational(I64AsU64(num), I64AsU64(den))))
    ensures var tb := SetOptionSpec(s, "timebase", Pair(num, den)).value.timeBase;
              (tb.num == num && tb.den == den <==> num >= 0 && den >= 0)
              && (num < 0 ==> tb.num == num + TWO_64)
              && (den < 0 ==> tb.den == den + TWO_64)
  {
  }

  /** An unknown key, or a known key with a value of another shape, panics. */
  lemma SetOptionPanics(s: Rav1e.Settings, key: string, val: Value)
    requires key !in {"w", "h", "qmin", "qmax", "timebase"}
          || (key in {"w", "h", "qmin", "qmax"} && !val.U64?)
          || (key == "timebase" && !val.Pair?)
    ensures SetOptionSpec(s, key, val) == None
  {
  }

  /** The configuration field an assignment writes. */
  datatype Field = Width | Height | MinQuantizer | Quantizer | TimeBase

  function FieldOf(a: Assignment): Field {
    match a
    case SetWidth(_) => Width
    case SetHeight(_) => Height
    case SetMinQuantizer(_) => MinQuantizer
    case SetQuantizer(_) => Quantizer
    case SetTimeBase(_) => TimeBase
  }

  /** `s` and `t` agree on every field other than `f`. */
  predicate AgreeExcept(s: Rav1e.Settings, t: Rav1e.Settings, f: Field) {
    (f == Width || s.width == t.width)
    && (f == Height || s.height == t.height)
    && (f == MinQuantizer || s.minQuantizer == t.minQuantizer)
    && (f == Quantizer || s.quantizer == t.quantizer)
    && (f == TimeBase || s.timeBase == t.timeBase)
  }

  /** A recognised option changes no field but its own. */
  lemma SetOptionChangesOneField(s: Rav1e.Settings, key: string, val: Value)
    requires Recognised(key, val)
    ensures AgreeExcept(s, SetOptionSpec(s, key, val).value, FieldOf(DecodeOption(key, val).value))
  {
  }

  /** Repeating an option changes nothing more. */
  lemma SetOptionIdempotent(s: Rav1e.Settings, key: string, val: Value)
    requires Recognised(key, val)
    ensures SetOptionSpec(SetOptionSpec(s, key, val).value, key, val) == SetOptionSpec(s, key, val)
  {
  }

  /** Two options that write different fields can be given in either order. */
  lemma SetOptionsCommute(s: Rav1e.Settings, k1: string, v1: Value, k2: string, v2: Value)
    requires Recognised(k1, v1) && Recognised(k2, v2)
    requires FieldOf(DecodeOption(k1, v1).value) != FieldOf(DecodeOption(k2, v2).value)
    ensures SetOptionSpec(SetOptionSpec(s, k1, v1).value, k2, v2)
         == SetOptionSpec(SetOptionSpec(s, k2, v2).value, k1, v1)
  {
  }

  /** Of two options that write the same field, the later one wins. */
  lemma SetOptionLastWins(s: Rav1e.Settings, k1: string, v1: Value, k2: string, v2: Value)
    requires Recognised(k1, v1) && Recognised(k2, v2)
    requires FieldOf(DecodeOption(k1, v1).value) == FieldOf(DecodeOption(k2, v2).value)
    ensures SetOptionSpec(SetOptionSpec(s, k1, v1).value, k2, v2) == SetOptionSpec(s, k2, v2)
  {
  }

  // ---------------------------------------------------------------------------------------------
  // get_params / set_params

  /** What `get_params` reports besides the frame size never varies. */
  lemma GetParamsFixedFields(s: Rav1e.Settings)
    ensures ParamsOf(s).codecId == Some("av1")
    ensures ParamsOf(s).extradata == None
    ensures ParamsOf(s).bitRate == 0 && ParamsOf(s).convergenceWindow == 0 && ParamsOf(s).delay == 0
    ensures ParamsOf(s).kind.value.info.format == Some(YUV420)
  {
  }

  /** The registration record names codec `av1`, implementation `rav1e` and MIME type
      `video/AV1`; its codec is the one `get_params` reports. */
  lemma DescriptorRecord(s: Rav1e.Settings)
    ensures Av1Descr.codec == "av1" && Av1Descr.name == "rav1e"
    ensures Av1Descr.desc == "rav1e AV1 encoder" && Av1Descr.mime == "video/AV1"
    ensures ParamsOf(s).codecId == Some(Av1Descr.codec)
  {
  }

  /** `set_params` then `get_params` gives back the width and height of a video description. */
  lemma SetThenGetParams(s: Rav1e.Settings, p: CodecParams)
    requires p.kind.Some? && p.kind.value.Video?
    ensures var info := ParamsOf(ApplyParams(s, p)).kind.value.info;
            info.width == p.kind.value.info.width && info.height == p.kind.value.info.height
  {
  }

  /** Without a video description `set_params` leaves the configuration alone. */
  lemma SetParamsIgnoresNonVideo(s: Rav1e.Settings, p: CodecParams)
    requires p.kind.None? || p.kind.value.Audio?
    ensures ApplyParams(s, p) == s
  {
  }

  /** Feeding back what `get_params` reported changes nothing. */
  lemma GetThenSetParams(s: Rav1e.Settings)
    ensures ApplyParams(s, ParamsOf(s)) == s
  {
  }

  /** A second identical `set_params` changes nothing more. */
  lemma SetParamsIdempotent(s: Rav1e.Settings, p: CodecParams)
    ensures ApplyParams(ApplyParams(s, p), p) == ApplyParams(s, p)
  {
  }

  // ---------------------------------------------------------------------------------------------
  // receive_packet

  /** The status an error stands for, read back from its kind and message. */
  function StatusOfError(e: Error): Option<Rav1e.EncoderStatus> {
    match e
    case MoreDataNeeded => Some(Rav1e.NeedMoreData)
    case Unsupported(m) =>
      if m == "Encoded" then Some(Rav1e.Encoded)
      else if m == "LimitReached" then Some(Rav1e.LimitReached)
      else if m == "EnoughData" then Some(Rav1e.EnoughData)
      else if m == "NotReady" then Some(Rav1e.NotReady)
      else if m == "Failure" then Some(Rav1e.Failure)
      else None
  }

  /** No status is lost at the boundary: each one can be told from its error. */
  lemma StatusErrorRoundTrip(st: Rav1e.EncoderStatus)
    ensures StatusOfError(StatusError(st)) == Some(st)
  {
  }

  /** The errors of the mapping are exactly those that read back as a status. */
  lemma StatusErrorOnto(e: Error, st: Rav1e.EncoderStatus)
    ensures StatusOfError(e) == Some(st) <==> StatusError(st) == e
  {
  }

  /** A packet the session emits reaches the caller as its bytes, flagged as a key frame exactly
      when the backend's frame type is `KEY`, with no position, stream index 0, default timing
      and not marked corrupted. */
  lemma ReceivePacketDelivers(bp: Rav1e.Packet)
    ensures var r := ReceivePacketResult(Rav1e.Emitted(bp));
            r.Ok? && r.value.data == bp.data && (r.value.isKey <==> bp.frameType == Rav1e.Key)
            && r.value.pos == None && r.value.streamIndex == 0 && r.value.t == DefaultTimeInfo
            && !r.value.isCorrupted
  {
  }

  /** Two backend packets convert alike exactly when they carry the same bytes and are both key
      frames or both not: the frame number and the kind of non-key frame are dropped. */
  lemma ConvertPacketKeeps(a: Rav1e.Packet, b: Rav1e.Packet)
    ensures ConvertPacket(a) == ConvertPacket(b)
        <==> a.data == b.data && (a.frameType == Rav1e.Key <==> b.frameType == Rav1e.Key)
  {
  }

  // ---------------------------------------------------------------------------------------------
  // A sequence of configuration calls on one encoder

  /** A configuration call: `set_option(key, val)` or `set_params(params)`. */
  datatype ConfigCall = OptionCall(key: string, val: Value) | ParamsCall(params: CodecParams)

  /** The settings after the calls, in order, or `None` once one of them panics. */
  function RunConfig(s: Rav1e.Settings, calls: seq<ConfigCall>): Option<Rav1e.Settings>
    decreases |calls|
  {
    if calls == [] then Some(s)
    else
      var next := match calls[0]
        case OptionCall(k, v) => SetOptionSpec(s, k, v)
        case ParamsCall(p) => Some(ApplyParams(s, p));
      if next.None? then None else RunConfig(next.value, calls[1..])
  }

  /** A call that cannot panic. */
  predicate Safe(c: ConfigCall) {
    c.OptionCall? ==> Recognised(c.key, c.val)
  }

  /** The width a call writes, if it writes one. */
  function WidthWritten(c: ConfigCall): Option<usize> {
    match c
    case OptionCall(k, v) => if k == "w" && v.U64? then Some(v.u) else None
    case ParamsCall(p) =>
      if p.kind.Some? && p.kind.value.Video? then Some(p.kind.value.info.width) else None
  }

  /** The width written by the last call that writes one, or `w` when none does. */
  function LastWidth(calls: seq<ConfigCall>, w: usize): usize
    decreases |calls|
  {
    if calls == [] then w
    else
      var last := calls[|calls| - 1];
      if WidthWritten(last).Some? then WidthWritten(last).value
      else LastWidth(calls[..|calls| - 1], w)
  }

  /** A sequence of calls completes exactly when none of them panics. */
  lemma {:induction false} RunConfigCompletes(s: Rav1e.Settings, calls: seq<ConfigCall>)
    ensures RunConfig(s, calls).Some? <==> forall i :: 0 <= i < |calls| ==> Safe(calls[i])
    decreases |calls|
  {
    if calls != [] {
      var c := calls[0];
      if Safe(c) {
        var next := match c
          case OptionCall(k, v) => SetOptionSpec(s, k, v)
          case ParamsCall(p) => Some(ApplyParams(s, p));
        RunConfigCompletes(next.value, calls[1..]);
        assert forall i :: 1 <= i < |calls| ==> calls[i] == calls[1..][i - 1];
      }
    }
  }

  /** The width after a sequence of calls is the one written last, whichever kind of call wrote it. */
  lemma {:induction false} RunConfigWidth(s: Rav1e.Settings, calls: seq<ConfigCall>)
    requires RunConfig(s, calls).Some?
    ensures RunConfig(s, calls).value.width == LastWidth(calls, s.width)
    decreases |calls|
  {
    if calls != [] {
      var c := calls[0];
      var next := match c
        case OptionCall(k, v) => SetOptionSpec(s, k, v)
        case ParamsCall(p) => Some(ApplyParams(s, p));
      RunConfigWidth(next.value, calls[1..]);
      LastWidthSplit(c, calls[1..], s.width);
      assert [c] + calls[1..] == calls;
    }
  }

  /** Peeling the first call off the front of `LastWidth`. */
  lemma {:induction false} LastWidthSplit(c: ConfigCall, rest: seq<ConfigCall>, w: usize)
    ensures LastWidth([c] + rest, w)
         == LastWidth(rest, if WidthWritten(c).Some? then WidthWritten(c).value else w)
    decreases |rest|
  {
    if rest != [] {
      assert ([c] + rest)[..|rest|] == [c] + rest[..|rest| - 1];
      LastWidthSplit(c, rest[..|rest| - 1], w);
    }
  }

  // ---------------------------------------------------------------------------------------------
  // The encoder object

  /** The session is created once, from the defaults: options given afterwards reach the stored
      configuration, and so `get_params`, but not the session. */
  method SessionKeepsCreationSettings(defaults: Rav1e.Settings, w: u64) returns (enc: Rav1eEncoder)
    ensures enc.GetParams() == Ok(ParamsOf(defaults.(width := w)))
    ensures enc.ctx == Rav1e.Session(defaults, [])
  {
    enc := new Rav1eEncoder.Create(defaults);
    var o := enc.SetOption("w", U64(w));
    assert o == Returned(Ok(()));
  }

  /** Frames submitted after a configuration change take the new size, while the session still
      holds the settings it was created from. */
  method FramesFollowConfiguration(defaults: Rav1e.Settings, p: CodecParams) returns (enc: Rav1eEncoder)
    requires p.kind.Some? && p.kind.value.Video?
    ensures enc.ctx.origin == defaults
    ensures enc.ctx.calls == [Rav1e.SendFrame(p.kind.value.info.width, p.kind.value.info.height), Rav1e.Flush]
  {
    enc := new Rav1eEncoder.Create(defaults);
    var r := enc.SetParams(p);
    r := enc.SendFrame(());
    r := enc.Flush();
  }
}
