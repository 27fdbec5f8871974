/** The rav1e adapter: an `Encoder` of the av-codec interface backed by a rav1e session.
    The pure part (option decoding, parameter mapping, status mapping, packet conversion) is
    given as functions; the encoder object, whose configuration and session change in place,
    is a class whose methods are proved against those functions. */
module Rav1eAv {
  import opened Ints
  import opened AvData
  import Rav1e

  // ---------------------------------------------------------------------------------------------
  // set_option

  /** The single configuration write that a recognised option performs, value already cast. */
  datatype Assignment =
    | SetWidth(width: usize)
    | SetHeight(height: usize)
    | SetMinQuantizer(minQuantizer: u8)
    | SetQuantizer(quantizer: usize)
    | SetTimeBase(timeBase: Rav1e.Rational)

  /** The option keys `set_option` knows, each with the one value shape it accepts. */
  predicate Recognised(key: string, val: Value) {
    (key in {"w", "h", "qmin", "qmax"} && val.U64?) || (key == "timebase" && val.Pair?)
  }

  /** The arms of the `match (key, val)` of `set_option`, tried in order. */
  function DecodeOption(key: string, val: Value): (a: Option<Assignment>)
    ensures a.Some? <==> Recognised(key, val)
  {
    if key == "w" && val.U64? then Some(SetWidth(U64AsUsize(val.u)))
    else if key == "h" && val.U64? then Some(SetHeight(U64AsUsize(val.u)))
    else if key == "qmin" && val.U64? then Some(SetMinQuantizer(U64AsU8(val.u)))
    else if key == "qmax" && val.U64? then Some(SetQuantizer(U64AsUsize(val.u)))
    else if key == "timebase" && val.Pair? then
      Some(SetTimeBase(Rav1e.Rational(I64AsU64(val.num), I64AsU64(val.den))))
    else None
  }

  /** Performs one configuration write. */
  function Assign(s: Rav1e.Settings, a: Assignment): Rav1e.Settings {
    match a
    case SetWidth(w) => s.(width := w)
    case SetHeight(h) => s.(height := h)
    case SetMinQuantizer(q) => s.(minQuantizer := q)
    case SetQuantizer(q) => s.(quantizer := q)
    case SetTimeBase(tb) => s.(timeBase := tb)
  }

  /** The settings after `set_option(key, val)`, or `None` when the call panics. */
  function SetOptionSpec(s: Rav1e.Settings, key: string, val: Value): (r: Option<Rav1e.Settings>)
    ensures r.Some? <==> Recognised(key, val)
  {
    match DecodeOption(key, val)
    case Some(a) => Some(Assign(s, a))
    case None => None
  }

  // ---------------------------------------------------------------------------------------------
  // get_params / set_params

  /** The parameters `get_params` reports for the given settings. */
  function ParamsOf(s: Rav1e.Settings): (p: CodecParams)
    ensures p.kind.Some? && p.kind.value.Video?
    ensures p.kind.value.info.width == s.width && p.kind.value.info.height == s.height
  {
    CodecParams(
      kind := Some(Video(VideoInfo(width := s.width, height := s.height, format := Some(YUV420)))),
      codecId := Some("av1"),
      extradata := None,
      bitRate := 0,
      convergenceWindow := 0,
      delay := 0)
  }

  /** The settings after `set_params(p)`: only a video description is applied. */
  function ApplyParams(s: Rav1e.Settings, p: CodecParams): (r: Rav1e.Settings)
    ensures r.minQuantizer == s.minQuantizer && r.quantizer == s.quantizer && r.timeBase == s.timeBase
    ensures p.kind.Some? && p.kind.value.Video? ==>
              r.width == p.kind.value.info.width && r.height == p.kind.value.info.height
  {
    if p.kind.Some? && p.kind.value.Video? then
      s.(width := p.kind.value.info.width, height := p.kind.value.info.height)
    else s
  }

  // ---------------------------------------------------------------------------------------------
  // receive_packet

  /** The name of a status, as carried in the error message. */
  function StatusName(st: Rav1e.EncoderStatus): string {
    match st
    case Encoded => "Encoded"
    case LimitReached => "LimitReached"
    case NeedMoreData => "NeedMoreData"
    case EnoughData => "EnoughData"
    case NotReady => "NotReady"
    case Failure => "Failure"
  }

  /** The error `receive_packet` returns for a status of the session. */
  function StatusError(st: Rav1e.EncoderStatus): (e: Error)
    ensures e == MoreDataNeeded <==> st == Rav1e.NeedMoreData
    ensures e != MoreDataNeeded ==> e == Unsupported(StatusName(st))
  {
    match st
    case Encoded => Unsupported("Encoded")
    case LimitReached => Unsupported("LimitReached")
    case NeedMoreData => MoreDataNeeded
    case EnoughData => Unsupported("EnoughData")
    case NotReady => Unsupported("NotReady")
    case Failure => Unsupported("Failure")
  }

  /** The packet handed to the caller for a packet of the session. */
  function ConvertPacket(bp: Rav1e.Packet): (p: Packet)
    ensures p.isKey <==> bp.frameType == Rav1e.Key
    ensures p.data == bp.data
    ensures p.pos == None && p.streamIndex == 0 && p.t == DefaultTimeInfo && !p.isCorrupted
  {
    Packet(
      data := bp.data,
      pos := None,
      streamIndex := 0,
      t := DefaultTimeInfo,
      isKey := if bp.frameType == Rav1e.Key then true else false,
      isCorrupted := false)
  }

  /** The result of `receive_packet` for the session's reply. */
  function ReceivePacketResult(reply: Rav1e.Reply): (r: Result<Packet>)
    ensures r.Ok? <==> reply.Emitted?
    ensures reply.Status? ==> r == Err(StatusError(reply.status))
  {
    match reply
    case Emitted(bp) => Ok(ConvertPacket(bp))
    case Status(st) => Err(StatusError(st))
  }

  // ---------------------------------------------------------------------------------------------
  // The registration record and the encoder object

  /** `AV1_DESCR`. */
  const Av1Descr: Descr := Descr(codec := "av1", name := "rav1e", desc := "rav1e AV1 encoder", mime := "video/AV1")

  /** How a call ends: it returns its result, or it panics. */
  datatype Outcome<+T> = Returned(result: Result<T>) | Panicked

  /** The encoder object: a configuration updated in place and a session built once, from the
      configuration as it was at creation. */
  class Rav1eEncoder {
    const cfg: Rav1e.Config
    ghost var ctx: Rav1e.Session

    /** `Des::create`: a default configuration and a session created from it at once.
        `defaults` stands for the backend's `Config::default()`. */
    constructor Create(defaults: Rav1e.Settings)
      ensures fresh(cfg)
      ensures cfg.Snapshot() == defaults
      ensures ctx == Rav1e.Session(defaults, [])
    {
      var c := new Rav1e.Config(defaults);
      cfg := c;
      ctx := Rav1e.Session(c.Snapshot(), []);
    }

    method Configure() returns (r: Result<()>)
      ensures r == Ok(())
    {
      r := Ok(());
    }

    function GetExtradata(): (x: Option<seq<u8>>)
      ensures x == None
    {
      None
    }

    /** Submits a blank frame of the configured size; the frame passed in is not read. */
    method SendFrame<F>(frame: F) returns (r: Result<()>)
      modifies this
      ensures r == Ok(())
      ensures ctx == old(ctx).(calls := old(ctx.calls) + [Rav1e.SendFrame(cfg.width, cfg.height)])
    {
      ctx := ctx.(calls := ctx.calls + [Rav1e.SendFrame(cfg.width, cfg.height)]);
      r := Ok(());
    }

    /** Polls the session, whose answer is `reply`, and converts that answer. */
    method ReceivePacket(reply: Rav1e.Reply) returns (r: Result<Packet>)
      modifies this
      ensures r == ReceivePacketResult(reply)
      ensures ctx == old(ctx).(calls := old(ctx.calls) + [Rav1e.ReceivePacket])
    {
      ctx := ctx.(calls := ctx.calls + [Rav1e.ReceivePacket]);
      match reply
      case Emitted(bp) =>
        var isKey := bp.frameType == Rav1e.Key;
        r := Ok(Packet(bp.data, None, 0, DefaultTimeInfo, isKey, false));
      case Status(Encoded) => r := Err(Unsupported("Encoded"));
      case Status(LimitReached) => r := Err(Unsupported("LimitReached"));
      case Status(NeedMoreData) => r := Err(MoreDataNeeded);
      case Status(EnoughData) => r := Err(Unsupported("EnoughData"));
      case Status(NotReady) => r := Err(Unsupported("NotReady"));
      case Status(Failure) => r := Err(Unsupported("Failure"));
    }

    method Flush() returns (r: Result<()>)
      modifies this
      ensures r == Ok(())
      ensures ctx == old(ctx).(calls := old(ctx.calls) + [Rav1e.Flush])
    {
      ctx := ctx.(calls := ctx.calls + [Rav1e.Flush]);
      r := Ok(());
    }

    /** Writes the one configuration field named by `key`, or panics (`unimplemented!`) on an
        unknown key or a value of the wrong shape. The session is not touched. */
    method SetOption(key: string, val: Value) returns (o: Outcome<()>)
      modifies cfg
      ensures o == if Recognised(key, val) then Returned(Ok(())) else Panicked
      ensures SetOptionSpec(old(cfg.Snapshot()), key, val).Some? ==>
                cfg.Snapshot() == SetOptionSpec(old(cfg.Snapshot()), key, val).value
      ensures SetOptionSpec(old(cfg.Snapshot()), key, val).None? ==> cfg.Snapshot() == old(cfg.Snapshot())
      ensures ctx == old(ctx)
    {
      if key == "w" && val.U64? {
        cfg.width := U64AsUsize(val.u);
      } else if key == "h" && val.U64? {
        cfg.height := U64AsUsize(val.u);
      } else if key == "qmin" && val.U64? {
        cfg.minQuantizer := U64AsU8(val.u);
      } else if key == "qmax" && val.U64? {
        cfg.quantizer := U64AsUsize(val.u);
      } else if key == "timebase" && val.Pair? {
        cfg.timeBase := Rav1e.Rational(I64AsU64(val.num), I64AsU64(val.den));
      } else {
        return Panicked;
      }
      return Returned(Ok(()));
    }

    /** Reports the configured frame size; every other parameter is fixed. */
    function GetParams(): (r: Result<CodecParams>)
      reads cfg
      ensures r == Ok(ParamsOf(cfg.Snapshot()))
    {
      Ok(CodecParams(
        kind := Some(Video(VideoInfo(height := cfg.height, width := cfg.width, format := Some(YUV420)))),
        codecId := Some("av1"),
        extradata := None,
        bitRate := 0,
        convergenceWindow := 0,
        delay := 0))
    }

    /** Copies the width and height of a video description into the configuration; anything
        else is ignored. Always succeeds; the session is not touched. */
    method SetParams(p: CodecParams) returns (r: Result<()>)
      modifies cfg
      ensures r == Ok(())
      ensures cfg.Snapshot() == ApplyParams(old(cfg.Snapshot()), p)
      ensures ctx == old(ctx)
    {
      if p.kind.Some? && p.kind.value.Video? {
        var info := p.kind.value.info;
        cfg.width := info.width;
        cfg.height := info.height;
      }
      r := Ok(());
    }
  }
}
