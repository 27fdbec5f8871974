/** The parts of the rav1e encoder library that the adapter touches. The encoder itself is external:
    its configuration is reduced to the five fields the adapter writes, and an encoding
    session is an opaque value that only records the calls made on it. */
module Rav1e {
  import opened Ints

  /** What a session call reports when it has no packet to give. */
  datatype EncoderStatus = Encoded | LimitReached | NeedMoreData | EnoughData | NotReady | Failure

  datatype FrameType = Key | Inter | IntraOnly | Switch

  /** A packet produced by the backend. */
  datatype Packet = Packet(data: seq<u8>, inputFrameNo: u64, frameType: FrameType)

  /** The answer of one `receive_packet` call on a session. */
  datatype Reply = Emitted(packet: Packet) | Status(status: EncoderStatus)

  /** `Rational::new(num, den)` stores both parts unchecked. */
  datatype Rational = Rational(num: u64, den: u64)

  /** The value held by a `Config`: the encoder settings the adapter can change. */
  datatype Settings = Settings(
    width: usize,
    height: usize,
    minQuantizer: u8,
    quantizer: usize,
    timeBase: Rational)

  /** The encoder configuration, updated in place by the adapter. */
  class Config {
    var width: usize
    var height: usize
    var minQuantizer: u8
    var quantizer: usize
    var timeBase: Rational

    /** The settings currently held. */
    function Snapshot(): (s: Settings)
      reads this
    {
      Settings(width, height, minQuantizer, quantizer, timeBase)
    }

    constructor (s: Settings)
      ensures Snapshot() == s
    {
      width, height := s.width, s.height;
      minQuantizer, quantizer := s.minQuantizer, s.quantizer;
      timeBase := s.timeBase;
    }
  }

  /** A call made on a live session. A submitted frame is blank and known only by its size. */
  datatype SessionCall = SendFrame(width: usize, height: usize) | ReceivePacket | Flush

  /** A live session: the settings it was created from and the calls made on it, oldest first. */
  datatype Session = Session(origin: Settings, calls: seq<SessionCall>)
}
