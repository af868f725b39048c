/** The media-container library as the program sees it: an opened format context is a
    sequence of per-stream codec parameters plus a total duration, and opening a path is
    an outcome supplied from outside (the library's decoding logic is not modelled). */
module Container {
  import opened Common

  /** AVMediaType. */
  datatype MediaType = UnknownMedia | Video | Audio | Data | Subtitle | Attachment

  /** AVCodecParameters (the fields the program reads). The sample aspect ratio is kept
      as its numerator and denominator; the channel layout as an opaque identifier. */
  datatype CodecParameters = CodecParameters(
    codecType: MediaType,
    codecId: int32,
    codecTag: int,
    format: int32,
    bitRate: int64,
    profile: int32,
    level: int32,
    width: int32,
    height: int32,
    sampleAspectNum: int32,
    sampleAspectDen: int32,
    fieldOrder: int32,
    colorRange: int32,
    colorPrimaries: int32,
    colorTrc: int32,
    colorSpace: int32,
    chromaLocation: int32,
    videoDelay: int32,
    sampleRate: int32,
    channels: int32,
    channelLayout: int)

  /** AVFormatContext: `streams[i]` is stream i (so `nb_streams == |streams|`);
      `duration` is in AV_TIME_BASE units. */
  datatype FormatContext = FormatContext(streams: seq<CodecParameters>, duration: int64)

  /** What `avformat_open_input` followed by `avformat_find_stream_info` does for a path.
      When the second call fails the context has already been opened. */
  datatype OpenOutcome =
    | OpenInputFailed(reason: string)
    | StreamInfoFailed(context: FormatContext, reason: string)
    | Opened(context: FormatContext)

  /** One call of `av_read_frame`: a packet (return value >= 0) or a negative return,
      which covers both end of file and a read error. */
  datatype ReadResult = Frame(packet: Packet) | ReadFailed(code: int)

  /** AVPacket (the fields the program reads). */
  datatype Packet = Packet(
    streamIndex: int32,
    pts: int64,
    dts: int64,
    duration: int64,
    pos: int64,
    size: int32,
    flags: bv32)

  const AV_PKT_FLAG_KEY: bv32 := 0x0001

  /** `av_read_frame` on the i-th call: past the supplied results the file has ended. */
  function ReadFrame(results: seq<ReadResult>, i: nat): (r: ReadResult)
    ensures i >= |results| ==> r.ReadFailed?
    ensures i < |results| ==> r == results[i]
  {
    if i < |results| then results[i] else ReadFailed(-541478725)  // AVERROR_EOF
  }

  /** Number of calls that return a packet before the first failing call. */
  function FramesRead(results: seq<ReadResult>): (n: nat)
    ensures n <= |results|
    ensures forall i :: 0 <= i < n ==> results[i].Frame?
    ensures n < |results| ==> results[n].ReadFailed?
  {
    if results == [] || results[0].ReadFailed? then 0 else 1 + FramesRead(results[1..])
  }

  /** The packets delivered before the first failing call, in read order. */
  function PacketsRead(results: seq<ReadResult>): (ps: seq<Packet>)
    ensures |ps| == FramesRead(results)
    ensures forall i :: 0 <= i < |ps| ==> results[i] == Frame(ps[i])
  {
    seq(FramesRead(results), i requires 0 <= i < FramesRead(results) => results[i].packet)
  }
}
