/** The version-keyed accessors. FFmpeg's structures are opaque to the
    program: it declares one copy of each structure per supported library
    version and reads an object through the copy that matches the loaded
    library. An object is modelled by what each of the two copies would read
    at its address; a getter picks one of the two by a library version. */
module Accessors {
  import opened Versions

  /** A raw byte pointer. */
  datatype Ptr = Null | Address(a: nat)

  datatype Rational = Rational(num: int, den: int)

  /** What a structure's older and newer declaration read at one address. */
  datatype Views<T> = Views(older: T, newer: T)

  const MediaTypeVideo: int := 0

  /** The packet fields the program reads or sets. */
  datatype Packet = Packet(data: Ptr, size: int, streamIndex: int, pts: int, duration: int, flags: int)

  /** The codec-context fields the program reads or copies. profile and level
      stand for the fields the parameter copy leaves alone. */
  datatype ContextFields = ContextFields(
    codecType: int, codecId: int, codecTag: int, bitRate: int,
    pixFmt: int, width: int, height: int,
    colorRange: int, colorPrimaries: int, colorTrc: int, colorspace: int,
    chromaSampleLocation: int, sampleAspectRatio: Rational, hasBFrames: int,
    profile: int, level: int)

  /** The codec parameters, which exist in the newer layout only. */
  datatype CodecParameters = CodecParameters(codecType: int, codecId: int, width: int, height: int, colorSpace: int)

  /** A stream. Pointers to other structures are modelled by what they point at. */
  datatype Stream = Stream(codec: Views<ContextFields>, codecpar: CodecParameters,
                           avgFrameRate: Rational, timeBase: Rational)

  datatype FormatContext = FormatContext(nbStreams: nat, streams: seq<Views<Stream>>, duration: int)

  datatype Frame = Frame(width: int, height: int, pts: int, pictType: int, keyFrame: int,
                         linesize: seq<int>, data: seq<Ptr>)

  // Which layout each library version selects.

  predicate CodecSupported(lv: LibVersion) { lv.avcodec == 56 || lv.avcodec == 57 }
  predicate FormatSupported(lv: LibVersion) { lv.avformat == 56 || lv.avformat == 57 }
  predicate UtilSupported(lv: LibVersion) { lv.avutil == 54 || lv.avutil == 55 }

  /** Reads an object through the layout of the loaded avcodec. */
  function ByCodec<T>(lv: LibVersion, v: Views<T>): T
    requires CodecSupported(lv)
  {
    if lv.avcodec == 56 then v.older else v.newer
  }

  /** Reads an object through the layout of the loaded avformat. */
  function ByFormat<T>(lv: LibVersion, v: Views<T>): T
    requires FormatSupported(lv)
  {
    if lv.avformat == 56 then v.older else v.newer
  }

  /** Reads an object through the layout of the loaded avutil. */
  function ByUtil<T>(lv: LibVersion, v: Views<T>): T
    requires UtilSupported(lv)
  {
    if lv.avutil == 54 then v.older else v.newer
  }

  // AVPacket, keyed by avcodec.

  function PacketGetStreamIndex(lv: LibVersion, pkt: Views<Packet>): int
    requires CodecSupported(lv)
  {
    ByCodec(lv, pkt).streamIndex
  }

  function PacketGetPTS(lv: LibVersion, pkt: Views<Packet>): int
    requires CodecSupported(lv)
  {
    ByCodec(lv, pkt).pts
  }

  function PacketGetDuration(lv: LibVersion, pkt: Views<Packet>): int
    requires CodecSupported(lv)
  {
    ByCodec(lv, pkt).duration
  }

  function PacketGetFlags(lv: LibVersion, pkt: Views<Packet>): int
    requires CodecSupported(lv)
  {
    ByCodec(lv, pkt).flags
  }

  /** A new packet of the loaded avcodec's layout with no data and size 0;
      its other fields are left unset. */
  method NewPacket(lv: LibVersion) returns (pkt: Views<Packet>)
    requires CodecSupported(lv)
    ensures ByCodec(lv, pkt).data == Null && ByCodec(lv, pkt).size == 0
  {
    var raw: Views<Packet> := *;
    if lv.avcodec == 56 {
      pkt := raw.(older := raw.older.(data := Null, size := 0));
    } else {
      pkt := raw.(newer := raw.newer.(data := Null, size := 0));
    }
  }

  // AVCodecContext, keyed by avcodec.

  function CodecContextGetPixelFormat(lv: LibVersion, ctx: Views<ContextFields>): int
    requires CodecSupported(lv)
  {
    ByCodec(lv, ctx).pixFmt
  }

  function CodecContextGetWidth(lv: LibVersion, ctx: Views<ContextFields>): int
    requires CodecSupported(lv)
  {
    ByCodec(lv, ctx).width
  }

  function CodecContextGetHeight(lv: LibVersion, ctx: Views<ContextFields>): int
    requires CodecSupported(lv)
  {
    ByCodec(lv, ctx).height
  }

  function CodecContextGetColorSpace(lv: LibVersion, ctx: Views<ContextFields>): int
    requires CodecSupported(lv)
  {
    ByCodec(lv, ctx).colorspace
  }

  // AVStream, keyed by avformat; codecpar exists in the newer layout only.

  function StreamGetCodec(lv: LibVersion, str: Views<Stream>): Views<ContextFields>
    requires FormatSupported(lv)
  {
    ByFormat(lv, str).codec
  }

  function StreamGetCodecpar(lv: LibVersion, str: Views<Stream>): CodecParameters
    requires lv.avformat == 57
  {
    str.newer.codecpar
  }

  // AVCodecParameters: only a non-zero avcodec is demanded.

  function CodecParametersGetWidth(lv: LibVersion, par: CodecParameters): int
    requires lv.avcodec != 0
  {
    par.width
  }

  function CodecParametersGetHeight(lv: LibVersion, par: CodecParameters): int
    requires lv.avcodec != 0
  {
    par.height
  }

  function CodecParametersGetColorSpace(lv: LibVersion, par: CodecParameters): int
    requires lv.avcodec != 0
  {
    par.colorSpace
  }

  // AVFormatContext, keyed by avformat.

  function FormatContextGetNBStreams(lv: LibVersion, fmt: Views<FormatContext>): nat
    requires FormatSupported(lv)
  {
    ByFormat(lv, fmt).nbStreams
  }

  function FormatContextGetStream(lv: LibVersion, fmt: Views<FormatContext>, idx: int): Views<Stream>
    requires FormatSupported(lv)
    requires 0 <= idx < |ByFormat(lv, fmt).streams|
  {
    ByFormat(lv, fmt).streams[idx]
  }

  /** The codec type of a stream's codec context; the context is read through
      the layout of the loaded avformat, not avcodec. */
  function FormatContextGetCodecTypeFromCodec(lv: LibVersion, fmt: Views<FormatContext>, idx: int): int
    requires FormatSupported(lv)
    requires 0 <= idx < |ByFormat(lv, fmt).streams|
  {
    ByFormat(lv, StreamGetCodec(lv, FormatContextGetStream(lv, fmt, idx))).codecType
  }

  /** The codec id of a stream's codec context, read like the codec type. */
  function FormatContextGetCodecIDFromCodec(lv: LibVersion, fmt: Views<FormatContext>, idx: int): int
    requires FormatSupported(lv)
    requires 0 <= idx < |ByFormat(lv, fmt).streams|
  {
    ByFormat(lv, StreamGetCodec(lv, FormatContextGetStream(lv, fmt, idx))).codecId
  }

  function FormatContextGetCodecTypeFromCodecpar(lv: LibVersion, fmt: Views<FormatContext>, idx: int): int
    requires lv.avformat == 57
    requires 0 <= idx < |ByFormat(lv, fmt).streams|
  {
    StreamGetCodecpar(lv, FormatContextGetStream(lv, fmt, idx)).codecType
  }

  function FormatContextGetCodecIDFromCodecpar(lv: LibVersion, fmt: Views<FormatContext>, idx: int): int
    requires lv.avformat == 57
    requires 0 <= idx < |ByFormat(lv, fmt).streams|
  {
    StreamGetCodecpar(lv, FormatContextGetStream(lv, fmt, idx)).codecId
  }

  function FormatContextGetAvgFrameRate(lv: LibVersion, fmt: Views<FormatContext>, idx: int): Rational
    requires FormatSupported(lv)
    requires 0 <= idx < |ByFormat(lv, fmt).streams|
  {
    ByFormat(lv, FormatContextGetStream(lv, fmt, idx)).avgFrameRate
  }

  /** The duration is read through the older layout for both supported
      avformat versions. */
  function FormatContextGetDuration(lv: LibVersion, fmt: Views<FormatContext>): int
    requires FormatSupported(lv)
  {
    if lv.avformat == 56 then fmt.older.duration else fmt.older.duration
  }

  function FormatContextGetTimeBase(lv: LibVersion, fmt: Views<FormatContext>, idx: int): Rational
    requires FormatSupported(lv)
    requires 0 <= idx < |ByFormat(lv, fmt).streams|
  {
    ByFormat(lv, FormatContextGetStream(lv, fmt, idx)).timeBase
  }

  // AVFrame, keyed by avutil.

  function FrameGetWidth(lv: LibVersion, frame: Views<Frame>): int
    requires UtilSupported(lv)
  {
    ByUtil(lv, frame).width
  }

  function FrameGetHeight(lv: LibVersion, frame: Views<Frame>): int
    requires UtilSupported(lv)
  {
    ByUtil(lv, frame).height
  }

  function FrameGetPTS(lv: LibVersion, frame: Views<Frame>): int
    requires UtilSupported(lv)
  {
    ByUtil(lv, frame).pts
  }

  function FrameGetPictureType(lv: LibVersion, frame: Views<Frame>): int
    requires UtilSupported(lv)
  {
    ByUtil(lv, frame).pictType
  }

  function FrameGetKeyFrame(lv: LibVersion, frame: Views<Frame>): int
    requires UtilSupported(lv)
  {
    ByUtil(lv, frame).keyFrame
  }

  function FrameGetLinesize(lv: LibVersion, frame: Views<Frame>, idx: int): int
    requires UtilSupported(lv)
    requires 0 <= idx < |ByUtil(lv, frame).linesize|
  {
    ByUtil(lv, frame).linesize[idx]
  }

  function FrameGetData(lv: LibVersion, frame: Views<Frame>, idx: int): Ptr
    requires UtilSupported(lv)
    requires 0 <= idx < |ByUtil(lv, frame).data|
  {
    ByUtil(lv, frame).data[idx]
  }

  // What the dispatch means.

  /** Packet getters read the older layout for avcodec 56 and the newer one
      for avcodec 57, and depend on no other library's version. */
  lemma PacketDispatch(lv: LibVersion, lv': LibVersion, pkt: Views<Packet>)
    requires CodecSupported(lv) && lv'.avcodec == lv.avcodec
    ensures var p := if lv.avcodec == 56 then pkt.older else pkt.newer;
      PacketGetStreamIndex(lv, pkt) == p.streamIndex && PacketGetPTS(lv, pkt) == p.pts
      && PacketGetDuration(lv, pkt) == p.duration && PacketGetFlags(lv, pkt) == p.flags
    ensures PacketGetStreamIndex(lv', pkt) == PacketGetStreamIndex(lv, pkt)
      && PacketGetPTS(lv', pkt) == PacketGetPTS(lv, pkt)
      && PacketGetDuration(lv', pkt) == PacketGetDuration(lv, pkt)
      && PacketGetFlags(lv', pkt) == PacketGetFlags(lv, pkt)
  {
  }

  /** Codec-context getters follow avcodec in the same way. */
  lemma CodecContextDispatch(lv: LibVersion, lv': LibVersion, ctx: Views<ContextFields>)
    requires CodecSupported(lv) && lv'.avcodec == lv.avcodec
    ensures var c := if lv.avcodec == 56 then ctx.older else ctx.newer;
      CodecContextGetPixelFormat(lv, ctx) == c.pixFmt && CodecContextGetWidth(lv, ctx) == c.width
      && CodecContextGetHeight(lv, ctx) == c.height && CodecContextGetColorSpace(lv, ctx) == c.colorspace
    ensures CodecContextGetPixelFormat(lv', ctx) == CodecContextGetPixelFormat(lv, ctx)
      && CodecContextGetWidth(lv', ctx) == CodecContextGetWidth(lv, ctx)
      && CodecContextGetHeight(lv', ctx) == CodecContextGetHeight(lv, ctx)
      && CodecContextGetColorSpace(lv', ctx) == CodecContextGetColorSpace(lv, ctx)
  {
  }

  /** Stream and format-context getters follow avformat: the older layout for
      56, the newer for 57, whatever avcodec and avutil are. */
  lemma FormatDispatch(lv: LibVersion, lv': LibVersion, fmt: Views<FormatContext>, idx: int)
    requires FormatSupported(lv) && lv'.avformat == lv.avformat
    requires 0 <= idx < |ByFormat(lv, fmt).streams|
    ensures var f := if lv.avformat == 56 then fmt.older else fmt.newer;
      var s := if lv.avformat == 56 then f.streams[idx].older else f.streams[idx].newer;
      FormatContextGetNBStreams(lv, fmt) == f.nbStreams
      && FormatContextGetStream(lv, fmt, idx) == f.streams[idx]
      && StreamGetCodec(lv, f.streams[idx]) == s.codec
      && FormatContextGetAvgFrameRate(lv, fmt, idx) == s.avgFrameRate
      && FormatContextGetTimeBase(lv, fmt, idx) == s.timeBase
    ensures FormatContextGetNBStreams(lv', fmt) == FormatContextGetNBStreams(lv, fmt)
      && FormatContextGetStream(lv', fmt, idx) == FormatContextGetStream(lv, fmt, idx)
      && FormatContextGetAvgFrameRate(lv', fmt, idx) == FormatContextGetAvgFrameRate(lv, fmt, idx)
      && FormatContextGetTimeBase(lv', fmt, idx) == FormatContextGetTimeBase(lv, fmt, idx)
      && FormatContextGetCodecTypeFromCodec(lv', fmt, idx) == FormatContextGetCodecTypeFromCodec(lv, fmt, idx)
      && FormatContextGetCodecIDFromCodec(lv', fmt, idx) == FormatContextGetCodecIDFromCodec(lv, fmt, idx)
  {
  }

  /** Frame getters follow avutil: the older layout for 54, the newer for 55. */
  lemma FrameDispatch(lv: LibVersion, lv': LibVersion, frame: Views<Frame>)
    requires UtilSupported(lv) && lv'.avutil == lv.avutil
    ensures var f := if lv.avutil == 54 then frame.older else frame.newer;
      FrameGetWidth(lv, frame) == f.width && FrameGetHeight(lv, frame) == f.height
      && FrameGetPTS(lv, frame) == f.pts && FrameGetPictureType(lv, frame) == f.pictType
      && FrameGetKeyFrame(lv, frame) == f.keyFrame
      && (forall i :: 0 <= i < |f.linesize| ==> FrameGetLinesize(lv, frame, i) == f.linesize[i])
      && (forall i :: 0 <= i < |f.data| ==> FrameGetData(lv, frame, i) == f.data[i])
    ensures FrameGetWidth(lv', frame) == FrameGetWidth(lv, frame)
      && FrameGetHeight(lv', frame) == FrameGetHeight(lv, frame)
      && FrameGetPTS(lv', frame) == FrameGetPTS(lv, frame)
      && FrameGetPictureType(lv', frame) == FrameGetPictureType(lv, frame)
      && FrameGetKeyFrame(lv', frame) == FrameGetKeyFrame(lv, frame)
  {
  }

  /** The codec parameters are reached through the newer stream layout and
      read whenever avcodec is non-zero, also with avcodec 56. */
  lemma CodecparDispatch(lv: LibVersion, fmt: Views<FormatContext>, idx: int)
    requires lv.avformat == 57 && lv.avcodec != 0
    requires 0 <= idx < |fmt.newer.streams|
    ensures var par := fmt.newer.streams[idx].newer.codecpar;
      FormatContextGetCodecTypeFromCodecpar(lv, fmt, idx) == par.codecType
      && FormatContextGetCodecIDFromCodecpar(lv, fmt, idx) == par.codecId
      && CodecParametersGetWidth(lv, par) == par.width
      && CodecParametersGetHeight(lv, par) == par.height
      && CodecParametersGetColorSpace(lv, par) == par.colorSpace
  {
  }

  /** The duration ignores the newer layout: with avformat 57 it is still
      read through the older one. */
  lemma DurationReadsOlderLayout(lv: LibVersion, fmt: Views<FormatContext>)
    requires FormatSupported(lv)
    ensures FormatContextGetDuration(lv, fmt) == fmt.older.duration
    ensures lv.avformat == 57 && fmt.older.duration != fmt.newer.duration ==>
      FormatContextGetDuration(lv, fmt) != ByFormat(lv, fmt).duration
  {
  }

  /** The codec context behind a stream is read through the avformat layout:
      with avformat 57 and avcodec 56 the newer context layout is used even
      though the loaded avcodec has the older one. */
  lemma CodecFromStreamKeyedByFormat(lv: LibVersion, fmt: Views<FormatContext>, idx: int)
    requires FormatSupported(lv)
    requires 0 <= idx < |ByFormat(lv, fmt).streams|
    ensures var ctx := StreamGetCodec(lv, FormatContextGetStream(lv, fmt, idx));
      FormatContextGetCodecTypeFromCodec(lv, fmt, idx) == ByFormat(lv, ctx).codecType
      && FormatContextGetCodecIDFromCodec(lv, fmt, idx) == ByFormat(lv, ctx).codecId
    ensures var ctx := StreamGetCodec(lv, FormatContextGetStream(lv, fmt, idx));
      lv.avformat == 57 && lv.avcodec == 56 ==>
      FormatContextGetCodecTypeFromCodec(lv, fmt, idx) == ctx.newer.codecType
  {
  }
}
