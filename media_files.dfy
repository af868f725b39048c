/** The media file manager: opens a file, opens it with the container library, picks the
    first video and the first audio stream, and lists the video and audio streams with
    their codec parameters rendered as text. Everything the container library computes
    (opening, the stream information, the name tables) comes in as parameters. */
module MediaFiles {
  import opened Common
  import opened Container
  import MediaParser

  // ---------------------------------------------------------------------------
  // Names of codec parameters

  /** AVColorRange values the manager names. */
  const AVCOL_RANGE_MPEG: int := 1
  const AVCOL_RANGE_JPEG: int := 2

  /** AVFieldOrder values the manager names. */
  const AV_FIELD_PROGRESSIVE: int := 1
  const AV_FIELD_TT: int := 2
  const AV_FIELD_BB: int := 3
  const AV_FIELD_TB: int := 4
  const AV_FIELD_BT: int := 5

  /** The level a codec reports when it does not know its level. */
  const AV_LEVEL_UNKNOWN: int := -99

  /** getColorRangeName. */
  function ColorRangeName(colorRange: int): string
  {
    if colorRange == AVCOL_RANGE_MPEG then "tv"
    else if colorRange == AVCOL_RANGE_JPEG then "pc"
    else "unknown"
  }

  /** The color range a name stands for; none for "unknown" and for any other text. */
  function ColorRangeOfName(name: string): Option<int>
  {
    if name == "tv" then Some(AVCOL_RANGE_MPEG)
    else if name == "pc" then Some(AVCOL_RANGE_JPEG)
    else None
  }

  /** The two named ranges get distinct names that read back as themselves; every other
      value is "unknown". */
  lemma ColorRangeNameRoundTrip(colorRange: int)
    ensures ColorRangeOfName(ColorRangeName(colorRange))
              == (if colorRange == AVCOL_RANGE_MPEG || colorRange == AVCOL_RANGE_JPEG then Some(colorRange) else None)
    ensures ColorRangeName(colorRange) == "unknown" <==> colorRange != AVCOL_RANGE_MPEG && colorRange != AVCOL_RANGE_JPEG
  {
  }

  /** getFieldOrderName. */
  function FieldOrderName(fieldOrder: int): string
  {
    if fieldOrder == AV_FIELD_PROGRESSIVE then "progressive"
    else if fieldOrder == AV_FIELD_TT then "tt"
    else if fieldOrder == AV_FIELD_BB then "bb"
    else if fieldOrder == AV_FIELD_TB then "tb"
    else if fieldOrder == AV_FIELD_BT then "bt"
    else "unknown"
  }

  /** The field order a name stands for; none for "unknown" and for any other text. */
  function FieldOrderOfName(name: string): Option<int>
  {
    if name == "progressive" then Some(AV_FIELD_PROGRESSIVE)
    else if name == "tt" then Some(AV_FIELD_TT)
    else if name == "bb" then Some(AV_FIELD_BB)
    else if name == "tb" then Some(AV_FIELD_TB)
    else if name == "bt" then Some(AV_FIELD_BT)
    else None
  }

  /** The five named field orders get distinct names that read back as themselves; every
      other value is "unknown". */
  lemma FieldOrderNameRoundTrip(fieldOrder: int)
    ensures FieldOrderOfName(FieldOrderName(fieldOrder))
              == (if AV_FIELD_PROGRESSIVE <= fieldOrder <= AV_FIELD_BT then Some(fieldOrder) else None)
    ensures FieldOrderName(fieldOrder) == "unknown" <==> !(AV_FIELD_PROGRESSIVE <= fieldOrder <= AV_FIELD_BT)
  {
  }

  /** getLevelName: the level in decimal, or "unknown" for the unknown level. */
  function LevelName(level: int): string
  {
    if level == AV_LEVEL_UNKNOWN then "unknown" else Decimal(level)
  }

  /** A level name reads back as the level, and "unknown" reads back as nothing. */
  lemma LevelNameRoundTrip(level: int)
    ensures ParseInt(LevelName(level), 10) == (if level == AV_LEVEL_UNKNOWN then None else Some(level))
  {
    if level == AV_LEVEL_UNKNOWN {
      assert DigitValue('n').None?;
      assert LevelName(level)[|"unknown"| - 1] == 'n';
    } else {
      ParseIntToString(level, 10);
    }
  }

  /** formatAspectRatio: "num:den", or "unknown" when the denominator is 0. */
  function FormatAspectRatio(num: int, den: int): string
  {
    if den == 0 then "unknown" else Decimal(num) + ":" + Decimal(den)
  }

  /** The position of the first occurrence of `c` in `s`. */
  function IndexOf(s: string, c: char): (r: Option<nat>)
    ensures r.Some? ==> r.value < |s| && s[r.value] == c && c !in s[..r.value]
    ensures r.None? ==> c !in s
  {
    if s == [] then None
    else if s[0] == c then Some(0)
    else
      match IndexOf(s[1..], c)
      case None => None
      case Some(i) => Some(i + 1)
  }

  /** Reads "num:den" back into its two numbers. */
  function ParseAspectRatio(s: string): Option<(int, int)>
  {
    match IndexOf(s, ':')
    case None => None
    case Some(i) =>
      match (ParseInt(s[..i], 10), ParseInt(s[i + 1..], 10))
      case (Some(num), Some(den)) => Some((num, den))
      case _ => None
  }

  lemma {:induction false} IndexOfAfter(a: string, c: char, b: string)
    requires c !in a
    ensures IndexOf(a + [c] + b, c) == Some(|a|)
    decreases |a|
  {
    var s := a + [c] + b;
    if a == [] {
      assert s[0] == c;
    } else {
      assert s[0] == a[0];
      assert s[1..] == a[1..] + [c] + b;
      IndexOfAfter(a[1..], c, b);
    }
  }

  /** A formatted ratio reads back as its numerator and denominator; "unknown" reads back
      as nothing. */
  lemma AspectRatioRoundTrip(num: int, den: int)
    ensures ParseAspectRatio(FormatAspectRatio(num, den)) == (if den == 0 then None else Some((num, den)))
  {
    if den == 0 {
      assert ':' !in "unknown";
    } else {
      var a, b := Decimal(num), Decimal(den);
      IntToStringShape(num, 10);
      ParseIntToString(num, 10);
      ParseIntToString(den, 10);
      IndexOfAfter(a, ':', b);
      var s := a + [':'] + b;
      assert FormatAspectRatio(num, den) == s;
      assert s[..|a|] == a;
      assert s[|a| + 1..] == b;
    }
  }

  /** The name tables of the container library, each of which may have no entry; the
      channel layout description and the bits per sample are library results as well. */
  datatype Lookups = Lookups(
    decoderName: int32 -> Option<string>,
    pixelFormatName: int32 -> Option<string>,
    profileName: (int32, int32) -> Option<string>,
    colorPrimariesName: int32 -> Option<string>,
    colorTrcName: int32 -> Option<string>,
    colorSpaceName: int32 -> Option<string>,
    chromaLocationName: int32 -> Option<string>,
    sampleFormatName: int32 -> Option<string>,
    channelLayoutName: int -> string,
    bitsPerSample: int32 -> int32)

  /** The getXxxName wrappers: the table's name, or "unknown" when the table has none. */
  function NameOrUnknown(name: Option<string>): (r: string)
    ensures name.None? ==> r == "unknown"
    ensures name.Some? ==> r == name.value
  {
    if name.Some? then name.value else "unknown"
  }

  /** The layout description is written into a 256-byte buffer, so at most 255
      characters of it survive. */
  const LAYOUT_BUFFER_SIZE: nat := 256

  function ChannelLayoutText(description: string): (r: string)
    ensures |r| < LAYOUT_BUFFER_SIZE
    ensures r <= description
    ensures |description| < LAYOUT_BUFFER_SIZE ==> r == description
  {
    if |description| < LAYOUT_BUFFER_SIZE then description else description[..LAYOUT_BUFFER_SIZE - 1]
  }

  // ---------------------------------------------------------------------------
  // Stream information

  /** VideoStreamInfo: one video stream's parameters as text and numbers. */
  datatype VideoStreamInfo = VideoStreamInfo(
    streamIndex: int, codecType: string, codecId: string, codecTag: int, format: string,
    bitRate: int64, profile: string, level: string, width: int32, height: int32,
    sampleAspectRatio: string, fieldOrder: string, colorRange: string, colorPrimaries: string,
    colorTrc: string, colorSpace: string, chromaLocation: string, videoDelay: int32)

  /** AudioStreamInfo: one audio stream's parameters as text and numbers. */
  datatype AudioStreamInfo = AudioStreamInfo(
    streamIndex: int, codecType: string, codecId: string, codecTag: int, format: string,
    bitRate: int64, profile: string, sampleRate: int32, channels: int32,
    channelLayout: string, bitsPerSample: int32)

  /** The stream exists in the open context. */
  predicate ValidStream(context: Option<FormatContext>, streamIndex: int)
  {
    context.Some? && 0 <= streamIndex < |context.value.streams|
  }

  /** isVideoStream: false without a context or outside [0, nb_streams). */
  function IsVideoStream(context: Option<FormatContext>, streamIndex: int): bool
  {
    ValidStream(context, streamIndex) && context.value.streams[streamIndex].codecType == Video
  }

  /** isAudioStream: false without a context or outside [0, nb_streams). */
  function IsAudioStream(context: Option<FormatContext>, streamIndex: int): bool
  {
    ValidStream(context, streamIndex) && context.value.streams[streamIndex].codecType == Audio
  }

  /** The manager and the parser classify streams alike: a stream is a video (audio)
      stream exactly when the parser calls it "video" ("audio"), and never both. */
  lemma StreamKindsAgree(context: Option<FormatContext>, streamIndex: int)
    ensures IsVideoStream(context, streamIndex) <==> MediaParser.GetStreamType(context, streamIndex) == "video"
    ensures IsAudioStream(context, streamIndex) <==> MediaParser.GetStreamType(context, streamIndex) == "audio"
    ensures !(IsVideoStream(context, streamIndex) && IsAudioStream(context, streamIndex))
  {
    MediaParser.StreamTypeNames(context, streamIndex);
  }

  /** extractVideoStreamInfo; none stands for the default-constructed entry returned for a
      stream that does not exist. */
  function ExtractVideoStreamInfo(context: Option<FormatContext>, streamIndex: int, lk: Lookups): (r: Option<VideoStreamInfo>)
    ensures r.Some? <==> ValidStream(context, streamIndex)
    ensures r.Some? ==> r.value.streamIndex == streamIndex && r.value.codecType == "video"
  {
    if !ValidStream(context, streamIndex) then None
    else
      var p := context.value.streams[streamIndex];
      Some(VideoStreamInfo(
        streamIndex, "video", NameOrUnknown(lk.decoderName(p.codecId)), p.codecTag,
        NameOrUnknown(lk.pixelFormatName(p.format)), p.bitRate,
        NameOrUnknown(lk.profileName(p.codecId, p.profile)), LevelName(p.level), p.width, p.height,
        FormatAspectRatio(p.sampleAspectNum, p.sampleAspectDen), FieldOrderName(p.fieldOrder),
        ColorRangeName(p.colorRange), NameOrUnknown(lk.colorPrimariesName(p.colorPrimaries)),
        NameOrUnknown(lk.colorTrcName(p.colorTrc)), NameOrUnknown(lk.colorSpaceName(p.colorSpace)),
        NameOrUnknown(lk.chromaLocationName(p.chromaLocation)), p.videoDelay))
  }

  /** extractAudioStreamInfo; the sample format has no "unknown" fallback: a missing name
      becomes the empty string. */
  function ExtractAudioStreamInfo(context: Option<FormatContext>, streamIndex: int, lk: Lookups): (r: Option<AudioStreamInfo>)
    ensures r.Some? <==> ValidStream(context, streamIndex)
    ensures r.Some? ==> r.value.streamIndex == streamIndex && r.value.codecType == "audio"
  {
    if !ValidStream(context, streamIndex) then None
    else
      var p := context.value.streams[streamIndex];
      var format := lk.sampleFormatName(p.format);
      Some(AudioStreamInfo(
        streamIndex, "audio", NameOrUnknown(lk.decoderName(p.codecId)), p.codecTag,
        if format.Some? then format.value else "", p.bitRate,
        NameOrUnknown(lk.profileName(p.codecId, p.profile)), p.sampleRate, p.channels,
        ChannelLayoutText(lk.channelLayoutName(p.channelLayout)), lk.bitsPerSample(p.codecId)))
  }

  /** The video and audio entries of one stream name its codec and profile alike, taken
      from the tables with "unknown" for a missing name; a missing pixel format shows
      "unknown" but a missing sample format shows nothing. */
  lemma StreamInfoNames(context: FormatContext, streamIndex: nat, lk: Lookups)
    requires streamIndex < |context.streams|
    ensures var p := context.streams[streamIndex];
      var v := ExtractVideoStreamInfo(Some(context), streamIndex, lk).value;
      var a := ExtractAudioStreamInfo(Some(context), streamIndex, lk).value;
      && v.codecId == a.codecId
      && v.codecId == (if lk.decoderName(p.codecId).Some? then lk.decoderName(p.codecId).value else "unknown")
      && v.profile == a.profile
      && (lk.pixelFormatName(p.format).None? ==> v.format == "unknown")
      && (lk.sampleFormatName(p.format).None? ==> a.format == "")
      && (lk.pixelFormatName(p.format).Some? ==> v.format == lk.pixelFormatName(p.format).value)
      && (lk.sampleFormatName(p.format).Some? ==> a.format == lk.sampleFormatName(p.format).value)
  {
  }

  /** The video parameters that the manager renders itself read back from the entry. */
  lemma VideoInfoReadsBack(context: FormatContext, streamIndex: nat, lk: Lookups)
    requires streamIndex < |context.streams|
    ensures var info := ExtractVideoStreamInfo(Some(context), streamIndex, lk).value;
      var p := context.streams[streamIndex];
      && ParseInt(info.level, 10) == (if p.level as int == AV_LEVEL_UNKNOWN then None else Some(p.level as int))
      && ParseAspectRatio(info.sampleAspectRatio)
           == (if p.sampleAspectDen == 0 then None else Some((p.sampleAspectNum as int, p.sampleAspectDen as int)))
      && FieldOrderOfName(info.fieldOrder)
           == (if AV_FIELD_PROGRESSIVE <= p.fieldOrder as int <= AV_FIELD_BT then Some(p.fieldOrder as int) else None)
      && ColorRangeOfName(info.colorRange)
           == (if p.colorRange as int == AVCOL_RANGE_MPEG || p.colorRange as int == AVCOL_RANGE_JPEG then Some(p.colorRange as int) else None)
  {
    var p := context.streams[streamIndex];
    LevelNameRoundTrip(p.level);
    AspectRatioRoundTrip(p.sampleAspectNum, p.sampleAspectDen);
    FieldOrderNameRoundTrip(p.fieldOrder);
    ColorRangeNameRoundTrip(p.colorRange);
  }

  /** The index of the first stream of kind t among the first n streams. */
  function FirstOfKind(streams: seq<CodecParameters>, t: MediaType, n: nat): Option<nat>
    requires n <= |streams|
  {
    if n == 0 then None
    else
      var f := FirstOfKind(streams, t, n - 1);
      if f.Some? then f else if streams[n - 1].codecType == t then Some(n - 1) else None
  }

  /** The indexes of the streams of kind t among the first n streams, in increasing order. */
  function IndexesOfKind(streams: seq<CodecParameters>, t: MediaType, n: nat): (r: seq<nat>)
    requires n <= |streams|
    ensures forall k :: 0 <= k < |r| ==> r[k] < n && streams[r[k]].codecType == t
  {
    if n == 0 then []
    else IndexesOfKind(streams, t, n - 1) + (if streams[n - 1].codecType == t then [n - 1] else [])
  }

  /** The indexes of kind t are exactly the streams of that kind, strictly increasing. */
  lemma {:induction false} IndexesOfKindSpec(streams: seq<CodecParameters>, t: MediaType, n: nat)
    requires n <= |streams|
    ensures forall i: nat :: i in IndexesOfKind(streams, t, n) <==> i < n && streams[i].codecType == t
    ensures forall j, k :: 0 <= j < k < |IndexesOfKind(streams, t, n)| ==>
              IndexesOfKind(streams, t, n)[j] < IndexesOfKind(streams, t, n)[k]
    decreases n
  {
    if n > 0 {
      var prev := IndexesOfKind(streams, t, n - 1);
      var last: seq<nat> := if streams[n - 1].codecType == t then [n - 1] else [];
      IndexesOfKindSpec(streams, t, n - 1);
      assert IndexesOfKind(streams, t, n) == prev + last;
      assert forall k :: 0 <= k < |prev| ==> prev[k] < n - 1;
    }
  }

  /** The first stream of a kind is the first of its indexes. */
  lemma {:induction false} FirstOfKindIsFirstIndex(streams: seq<CodecParameters>, t: MediaType, n: nat)
    requires n <= |streams|
    ensures FirstOfKind(streams, t, n) == (if IndexesOfKind(streams, t, n) == [] then None else Some(IndexesOfKind(streams, t, n)[0]))
    decreases n
  {
    if n > 0 {
      FirstOfKindIsFirstIndex(streams, t, n - 1);
    }
  }

  /** findStreams' choice: the lowest stream of the kind, and none exactly when no stream
      has that kind. */
  lemma FirstOfKindSpec(streams: seq<CodecParameters>, t: MediaType)
    ensures var f := FirstOfKind(streams, t, |streams|);
      && (f.Some? ==> f.value < |streams| && streams[f.value].codecType == t
                      && forall i :: 0 <= i < f.value ==> streams[i].codecType != t)
      && (f.None? <==> forall i :: 0 <= i < |streams| ==> streams[i].codecType != t)
  {
    var n := |streams|;
    IndexesOfKindSpec(streams, t, n);
    FirstOfKindIsFirstIndex(streams, t, n);
    var ix := IndexesOfKind(streams, t, n);
    if ix != [] {
      assert forall k :: 0 <= k < |ix| ==> ix[0] <= ix[k];
      forall i | 0 <= i < ix[0]
        ensures streams[i].codecType != t
      {
        var i': nat := i;
        assert i' !in ix;
      }
      assert ix[0] in ix;
    } else {
      forall i | 0 <= i < n
        ensures streams[i].codecType != t
      {
        var i': nat := i;
        assert i' !in ix;
      }
    }
  }

  /** The entries extractAllStreamInfo lists after the first n streams. */
  function VideoInfos(context: FormatContext, lk: Lookups, n: nat): (infos: seq<VideoStreamInfo>)
    requires n <= |context.streams|
    ensures |infos| == |IndexesOfKind(context.streams, Video, n)|
    ensures forall k :: 0 <= k < |infos| ==>
              infos[k] == ExtractVideoStreamInfo(Some(context), IndexesOfKind(context.streams, Video, n)[k], lk).value
  {
    if n == 0 then []
    else
      VideoInfos(context, lk, n - 1)
        + (if IsVideoStream(Some(context), n - 1) then [ExtractVideoStreamInfo(Some(context), n - 1, lk).value] else [])
  }

  function AudioInfos(context: FormatContext, lk: Lookups, n: nat): (infos: seq<AudioStreamInfo>)
    requires n <= |context.streams|
    ensures |infos| == |IndexesOfKind(context.streams, Audio, n)|
    ensures forall k :: 0 <= k < |infos| ==>
              infos[k] == ExtractAudioStreamInfo(Some(context), IndexesOfKind(context.streams, Audio, n)[k], lk).value
  {
    if n == 0 then []
    else
      AudioInfos(context, lk, n - 1)
        + (if IsAudioStream(Some(context), n - 1) then [ExtractAudioStreamInfo(Some(context), n - 1, lk).value] else [])
  }

  /** A list whose entries carry the indexes of kind t, in order, names every stream of
      kind t and no other, in strictly increasing order. */
  lemma KindIndexes(streams: seq<CodecParameters>, t: MediaType, ids: seq<int>)
    requires |ids| == |IndexesOfKind(streams, t, |streams|)|
    requires forall k :: 0 <= k < |ids| ==> ids[k] == IndexesOfKind(streams, t, |streams|)[k]
    ensures forall i :: i in ids <==> 0 <= i < |streams| && streams[i].codecType == t
    ensures forall j, k :: 0 <= j < k < |ids| ==> ids[j] < ids[k]
  {
    var idx := IndexesOfKind(streams, t, |streams|);
    IndexesOfKindSpec(streams, t, |streams|);
    forall i | i in ids
      ensures 0 <= i < |streams| && streams[i].codecType == t
    {
      var k :| 0 <= k < |ids| && ids[k] == i;
      assert idx[k] in idx;
    }
    forall i | 0 <= i < |streams| && streams[i].codecType == t
      ensures i in ids
    {
      var n: nat := i;
      assert n in idx;
      var k :| 0 <= k < |idx| && idx[k] == n;
      assert ids[k] == i;
    }
  }

  /** The stream indexes recorded in the video list, in list order. */
  lemma VideoIndexes(context: FormatContext, lk: Lookups) returns (ids: seq<int>)
    ensures var videos := VideoInfos(context, lk, |context.streams|);
      && |ids| == |videos| == |IndexesOfKind(context.streams, Video, |context.streams|)|
      && (forall k :: 0 <= k < |ids| ==> ids[k] == videos[k].streamIndex)
      && (forall k :: 0 <= k < |ids| ==> ids[k] == IndexesOfKind(context.streams, Video, |context.streams|)[k])
  {
    var videos := VideoInfos(context, lk, |context.streams|);
    var idx := IndexesOfKind(context.streams, Video, |context.streams|);
    ids := seq(|videos|, k requires 0 <= k < |videos| => videos[k].streamIndex);
    forall k | 0 <= k < |ids|
      ensures ids[k] == idx[k]
    {
      assert videos[k] == ExtractVideoStreamInfo(Some(context), idx[k], lk).value;
    }
  }

  /** The video list names every video stream once, in increasing index order, and no
      stream of another kind. */
  lemma VideoListSpec(context: FormatContext, lk: Lookups)
    ensures var videos := VideoInfos(context, lk, |context.streams|);
      && (forall i :: (exists k :: 0 <= k < |videos| && videos[k].streamIndex == i) <==>
                      0 <= i < |context.streams| && context.streams[i].codecType == Video)
      && (forall j, k :: 0 <= j < k < |videos| ==> videos[j].streamIndex < videos[k].streamIndex)
  {
    var videos := VideoInfos(context, lk, |context.streams|);
    var ids := VideoIndexes(context, lk);
    KindIndexes(context.streams, Video, ids);
    forall i
      ensures (exists k :: 0 <= k < |videos| && videos[k].streamIndex == i) <==> i in ids
    {
      if i in ids {
        var k :| 0 <= k < |ids| && ids[k] == i;
        assert videos[k].streamIndex == i;
      }
      if exists k :: 0 <= k < |videos| && videos[k].streamIndex == i {
        var k :| 0 <= k < |videos| && videos[k].streamIndex == i;
        assert ids[k] == i;
      }
    }
  }

  /** The stream indexes recorded in the audio list, in list order. */
  lemma AudioIndexes(context: FormatContext, lk: Lookups) returns (ids: seq<int>)
    ensures var audios := AudioInfos(context, lk, |context.streams|);
      && |ids| == |audios| == |IndexesOfKind(context.streams, Audio, |context.streams|)|
      && (forall k :: 0 <= k < |ids| ==> ids[k] == audios[k].streamIndex)
      && (forall k :: 0 <= k < |ids| ==> ids[k] == IndexesOfKind(context.streams, Audio, |context.streams|)[k])
  {
    var audios := AudioInfos(context, lk, |context.streams|);
    var idx := IndexesOfKind(context.streams, Audio, |context.streams|);
    ids := seq(|audios|, k requires 0 <= k < |audios| => audios[k].streamIndex);
    forall k | 0 <= k < |ids|
      ensures ids[k] == idx[k]
    {
      assert audios[k] == ExtractAudioStreamInfo(Some(context), idx[k], lk).value;
    }
  }

  /** The audio list names every audio stream once, in increasing index order, and no
      stream of another kind. */
  lemma AudioListSpec(context: FormatContext, lk: Lookups)
    ensures var audios := AudioInfos(context, lk, |context.streams|);
      && (forall i :: (exists k :: 0 <= k < |audios| && audios[k].streamIndex == i) <==>
                      0 <= i < |context.streams| && context.streams[i].codecType == Audio)
      && (forall j, k :: 0 <= j < k < |audios| ==> audios[j].streamIndex < audios[k].streamIndex)
  {
    var audios := AudioInfos(context, lk, |context.streams|);
    var ids := AudioIndexes(context, lk);
    KindIndexes(context.streams, Audio, ids);
    forall i
      ensures (exists k :: 0 <= k < |audios| && audios[k].streamIndex == i) <==> i in ids
    {
      if i in ids {
        var k :| 0 <= k < |ids| && ids[k] == i;
        assert audios[k].streamIndex == i;
      }
      if exists k :: 0 <= k < |audios| && audios[k].streamIndex == i {
        var k :| 0 <= k < |audios| && audios[k].streamIndex == i;
        assert ids[k] == i;
      }
    }
  }

  // ---------------------------------------------------------------------------
  // MediaFileManager

  /** The signals the manager emits. */
  datatype ManagerEvent =
    | FileOpened(path: string)
    | FileClosed
    | ManagerError(message: string)
    | StreamsInfoUpdated(videos: seq<VideoStreamInfo>, audios: seq<AudioStreamInfo>)

  const FFMPEG_OPEN_FAILED: string := "Failed to open file with FFmpeg"
  const NO_STREAMS: string := "Could not find video or audio streams"
  const ALLOCATION_FAILED: string := "Could not allocate packet or frame"

  class MediaFileManager {
    var currentFilePath: string
    var fileSize: int64
    var formatContext: Option<FormatContext>
    /** The chosen streams, by index (the source keeps pointers to them). */
    var videoStream: Option<nat>
    var audioStream: Option<nat>
    var hasPacket: bool
    var hasFrame: bool
    var videoStreamInfoList: seq<VideoStreamInfo>
    var audioStreamInfoList: seq<AudioStreamInfo>

    /** Nothing is held without a file, the chosen streams are streams of the right kind in
        the open context, and the lists describe video and audio streams of that context. */
    ghost predicate Valid()
      reads this
    {
      && (currentFilePath == "" ==> formatContext.None? && !hasPacket && !hasFrame)
      && (videoStream.Some? ==> IsVideoStream(formatContext, videoStream.value))
      && (audioStream.Some? ==> IsAudioStream(formatContext, audioStream.value))
      && (forall k :: 0 <= k < |videoStreamInfoList| ==> IsVideoStream(formatContext, videoStreamInfoList[k].streamIndex))
      && (forall k :: 0 <= k < |audioStreamInfoList| ==> IsAudioStream(formatContext, audioStreamInfoList[k].streamIndex))
    }

    /** A new manager holds no file and no resources. */
    constructor ()
      ensures currentFilePath == "" && fileSize == 0 && formatContext == None
      ensures videoStream == None && audioStream == None && !hasPacket && !hasFrame
      ensures videoStreamInfoList == [] && audioStreamInfoList == []
      ensures Valid()
    {
      currentFilePath := "";
      fileSize := 0;
      formatContext := None;
      videoStream, audioStream := None, None;
      hasPacket, hasFrame := false, false;
      videoStreamInfoList, audioStreamInfoList := [], [];
    }

    /** openFile: a missing file is reported and changes nothing; an existing file's path
        and size are recorded before it is opened with the container library, and stay
        recorded when that fails. `fileExists` and `size` are what the file system reports;
        `outcome`, the two allocations and `lk` are what the library does. */
    method OpenFile(filePath: string, fileExists: bool, size: int64, outcome: OpenOutcome,
                    packetAllocated: bool, frameAllocated: bool, lk: Lookups)
      returns (ok: bool, events: seq<ManagerEvent>)
      requires Valid()
      requires filePath == "" ==> !fileExists
      modifies this
      ensures Valid()
      ensures !fileExists ==> !ok && events == [ManagerError("File does not exist: " + filePath)] && unchanged(this)
      ensures fileExists ==> currentFilePath == filePath && fileSize == size
      ensures fileExists ==> ok == OpenSucceeds(outcome, packetAllocated, frameAllocated)
      ensures fileExists ==> events == OpenEvents(filePath, outcome, packetAllocated, frameAllocated, lk)
      ensures fileExists ==> HoldsOpenResult(outcome, packetAllocated, frameAllocated, lk)
    {
      if !fileExists {
        return false, [ManagerError("File does not exist: " + filePath)];
      }
      currentFilePath := filePath;
      fileSize := size;
      var libraryOk, inner := OpenFFmpegFile(outcome, packetAllocated, frameAllocated, lk);
      if !libraryOk {
        return false, inner + [ManagerError(FFMPEG_OPEN_FAILED)];
      }
      return true, inner + [FileOpened(filePath)];
    }

    /** The state openFFmpegFile leaves for the given library behaviour. */
    ghost predicate HoldsOpenResult(outcome: OpenOutcome, packetAllocated: bool, frameAllocated: bool, lk: Lookups)
      reads this
    {
      match outcome
      case OpenInputFailed(_) =>
        && formatContext == None && videoStream == None && audioStream == None
        && !hasPacket && !hasFrame && videoStreamInfoList == [] && audioStreamInfoList == []
      case StreamInfoFailed(context, _) =>
        && formatContext == Some(context) && videoStream == None && audioStream == None
        && !hasPacket && !hasFrame && videoStreamInfoList == [] && audioStreamInfoList == []
      case Opened(context) =>
        var n := |context.streams|;
        && formatContext == Some(context)
        && videoStream == FirstOfKind(context.streams, Video, n)
        && audioStream == FirstOfKind(context.streams, Audio, n)
        && (videoStream.Some? || audioStream.Some? ==> hasPacket == packetAllocated && hasFrame == frameAllocated)
        && (videoStream.None? && audioStream.None? ==> !hasPacket && !hasFrame)
        && (if OpenSucceeds(outcome, packetAllocated, frameAllocated)
            then videoStreamInfoList == VideoInfos(context, lk, n) && audioStreamInfoList == AudioInfos(context, lk, n)
            else videoStreamInfoList == [] && audioStreamInfoList == [])
    }

    /** closeFile: with a file open, releases everything, forgets the path and the size and
        reports the close; without one, does nothing. Afterwards no resource is held. */
    method CloseFile() returns (events: seq<ManagerEvent>)
      requires Valid()
      modifies this
      ensures Valid()
      ensures old(currentFilePath) == "" ==> unchanged(this) && events == []
      ensures old(currentFilePath) != "" ==>
        && currentFilePath == "" && fileSize == 0 && events == [FileClosed]
        && videoStream == None && audioStream == None
        && videoStreamInfoList == [] && audioStreamInfoList == []
      ensures formatContext == None && !hasPacket && !hasFrame
    {
      events := [];
      if currentFilePath != "" {
        CleanupFFmpegResources();
        currentFilePath := "";
        fileSize := 0;
        events := [FileClosed];
      }
    }

    /** openFFmpegFile: releases what was held, opens the file and reads its stream
        information, chooses the streams, allocates the packet and the frame, and lists the
        streams. Each failure is reported and ends the attempt. */
    method OpenFFmpegFile(outcome: OpenOutcome, packetAllocated: bool, frameAllocated: bool, lk: Lookups)
      returns (ok: bool, events: seq<ManagerEvent>)
      requires currentFilePath != ""
      modifies this
      ensures currentFilePath == old(currentFilePath) && fileSize == old(fileSize)
      ensures ok == OpenSucceeds(outcome, packetAllocated, frameAllocated)
      ensures !ok ==> events + [ManagerError(FFMPEG_OPEN_FAILED)] == OpenEvents(currentFilePath, outcome, packetAllocated, frameAllocated, lk)
      ensures ok ==> events + [FileOpened(currentFilePath)] == OpenEvents(currentFilePath, outcome, packetAllocated, frameAllocated, lk)
      ensures HoldsOpenResult(outcome, packetAllocated, frameAllocated, lk)
      ensures Valid()
    {
      CleanupFFmpegResources();
      match outcome {
        case OpenInputFailed(reason) =>
          formatContext := None;
          return false, [ManagerError("Could not open input file: " + reason)];
        case StreamInfoFailed(context, reason) =>
          formatContext := Some(context);
          return false, [ManagerError("Could not find stream information: " + reason)];
        case Opened(context) =>
          formatContext := Some(context);
          ok, events := SetUpStreams(packetAllocated, frameAllocated, lk);
      }
    }

    /** The rest of openFFmpegFile once the stream information is read: choose the
        streams, allocate the packet and the frame, and list the streams. */
    method SetUpStreams(packetAllocated: bool, frameAllocated: bool, lk: Lookups)
      returns (ok: bool, events: seq<ManagerEvent>)
      requires formatContext.Some? && currentFilePath != ""
      requires !hasPacket && !hasFrame && videoStreamInfoList == [] && audioStreamInfoList == []
      modifies this
      ensures formatContext == old(formatContext)
      ensures currentFilePath == old(currentFilePath) && fileSize == old(fileSize)
      ensures var streams := formatContext.value.streams;
        && videoStream == FirstOfKind(streams, Video, |streams|)
        && audioStream == FirstOfKind(streams, Audio, |streams|)
      ensures ok <==> (videoStream.Some? || audioStream.Some?) && packetAllocated && frameAllocated
      ensures videoStream.None? && audioStream.None? ==>
                !hasPacket && !hasFrame && events == [ManagerError(NO_STREAMS)]
      ensures videoStream.Some? || audioStream.Some? ==> hasPacket == packetAllocated && hasFrame == frameAllocated
      ensures (videoStream.Some? || audioStream.Some?) && !ok ==> events == [ManagerError(ALLOCATION_FAILED)]
      ensures ok ==> var context := formatContext.value;
        && videoStreamInfoList == VideoInfos(context, lk, |context.streams|)
        && audioStreamInfoList == AudioInfos(context, lk, |context.streams|)
        && events == [StreamsInfoUpdated(videoStreamInfoList, audioStreamInfoList)]
      ensures !ok ==> videoStreamInfoList == [] && audioStreamInfoList == []
      ensures Valid()
    {
      var found := FindStreams();
      FirstOfKindSpec(formatContext.value.streams, Video);
      FirstOfKindSpec(formatContext.value.streams, Audio);
      if !found {
        return false, [ManagerError(NO_STREAMS)];
      }
      hasPacket := packetAllocated;
      hasFrame := frameAllocated;
      if !hasPacket || !hasFrame {
        return false, [ManagerError(ALLOCATION_FAILED)];
      }
      var updated := ExtractAllStreamInfo(lk);
      return true, [updated];
    }

    /** findStreams: the lowest-index video stream and the lowest-index audio stream; true
        when at least one exists. */
    method FindStreams() returns (found: bool)
      requires formatContext.Some?
      modifies this`videoStream, this`audioStream
      ensures videoStream == FirstOfKind(formatContext.value.streams, Video, |formatContext.value.streams|)
      ensures audioStream == FirstOfKind(formatContext.value.streams, Audio, |formatContext.value.streams|)
      ensures found <==> videoStream.Some? || audioStream.Some?
    {
      videoStream := None;
      audioStream := None;
      var streams := formatContext.value.streams;
      for i := 0 to |streams|
        invariant videoStream == FirstOfKind(streams, Video, i)
        invariant audioStream == FirstOfKind(streams, Audio, i)
      {
        if videoStream.None? && IsVideoStream(formatContext, i) {
          videoStream := Some(i);
        }
        if audioStream.None? && IsAudioStream(formatContext, i) {
          audioStream := Some(i);
        }
      }
      found := videoStream.Some? || audioStream.Some?;
    }

    /** extractAllStreamInfo: one entry per video stream and per audio stream, in stream
        order; the updated lists are reported. */
    method ExtractAllStreamInfo(lk: Lookups) returns (event: ManagerEvent)
      requires formatContext.Some?
      modifies this`videoStreamInfoList, this`audioStreamInfoList
      ensures var context := formatContext.value;
        && videoStreamInfoList == VideoInfos(context, lk, |context.streams|)
        && audioStreamInfoList == AudioInfos(context, lk, |context.streams|)
      ensures event == StreamsInfoUpdated(videoStreamInfoList, audioStreamInfoList)
    {
      videoStreamInfoList := [];
      audioStreamInfoList := [];
      var context := formatContext.value;
      for i := 0 to |context.streams|
        invariant videoStreamInfoList == VideoInfos(context, lk, i)
        invariant audioStreamInfoList == AudioInfos(context, lk, i)
      {
        if IsVideoStream(formatContext, i) {
          var info := ExtractVideoStreamInfo(formatContext, i, lk);
          videoStreamInfoList := videoStreamInfoList + [info.value];
        } else if IsAudioStream(formatContext, i) {
          var info := ExtractAudioStreamInfo(formatContext, i, lk);
          audioStreamInfoList := audioStreamInfoList + [info.value];
        }
      }
      event := StreamsInfoUpdated(videoStreamInfoList, audioStreamInfoList);
    }

    /** cleanupFFmpegResources: closes the context, frees the packet and the frame, forgets
        the chosen streams and empties both lists. */
    method CleanupFFmpegResources()
      modifies this
      ensures formatContext == None && !hasPacket && !hasFrame
      ensures videoStream == None && audioStream == None
      ensures videoStreamInfoList == [] && audioStreamInfoList == []
      ensures currentFilePath == old(currentFilePath) && fileSize == old(fileSize)
      ensures Valid()
    {
      if formatContext.Some? {
        formatContext := None;
      }
      if hasPacket {
        hasPacket := false;
      }
      if hasFrame {
        hasFrame := false;
      }
      videoStream := None;
      audioStream := None;
      videoStreamInfoList := [];
      audioStreamInfoList := [];
    }

    /** getTotalStreamCount: the number of streams, 0 without a context. */
    method GetTotalStreamCount() returns (n: nat)
      ensures n == TotalStreamCount(formatContext)
    {
      n := if formatContext.Some? then |formatContext.value.streams| else 0;
    }

    /** getVideoStreamCount / getAudioStreamCount. */
    method GetStreamCounts() returns (videos: nat, audios: nat)
      ensures videos == |videoStreamInfoList| && audios == |audioStreamInfoList|
    {
      videos, audios := |videoStreamInfoList|, |audioStreamInfoList|;
    }

    /** getCurrentFilePath / getFileSize. */
    method GetFile() returns (path: string, size: int64)
      ensures path == currentFilePath && size == fileSize
    {
      path, size := currentFilePath, fileSize;
    }
  }

  /** getTotalStreamCount's value. */
  function TotalStreamCount(context: Option<FormatContext>): nat
  {
    if context.Some? then |context.value.streams| else 0
  }

  /** Every stream counted by getTotalStreamCount is one isVideoStream and isAudioStream
      may accept, and they accept nothing beyond it. */
  lemma TotalStreamCountBounds(context: Option<FormatContext>, streamIndex: int)
    ensures IsVideoStream(context, streamIndex) || IsAudioStream(context, streamIndex) ==> 0 <= streamIndex < TotalStreamCount(context)
    ensures context.None? ==> TotalStreamCount(context) == 0
  {
  }

  /** Whether openFFmpegFile succeeds for the given library behaviour. */
  function OpenSucceeds(outcome: OpenOutcome, packetAllocated: bool, frameAllocated: bool): bool
  {
    && outcome.Opened?
    && (var streams := outcome.context.streams;
        FirstOfKind(streams, Video, |streams|).Some? || FirstOfKind(streams, Audio, |streams|).Some?)
    && packetAllocated && frameAllocated
  }

  /** The signals openFile emits for an existing file: the library's own failure followed
      by the generic one, or the stream lists followed by the open. */
  function OpenEvents(filePath: string, outcome: OpenOutcome, packetAllocated: bool, frameAllocated: bool, lk: Lookups): seq<ManagerEvent>
  {
    match outcome
    case OpenInputFailed(reason) =>
      [ManagerError("Could not open input file: " + reason), ManagerError(FFMPEG_OPEN_FAILED)]
    case StreamInfoFailed(_, reason) =>
      [ManagerError("Could not find stream information: " + reason), ManagerError(FFMPEG_OPEN_FAILED)]
    case Opened(context) =>
      var n := |context.streams|;
      if FirstOfKind(context.streams, Video, n).None? && FirstOfKind(context.streams, Audio, n).None? then
        [ManagerError(NO_STREAMS), ManagerError(FFMPEG_OPEN_FAILED)]
      else if !packetAllocated || !frameAllocated then
        [ManagerError(ALLOCATION_FAILED), ManagerError(FFMPEG_OPEN_FAILED)]
      else
        [StreamsInfoUpdated(VideoInfos(context, lk, n), AudioInfos(context, lk, n)), FileOpened(filePath)]
  }

  /** openFile emits exactly two signals for an existing file, and announces the file
      exactly when it succeeds, as its last signal; a failure always ends with the generic
      error. */
  lemma OpenEventsShape(filePath: string, outcome: OpenOutcome, packetAllocated: bool, frameAllocated: bool, lk: Lookups)
    ensures var evs := OpenEvents(filePath, outcome, packetAllocated, frameAllocated, lk);
      && |evs| == 2
      && (evs[1] == FileOpened(filePath) <==> OpenSucceeds(outcome, packetAllocated, frameAllocated))
      && (!OpenSucceeds(outcome, packetAllocated, frameAllocated) ==> evs[1] == ManagerError(FFMPEG_OPEN_FAILED) && evs[0].ManagerError?)
      && (OpenSucceeds(outcome, packetAllocated, frameAllocated) ==> evs[0].StreamsInfoUpdated?)
  {
  }
}
