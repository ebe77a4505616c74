/** The library configurations the program supports, the version numbers it
    records for the loaded libraries, and the text it shows for them. */
module Versions {
  import opened Common

  /** A supported set of FFmpeg libraries. The name lists the majors of
      avutil, avcodec, avformat and swresample, in that order. */
  datatype FFmpegVersion = FFmpeg_54_56_56_1 | FFmpeg_55_57_57_2

  /** The number of supported configurations; they are tried by index. */
  const NumConfigs: nat := 2

  function ConfigAt(i: nat): FFmpegVersion
    requires i < NumConfigs
  {
    if i == 0 then FFmpeg_54_56_56_1 else FFmpeg_55_57_57_2
  }

  function LibVersionUtil(v: FFmpegVersion): (major: int)
    ensures major == 54 || major == 55
    ensures major == 54 <==> v == FFmpeg_54_56_56_1
  {
    match v
    case FFmpeg_54_56_56_1 => 54
    case FFmpeg_55_57_57_2 => 55
  }

  function LibVersionCodec(v: FFmpegVersion): (major: int)
    ensures major == 56 || major == 57
    ensures major == 56 <==> v == FFmpeg_54_56_56_1
  {
    match v
    case FFmpeg_54_56_56_1 => 56
    case FFmpeg_55_57_57_2 => 57
  }

  function LibVersionFormat(v: FFmpegVersion): (major: int)
    ensures major == 56 || major == 57
    ensures major == 56 <==> v == FFmpeg_54_56_56_1
  {
    match v
    case FFmpeg_54_56_56_1 => 56
    case FFmpeg_55_57_57_2 => 57
  }

  function LibVersionSwresample(v: FFmpegVersion): (major: int)
    ensures major == 1 || major == 2
    ensures major == 1 <==> v == FFmpeg_54_56_56_1
  {
    match v
    case FFmpeg_54_56_56_1 => 1
    case FFmpeg_55_57_57_2 => 2
  }

  /** The major numbers handed to the loader, in its order:
      avutil, swresample, avcodec, avformat. */
  function FileMajors(v: FFmpegVersion): (majors: seq<int>)
    ensures |majors| == 4
    ensures majors[0] == LibVersionUtil(v) && majors[1] == LibVersionSwresample(v)
    ensures majors[2] == LibVersionCodec(v) && majors[3] == LibVersionFormat(v)
  {
    [LibVersionUtil(v), LibVersionSwresample(v), LibVersionCodec(v), LibVersionFormat(v)]
  }

  /** The version table, configuration by configuration. */
  lemma VersionTable()
    ensures FileMajors(ConfigAt(0)) == [54, 1, 56, 56]
    ensures FileMajors(ConfigAt(1)) == [55, 2, 57, 57]
  {
  }

  /** The version numbers recorded for the loaded libraries. */
  datatype LibVersion = LibVersion(
    avutil: int, avutilMinor: int, avutilMicro: int,
    swresample: int, swresampleMinor: int, swresampleMicro: int,
    avcodec: int, avcodecMinor: int, avcodecMicro: int,
    avformat: int, avformatMinor: int, avformatMicro: int)

  /** One `name major.minor.micro` group of the version text, followed by `rest`. */
  function Group(name: string, major: int, minor: int, micro: int, rest: string): string {
    name + (" " + (IntToString(major) + ("." + (IntToString(minor) + ("." + (IntToString(micro) + rest))))))
  }

  /** The text shown for the loaded libraries: four groups separated by
      blanks. The avCodec group prints the avformat micro number in its third
      place, as the program does. */
  function LibVersionString(v: LibVersion): (s: string)
    ensures "avUtil " <= s
  {
    Group("avUtil", v.avutil, v.avutilMinor, v.avutilMicro,
      " " + Group("avFormat", v.avformat, v.avformatMinor, v.avformatMicro,
      " " + Group("avCodec", v.avcodec, v.avcodecMinor, v.avformatMicro,
      " " + Group("swresample", v.swresample, v.swresampleMinor, v.swresampleMicro, ""))))
  }

  /** A number, a separator and a tail: equal strings mean equal numbers and equal tails. */
  lemma NumberThenSeparator(a: int, r: string, b: int, t: string, sep: char)
    requires sep == '.' || sep == ' '
    requires IntToString(a) + ([sep] + r) == IntToString(b) + ([sep] + t)
    ensures a == b && r == t
  {
    NoSeparatorInNumber(a, sep);
    NoSeparatorInNumber(b, sep);
    SplitAtSeparator(IntToString(a), r, IntToString(b), t, sep);
    IntToStringInjective(a, b);
  }

  /** The three numbers of a group can be read back, and so can the tail,
      when both tails are empty or both start with a blank. */
  lemma GroupReadBack(n: string, a: int, b: int, c: int, r: string, a': int, b': int, c': int, r': string)
    requires Group(n, a, b, c, r) == Group(n, a', b', c', r')
    requires (r == "" && r' == "") || (|r| > 0 && |r'| > 0 && r[0] == ' ' && r'[0] == ' ')
    ensures a == a' && b == b' && c == c' && r == r'
  {
    var u := IntToString(b) + ("." + (IntToString(c) + r));
    var u' := IntToString(b') + ("." + (IntToString(c') + r'));
    PrefixCancel(n, " " + (IntToString(a) + ("." + u)), " " + (IntToString(a') + ("." + u')));
    PrefixCancel(" ", IntToString(a) + ("." + u), IntToString(a') + ("." + u'));
    NumberThenSeparator(a, u, a', u', '.');
    NumberThenSeparator(b, IntToString(c) + r, b', IntToString(c') + r', '.');
    if r == "" {
      assert IntToString(c) + r == IntToString(c);
      assert IntToString(c') + r' == IntToString(c');
      IntToStringInjective(c, c');
    } else {
      assert r == " " + r[1..];
      assert r' == " " + r'[1..];
      NumberThenSeparator(c, r[1..], c', r'[1..], ' ');
    }
  }

  /** The version text determines every number it shows: equal texts mean
      equal versions in all fields except the avcodec micro number. */
  lemma LibVersionStringDeterminesShownFields(v: LibVersion, w: LibVersion)
    requires LibVersionString(v) == LibVersionString(w)
    ensures v.avutil == w.avutil && v.avutilMinor == w.avutilMinor && v.avutilMicro == w.avutilMicro
    ensures v.avformat == w.avformat && v.avformatMinor == w.avformatMinor && v.avformatMicro == w.avformatMicro
    ensures v.avcodec == w.avcodec && v.avcodecMinor == w.avcodecMinor
    ensures v.swresample == w.swresample && v.swresampleMinor == w.swresampleMinor
    ensures v.swresampleMicro == w.swresampleMicro
  {
    var swr := Group("swresample", v.swresample, v.swresampleMinor, v.swresampleMicro, "");
    var swr' := Group("swresample", w.swresample, w.swresampleMinor, w.swresampleMicro, "");
    var codec := Group("avCodec", v.avcodec, v.avcodecMinor, v.avformatMicro, " " + swr);
    var codec' := Group("avCodec", w.avcodec, w.avcodecMinor, w.avformatMicro, " " + swr');
    var format := Group("avFormat", v.avformat, v.avformatMinor, v.avformatMicro, " " + codec);
    var format' := Group("avFormat", w.avformat, w.avformatMinor, w.avformatMicro, " " + codec');
    GroupReadBack("avUtil", v.avutil, v.avutilMinor, v.avutilMicro, " " + format,
                  w.avutil, w.avutilMinor, w.avutilMicro, " " + format');
    PrefixCancel(" ", format, format');
    GroupReadBack("avFormat", v.avformat, v.avformatMinor, v.avformatMicro, " " + codec,
                  w.avformat, w.avformatMinor, w.avformatMicro, " " + codec');
    PrefixCancel(" ", codec, codec');
    GroupReadBack("avCodec", v.avcodec, v.avcodecMinor, v.avformatMicro, " " + swr,
                  w.avcodec, w.avcodecMinor, w.avformatMicro, " " + swr');
    PrefixCancel(" ", swr, swr');
    GroupReadBack("swresample", v.swresample, v.swresampleMinor, v.swresampleMicro, "",
                  w.swresample, w.swresampleMinor, w.swresampleMicro, "");
  }

  /** The avcodec micro number never reaches the text: the avCodec group
      shows the avformat micro number instead. */
  lemma LibVersionStringIgnoresCodecMicro(v: LibVersion, m: int)
    ensures LibVersionString(v.(avcodecMicro := m)) == LibVersionString(v)
    ensures LibVersionString(v) == LibVersionString(v.(avcodecMicro := v.avformatMicro))
  {
  }
}
