/** The world outside the binding layer, replaced by oracles: the operating
    system the program was built for, the file system, the dynamic loader and
    the version numbers the loaded libraries report. Also the rule that turns
    a library and a major version into a file name. */
module Environment {
  import opened Common

  datatype Platform = Windows | Linux | OtherPlatform

  /** The four FFmpeg libraries, in the order in which they are loaded. */
  datatype Lib = AvUtil | Swresample | AvCodec | AvFormat

  const LoadOrder: seq<Lib> := [AvUtil, Swresample, AvCodec, AvFormat]

  function BaseName(l: Lib): string {
    match l
    case AvUtil => "avutil"
    case Swresample => "swresample"
    case AvCodec => "avcodec"
    case AvFormat => "avformat"
  }

  /** What a library's `*_version()` entry point reports, already split into
      its major, minor and micro parts. */
  datatype RuntimeVersion = RuntimeVersion(major: int, minor: int, micro: int)

  /** The oracles. File names are the full names handed to the loader
      (directory prefix included). */
  datatype Env = Env(
    platform: Platform,
    dirExists: string -> bool,
    absolutePath: string -> string,
    canLoad: string -> bool,
    exports: string -> set<string>,
    runtimeVersion: string -> RuntimeVersion)

  /** How many naming schemes are tried on a platform. */
  function NrNames(p: Platform): (n: nat)
    ensures n <= 2
  {
    match p
    case Linux => 2
    case Windows => 1
    case OtherPlatform => 0
  }

  /** The file name of library `lib` with major version `ver` under naming
      scheme `idx`: `avutil-55` on Windows, `libavutil-ffmpeg.so.55` (Ubuntu)
      or `libavutil.so.55` (Arch) on Linux, and nothing elsewhere. */
  function ConstructLibName(p: Platform, lib: string, ver: int, idx: int): (name: string)
    ensures p == OtherPlatform ==> name == ""
  {
    if p == Windows then lib + "-" + IntToString(ver)
    else if p == Linux && idx == 0 then "lib" + lib + "-ffmpeg.so." + IntToString(ver)
    else if p == Linux && idx == 1 then "lib" + lib + ".so." + IntToString(ver)
    else ""
  }

  /** The character at position 2 of a base name tells the four libraries apart. */
  lemma BaseNamesDiffer(l1: Lib, l2: Lib)
    ensures |BaseName(l1)| > 2 && |BaseName(l2)| > 2
    ensures BaseName(l1)[2] == BaseName(l2)[2] ==> l1 == l2
  {
  }

  /** What comes before the version number in a name. */
  function NamePrefix(p: Platform, lib: string, idx: nat): string {
    if p == Windows then lib + "-"
    else if idx == 0 then "lib" + lib + "-ffmpeg.so."
    else "lib" + lib + ".so."
  }

  /** Where the base name's third character sits in a name. */
  function TagPosition(p: Platform): nat {
    if p == Windows then 2 else 5
  }

  lemma NameShape(p: Platform, l: Lib, v: int, idx: nat)
    requires idx < NrNames(p)
    ensures ConstructLibName(p, BaseName(l), v, idx) == NamePrefix(p, BaseName(l), idx) + IntToString(v)
    ensures |NamePrefix(p, BaseName(l), idx)| > TagPosition(p)
    ensures NamePrefix(p, BaseName(l), idx)[TagPosition(p)] == BaseName(l)[2]
  {
  }

  /** On a platform that has a naming scheme, every scheme gives each library
      and major version a name of its own. */
  lemma LibNamesDistinct(p: Platform, l1: Lib, v1: int, l2: Lib, v2: int, idx: nat)
    requires idx < NrNames(p)
    requires ConstructLibName(p, BaseName(l1), v1, idx) == ConstructLibName(p, BaseName(l2), v2, idx)
    ensures l1 == l2 && v1 == v2
  {
    NameShape(p, l1, v1, idx);
    NameShape(p, l2, v2, idx);
    BaseNamesDiffer(l1, l2);
    var t := TagPosition(p);
    assert ConstructLibName(p, BaseName(l1), v1, idx)[t] == BaseName(l1)[2];
    assert ConstructLibName(p, BaseName(l2), v2, idx)[t] == BaseName(l2)[2];
    PrefixCancel(NamePrefix(p, BaseName(l1), idx), IntToString(v1), IntToString(v2));
    IntToStringInjective(v1, v2);
  }

  /** The two Linux schemes never name the same file, so trying the second
      one after the first has failed is not a repetition. */
  lemma LinuxSchemesDiffer(lib: string, v1: int, v2: int)
    ensures ConstructLibName(Linux, lib, v1, 0) != ConstructLibName(Linux, lib, v2, 1)
  {
    var n1 := ConstructLibName(Linux, lib, v1, 0);
    var n2 := ConstructLibName(Linux, lib, v2, 1);
    assert n1[3 + |lib|] == '-';
    assert n2[3 + |lib|] == '.';
  }

  /** A platform without a naming scheme names no file at all. */
  lemma OtherPlatformHasNoNames(lib: string, ver: int, idx: int)
    ensures NrNames(OtherPlatform) == 0
    ensures ConstructLibName(OtherPlatform, lib, ver, idx) == ""
  {
  }

  /** The schemes counted for a platform are exactly those that name a file;
      on Windows the one name ignores the scheme index. */
  lemma SchemesNamed(p: Platform, lib: string, ver: int, idx: nat)
    ensures idx < NrNames(p) ==> ConstructLibName(p, lib, ver, idx) != ""
    ensures p != Windows ==> (ConstructLibName(p, lib, ver, idx) != "" <==> idx < NrNames(p))
    ensures ConstructLibName(p, lib, ver, idx) == "" <==> !(p == Windows || (p == Linux && idx < 2))
  {
  }

  /** The three naming schemes, for avutil 55. */
  lemma ExampleLibNames()
    ensures ConstructLibName(Windows, "avutil", 55, 0) == "avutil-55"
    ensures ConstructLibName(Linux, "avutil", 55, 0) == "libavutil-ffmpeg.so.55"
    ensures ConstructLibName(Linux, "avutil", 55, 1) == "libavutil.so.55"
    ensures ConstructLibName(Linux, "avutil", 55, 2) == ""
  {
    assert NatToString(5) == "5";
    assert NatToString(55) == "55";
  }
}
