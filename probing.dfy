/** Probing the supported configurations: each one is loaded in turn, and
    accepted only when the libraries it loaded report the major versions
    their file names promise. */
module Probing {
  import opened Common
  import opened Environment
  import opened Versions
  import opened Binding
  import opened Loading

  const CodecMismatch: string :=
    "The openend libAvCodec returned a different major version than it's file name indicates."
  const FormatMismatch: string :=
    "The openend libAvFormat returned a different major version than it's file name indicates."
  const UtilMismatch: string :=
    "The openend libAvUtil returned a different major version than it's file name indicates."
  const SwresampleMismatch: string :=
    "The openend libSwresampleVer returned a different major version than it's file name indicates."

  /** The outcome of trying one configuration: whether it is accepted, the
      version record afterwards and the reason it was rejected. */
  datatype Attempt = Attempt(accepted: bool, version: LibVersion, reason: string)

  /** The outcome of probing: the accepted configuration, if any, the version
      record and the version error text. */
  datatype Outcome = Outcome(config: Option<nat>, version: LibVersion, error: string)

  /** One configuration, step by step: load it; record the file-name majors;
      then, for avcodec, avformat, avutil and swresample in turn, compare the
      major the library reports and record its minor and micro numbers. */
  function TryConfig(env: Env, path: string, v: FFmpegVersion, lv: LibVersion): (r: Attempt)
    ensures r.accepted ==> r.reason == ""
    ensures !LoadSucceeds(env, path, FileMajors(v)) ==>
      !r.accepted && r.version == lv && r.reason == LoadError(env, path, FileMajors(v))
  {
    var majors := FileMajors(v);
    if !LoadSucceeds(env, path, majors) then Attempt(false, lv, LoadError(env, path, majors))
    else
      var files := ChosenFiles(env, path, majors);
      var lv1 := lv.(avutil := majors[0], swresample := majors[1], avcodec := majors[2], avformat := majors[3]);
      var codec := env.runtimeVersion(files.avcodec);
      if codec.major != lv1.avcodec then Attempt(false, lv1, CodecMismatch)
      else
        var lv2 := lv1.(avcodecMinor := codec.minor, avcodecMicro := codec.micro);
        var format := env.runtimeVersion(files.avformat);
        if format.major != lv2.avformat then Attempt(false, lv2, FormatMismatch)
        else
          var lv3 := lv2.(avformatMinor := format.minor, avformatMicro := format.micro);
          var util := env.runtimeVersion(files.avutil);
          if util.major != lv3.avutil then Attempt(false, lv3, UtilMismatch)
          else
            var lv4 := lv3.(avutilMinor := util.minor, avutilMicro := util.micro);
            var swr := env.runtimeVersion(files.swresample);
            if swr.major != lv4.swresample then Attempt(false, lv4, SwresampleMismatch)
            else Attempt(true, lv4.(swresampleMinor := swr.minor, swresampleMicro := swr.micro), "")
  }

  /** Probing from configuration i on, with the given record and error text. */
  function ProbeFrom(env: Env, path: string, i: nat, lv: LibVersion, err: string): (o: Outcome)
    requires i <= NumConfigs
    ensures o.config.Some? ==> i <= o.config.value < NumConfigs && o.error == ""
    decreases NumConfigs - i
  {
    if i == NumConfigs then Outcome(None, lv, err)
    else
      var r := TryConfig(env, path, ConfigAt(i), lv);
      if r.accepted then Outcome(Some(i), r.version, "")
      else ProbeFrom(env, path, i + 1, r.version, r.reason)
  }

  function Probe(env: Env, path: string, lv: LibVersion, err: string): Outcome {
    ProbeFrom(env, path, 0, lv, err)
  }

  /** One step of probing: a rejected configuration hands its record and its
      reason on to the next one. */
  lemma ProbeStep(env: Env, path: string, i: nat, lv: LibVersion, err: string)
    requires i < NumConfigs
    ensures var r := TryConfig(env, path, ConfigAt(i), lv);
      ProbeFrom(env, path, i, lv, err) ==
      if r.accepted then Outcome(Some(i), r.version, "") else ProbeFrom(env, path, i + 1, r.version, r.reason)
  {
  }

  // The declarative view of one configuration.

  /** How many of the four major checks pass, from the front, in the order
      avcodec, avformat, avutil, swresample. */
  function ChecksPassed(env: Env, files: LibFiles, v: FFmpegVersion): (n: nat)
    ensures n <= 4
  {
    if env.runtimeVersion(files.avcodec).major != LibVersionCodec(v) then 0
    else if env.runtimeVersion(files.avformat).major != LibVersionFormat(v) then 1
    else if env.runtimeVersion(files.avutil).major != LibVersionUtil(v) then 2
    else if env.runtimeVersion(files.swresample).major != LibVersionSwresample(v) then 3
    else 4
  }

  /** A configuration is accepted when its libraries load and each of the
      four reports the major its file name carries. */
  predicate Accepts(env: Env, path: string, v: FFmpegVersion) {
    LoadSucceeds(env, path, FileMajors(v))
    && var files := ChosenFiles(env, path, FileMajors(v));
    env.runtimeVersion(files.avcodec).major == LibVersionCodec(v)
    && env.runtimeVersion(files.avformat).major == LibVersionFormat(v)
    && env.runtimeVersion(files.avutil).major == LibVersionUtil(v)
    && env.runtimeVersion(files.swresample).major == LibVersionSwresample(v)
  }

  /** Why a configuration is rejected: the library error when it does not
      load, otherwise the message of the first major check that fails. */
  function RejectReason(env: Env, path: string, v: FFmpegVersion): string {
    var majors := FileMajors(v);
    if !LoadSucceeds(env, path, majors) then LoadError(env, path, majors)
    else
      var n := ChecksPassed(env, ChosenFiles(env, path, majors), v);
      if n == 0 then CodecMismatch
      else if n == 1 then FormatMismatch
      else if n == 2 then UtilMismatch
      else if n == 3 then SwresampleMismatch
      else ""
  }

  /** Trying a configuration accepts it exactly when it is acceptable, and a
      rejection carries its reason, whatever the record held before. */
  lemma TryConfigMeaning(env: Env, path: string, v: FFmpegVersion, lv: LibVersion)
    ensures TryConfig(env, path, v, lv).accepted <==> Accepts(env, path, v)
    ensures !Accepts(env, path, v) ==> TryConfig(env, path, v, lv).reason == RejectReason(env, path, v)
    ensures Accepts(env, path, v) ==> TryConfig(env, path, v, lv).reason == ""
  {
  }

  /** The minor and micro numbers of a library are recorded only once its
      major check has passed; the majors are recorded once loading succeeds;
      nothing is recorded when loading fails. */
  lemma MinorsOnlyAfterMajorCheck(env: Env, path: string, v: FFmpegVersion, lv: LibVersion)
    ensures var r := TryConfig(env, path, v, lv);
      !LoadSucceeds(env, path, FileMajors(v)) ==> r.version == lv
    ensures var r := TryConfig(env, path, v, lv);
      LoadSucceeds(env, path, FileMajors(v)) ==>
      var files := ChosenFiles(env, path, FileMajors(v));
      var n := ChecksPassed(env, files, v);
      r.version.avutil == LibVersionUtil(v) && r.version.swresample == LibVersionSwresample(v)
      && r.version.avcodec == LibVersionCodec(v) && r.version.avformat == LibVersionFormat(v)
      && (r.version.avcodecMinor, r.version.avcodecMicro) ==
         (if n >= 1 then (env.runtimeVersion(files.avcodec).minor, env.runtimeVersion(files.avcodec).micro)
          else (lv.avcodecMinor, lv.avcodecMicro))
      && (r.version.avformatMinor, r.version.avformatMicro) ==
         (if n >= 2 then (env.runtimeVersion(files.avformat).minor, env.runtimeVersion(files.avformat).micro)
          else (lv.avformatMinor, lv.avformatMicro))
      && (r.version.avutilMinor, r.version.avutilMicro) ==
         (if n >= 3 then (env.runtimeVersion(files.avutil).minor, env.runtimeVersion(files.avutil).micro)
          else (lv.avutilMinor, lv.avutilMicro))
      && (r.version.swresampleMinor, r.version.swresampleMicro) ==
         (if n == 4 then (env.runtimeVersion(files.swresample).minor, env.runtimeVersion(files.swresample).micro)
          else (lv.swresampleMinor, lv.swresampleMicro))
  {
  }

  /** Configurations are tried in index order and the first acceptable one
      wins; probing fails exactly when none is acceptable. */
  lemma {:induction false} FirstAcceptedWins(env: Env, path: string, i: nat, lv: LibVersion, err: string)
    requires i <= NumConfigs
    ensures var o := ProbeFrom(env, path, i, lv, err);
      o.config.Some? ==>
        (i <= o.config.value < NumConfigs && Accepts(env, path, ConfigAt(o.config.value))
         && forall j :: i <= j < o.config.value ==> !Accepts(env, path, ConfigAt(j)))
    ensures ProbeFrom(env, path, i, lv, err).config.None? <==>
      forall j :: i <= j < NumConfigs ==> !Accepts(env, path, ConfigAt(j))
    decreases NumConfigs - i
  {
    if i < NumConfigs {
      var r := TryConfig(env, path, ConfigAt(i), lv);
      TryConfigMeaning(env, path, ConfigAt(i), lv);
      if !r.accepted {
        FirstAcceptedWins(env, path, i + 1, r.version, r.reason);
      }
    }
  }

  /** On success the error text is empty and the record holds the file-name
      majors of the accepted configuration and the minor and micro numbers
      its libraries report. */
  lemma {:induction false} SuccessRecordsVersions(env: Env, path: string, i: nat, lv: LibVersion, err: string)
    requires i <= NumConfigs
    requires ProbeFrom(env, path, i, lv, err).config.Some?
    ensures var o := ProbeFrom(env, path, i, lv, err);
      var v := ConfigAt(o.config.value);
      var files := ChosenFiles(env, path, FileMajors(v));
      o.error == "" && LoadSucceeds(env, path, FileMajors(v))
      && o.version.avutil == LibVersionUtil(v) && o.version.swresample == LibVersionSwresample(v)
      && o.version.avcodec == LibVersionCodec(v) && o.version.avformat == LibVersionFormat(v)
      && o.version.avcodecMinor == env.runtimeVersion(files.avcodec).minor
      && o.version.avcodecMicro == env.runtimeVersion(files.avcodec).micro
      && o.version.avformatMinor == env.runtimeVersion(files.avformat).minor
      && o.version.avformatMicro == env.runtimeVersion(files.avformat).micro
      && o.version.avutilMinor == env.runtimeVersion(files.avutil).minor
      && o.version.avutilMicro == env.runtimeVersion(files.avutil).micro
      && o.version.swresampleMinor == env.runtimeVersion(files.swresample).minor
      && o.version.swresampleMicro == env.runtimeVersion(files.swresample).micro
    decreases NumConfigs - i
  {
    var r := TryConfig(env, path, ConfigAt(i), lv);
    if !r.accepted {
      SuccessRecordsVersions(env, path, i + 1, r.version, r.reason);
    }
  }

  /** On failure the error text is the reason the last configuration was
      rejected. */
  lemma {:induction false} FailureKeepsLastReason(env: Env, path: string, i: nat, lv: LibVersion, err: string)
    requires i < NumConfigs
    requires ProbeFrom(env, path, i, lv, err).config.None?
    ensures ProbeFrom(env, path, i, lv, err).error == RejectReason(env, path, ConfigAt(NumConfigs - 1))
    decreases NumConfigs - i
  {
    var r := TryConfig(env, path, ConfigAt(i), lv);
    TryConfigMeaning(env, path, ConfigAt(i), lv);
    if i + 1 < NumConfigs {
      FailureKeepsLastReason(env, path, i + 1, r.version, r.reason);
    }
  }

  /** What loading configuration t leaves in the library object: its library
      error; its four libraries loaded when a scheme loaded and none
      otherwise; and, when loading succeeded, the API flag saying whether the
      newer decoding API is complete. */
  predicate LeftByConfig(env: Env, path: string, t: nat, f: LibraryFunctions)
    requires t < NumConfigs
    reads f
  {
    var majors := FileMajors(ConfigAt(t));
    f.errorString == LoadError(env, path, majors)
    && (ChosenScheme(env, path, majors).Some? ==>
          AllLoaded(f.handles) && f.Files() == ChosenFiles(env, path, majors))
    && (ChosenScheme(env, path, majors).None? ==> NoneLoaded(f.handles))
    && (LoadSucceeds(env, path, majors) ==> f.newParametersAPIAvailable == NewApiFound(env, f.Files()))
  }

  /** The part of the program that picks a configuration and records the
      version numbers of the libraries it loaded. */
  class VersionHandler {
    const functions: LibraryFunctions
    var libVersion: LibVersion
    var versionErrorString: string

    /** The majors start out as -1; the other numbers are left unset. */
    constructor ()
      ensures fresh(functions)
      ensures libVersion.avcodec == -1 && libVersion.avformat == -1
      ensures libVersion.avutil == -1 && libVersion.swresample == -1
      ensures versionErrorString == ""
    {
      functions := new LibraryFunctions();
      libVersion := LibVersion(-1, 0, 0, -1, 0, 0, -1, 0, 0, -1, 0, 0);
      versionErrorString := "";
    }

    /** One configuration: load its libraries from `path`, record the
        file-name majors, and compare, library by library, the major each
        loaded library reports, recording its minor and micro numbers. A
        rejection leaves its reason as the version error text. */
    method TryVersion(env: Env, path: string, i: nat, ghost o: Outcome) returns (accepted: bool)
      requires i < NumConfigs
      requires ProbeFrom(env, path, i, libVersion, versionErrorString) == o
      modifies functions, this`libVersion, this`versionErrorString
      ensures accepted ==> o == Outcome(Some(i), libVersion, "")
      ensures !accepted ==> ProbeFrom(env, path, i + 1, libVersion, versionErrorString) == o
      ensures var r := TryConfig(env, path, ConfigAt(i), old(libVersion));
        accepted == r.accepted && libVersion == r.version
        && versionErrorString == if accepted then old(versionErrorString) else r.reason
      ensures LeftByConfig(env, path, i, functions)
      ensures functions.libPath == if PathUsable(env, path) then Dir(env, path) else old(functions.libPath)
    {
      var v := ConfigAt(i);
      ghost var lv := libVersion;
      ProbeStep(env, path, i, libVersion, versionErrorString);
      var verNum := [LibVersionUtil(v), LibVersionSwresample(v), LibVersionCodec(v), LibVersionFormat(v)];
      assert verNum == FileMajors(v);
      var loaded := functions.LoadInPath(env, path, verNum);
      if LoadSucceeds(env, path, verNum) {
        AllFoundConcat(env, functions.Files(), EarlyLookups(), LateLookups(env, functions.Files()));
      }
      if !loaded {
        versionErrorString := functions.errorString;
        return false;
      }
      libVersion := libVersion.(avutil := verNum[0], swresample := verNum[1],
                                avcodec := verNum[2], avformat := verNum[3]);
      var avCodecVer := env.runtimeVersion(functions.Files().avcodec);
      if avCodecVer.major != libVersion.avcodec {
        versionErrorString := CodecMismatch;
        return false;
      }
      libVersion := libVersion.(avcodecMinor := avCodecVer.minor, avcodecMicro := avCodecVer.micro);
      var avFormatVer := env.runtimeVersion(functions.Files().avformat);
      if avFormatVer.major != libVersion.avformat {
        versionErrorString := FormatMismatch;
        return false;
      }
      libVersion := libVersion.(avformatMinor := avFormatVer.minor, avformatMicro := avFormatVer.micro);
      var avUtilVer := env.runtimeVersion(functions.Files().avutil);
      if avUtilVer.major != libVersion.avutil {
        versionErrorString := UtilMismatch;
        return false;
      }
      libVersion := libVersion.(avutilMinor := avUtilVer.minor, avutilMicro := avUtilVer.micro);
      var swresampleVer := env.runtimeVersion(functions.Files().swresample);
      if swresampleVer.major != libVersion.swresample {
        versionErrorString := SwresampleMismatch;
        return false;
      }
      libVersion := libVersion.(swresampleMinor := swresampleVer.minor, swresampleMicro := swresampleVer.micro);
      accepted := true;
    }

    /** Tries the configurations in order until one loads from `path` and its
        libraries report the majors their file names carry. */
    method LoadInPath(env: Env, path: string) returns (success: bool)
      modifies functions, this`libVersion, this`versionErrorString
      ensures var o := Probe(env, path, old(libVersion), old(versionErrorString));
        success == o.config.Some? && libVersion == o.version && versionErrorString == o.error
      ensures var o := Probe(env, path, old(libVersion), old(versionErrorString));
        o.config.Some? ==>
          (o.config.value < NumConfigs && AllLoaded(functions.handles)
           && functions.Files() == ChosenFiles(env, path, FileMajors(ConfigAt(o.config.value))))
      ensures var o := Probe(env, path, old(libVersion), old(versionErrorString));
        LeftByConfig(env, path, if o.config.Some? then o.config.value else NumConfigs - 1, functions)
      ensures functions.libPath == if PathUsable(env, path) then Dir(env, path) else old(functions.libPath)
    {
      ghost var o := Probe(env, path, libVersion, versionErrorString);
      ghost var path0 := functions.libPath;
      ghost var path1 := if PathUsable(env, path) then Dir(env, path) else path0;
      success := false;
      for i := 0 to NumConfigs
        invariant ProbeFrom(env, path, i, libVersion, versionErrorString) == o
        invariant !success
        invariant i > 0 ==> LeftByConfig(env, path, i - 1, functions)
        invariant functions.libPath == if i == 0 then path0 else path1
      {
        success := TryVersion(env, path, i, o);
        if success {
          break;
        }
      }
      if success {
        versionErrorString := "";
      }
    }
  }
}
