/** Loading the four libraries from a directory, all or nothing, for each
    naming scheme of the platform in turn, and binding their entry points. */
module Loading {
  import opened Common
  import opened Environment
  import opened Binding

  /** A library handle: the file it points at and whether it is loaded. */
  datatype Handle = Handle(fileName: string, loaded: bool)

  /** The handles of avutil, swresample, avcodec and avformat. */
  datatype Handles = Handles(avutil: Handle, swresample: Handle, avcodec: Handle, avformat: Handle)

  function Get(hs: Handles, l: Lib): Handle {
    match l
    case AvUtil => hs.avutil
    case Swresample => hs.swresample
    case AvCodec => hs.avcodec
    case AvFormat => hs.avformat
  }

  function Put(hs: Handles, l: Lib, h: Handle): Handles {
    match l
    case AvUtil => hs.(avutil := h)
    case Swresample => hs.(swresample := h)
    case AvCodec => hs.(avcodec := h)
    case AvFormat => hs.(avformat := h)
  }

  function FilesOfHandles(hs: Handles): LibFiles {
    LibFiles(hs.avutil.fileName, hs.swresample.fileName, hs.avcodec.fileName, hs.avformat.fileName)
  }

  predicate AllLoaded(hs: Handles) {
    hs.avutil.loaded && hs.swresample.loaded && hs.avcodec.loaded && hs.avformat.loaded
  }

  predicate NoneLoaded(hs: Handles) {
    !hs.avutil.loaded && !hs.swresample.loaded && !hs.avcodec.loaded && !hs.avformat.loaded
  }

  /** A usable directory: none given, or one that exists. */
  predicate PathUsable(env: Env, path: string) {
    path == "" || env.dirExists(path)
  }

  /** The prefix put in front of every file name: nothing, or the absolute
      form of the given directory followed by a slash. */
  function Dir(env: Env, path: string): string {
    if path == "" then "" else env.absolutePath(path) + "/"
  }

  /** The four file names of naming scheme i, in load order. */
  function SchemeNames(env: Env, dir: string, majors: seq<int>, i: nat): (names: seq<string>)
    requires |majors| == 4
    ensures |names| == 4
  {
    seq(4, k requires 0 <= k < 4 => dir + ConstructLibName(env.platform, BaseName(LoadOrder[k]), majors[k], i))
  }

  function FilesOf(names: seq<string>): LibFiles
    requires |names| == 4
  {
    LibFiles(names[0], names[1], names[2], names[3])
  }

  /** How many of the names, from the front, the loader accepts. */
  function LoadablePrefix(env: Env, names: seq<string>): (r: nat)
    ensures r <= |names|
    ensures forall j :: 0 <= j < r ==> env.canLoad(names[j])
    ensures r < |names| ==> !env.canLoad(names[r])
  {
    if names == [] || !env.canLoad(names[0]) then 0 else 1 + LoadablePrefix(env, names[1..])
  }

  /** A scheme succeeds when all four of its libraries load. */
  predicate SchemeLoads(env: Env, names: seq<string>) {
    LoadablePrefix(env, names) == |names|
  }

  /** The loads attempted for one scheme: in order, stopping after the first
      one that fails. */
  function SchemeAttempts(env: Env, names: seq<string>): (r: seq<string>)
    requires |names| == 4
    ensures 1 <= |r| <= 4 && r == names[..|r|]
    ensures forall j :: 0 <= j < |r| - 1 ==> env.canLoad(names[j])
    ensures SchemeLoads(env, names) <==> |r| == 4 && env.canLoad(names[3])
  {
    var p := LoadablePrefix(env, names);
    if p == 4 then names else names[..p + 1]
  }

  /** The first scheme, from i on, whose four libraries all load, or
      NrNames(platform) when there is none. */
  function FirstScheme(env: Env, dir: string, majors: seq<int>, i: nat): (r: nat)
    requires |majors| == 4
    requires i <= NrNames(env.platform)
    ensures i <= r <= NrNames(env.platform)
    ensures forall j :: i <= j < r ==> !SchemeLoads(env, SchemeNames(env, dir, majors, j))
    ensures r < NrNames(env.platform) ==> SchemeLoads(env, SchemeNames(env, dir, majors, r))
    decreases NrNames(env.platform) - i
  {
    if i == NrNames(env.platform) then i
    else if SchemeLoads(env, SchemeNames(env, dir, majors, i)) then i
    else FirstScheme(env, dir, majors, i + 1)
  }

  /** Every load attempted from scheme i on, in order. */
  function LoadTrace(env: Env, dir: string, majors: seq<int>, i: nat): seq<string>
    requires |majors| == 4
    decreases NrNames(env.platform) - i
  {
    if i >= NrNames(env.platform) then []
    else
      var names := SchemeNames(env, dir, majors, i);
      SchemeAttempts(env, names) + (if SchemeLoads(env, names) then [] else LoadTrace(env, dir, majors, i + 1))
  }

  /** The scheme the libraries end up loaded from, if any. */
  function ChosenScheme(env: Env, path: string, majors: seq<int>): Option<nat>
    requires |majors| == 4
  {
    if !PathUsable(env, path) then None
    else
      var i := FirstScheme(env, Dir(env, path), majors, 0);
      if i < NrNames(env.platform) then Some(i) else None
  }

  /** The files of the chosen scheme. */
  function ChosenFiles(env: Env, path: string, majors: seq<int>): LibFiles
    requires |majors| == 4
    requires ChosenScheme(env, path, majors).Some?
  {
    FilesOf(SchemeNames(env, Dir(env, path), majors, ChosenScheme(env, path, majors).value))
  }

  /** Whether loading from `path` with these majors succeeds. */
  predicate LoadSucceeds(env: Env, path: string, majors: seq<int>)
    requires |majors| == 4
  {
    ChosenScheme(env, path, majors).Some? && BindSucceeds(env, ChosenFiles(env, path, majors))
  }

  /** The library error text after loading: empty unless binding failed. */
  function LoadError(env: Env, path: string, majors: seq<int>): string
    requires |majors| == 4
  {
    if ChosenScheme(env, path, majors).Some? then BindError(env, ChosenFiles(env, path, majors), "") else ""
  }

  /** One step of the scheme loop: the log so far followed by the loads still
      to come keeps its value when scheme i is tried. */
  lemma StepLoadTrace(env: Env, dir: string, majors: seq<int>, i: nat, log: seq<string>)
    requires |majors| == 4
    requires i < NrNames(env.platform)
    ensures SchemeLoads(env, SchemeNames(env, dir, majors, i)) ==>
      log + LoadTrace(env, dir, majors, i) == log + SchemeAttempts(env, SchemeNames(env, dir, majors, i))
    ensures !SchemeLoads(env, SchemeNames(env, dir, majors, i)) ==>
      log + LoadTrace(env, dir, majors, i) ==
      (log + SchemeAttempts(env, SchemeNames(env, dir, majors, i))) + LoadTrace(env, dir, majors, i + 1)
  {
    var names := SchemeNames(env, dir, majors, i);
    var a := SchemeAttempts(env, names);
    var rest := LoadTrace(env, dir, majors, i + 1);
    assert LoadTrace(env, dir, majors, i) == a + (if SchemeLoads(env, names) then [] else rest);
    if SchemeLoads(env, names) {
      assert a + [] == a;
    } else {
      assert log + (a + rest) == (log + a) + rest;
    }
  }

  /** One step of the scheme loop: a failing scheme does not change which
      scheme is the first to load. */
  lemma StepFirstScheme(env: Env, dir: string, majors: seq<int>, i: nat)
    requires |majors| == 4
    requires i < NrNames(env.platform)
    ensures !SchemeLoads(env, SchemeNames(env, dir, majors, i)) ==>
      FirstScheme(env, dir, majors, i) == FirstScheme(env, dir, majors, i + 1)
    ensures SchemeLoads(env, SchemeNames(env, dir, majors, i)) ==> FirstScheme(env, dir, majors, i) == i
  {
  }

  /** Four loads in a row, in terms of the loader's answers. */
  lemma FourLoads(env: Env, names: seq<string>)
    requires |names| == 4
    ensures SchemeLoads(env, names) <==>
      env.canLoad(names[0]) && env.canLoad(names[1]) && env.canLoad(names[2]) && env.canLoad(names[3])
    ensures SchemeAttempts(env, names) ==
      if !env.canLoad(names[0]) then names[..1]
      else if !env.canLoad(names[1]) then names[..2]
      else if !env.canLoad(names[2]) then names[..3]
      else names
  {
    var p := LoadablePrefix(env, names);
    assert names[1..][1..][1..][1..] == [];
    if env.canLoad(names[0]) {
      assert names[1..][0] == names[1];
      if env.canLoad(names[1]) {
        assert names[1..][1..][0] == names[2];
        if env.canLoad(names[2]) {
          assert names[1..][1..][1..][0] == names[3];
        }
      }
    }
  }

  /** On a platform without naming schemes nothing is ever loaded. */
  lemma OtherPlatformNeverLoads(env: Env, path: string, majors: seq<int>)
    requires |majors| == 4
    requires env.platform == OtherPlatform
    ensures !LoadSucceeds(env, path, majors)
    ensures LoadTrace(env, Dir(env, path), majors, 0) == []
    ensures LoadError(env, path, majors) == ""
  {
  }

  /** The chosen scheme is the first one whose four libraries all load, and
      every earlier scheme had one that did not. */
  lemma FirstSuccessfulSchemeWins(env: Env, path: string, majors: seq<int>)
    requires |majors| == 4
    requires ChosenScheme(env, path, majors).Some?
    ensures PathUsable(env, path)
    ensures ChosenScheme(env, path, majors).value < NrNames(env.platform)
    ensures forall k :: 0 <= k < 4 ==>
      env.canLoad(SchemeNames(env, Dir(env, path), majors, ChosenScheme(env, path, majors).value)[k])
    ensures forall j :: 0 <= j < ChosenScheme(env, path, majors).value ==>
      !SchemeLoads(env, SchemeNames(env, Dir(env, path), majors, j))
  {
    FourLoads(env, SchemeNames(env, Dir(env, path), majors, ChosenScheme(env, path, majors).value));
  }

  /** The entry points and library handles of the four FFmpeg libraries. */
  class LibraryFunctions {
    var handles: Handles
    var errorString: string
    var libPath: string
    /** The symbols whose entry-point field currently holds a function. */
    var bound: set<string>
    var newParametersAPIAvailable: bool
    /** Every file name handed to the loader, in order. */
    ghost var loadLog: seq<string>

    function Files(): LibFiles
      reads this`handles
    {
      FilesOfHandles(handles)
    }

    constructor ()
      ensures handles == Handles(Handle("", false), Handle("", false), Handle("", false), Handle("", false))
      ensures errorString == "" && libPath == "" && bound == {} && !newParametersAPIAvailable
      ensures loadLog == []
    {
      handles := Handles(Handle("", false), Handle("", false), Handle("", false), Handle("", false));
      errorString := "";
      libPath := "";
      bound := {};
      newParametersAPIAvailable := false;
      loadLog := [];
    }

    method UnloadAll()
      modifies this`handles
      ensures NoneLoaded(handles) && Files() == old(Files())
    {
      handles := Handles(handles.avutil.(loaded := false), handles.swresample.(loaded := false),
                         handles.avcodec.(loaded := false), handles.avformat.(loaded := false));
    }

    method SetFileName(l: Lib, name: string)
      modifies this`handles
      ensures handles == Put(old(handles), l, Get(old(handles), l).(fileName := name))
    {
      handles := Put(handles, l, Get(handles, l).(fileName := name));
    }

    /** Asks the loader for the file of library l. */
    method Load(env: Env, l: Lib) returns (ok: bool)
      modifies this`handles, this`loadLog
      ensures ok == env.canLoad(Get(old(handles), l).fileName)
      ensures handles == Put(old(handles), l, Get(old(handles), l).(loaded := ok))
      ensures loadLog == old(loadLog) + [Get(old(handles), l).fileName]
    {
      var h := Get(handles, l);
      ok := env.canLoad(h.fileName);
      handles := Put(handles, l, h.(loaded := ok));
      loadLog := loadLog + [h.fileName];
    }

    /** Names library l and, when tryLoad, asks the loader for it: one step
        of a scheme, where tryLoad says that no earlier load failed. */
    method LoadStep(env: Env, l: Lib, name: string, tryLoad: bool) returns (success: bool)
      modifies this`handles, this`loadLog
      ensures success == (tryLoad && env.canLoad(name))
      ensures handles == Put(old(handles), l, Handle(name, if tryLoad then success else Get(old(handles), l).loaded))
      ensures loadLog == old(loadLog) + if tryLoad then [name] else []
    {
      SetFileName(l, name);
      success := tryLoad;
      if tryLoad {
        success := Load(env, l);
      }
    }

    /** Names the four libraries after one scheme and loads them in order;
        after the first load that fails the remaining ones are not tried. */
    method TryScheme(env: Env, names: seq<string>) returns (success: bool)
      requires |names| == 4
      requires NoneLoaded(handles)
      modifies this`handles, this`loadLog
      ensures success == SchemeLoads(env, names)
      ensures Files() == FilesOf(names)
      ensures success ==> AllLoaded(handles)
      ensures forall k :: 0 <= k < 4 ==> Get(handles, LoadOrder[k]).loaded == (k < LoadablePrefix(env, names))
      ensures loadLog == old(loadLog) + SchemeAttempts(env, names)
    {
      FourLoads(env, names);
      success := LoadStep(env, AvUtil, names[0], true);
      success := LoadStep(env, Swresample, names[1], success);
      success := LoadStep(env, AvCodec, names[2], success);
      success := LoadStep(env, AvFormat, names[3], success);
      assert names[..1] + [names[1]] == names[..2];
      assert names[..2] + [names[2]] == names[..3];
      assert names[..3] + [names[3]] == names;
    }

    /** Tries the naming schemes of the platform in turn until one loads all
        four libraries; every scheme that fails is unloaded again. */
    method LoadFirstScheme(env: Env, dir: string, majors: seq<int>) returns (success: bool)
      requires |majors| == 4
      requires NoneLoaded(handles)
      modifies this`handles, this`loadLog
      ensures success == (FirstScheme(env, dir, majors, 0) < NrNames(env.platform))
      ensures loadLog == old(loadLog) + LoadTrace(env, dir, majors, 0)
      ensures success ==> AllLoaded(handles)
      ensures success ==> Files() == FilesOf(SchemeNames(env, dir, majors, FirstScheme(env, dir, majors, 0)))
      ensures !success ==> NoneLoaded(handles)
      ensures !success ==>
        (Files() == if NrNames(env.platform) == 0 then old(Files())
                    else FilesOf(SchemeNames(env, dir, majors, NrNames(env.platform) - 1)))
    {
      var nrNames := NrNames(env.platform);
      ghost var lastNames := SchemeNames(env, dir, majors, 0);
      success := false;
      var i := 0;
      while i < nrNames
        invariant 0 <= i <= nrNames
        invariant FirstScheme(env, dir, majors, 0) == FirstScheme(env, dir, majors, i)
        invariant old(loadLog) + LoadTrace(env, dir, majors, 0) == loadLog + LoadTrace(env, dir, majors, i)
        invariant NoneLoaded(handles)
        invariant |lastNames| == 4 && Files() == if i == 0 then old(Files()) else FilesOf(lastNames)
        invariant i > 0 ==> lastNames == SchemeNames(env, dir, majors, i - 1)
        decreases nrNames - i
      {
        var names := SchemeNames(env, dir, majors, i);
        lastNames := names;
        ghost var logBefore := loadLog;
        success := TryScheme(env, names);
        StepLoadTrace(env, dir, majors, i, logBefore);
        StepFirstScheme(env, dir, majors, i);
        if success {
          return;
        }
        UnloadAll();
        i := i + 1;
      }
      assert LoadTrace(env, dir, majors, i) == [];
    }

    /** Loads the four libraries from the directory prefix `dir`, trying each
        naming scheme in turn, and binds the entry points of the scheme that
        loads. */
    method LoadFromDir(env: Env, dir: string, majors: seq<int>) returns (ok: bool)
      requires |majors| == 4
      requires NoneLoaded(handles)
      modifies this`handles, this`loadLog, this`bound, this`errorString, this`newParametersAPIAvailable
      ensures loadLog == old(loadLog) + LoadTrace(env, dir, majors, 0)
      ensures FirstScheme(env, dir, majors, 0) == NrNames(env.platform) ==>
        !ok && NoneLoaded(handles) && errorString == old(errorString)
        && bound == old(bound) && newParametersAPIAvailable == old(newParametersAPIAvailable)
        && Files() == if NrNames(env.platform) == 0 then old(Files())
                      else FilesOf(SchemeNames(env, dir, majors, NrNames(env.platform) - 1))
      ensures FirstScheme(env, dir, majors, 0) < NrNames(env.platform) ==>
        AllLoaded(handles) && Files() == FilesOf(SchemeNames(env, dir, majors, FirstScheme(env, dir, majors, 0)))
        && ok == BindSucceeds(env, Files())
        && errorString == BindError(env, Files(), old(errorString))
        && bound == AfterLookups(env, Files(), old(bound), BindTrace(env, Files()))
        && newParametersAPIAvailable ==
             if AllFound(env, Files(), EarlyLookups()) then NewApiFound(env, Files()) else old(newParametersAPIAvailable)
    {
      ok := LoadFirstScheme(env, dir, majors);
      if ok {
        ok := BindFunctionsFromLibraries(env);
      }
    }

    /** Loads the four libraries from `path` (the current search path when
        empty) with the given majors, trying each naming scheme of the
        platform in turn, and binds their entry points. */
    method LoadInPath(env: Env, path: string, majors: seq<int>) returns (ok: bool)
      requires |majors| == 4
      modifies this
      ensures ok == LoadSucceeds(env, path, majors)
      ensures errorString == LoadError(env, path, majors)
      ensures libPath == if PathUsable(env, path) then Dir(env, path) else old(libPath)
      ensures loadLog == old(loadLog) +
        if PathUsable(env, path) then LoadTrace(env, Dir(env, path), majors, 0) else []
      ensures ChosenScheme(env, path, majors).Some? ==>
        AllLoaded(handles) && Files() == ChosenFiles(env, path, majors)
      ensures ChosenScheme(env, path, majors).None? ==> NoneLoaded(handles)
      ensures ChosenScheme(env, path, majors).None? ==>
        (Files() == if PathUsable(env, path) && NrNames(env.platform) != 0
                    then FilesOf(SchemeNames(env, Dir(env, path), majors, NrNames(env.platform) - 1))
                    else old(Files()))
      ensures bound == if ChosenScheme(env, path, majors).None? then old(bound)
        else AfterLookups(env, Files(), old(bound), BindTrace(env, Files()))
      ensures newParametersAPIAvailable ==
        if ChosenScheme(env, path, majors).Some? && AllFound(env, Files(), EarlyLookups())
        then NewApiFound(env, Files()) else old(newParametersAPIAvailable)
    {
      errorString := "";
      UnloadAll();
      if path != "" && !env.dirExists(path) {
        return false;
      }
      var dir := if path == "" then "" else env.absolutePath(path) + "/";
      assert PathUsable(env, path) && dir == Dir(env, path);
      libPath := dir;
      ok := LoadFromDir(env, dir, majors);
      assert ChosenScheme(env, path, majors) ==
        if FirstScheme(env, dir, majors, 0) < NrNames(env.platform) then Some(FirstScheme(env, dir, majors, 0)) else None;
    }

    /** Looks one symbol up; a failure is an error only when failIsError. */
    method Resolve(env: Env, k: Lookup, failIsError: bool) returns (found: bool)
      modifies this`bound, this`errorString
      ensures found == Found(env, Files(), k)
      ensures bound == AfterLookups(env, Files(), old(bound), [k])
      ensures errorString == if !found && failIsError then MissingMessage(k) else old(errorString)
    {
      found := k.symbol in env.exports(FileOf(Files(), k.lib));
      bound := if found then bound + {k.symbol} else bound - {k.symbol};
      if !found && failIsError {
        errorString := MissingMessage(k);
      }
      assert [k][..0] == [];
    }

    /** A run of required lookups, each returning at once when it fails. */
    method ResolveRequired(env: Env, ks: seq<Lookup>) returns (ok: bool)
      modifies this`bound, this`errorString
      ensures ok == AllFound(env, Files(), ks)
      ensures errorString == ErrorAfter(env, Files(), ks, old(errorString))
      ensures bound == AfterLookups(env, Files(), old(bound), Attempted(env, Files(), ks))
    {
      var i := 0;
      while i < |ks|
        invariant 0 <= i <= |ks|
        invariant forall j :: 0 <= j < i ==> Found(env, Files(), ks[j])
        invariant errorString == old(errorString)
        invariant bound == AfterLookups(env, Files(), old(bound), ks[..i])
      {
        var found := Resolve(env, ks[i], true);
        AfterLookupsConcat(env, Files(), old(bound), ks[..i], [ks[i]]);
        assert ks[..i] + [ks[i]] == ks[..i + 1];
        if !found {
          return false;
        }
        i := i + 1;
      }
      assert ks[..i] == ks;
      ok := true;
    }

    /** The three optional lookups of the newer decoding API; the flag is
        set only when all three are found. */
    method ResolveNewApi(env: Env) returns (available: bool)
      modifies this`bound, this`errorString
      ensures errorString == old(errorString)
      ensures available == NewApiFound(env, Files())
      ensures bound == AfterLookups(env, Files(), old(bound), InLib(AvCodec, NewApiSymbols))
    {
      ghost var files := Files();
      ghost var start := bound;
      ghost var newApi := InLib(AvCodec, NewApiSymbols);
      assert newApi == [Lookup(AvCodec, "avcodec_send_packet"), Lookup(AvCodec, "avcodec_receive_frame"),
                        Lookup(AvCodec, "avcodec_parameters_to_context")];
      AllFoundInLib(env, files, AvCodec, NewApiSymbols);
      available := true;
      var found := Resolve(env, Lookup(AvCodec, "avcodec_send_packet"), false);
      available := available && found;
      found := Resolve(env, Lookup(AvCodec, "avcodec_receive_frame"), false);
      available := available && found;
      AfterLookupsConcat(env, files, start, [newApi[0]], [newApi[1]]);
      found := Resolve(env, Lookup(AvCodec, "avcodec_parameters_to_context"), false);
      available := available && found;
      AfterLookupsConcat(env, files, start, [newApi[0]] + [newApi[1]], [newApi[2]]);
      assert [newApi[0]] + [newApi[1]] + [newApi[2]] == newApi;
    }

    /** The required avformat lookups, then the required avcodec ones. */
    method ResolveEarly(env: Env) returns (ok: bool)
      modifies this`bound, this`errorString
      ensures ok == AllFound(env, Files(), EarlyLookups())
      ensures errorString == ErrorAfter(env, Files(), EarlyLookups(), old(errorString))
      ensures bound == AfterLookups(env, Files(), old(bound), Attempted(env, Files(), EarlyLookups()))
    {
      ghost var files := Files();
      var format := InLib(AvFormat, FormatSymbols);
      var codec := InLib(AvCodec, CodecSymbols);
      assert EarlyLookups() == format + codec;
      RunConcat(env, files, format, codec, errorString);
      ok := ResolveRequired(env, format);
      if !ok {
        return;
      }
      ok := ResolveRequired(env, codec);
      AfterLookupsConcat(env, files, old(bound), format, Attempted(env, files, codec));
    }

    /** Binds every entry point, preferring the newer decoding API and
        falling back on the older decoding entry point. */
    method BindFunctionsFromLibraries(env: Env) returns (ok: bool)
      modifies this`bound, this`errorString, this`newParametersAPIAvailable
      ensures ok == BindSucceeds(env, Files())
      ensures errorString == BindError(env, Files(), old(errorString))
      ensures bound == AfterLookups(env, Files(), old(bound), BindTrace(env, Files()))
      ensures newParametersAPIAvailable ==
        if AllFound(env, Files(), EarlyLookups()) then NewApiFound(env, Files()) else old(newParametersAPIAvailable)
    {
      ghost var files := Files();
      ghost var early := EarlyLookups();
      ghost var late := LateLookups(env, files);
      RunConcat(env, files, early, late, errorString);
      ok := ResolveEarly(env);
      if !ok {
        return;
      }
      newParametersAPIAvailable := ResolveNewApi(env);
      AfterLookupsConcat(env, files, old(bound), early, InLib(AvCodec, NewApiSymbols));
      ghost var done := early + InLib(AvCodec, NewApiSymbols);
      ok := ResolveLate(env);
      AfterLookupsConcat(env, files, old(bound), done, Attempted(env, files, late));
    }

    /** The older decoding entry point, looked up only when the newer API is
        incomplete, and then required. */
    method ResolveFallback(env: Env) returns (ok: bool)
      requires newParametersAPIAvailable == NewApiFound(env, Files())
      modifies this`bound, this`errorString
      ensures ok == AllFound(env, Files(), FallbackLookups(env, Files()))
      ensures errorString == ErrorAfter(env, Files(), FallbackLookups(env, Files()), old(errorString))
      ensures bound == AfterLookups(env, Files(), old(bound), Attempted(env, Files(), FallbackLookups(env, Files())))
    {
      ok := true;
      if !newParametersAPIAvailable {
        SingleRun(env, Files(), Lookup(AvCodec, OldApiSymbol), errorString);
        ok := Resolve(env, Lookup(AvCodec, OldApiSymbol), true);
      }
    }

    /** The lookups after the newer API: the older decoding entry point when
        the newer API is incomplete, then avutil and swresample. */
    method ResolveLate(env: Env) returns (ok: bool)
      requires newParametersAPIAvailable == NewApiFound(env, Files())
      modifies this`bound, this`errorString
      ensures ok == AllFound(env, Files(), LateLookups(env, Files()))
      ensures errorString == ErrorAfter(env, Files(), LateLookups(env, Files()), old(errorString))
      ensures bound == AfterLookups(env, Files(), old(bound), Attempted(env, Files(), LateLookups(env, Files())))
    {
      ghost var files := Files();
      ghost var fallback := FallbackLookups(env, files);
      var util := InLib(AvUtil, UtilSymbols);
      var swr := InLib(Swresample, SwresampleSymbols);
      RunConcat(env, files, fallback, util, errorString);
      RunConcat(env, files, fallback + util, swr, errorString);
      ok := ResolveFallback(env);
      if !ok {
        return;
      }
      ok := ResolveRequired(env, util);
      AfterLookupsConcat(env, files, old(bound), fallback, Attempted(env, files, util));
      if !ok {
        return;
      }
      ok := ResolveRequired(env, swr);
      AfterLookupsConcat(env, files, old(bound), fallback + util, Attempted(env, files, swr));
    }
  }
}
