/** The symbol-binding rule: which entry points must be found in which
    library, the optional entry points of the newer decoding API and the older
    entry point that replaces them, in the order they are looked up. */
module Binding {
  import opened Environment

  /** The file each of the four libraries was loaded from. */
  datatype LibFiles = LibFiles(avutil: string, swresample: string, avcodec: string, avformat: string)

  function FileOf(files: LibFiles, l: Lib): string {
    match l
    case AvUtil => files.avutil
    case Swresample => files.swresample
    case AvCodec => files.avcodec
    case AvFormat => files.avformat
  }

  /** One symbol lookup in one library. */
  datatype Lookup = Lookup(lib: Lib, symbol: string)

  const FormatSymbols: seq<string> := ["av_register_all", "avformat_open_input", "avformat_close_input",
    "avformat_find_stream_info", "av_read_frame", "av_seek_frame", "avformat_version"]
  const CodecSymbols: seq<string> := ["avcodec_find_decoder", "avcodec_alloc_context3", "avcodec_open2",
    "avcodec_free_context", "av_init_packet", "av_packet_unref", "avcodec_flush_buffers",
    "avcodec_version", "avcodec_get_name"]
  const NewApiSymbols: seq<string> := ["avcodec_send_packet", "avcodec_receive_frame",
    "avcodec_parameters_to_context"]
  const OldApiSymbol: string := "avcodec_decode_video2"
  const UtilSymbols: seq<string> := ["av_frame_alloc", "av_frame_free", "av_mallocz", "avutil_version"]
  const SwresampleSymbols: seq<string> := ["swresample_version"]

  /** The lookups of the given symbols in library l, in order. */
  function InLib(l: Lib, symbols: seq<string>): (ks: seq<Lookup>)
    ensures |ks| == |symbols|
    ensures forall i :: 0 <= i < |ks| ==> ks[i] == Lookup(l, symbols[i])
  {
    seq(|symbols|, i requires 0 <= i < |symbols| => Lookup(l, symbols[i]))
  }

  /** Whether the library a lookup names exports its symbol. */
  predicate Found(env: Env, files: LibFiles, k: Lookup) {
    k.symbol in env.exports(FileOf(files, k.lib))
  }

  predicate AllFound(env: Env, files: LibFiles, ks: seq<Lookup>) {
    forall i :: 0 <= i < |ks| ==> Found(env, files, ks[i])
  }

  /** The position of the first lookup that fails, or |ks| when none does. */
  function FirstMissing(env: Env, files: LibFiles, ks: seq<Lookup>): (r: nat)
    ensures r <= |ks|
    ensures forall i :: 0 <= i < r ==> Found(env, files, ks[i])
    ensures r < |ks| ==> !Found(env, files, ks[r])
    ensures r == |ks| <==> AllFound(env, files, ks)
  {
    if ks == [] then 0
    else if !Found(env, files, ks[0]) then 0
    else 1 + FirstMissing(env, files, ks[1..])
  }

  /** Whether all three entry points of the newer decoding API are found. */
  predicate NewApiFound(env: Env, files: LibFiles) {
    AllFound(env, files, InLib(AvCodec, NewApiSymbols))
  }

  /** The required lookups before the optional ones. */
  function EarlyLookups(): seq<Lookup> {
    InLib(AvFormat, FormatSymbols) + InLib(AvCodec, CodecSymbols)
  }

  /** The required lookups after the optional ones: the older decoding entry
      point only when the newer API is incomplete. */
  function LateLookups(env: Env, files: LibFiles): seq<Lookup> {
    FallbackLookups(env, files) + InLib(AvUtil, UtilSymbols) + InLib(Swresample, SwresampleSymbols)
  }

  /** The older decoding entry point, required only when the newer API is incomplete. */
  function FallbackLookups(env: Env, files: LibFiles): seq<Lookup> {
    if NewApiFound(env, files) then [] else [Lookup(AvCodec, OldApiSymbol)]
  }

  /** Every required lookup, in the order they are made. */
  function RequiredLookups(env: Env, files: LibFiles): seq<Lookup> {
    EarlyLookups() + LateLookups(env, files)
  }

  /** The message a failed required lookup leaves behind. */
  function MissingMessage(k: Lookup): string {
    "Error loading the " + BaseName(k.lib) + " library: Can't find function " + k.symbol + "."
  }

  /** Binding succeeds when every required lookup is found. */
  predicate BindSucceeds(env: Env, files: LibFiles) {
    AllFound(env, files, RequiredLookups(env, files))
  }

  /** The lookups of a run of required lookups that are made: all of them,
      or those up to and including the first that fails. */
  function Attempted(env: Env, files: LibFiles, ks: seq<Lookup>): (r: seq<Lookup>)
    ensures |r| <= |ks| && r == ks[..|r|]
  {
    if AllFound(env, files, ks) then ks else ks[..FirstMissing(env, files, ks) + 1]
  }

  /** The error text after a run of required lookups: unchanged when all are
      found, otherwise the message of the first that fails. */
  function ErrorAfter(env: Env, files: LibFiles, ks: seq<Lookup>, prior: string): string {
    if AllFound(env, files, ks) then prior else MissingMessage(ks[FirstMissing(env, files, ks)])
  }

  /** The error text after binding. */
  function BindError(env: Env, files: LibFiles, prior: string): string {
    ErrorAfter(env, files, RequiredLookups(env, files), prior)
  }

  /** Every lookup that is made, required or not, up to and including the
      first required one that fails. */
  function BindTrace(env: Env, files: LibFiles): seq<Lookup> {
    if !AllFound(env, files, EarlyLookups()) then Attempted(env, files, EarlyLookups())
    else EarlyLookups() + InLib(AvCodec, NewApiSymbols) + Attempted(env, files, LateLookups(env, files))
  }

  /** The set of symbols whose entry point is bound after the lookups ks:
      each lookup binds its symbol when found and clears it when not. */
  function AfterLookups(env: Env, files: LibFiles, bound: set<string>, ks: seq<Lookup>): set<string>
    decreases |ks|
  {
    if ks == [] then bound
    else
      var k := ks[|ks| - 1];
      var before := AfterLookups(env, files, bound, ks[..|ks| - 1]);
      if Found(env, files, k) then before + {k.symbol} else before - {k.symbol}
  }

  lemma AllFoundConcat(env: Env, files: LibFiles, a: seq<Lookup>, b: seq<Lookup>)
    ensures AllFound(env, files, a + b) <==> AllFound(env, files, a) && AllFound(env, files, b)
  {
    if AllFound(env, files, a) && AllFound(env, files, b) {
      forall i | 0 <= i < |a + b| ensures Found(env, files, (a + b)[i]) {
        if i >= |a| { assert (a + b)[i] == b[i - |a|]; }
      }
    }
    if AllFound(env, files, a + b) {
      forall i | 0 <= i < |a| ensures Found(env, files, a[i]) {
        assert (a + b)[i] == a[i];
      }
      forall i | 0 <= i < |b| ensures Found(env, files, b[i]) {
        assert (a + b)[|a| + i] == b[i];
      }
    }
  }

  lemma AllFoundInLib(env: Env, files: LibFiles, l: Lib, symbols: seq<string>)
    ensures AllFound(env, files, InLib(l, symbols)) <==>
      forall i :: 0 <= i < |symbols| ==> symbols[i] in env.exports(FileOf(files, l))
  {
    var ks := InLib(l, symbols);
    if forall i :: 0 <= i < |symbols| ==> symbols[i] in env.exports(FileOf(files, l)) {
      forall i | 0 <= i < |ks| ensures Found(env, files, ks[i]) {
        assert ks[i] == Lookup(l, symbols[i]);
      }
    }
  }

  /** The first failure in a concatenation is the first in its head, or lies in its tail. */
  lemma {:induction false} FirstMissingConcat(env: Env, files: LibFiles, a: seq<Lookup>, b: seq<Lookup>)
    ensures FirstMissing(env, files, a + b) ==
      if FirstMissing(env, files, a) < |a| then FirstMissing(env, files, a)
      else |a| + FirstMissing(env, files, b)
  {
    if a != [] {
      assert (a + b)[0] == a[0];
      assert (a + b)[1..] == a[1..] + b;
      FirstMissingConcat(env, files, a[1..], b);
    } else {
      assert a + b == b;
    }
  }

  lemma PrefixInHead<T>(a: seq<T>, b: seq<T>, k: nat)
    requires k <= |a|
    ensures (a + b)[..k] == a[..k]
  {
  }

  lemma PrefixPastHead<T>(a: seq<T>, b: seq<T>, k: nat)
    requires |a| <= k <= |a| + |b|
    ensures (a + b)[..k] == a + b[..k - |a|]
  {
  }

  /** The lookups made by a run split in two: the second part runs only when
      the first part is found in full. */
  lemma AttemptedConcat(env: Env, files: LibFiles, a: seq<Lookup>, b: seq<Lookup>)
    ensures Attempted(env, files, a + b) ==
      if AllFound(env, files, a) then a + Attempted(env, files, b) else Attempted(env, files, a)
  {
    FirstMissingConcat(env, files, a, b);
    var m := FirstMissing(env, files, a + b);
    if !AllFound(env, files, a) {
      PrefixInHead(a, b, m + 1);
    } else if !AllFound(env, files, b) {
      PrefixPastHead(a, b, m + 1);
    }
  }

  /** The error text after a run split in two. */
  lemma ErrorAfterConcat(env: Env, files: LibFiles, a: seq<Lookup>, b: seq<Lookup>, prior: string)
    ensures ErrorAfter(env, files, a + b, prior) ==
      if AllFound(env, files, a) then ErrorAfter(env, files, b, prior) else ErrorAfter(env, files, a, prior)
  {
    FirstMissingConcat(env, files, a, b);
    var m := FirstMissing(env, files, a + b);
    if !AllFound(env, files, a) {
      assert (a + b)[m] == a[m];
    } else if !AllFound(env, files, b) {
      assert (a + b)[m] == b[m - |a|];
    }
  }

  /** A run of required lookups split in two. */
  lemma RunConcat(env: Env, files: LibFiles, a: seq<Lookup>, b: seq<Lookup>, prior: string)
    ensures AllFound(env, files, a + b) <==> AllFound(env, files, a) && AllFound(env, files, b)
    ensures Attempted(env, files, a + b) ==
      if AllFound(env, files, a) then a + Attempted(env, files, b) else Attempted(env, files, a)
    ensures ErrorAfter(env, files, a + b, prior) ==
      if AllFound(env, files, a) then ErrorAfter(env, files, b, prior) else ErrorAfter(env, files, a, prior)
  {
    AllFoundConcat(env, files, a, b);
    AttemptedConcat(env, files, a, b);
    ErrorAfterConcat(env, files, a, b, prior);
  }

  /** One required lookup on its own. */
  lemma SingleRun(env: Env, files: LibFiles, k: Lookup, prior: string)
    ensures AllFound(env, files, [k]) == Found(env, files, k)
    ensures Attempted(env, files, [k]) == [k]
    ensures ErrorAfter(env, files, [k], prior) == if Found(env, files, k) then prior else MissingMessage(k)
  {
    assert [k][0] == k;
    assert [k][..1] == [k];
  }

  /** The found set after ks then ks' is the found set after ks + ks'. */
  lemma {:induction false} AfterLookupsConcat(env: Env, files: LibFiles, bound: set<string>, a: seq<Lookup>, b: seq<Lookup>)
    ensures AfterLookups(env, files, AfterLookups(env, files, bound, a), b) == AfterLookups(env, files, bound, a + b)
    decreases |b|
  {
    if b == [] {
      assert a + b == a;
    } else {
      var b0 := b[..|b| - 1];
      assert (a + b)[..|a + b| - 1] == a + b0;
      assert (a + b)[|a + b| - 1] == b[|b| - 1];
      AfterLookupsConcat(env, files, bound, a, b0);
    }
  }

  /** The binding rule: binding succeeds exactly when every required avformat,
      avcodec, avutil and swresample symbol is found and either the whole
      newer decoding API or the older decoding entry point is available. */
  lemma BindRule(env: Env, files: LibFiles)
    ensures BindSucceeds(env, files) <==>
      (forall i :: 0 <= i < |FormatSymbols| ==> FormatSymbols[i] in env.exports(files.avformat))
      && (forall i :: 0 <= i < |CodecSymbols| ==> CodecSymbols[i] in env.exports(files.avcodec))
      && ((forall i :: 0 <= i < |NewApiSymbols| ==> NewApiSymbols[i] in env.exports(files.avcodec))
          || OldApiSymbol in env.exports(files.avcodec))
      && (forall i :: 0 <= i < |UtilSymbols| ==> UtilSymbols[i] in env.exports(files.avutil))
      && (forall i :: 0 <= i < |SwresampleSymbols| ==> SwresampleSymbols[i] in env.exports(files.swresample))
  {
    var format := InLib(AvFormat, FormatSymbols);
    var codec := InLib(AvCodec, CodecSymbols);
    var fallback := FallbackLookups(env, files);
    var util := InLib(AvUtil, UtilSymbols);
    var swr := InLib(Swresample, SwresampleSymbols);
    AllFoundConcat(env, files, format, codec);
    AllFoundConcat(env, files, fallback, util);
    AllFoundConcat(env, files, fallback + util, swr);
    AllFoundConcat(env, files, format + codec, fallback + util + swr);
    AllFoundInLib(env, files, AvFormat, FormatSymbols);
    AllFoundInLib(env, files, AvCodec, CodecSymbols);
    AllFoundInLib(env, files, AvCodec, NewApiSymbols);
    AllFoundInLib(env, files, AvUtil, UtilSymbols);
    AllFoundInLib(env, files, Swresample, SwresampleSymbols);
    if !NewApiFound(env, files) {
      assert AllFound(env, files, fallback) <==> Found(env, files, fallback[0]);
    }
  }

  /** A failed binding reports the library and the symbol of a required
      lookup that failed; an optional lookup never supplies the message. */
  lemma BindErrorNamesMissingSymbol(env: Env, files: LibFiles, prior: string)
    requires !BindSucceeds(env, files)
    ensures exists k :: (k in RequiredLookups(env, files) && !Found(env, files, k)
      && BindError(env, files, prior) == MissingMessage(k))
  {
    var ks := RequiredLookups(env, files);
    var k := ks[FirstMissing(env, files, ks)];
    assert k in ks;
  }
}
