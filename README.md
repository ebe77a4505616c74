# YUView FFmpeg library handling, modelled in Dafny

This project models the layer of YUView that loads the FFmpeg shared
libraries at run time and talks to them. That layer is in
`source/FFMpegDecoderLibHandling.cpp`. The code is modelled in six parts:

- **File names** (`environment.dfy`). The four libraries are avutil,
  swresample, avcodec and avformat. Each library and major version gets a
  file name under the platform's naming schemes: one on Windows, two on
  Linux, none elsewhere.
- **Library loading** (`loading.dfy`). Class `LibraryFunctions` models
  `FFmpegLibraryFunctions`. It unloads everything, then checks the directory.
  It loads the four libraries in a fixed order for each naming scheme in
  turn. A partial load is unloaded again. Finally it binds the entry points.
- **Binding** (`binding.dfy`). This part holds the rule of
  `bindFunctionsFromLibraries`. That rule covers:
  - the required symbols;
  - the three optional symbols of the newer decoding API;
  - the fallback on `avcodec_decode_video2`;
  - the message a missing required symbol leaves behind.
- **Version probing** (`versions.dfy`, `probing.dfy`). Class `VersionHandler`
  models `FFmpegVersionHandler`. It tries the two supported configurations in
  order. The first one whose libraries load and report the expected majors
  wins. The handler then records the minor and micro numbers and manages the
  version error text. `versions.dfy` also holds the version text that
  `getLibVersionString` shows.
- **Accessors** (`accessors.dfy`). These are the version-keyed getters for
  packets, codec contexts, streams, codec parameters, format contexts and
  frames, plus `getNewPacket`. An object behind an opaque pointer is modelled
  as `Views(older, newer)`: the record that each of the two declared layouts
  would read at that address. A getter picks one of the two by the version of
  avcodec, avformat or avutil.
- **Parameter copy** (`codec_copy.dfy`). `AVCodecContextCopyParameters` is a
  method that changes the destination codec context in place. It allocates a
  zeroed, padded extradata buffer and copies the source bytes into it.

The native world is replaced by the oracles of `Environment.Env`:

- the platform;
- whether a directory exists, and its absolute path;
- whether the loader can open a file;
- the symbols a file exports;
- the version a loaded file reports, already split into major, minor and
  micro.

The set `bound` stands for the function-pointer fields. It holds the symbols
whose field holds a function. The ghost sequence `loadLog` records every file
name handed to the loader.

These behaviours are reproduced as the code has them:

- The avCodec group of the version text prints the avformat micro number.
- The codec-parameter getters only demand that avcodec is non-zero.
- The duration getter reads the older layout also for avformat 57.
- The codec type and codec id behind a stream are read through the avformat
  layout, not the avcodec one.

## Model

| member | source | states |
|---|---|---|
| Common.IntToStringInjective | source/FFMpegDecoderLibHandling.cpp:208-216 | two different numbers never print as the same decimal text, so the version in a file name can be read back |
| Environment.NrNames | source/FFMpegDecoderLibHandling.cpp:221 | Linux tries two naming schemes, Windows one and any other platform none, so never more than two |
| Environment.ConstructLibName | source/FFMpegDecoderLibHandling.cpp:205-220 | on a platform other than Windows and Linux every name is empty |
| Environment.SchemesNamed | source/FFMpegDecoderLibHandling.cpp:205-221 | every scheme that is tried names a file; off Windows a name is non-empty iff its scheme is tried; a name is empty iff the platform is neither Windows nor Linux with scheme 0 or 1 |
| Environment.LibNamesDistinct | source/FFMpegDecoderLibHandling.cpp:205-220 | on Windows and under both Linux schemes, equal names mean the same library and the same major |
| Environment.LinuxSchemesDiffer | source/FFMpegDecoderLibHandling.cpp:209-217 | the Ubuntu name and the Arch name of a library never coincide, whatever the majors |
| Environment.OtherPlatformHasNoNames | source/FFMpegDecoderLibHandling.cpp:218-221 | a platform other than Windows and Linux has no naming scheme and every name on it is empty |
| Environment.ExampleLibNames | source/FFMpegDecoderLibHandling.cpp:205-220 | avutil 55 is named `avutil-55` on Windows, `libavutil-ffmpeg.so.55` and `libavutil.so.55` under the Linux schemes, and has no third Linux scheme |
| Versions.LibVersionUtil | source/FFMpegDecoderLibHandling.cpp:351-362 | the avutil major is 54 for the first configuration and 55 for the second, and nothing else |
| Versions.LibVersionCodec | source/FFMpegDecoderLibHandling.cpp:365-376 | the avcodec major is 56 for the first configuration and 57 for the second, and nothing else |
| Versions.LibVersionFormat | source/FFMpegDecoderLibHandling.cpp:379-390 | the avformat major is 56 for the first configuration and 57 for the second, and nothing else |
| Versions.LibVersionSwresample | source/FFMpegDecoderLibHandling.cpp:393-404 | the swresample major is 1 for the first configuration and 2 for the second, and nothing else |
| Versions.FileMajors | source/FFMpegDecoderLibHandling.cpp:281-285 | the majors handed to the loader are ordered avutil, swresample, avcodec, avformat |
| Versions.VersionTable | source/FFMpegDecoderLibHandling.cpp:351-405 | configuration 0 gives majors (54, 1, 56, 56) and configuration 1 gives (55, 2, 57, 57) |
| Versions.LibVersionString | source/FFMpegDecoderLibHandling.cpp:859-868 | the version text starts with the avUtil group |
| Versions.LibVersionStringDeterminesShownFields | source/FFMpegDecoderLibHandling.cpp:859-868 | two records that give the same version text agree in every number the text shows, which is all fields except the avcodec micro number |
| Versions.LibVersionStringIgnoresCodecMicro | source/FFMpegDecoderLibHandling.cpp:864 | the avcodec micro number never reaches the text, because the avCodec group prints the avformat micro number |
| Binding.BindRule | source/FFMpegDecoderLibHandling.cpp:71-115 | binding succeeds iff every required avformat, avcodec, avutil and swresample symbol is exported, and either all three newer-API symbols or `avcodec_decode_video2` are |
| Binding.BindErrorNamesMissingSymbol | source/FFMpegDecoderLibHandling.cpp:117-172 | a failed binding leaves the message of a required lookup that failed, naming its library and symbol |
| Loading.LoadablePrefix | source/FFMpegDecoderLibHandling.cpp:228-246 | the count of names, from the front, that the loader accepts: all of them load and the next one does not |
| Loading.SchemeAttempts | source/FFMpegDecoderLibHandling.cpp:228-246 | the attempted loads of one scheme are a non-empty prefix of its names, all but the last of which loaded; the scheme loads iff all four were attempted and the last loaded |
| Loading.FirstScheme | source/FFMpegDecoderLibHandling.cpp:223-257 | the first scheme from i on whose four libraries all load, every scheme before it failing, or the scheme count when none loads |
| Loading.FourLoads | source/FFMpegDecoderLibHandling.cpp:228-246 | a scheme succeeds iff all four libraries load; the loads attempted stop right after the first one that fails |
| Loading.OtherPlatformNeverLoads | source/FFMpegDecoderLibHandling.cpp:221-260 | with no naming scheme nothing is loaded, loading fails and the error text stays empty |
| Loading.FirstSuccessfulSchemeWins | source/FFMpegDecoderLibHandling.cpp:223-257 | whenever a scheme is chosen, as every successful load needs, the directory is usable, all four files of that scheme load, and every earlier scheme failed |
| Loading.StepLoadTrace | source/FFMpegDecoderLibHandling.cpp:224-257 | trying scheme i adds its attempted loads to the log and leaves the loads of the later schemes still to come, unless it succeeds |
| Loading.StepFirstScheme | source/FFMpegDecoderLibHandling.cpp:224-257 | a failing scheme does not change which scheme is the first to load, and a loading scheme is that first scheme |
| Loading.LibraryFunctions.constructor | source/FFMpegDecoderLibHandling.cpp:38-69 | no library is loaded, no entry point is bound (the program leaves `avcodec_get_name` uninitialised, see Left out), and the newer API is marked unavailable |
| Loading.LibraryFunctions.UnloadAll | source/FFMpegDecoderLibHandling.cpp:178-181 | all four libraries are unloaded and keep their file names |
| Loading.LibraryFunctions.SetFileName | source/FFMpegDecoderLibHandling.cpp:229 | only the file name of the given library changes |
| Loading.LibraryFunctions.Load | source/FFMpegDecoderLibHandling.cpp:230 | the library is loaded iff the loader accepts its file; the file name is logged; nothing else changes |
| Loading.LibraryFunctions.LoadStep | source/FFMpegDecoderLibHandling.cpp:228-246 | one library is named and, only when no earlier load failed, loaded; the result is whether it loaded |
| Loading.LibraryFunctions.TryScheme | source/FFMpegDecoderLibHandling.cpp:226-246 | after one scheme, the four file names are that scheme's; the result is whether the scheme loads; the log grows by exactly the attempted loads; on success all four are loaded; in every case exactly the loadable prefix of the four libraries is loaded |
| Loading.LibraryFunctions.LoadFirstScheme | source/FFMpegDecoderLibHandling.cpp:223-257 | the schemes are tried in order until the first that loads; the log records every attempted load; either all four libraries of that scheme are loaded or none is; when no scheme loads, the file names are those of the last scheme tried, or unchanged when there is no scheme |
| Loading.LibraryFunctions.LoadFromDir | source/FFMpegDecoderLibHandling.cpp:223-262 | in a usable directory, the first scheme that loads is kept with all four libraries loaded and then bound, the result being the binding rule; when none loads, none is loaded, the last scheme's file names remain, and the error text, bound set and API flag are unchanged |
| Loading.LibraryFunctions.LoadInPath | source/FFMpegDecoderLibHandling.cpp:174-263 | the result is whether a scheme loads and binding succeeds. The error text is cleared first and is then the binding error. A missing non-empty path fails before any load and leaves libPath alone. Otherwise libPath is the absolute path plus `/`. All four or none are loaded; when no scheme loads, the file names are those of the last scheme tried. The bound set and the API flag are as binding leaves them |
| Loading.LibraryFunctions.Resolve | source/FFMpegDecoderLibHandling.cpp:117-172 | the result is whether the library exports the symbol; the symbol is bound or cleared accordingly; the error text changes only on a failed lookup that counts as an error |
| Loading.LibraryFunctions.ResolveRequired | source/FFMpegDecoderLibHandling.cpp:74-92 | a run of required lookups stops at the first failure, whose message becomes the error; the result is whether all were found |
| Loading.LibraryFunctions.ResolveEarly | source/FFMpegDecoderLibHandling.cpp:74-92 | the avformat lookups, then the avcodec ones, as one run of required lookups |
| Loading.LibraryFunctions.ResolveNewApi | source/FFMpegDecoderLibHandling.cpp:96-99 | all three optional lookups are made; the flag is set iff all three are found; the error text is untouched |
| Loading.LibraryFunctions.ResolveFallback | source/FFMpegDecoderLibHandling.cpp:101-103 | `avcodec_decode_video2` is looked up, as a required lookup, only when the newer API is incomplete |
| Loading.LibraryFunctions.ResolveLate | source/FFMpegDecoderLibHandling.cpp:101-114 | the fallback, then the avutil and swresample lookups, as one run of required lookups |
| Loading.LibraryFunctions.BindFunctionsFromLibraries | source/FFMpegDecoderLibHandling.cpp:71-115 | the result is the binding rule; the error text is that of the first required lookup that fails; the bound set follows every lookup made; the API flag is set iff the newer API is complete, once the early lookups pass |
| Probing.TryConfig | source/FFMpegDecoderLibHandling.cpp:279-343 | an accepted configuration has no reason; a configuration whose libraries do not load is rejected with the library error and leaves the record unchanged |
| Probing.ProbeFrom | source/FFMpegDecoderLibHandling.cpp:277-344 | a configuration found from i on has an index between i and the last one, and comes with an empty error |
| Probing.ProbeStep | source/FFMpegDecoderLibHandling.cpp:277-345 | a rejected configuration passes its record and its reason on to the next one; an accepted one ends probing with an empty error |
| Probing.TryConfigMeaning | source/FFMpegDecoderLibHandling.cpp:287-337 | a configuration is accepted iff it loads and avcodec, avformat, avutil and swresample report the majors of their file names; a rejection carries the library error or the message of the first check that fails |
| Probing.MinorsOnlyAfterMajorCheck | source/FFMpegDecoderLibHandling.cpp:287-334 | nothing is recorded when loading fails. Otherwise the four majors are recorded. The minor and micro numbers of a library are recorded iff its major check and all earlier ones passed |
| Probing.FirstAcceptedWins | source/FFMpegDecoderLibHandling.cpp:274-349 | configurations are tried in index order; the accepted one is the first acceptable one; probing fails iff none is acceptable |
| Probing.SuccessRecordsVersions | source/FFMpegDecoderLibHandling.cpp:287-349 | on success the error text is empty and the record holds the accepted configuration's majors and the minor and micro numbers its libraries report |
| Probing.FailureKeepsLastReason | source/FFMpegDecoderLibHandling.cpp:274-349 | on failure the error text is the reason the last configuration was rejected |
| Probing.VersionHandler.constructor | source/FFMpegDecoderLibHandling.cpp:266-272 | all four majors start out as -1 and the version error text is empty |
| Probing.VersionHandler.TryVersion | source/FFMpegDecoderLibHandling.cpp:279-343 | one configuration is tried: the result, the record and the error text are those of TryConfig; accepting it ends probing, rejecting it leaves probing of the later ones to the same outcome; the library object holds the load error, the chosen files and, on a load, the API flag of those files; libPath is the absolute directory when the path is usable |
| Probing.VersionHandler.LoadInPath | source/FFMpegDecoderLibHandling.cpp:274-349 | the result, the version record and the error text are those of probing the configurations in order; on success the libraries of the accepted configuration are loaded; the library object is left as the accepted configuration, or else the last one, left it: its load error, its loaded files and, after a load, the API flag of those files; libPath is the absolute directory when the path is usable |
| Accessors.NewPacket | source/FFMpegDecoderLibHandling.cpp:407-426 | the new packet, read through the loaded avcodec's layout, has no data and size 0; avcodec must be 56 or 57 |
| Accessors.PacketDispatch | source/FFMpegDecoderLibHandling.cpp:445-487 | packet getters (PacketGetStreamIndex, PacketGetPTS, PacketGetDuration, PacketGetFlags) read the older layout for avcodec 56 and the newer for 57, and depend on no other version |
| Accessors.CodecContextDispatch | source/FFMpegDecoderLibHandling.cpp:489-531 | codec-context getters (CodecContextGetPixelFormat, CodecContextGetWidth, CodecContextGetHeight, CodecContextGetColorSpace) read the older layout for avcodec 56 and the newer for 57, and depend on no other version |
| Accessors.FormatDispatch | source/FFMpegDecoderLibHandling.cpp:533-689 | the stream getter StreamGetCodec and the format-context getters FormatContextGetNBStreams, FormatContextGetStream, FormatContextGetAvgFrameRate, FormatContextGetTimeBase, FormatContextGetCodecTypeFromCodec and FormatContextGetCodecIDFromCodec follow avformat: the older layout for 56, the newer for 57 |
| Accessors.CodecparDispatch | source/FFMpegDecoderLibHandling.cpp:544-652 | codec parameters (StreamGetCodecpar, CodecParametersGetWidth, CodecParametersGetHeight, CodecParametersGetColorSpace, FormatContextGetCodecTypeFromCodecpar, FormatContextGetCodecIDFromCodecpar) are reached only with avformat 57, through the newer stream layout, and are read whenever avcodec is non-zero, avcodec 56 included |
| Accessors.DurationReadsOlderLayout | source/FFMpegDecoderLibHandling.cpp:667-676 | the duration (FormatContextGetDuration) is read through the older layout for avformat 56 and 57 alike, so with 57 it differs from the newer layout's field whenever the two differ |
| Accessors.CodecFromStreamKeyedByFormat | source/FFMpegDecoderLibHandling.cpp:602-628 | the codec type and id behind a stream (FormatContextGetCodecTypeFromCodec, FormatContextGetCodecIDFromCodec) are read through the avformat layout, so avformat 57 with avcodec 56 reads the newer context layout |
| Accessors.FrameDispatch | source/FFMpegDecoderLibHandling.cpp:782-857 | frame getters (FrameGetWidth, FrameGetHeight, FrameGetPTS, FrameGetPictureType, FrameGetKeyFrame, FrameGetLinesize, FrameGetData) read the older layout for avutil 54 and the newer for 55, and depend on no other version |
| CodecCopy.CopyFields | source/FFMpegDecoderLibHandling.cpp:698-722 | the copy always carries the source's codec type and id and always keeps the destination's profile and level |
| CodecCopy.CopyFieldsChangesExactly | source/FFMpegDecoderLibHandling.cpp:691-722 | codec type, id, tag and bit rate are always copied; pixel format, size, colour fields, chroma location, aspect ratio and B-frames only for a video source; profile and level never |
| CodecCopy.CopyOfVideoIsSource | source/FFMpegDecoderLibHandling.cpp:709-722 | for a video source the destination equals the source except profile and level |
| CodecCopy.CopyIdempotent | source/FFMpegDecoderLibHandling.cpp:691-722 | copying the same source twice is copying it once |
| CodecCopy.CopyParameters | source/FFMpegDecoderLibHandling.cpp:691-780 | the scalar fields, in the loaded avcodec's layout, become the copy of the source's. Extradata is copied only when the source has some and the destination none. It then goes into a fresh zeroed buffer 32 bytes longer, with a byte-for-byte equal prefix and the size taken over. A failed allocation returns false with the size still 0 |

## Left out

- QLibrary, QDir and the dynamic loader are oracles in `Env`. Loading,
  unloading and symbol lookup are modelled by a loaded flag per library and
  the set of bound symbols; the function pointers themselves are not kept
  and never called.
- `AV_VERSION_MAJOR/MINOR/MICRO` are not modelled. They are macros from
  FFmpeg's `libavutil/version.h`, which is not part of this model. The
  version oracle returns the three numbers already split.
- `setLibraryError` and `libErrorString` are declared in the header, which is
  not part of this model. They are modelled as assigning and reading the
  error text.
- The naming scheme for macOS is not modelled: the code has only a TODO there
  and yields an empty name.
- Real structure layouts, byte offsets and `reinterpret_cast` are not
  modelled. An object is the pair of records its two layouts read. Writing
  through one layout does not change what the other layout reads, so
  aliasing between layouts is not captured.
- Pointers inside structures are modelled by the values they point at: a
  stream's codec context and a format context's streams. Out-of-range stream
  and plane indices are excluded by preconditions; the code does not check
  them.
- In `CodecCopy.CodecContext` the extradata pointer and its size are shared
  by both layouts. The two branches of the copy are the same field by field,
  so they share one body that differs only in the layout written.
- `av_mallocz` and `memcpy` are modelled as a zero-filled `new` array and a
  parallel assignment. Allocation failure is the `allocOk` parameter. The
  `assert` that the destination has no buffer is a precondition.
- `deletePacket` is not modelled. It only frees the packet through the
  loaded avcodec's layout, and memory release has no counterpart here.
- Integer widths are not modelled. `int`, `int64_t` and `unsigned` become
  unbounded integers; the stream count is a `nat`. The overflow of
  `extradata_size + AV_INPUT_BUFFER_PADDING_SIZE` is not modelled.
  AV_INPUT_BUFFER_PADDING_SIZE is taken to be 32, its value in the supported
  avcodec versions.
- The enums (pixel format, colour space, media type, codec id, picture type)
  are plain integers, with AVMEDIA_TYPE_VIDEO = 0.
- `AVRational()` and the other fall-back values after `assert(false)` are
  not modelled; an unsupported version is a precondition violation.
- The fields the C++ constructors leave uninitialised are set to 0 (the
  minor and micro numbers) or left arbitrary (the other packet fields). No
  contract says anything about them.
- Probing.VersionHandler.LoadInPath: it does not state the file names left
  when the last configuration fails to load, the API flag after a
  configuration that fails to load, the bound set, or the load log.
- Loading.LibraryFunctions.constructor: the C++ constructor leaves the
  `avcodec_get_name` field uninitialised, unlike the other entry points; the
  model takes it as unbound.
- CodecCopy.CopyParameters: its precondition excludes a negative source
  extradata size. The program tests `extradata_size != 0`, so a negative size
  would reach `av_mallocz` and `memcpy`, whose behaviour then is undefined.
- The model splits `bindFunctionsFromLibraries` into methods, one per group
  of lookups. Loading from a directory (`LoadFromDir`) and one iteration of
  the probing loop (`TryVersion`) are methods of their own. A run of consecutive `if (!resolve…) return false;` lines is a
  loop over that group's symbol list.
