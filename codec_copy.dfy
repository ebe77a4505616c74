/** Copying the decoding parameters of one codec context into another, in
    place: the codec identity always, the picture description only for video
    streams, and the extradata only into a context that has none. */
module CodecCopy {
  import opened Common
  import opened Versions
  import opened Accessors

  /** The zeroed bytes av_mallocz adds after the extradata (the
      AV_INPUT_BUFFER_PADDING_SIZE of the supported avcodec versions). */
  const InputBufferPaddingSize: nat := 32

  /** A codec context in memory: what each layout reads of its scalar fields,
      and its extradata buffer with the size recorded for it. */
  class CodecContext {
    var views: Views<ContextFields>
    var extradata: array?<byte>
    var extradataSize: int

    constructor (views: Views<ContextFields>, extradata: array?<byte>, extradataSize: int)
      ensures this.views == views && this.extradata == extradata && this.extradataSize == extradataSize
    {
      this.views := views;
      this.extradata := extradata;
      this.extradataSize := extradataSize;
    }
  }

  /** Replaces what the loaded avcodec's layout reads, leaving the other view. */
  function WriteByCodec<T>(lv: LibVersion, v: Views<T>, x: T): (r: Views<T>)
    requires CodecSupported(lv)
    ensures ByCodec(lv, r) == x
  {
    if lv.avcodec == 56 then v.(older := x) else v.(newer := x)
  }

  /** The scalar fields of the destination after the copy. */
  function CopyFields(s: ContextFields, d: ContextFields): (r: ContextFields)
    ensures r.codecType == s.codecType && r.codecId == s.codecId
    ensures r.profile == d.profile && r.level == d.level
  {
    var r := d.(codecType := s.codecType, codecId := s.codecId, codecTag := s.codecTag, bitRate := s.bitRate);
    if s.codecType != MediaTypeVideo then r
    else r.(pixFmt := s.pixFmt, width := s.width, height := s.height,
            colorRange := s.colorRange, colorPrimaries := s.colorPrimaries, colorTrc := s.colorTrc,
            colorspace := s.colorspace, chromaSampleLocation := s.chromaSampleLocation,
            sampleAspectRatio := s.sampleAspectRatio, hasBFrames := s.hasBFrames)
  }

  /** Exactly these fields change: the codec identity always takes the
      source's values, the picture description only for video, and profile
      and level never. */
  lemma CopyFieldsChangesExactly(s: ContextFields, d: ContextFields)
    ensures var r := CopyFields(s, d);
      r.codecType == s.codecType && r.codecId == s.codecId && r.codecTag == s.codecTag && r.bitRate == s.bitRate
    ensures var r := CopyFields(s, d);
      var v := if s.codecType == MediaTypeVideo then s else d;
      r.pixFmt == v.pixFmt && r.width == v.width && r.height == v.height
      && r.colorRange == v.colorRange && r.colorPrimaries == v.colorPrimaries && r.colorTrc == v.colorTrc
      && r.colorspace == v.colorspace && r.chromaSampleLocation == v.chromaSampleLocation
      && r.sampleAspectRatio == v.sampleAspectRatio && r.hasBFrames == v.hasBFrames
    ensures var r := CopyFields(s, d);
      r.profile == d.profile && r.level == d.level
  {
  }

  /** For a video stream the destination ends up equal to the source except
      for the fields that are never copied. */
  lemma CopyOfVideoIsSource(s: ContextFields, d: ContextFields)
    requires s.codecType == MediaTypeVideo
    ensures CopyFields(s, d) == s.(profile := d.profile, level := d.level)
  {
  }

  /** Copying twice is copying once. */
  lemma CopyIdempotent(s: ContextFields, d: ContextFields)
    ensures CopyFields(s, CopyFields(s, d)) == CopyFields(s, d)
  {
  }

  /** Whether the extradata is copied: the source has some and the
      destination has none. */
  predicate NeedsExtradata(srcSize: int, dstSize: int) {
    srcSize != 0 && dstSize == 0
  }

  /** Copies the parameters of src into dst through the loaded avcodec's
      layout. allocOk is whether the allocation of the extradata buffer
      succeeds; on failure the scalar fields are already copied and the
      result is false. */
  method CopyParameters(lv: LibVersion, src: CodecContext, dst: CodecContext, allocOk: bool) returns (ok: bool)
    requires CodecSupported(lv)
    requires NeedsExtradata(src.extradataSize, dst.extradataSize) ==>
      dst.extradata == null && src.extradata != null && 0 < src.extradataSize <= src.extradata.Length
    modifies dst
    ensures dst.views == WriteByCodec(lv, old(dst.views),
      CopyFields(ByCodec(lv, old(src.views)), ByCodec(lv, old(dst.views))))
    ensures ok == (!NeedsExtradata(old(src.extradataSize), old(dst.extradataSize)) || allocOk)
    ensures !NeedsExtradata(old(src.extradataSize), old(dst.extradataSize)) ==>
      dst.extradata == old(dst.extradata) && dst.extradataSize == old(dst.extradataSize)
    ensures NeedsExtradata(old(src.extradataSize), old(dst.extradataSize)) && !allocOk ==>
      dst.extradata == null && dst.extradataSize == 0
    ensures NeedsExtradata(old(src.extradataSize), old(dst.extradataSize)) && allocOk ==>
      dst.extradata != null && fresh(dst.extradata)
      && dst.extradataSize == old(src.extradataSize)
      && dst.extradata.Length == dst.extradataSize + InputBufferPaddingSize
      && dst.extradata[..dst.extradataSize] == old(src.extradata[..src.extradataSize])
      && (forall i :: dst.extradataSize <= i < dst.extradata.Length ==> dst.extradata[i] == 0)
  {
    var s := ByCodec(lv, src.views);
    var d := ByCodec(lv, dst.views);
    d := d.(codecType := s.codecType, codecId := s.codecId, codecTag := s.codecTag, bitRate := s.bitRate);
    if s.codecType == MediaTypeVideo {
      d := d.(pixFmt := s.pixFmt, width := s.width, height := s.height);
      d := d.(colorRange := s.colorRange, colorPrimaries := s.colorPrimaries, colorTrc := s.colorTrc,
              colorspace := s.colorspace);
      d := d.(chromaSampleLocation := s.chromaSampleLocation, sampleAspectRatio := s.sampleAspectRatio,
              hasBFrames := s.hasBFrames);
    }
    if lv.avcodec == 56 {
      dst.views := dst.views.(older := d);
    } else {
      dst.views := dst.views.(newer := d);
    }
    if src.extradataSize != 0 && dst.extradataSize == 0 {
      var n := src.extradataSize;
      if !allocOk {
        dst.extradata := null;
        return false;
      }
      var buffer := new byte[n + InputBufferPaddingSize](_ => 0);
      forall i | 0 <= i < n {
        buffer[i] := src.extradata[i];
      }
      dst.extradata := buffer;
      dst.extradataSize := n;
    }
    ok := true;
  }
}
