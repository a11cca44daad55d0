/**
 * The read pipes (vsp2_rpf.c): each RPF fetches one memory buffer and
 * feeds it to the compositor. Stream-on fills the source block of the job
 * parameter block from the crop rectangle, the memory format and the alpha
 * control; queueing a buffer while streaming patches the addresses in place.
 */
module Rpf {
  import opened Consts
  import opened Pipeline
  import opened Entity
  import opened Vspm

  /** RPF_MAX_WIDTH and RPF_MAX_HEIGHT (vsp2_rpf.c:72-73). */
  const RPF_MAX_WIDTH: nat := 8190
  const RPF_MAX_HEIGHT: nat := 8190

  /** VIDEO_MAX_PLANES: the plane_fmt array of a multi-planar pixel format. */
  const VIDEO_MAX_PLANES: nat := 8

  /**
   * struct vsp2_format_info, the fields the RPF reads: hardware format,
   * bits per pixel of each plane, Y/C and U/V swaps, chroma subsampling,
   * data swap and whether the format carries alpha.
   */
  datatype FormatInfo = FormatInfo(
    hwfmt: bv32, bpp: seq<u32>, swapYc: bool, swapUv: bool,
    hsub: u32, vsub: u32, swap: nat, alpha: bool)

  predicate FormatInfoValid(info: FormatInfo) {
    |info.bpp| == 3 && info.hsub >= 1 && info.vsub >= 1
  }

  /** struct v4l2_pix_format_mplane, the fields the RPF reads. */
  datatype PixFormat = PixFormat(numPlanes: nat, bytesPerLine: seq<u32>, flags: bv32)

  predicate PixFormatValid(pix: PixFormat) {
    |pix.bytesPerLine| == VIDEO_MAX_PLANES
  }

  /** rpf_get_vsp_in: RPF n uses source block n, for n in 0..3; any other index has none. */
  function SrcIndex(index: nat): (r: Option<nat>)
    ensures r.Some? <==> index < VSP_NUM_SRC
    ensures r.Some? ==> r.value == index
  {
    if index < VSP_NUM_SRC then Some(index) else None
  }

  // ---------------------------------------------------------------------------
  // Crop offsets (vsp2_rpf.c:178-200), in unsigned 32-bit arithmetic

  /** The chroma stride: bytesperline of plane 1 for multi-planar formats, 0 otherwise. */
  function StrideC(pix: PixFormat): u32
    requires PixFormatValid(pix)
  {
    if pix.numPlanes > 1 then pix.bytesPerLine[1] else 0
  }

  /** offsets[0]: the byte offset of the crop corner in the luma (or only) plane. */
  function LumaOffset(crop: Rect, pix: PixFormat, info: FormatInfo): u32
    requires PixFormatValid(pix) && FormatInfoValid(info)
  {
    ToU32(ToU32(crop.top * pix.bytesPerLine[0]) + ToU32(crop.left * info.bpp[0]) / 8)
  }

  /** offsets[1]: the byte offset of the crop corner in the chroma planes, 0 for single-plane formats. */
  function ChromaOffset(crop: Rect, pix: PixFormat, info: FormatInfo): u32
    requires PixFormatValid(pix) && FormatInfoValid(info)
  {
    if pix.numPlanes > 1 then
      ToU32(ToU32(crop.top * StrideC(pix)) / info.vsub + ToU32(crop.left * info.bpp[1]) / info.hsub / 8)
    else 0
  }

  /**
   * Without overflow, the luma offset of a crop corner is the address of
   * its pixel in a row-major plane: `top` lines of `stride` bytes plus
   * `left` pixels of bpp/8 bytes.
   */
  lemma {:induction false} LumaOffsetIsPixelAddress(crop: Rect, pix: PixFormat, info: FormatInfo)
    requires PixFormatValid(pix) && FormatInfoValid(info)
    requires crop.top >= 0 && crop.left >= 0
    requires info.bpp[0] % 8 == 0
    requires crop.top * pix.bytesPerLine[0] + crop.left * info.bpp[0] < 0x1_0000_0000
    ensures LumaOffset(crop, pix, info) == crop.top * pix.bytesPerLine[0] + crop.left * (info.bpp[0] / 8)
  {
    var stride := pix.bytesPerLine[0];
    var bpp := info.bpp[0];
    var rowBytes := crop.top * stride;
    var pixelBits := crop.left * bpp;
    assert 0 <= rowBytes;
    BitsToBytes(crop.left, bpp);
    assert ToU32(rowBytes) == rowBytes && ToU32(pixelBits) == pixelBits;
  }

  /** `left` pixels of a whole number of bytes each span left * bpp bits, that is left * (bpp / 8) bytes. */
  lemma {:induction false} BitsToBytes(left: int, bpp: int)
    requires left >= 0 && bpp >= 0 && bpp % 8 == 0
    ensures 0 <= left * bpp && (left * bpp) / 8 == left * (bpp / 8)
  {
    var k := bpp / 8;
    assert bpp == k * 8;
    assert left * bpp == left * k * 8 by {
      assert left * (k * 8) == left * k * 8;
    }
  }

  /** One crop line further down moves the luma offset by exactly one stride (without overflow). */
  lemma {:induction false} LumaOffsetStepsByStride(crop: Rect, pix: PixFormat, info: FormatInfo)
    requires PixFormatValid(pix) && FormatInfoValid(info)
    requires 0 <= crop.top && crop.top + 1 < 0x8000_0000 && crop.left >= 0
    requires info.bpp[0] % 8 == 0
    requires (crop.top + 1) * pix.bytesPerLine[0] + crop.left * info.bpp[0] < 0x1_0000_0000
    ensures LumaOffset(crop.(top := crop.top + 1), pix, info) == LumaOffset(crop, pix, info) + pix.bytesPerLine[0]
  {
    var stride := pix.bytesPerLine[0];
    assert crop.top * stride <= (crop.top + 1) * stride by {
      assert 0 <= crop.top * stride;
      assert (crop.top + 1) * stride == crop.top * stride + stride;
    }
    LumaOffsetIsPixelAddress(crop, pix, info);
    LumaOffsetIsPixelAddress(crop.(top := crop.top + 1), pix, info);
    assert (crop.top + 1) * stride == crop.top * stride + stride;
  }

  /** The crop corner at the origin starts every plane at its first byte. */
  lemma {:induction false} OffsetsAtOrigin(crop: Rect, pix: PixFormat, info: FormatInfo)
    requires PixFormatValid(pix) && FormatInfoValid(info)
    requires crop.top == 0 && crop.left == 0
    ensures LumaOffset(crop, pix, info) == 0 && ChromaOffset(crop, pix, info) == 0
  {
    assert crop.top * pix.bytesPerLine[0] == 0 && crop.left * info.bpp[0] == 0;
    assert crop.top * StrideC(pix) == 0 && crop.left * info.bpp[1] == 0;
    assert ToU32(0) == 0;
    assert 0 / info.vsub == 0 && 0 / info.hsub == 0;
  }

  // ---------------------------------------------------------------------------
  // Input format (vsp2_rpf.c:212-245)

  /** The VI6_RPF_INFMT word of a memory format; `csc` when the sink and source codes differ. */
  function InFmt(info: FormatInfo, csc: bool): bv32 {
    OrOfFields(VI6_RPF_INFMT_CIPM,
               info.hwfmt << VI6_RPF_INFMT_RDFMT_SHIFT,
               if info.swapYc then VI6_RPF_INFMT_SPYCS else 0,
               if info.swapUv then VI6_RPF_INFMT_SPUVS else 0,
               if csc then VI6_RPF_INFMT_CSC else 0,
               VI6_RPF_INFMT_CEXT_EXT)
  }

  /** The six INFMT fields or-ed together in register order. */
  function OrOfFields(cipm: bv32, rdfmt: bv32, spycs: bv32, spuvs: bv32, csc: bv32, cext: bv32): bv32 {
    cipm | rdfmt | spycs | spuvs | csc | cext
  }

  /**
   * Register layout the INFMT decoding relies on: RDFMT at bit 0, CSC at
   * bit 8, and no other field in bits 8..0.
   */
  predicate InFmtLayout() {
    && VI6_RPF_INFMT_RDFMT_SHIFT == 0
    && VI6_RPF_INFMT_CSC == 1 << 8
    && VI6_RPF_INFMT_CIPM & 0x1FF == 0
    && VI6_RPF_INFMT_SPYCS & 0x1FF == 0
    && VI6_RPF_INFMT_SPUVS & 0x1FF == 0
    && VI6_RPF_INFMT_CEXT_EXT & 0x1FF == 0
  }

  /** Hardware formats fit the 7-bit RDFMT field. */
  predicate HwFmtFits(info: FormatInfo) {
    info.hwfmt < 0x80
  }

  /**
   * The format word handed to the library: the 7-bit hardware format, and
   * above it 1 byte per pixel for CLUT formats, the byte count per pixel
   * for the other RGB formats, or the SPYCS/SPUVS bits for YUV formats.
   * The byte count is truncated to the 16-bit field.
   */
  function VspmFormat(infmt: bv32, bpp0: nat): (r: bv16)
    ensures r & 0x7F == (infmt & 0x7F) as bv16
  {
    var f := (infmt & 0x7F) as bv16;
    if f == 0x7F || f == 0x3F then f | (1 << 8)
    else if f < 0x40 then f | (((bpp0 / 8) % 0x100) as bv16 << 8)
    else f | (infmt & 0xC000) as bv16
  }

  /** The upper byte of the format word for each class of hardware format. */
  lemma {:induction false} VspmFormatUpperByte(infmt: bv32, bpp0: nat)
    ensures var f := infmt & 0x7F;
            var hi := VspmFormat(infmt, bpp0) & 0xFF80;
            && ((f == 0x7F || f == 0x3F) ==> hi == 0x100)
            && (f < 0x40 && f != 0x3F ==> hi == ((bpp0 / 8) % 0x100) as bv16 << 8)
            && (f >= 0x40 && f != 0x7F ==> hi == (infmt & 0xC000) as bv16)
  {
    var f := infmt & 0x7F;
    var b := ((bpp0 / 8) % 0x100) as bv16;
    assert b < 0x100;
    assert (b << 8) & 0x7F == 0;
  }

  /** The format word carries the hardware format of the memory format unchanged in its low 7 bits. */
  lemma {:induction false} VspmFormatCarriesHwFmt(info: FormatInfo, csc: bool, bpp0: nat)
    requires InFmtLayout() && HwFmtFits(info)
    ensures VspmFormat(InFmt(info, csc), bpp0) & 0x7F == info.hwfmt as bv16
  {
    InFmtLowBits(info, csc);
  }

  /** Under the layout, bits 8..0 of INFMT are the CSC flag above the hardware format. */
  lemma InFmtLowBits(info: FormatInfo, csc: bool)
    requires InFmtLayout() && HwFmtFits(info)
    ensures InFmt(info, csc) & 0x7F == info.hwfmt
    ensures (InFmt(info, csc) & (1 << 8)) >> 8 == (if csc then 1 else 0)
  {
    InFmtRdfmt(info, csc);
    InFmtCscBit(info, csc);
  }

  /** Bits 6..0 of INFMT are the hardware format. */
  lemma InFmtRdfmt(info: FormatInfo, csc: bool)
    requires InFmtLayout() && HwFmtFits(info)
    ensures InFmt(info, csc) & 0x7F == info.hwfmt
  {
    InFmtUnshifted(info, csc);
    FieldsRdfmt(VI6_RPF_INFMT_CIPM, info.hwfmt,
                if info.swapYc then VI6_RPF_INFMT_SPYCS else 0,
                if info.swapUv then VI6_RPF_INFMT_SPUVS else 0,
                if csc then VI6_RPF_INFMT_CSC else 0,
                VI6_RPF_INFMT_CEXT_EXT);
  }

  /** Bit 8 of INFMT is the CSC flag. */
  lemma InFmtCscBit(info: FormatInfo, csc: bool)
    requires InFmtLayout() && HwFmtFits(info)
    ensures (InFmt(info, csc) & (1 << 8)) >> 8 == (if csc then 1 else 0)
  {
    InFmtUnshifted(info, csc);
    var c: bv32 := if csc then VI6_RPF_INFMT_CSC else 0;
    assert c == 0 <==> !csc;
    FieldsCscBit(VI6_RPF_INFMT_CIPM, info.hwfmt,
                 if info.swapYc then VI6_RPF_INFMT_SPYCS else 0,
                 if info.swapUv then VI6_RPF_INFMT_SPUVS else 0,
                 c, VI6_RPF_INFMT_CEXT_EXT);
  }

  /** With RDFMT at bit 0, INFMT is the hardware format or-ed with the other fields as they are. */
  lemma {:induction false} InFmtUnshifted(info: FormatInfo, csc: bool)
    requires InFmtLayout()
    ensures InFmt(info, csc) == OrOfFields(VI6_RPF_INFMT_CIPM, info.hwfmt,
                                           if info.swapYc then VI6_RPF_INFMT_SPYCS else 0,
                                           if info.swapUv then VI6_RPF_INFMT_SPUVS else 0,
                                           if csc then VI6_RPF_INFMT_CSC else 0,
                                           VI6_RPF_INFMT_CEXT_EXT)
  {
    assert info.hwfmt << VI6_RPF_INFMT_RDFMT_SHIFT == info.hwfmt;
  }

  /** Fields clear of bits 8..0 leave a 7-bit field in bits 6..0 readable. */
  lemma {:induction false} FieldsRdfmt(a: bv32, h: bv32, y: bv32, u: bv32, c: bv32, e: bv32)
    requires a & 0x1FF == 0 && y & 0x1FF == 0 && u & 0x1FF == 0 && e & 0x1FF == 0
    requires h < 0x80 && (c == 0 || c == 1 << 8)
    ensures OrOfFields(a, h, y, u, c, e) & 0x7F == h
  {
    OrClearLowBits(a, y, u, e);
    assert a | h | y | u | c | e == (a | y | u | e) | h | c;
    LowBitsOfParts(a | y | u | e, h, c);
  }

  /** Fields clear of bits 8..0 leave a bit-8 flag readable. */
  lemma {:induction false} FieldsCscBit(a: bv32, h: bv32, y: bv32, u: bv32, c: bv32, e: bv32)
    requires a & 0x1FF == 0 && y & 0x1FF == 0 && u & 0x1FF == 0 && e & 0x1FF == 0
    requires h < 0x80 && (c == 0 || c == 1 << 8)
    ensures (OrOfFields(a, h, y, u, c, e) & (1 << 8)) >> 8 == (if c == 0 then 0 else 1)
  {
    OrClearLowBits(a, y, u, e);
    assert a | h | y | u | c | e == (a | y | u | e) | h | c;
    LowBitsOfParts(a | y | u | e, h, c);
  }

  lemma {:induction false} OrClearLowBits(a: bv32, b: bv32, c: bv32, d: bv32)
    requires a & 0x1FF == 0 && b & 0x1FF == 0 && c & 0x1FF == 0 && d & 0x1FF == 0
    ensures (a | b | c | d) & 0x1FF == 0
  {
  }

  lemma {:induction false} LowBitsOfParts(rest: bv32, h: bv32, c: bv32)
    requires rest & 0x1FF == 0 && h < 0x80 && (c == 0 || c == 1 << 8)
    ensures (rest | h | c) & 0x7F == h
    ensures ((rest | h | c) & (1 << 8)) >> 8 == (if c == 0 then 0 else 1)
  {
  }

  // ---------------------------------------------------------------------------
  // The source block (vsp2_rpf.c:183-277)

  /**
   * The alpha record stream-on writes: fixed alpha `alpha`, no alpha plane,
   * alpha taken from the pixel data when the format carries it.
   */
  function StreamAlpha(info: FormatInfo, alpha: nat): (a: AlphaPar)
    ensures a.afix == alpha && a.addrA == 0 && a.alphan == VSP_ALPHA_NO
    ensures a.asel == (if info.alpha then VSP_ALPHA_NUM1 else VSP_ALPHA_NUM5)
  {
    AlphaPar(0, VSP_ALPHA_NO, 0, 0, 0, VSP_SWAP_NO,
             if info.alpha then VSP_ALPHA_NUM1 else VSP_ALPHA_NUM5,
             VSP_AEXT_COPY, 0, 0, alpha, VSP_IROP_NOP, VSP_MSKEN_ALPHA, 0, 0, 0, 0)
  }

  /**
   * The source block stream-on writes, from the state of the RPF: memory
   * format, crop and location rectangles, buffer addresses and crop offsets,
   * alpha, and whether the sink and source pad codes differ.
   */
  function SourceParams(info: FormatInfo, pix: PixFormat, crop: Rect, location: Rect,
                        bufAddr: seq<nat>, offsets: seq<u32>, alpha: nat, csc: bool): (s: SrcPar)
    requires FormatInfoValid(info) && PixFormatValid(pix) && |bufAddr| == 3 && |offsets| == 2
    ensures s.addr == bufAddr[0] + offsets[0]
    ensures s.addrC0 == bufAddr[1] + offsets[1] && s.addrC1 == bufAddr[2] + offsets[1]
    ensures s.width == s.widthEx == crop.width && s.height == s.heightEx == crop.height
    ensures s.xOffset == 0 && s.yOffset == 0
    ensures s.xPosition == location.left && s.yPosition == location.top
    ensures s.pwd == VSP_LAYER_CHILD && s.vir == VSP_NO_VIR && s.vircolor == 0
    ensures s.alpha == StreamAlpha(info, alpha)
  {
    var infmt := InFmt(info, csc);
    SrcPar(
      bufAddr[0] + offsets[0], bufAddr[1] + offsets[1], bufAddr[2] + offsets[1],
      pix.bytesPerLine[0], StrideC(pix),
      crop.width, crop.height, crop.width, crop.height, 0, 0,
      VspmFormat(infmt, info.bpp[0]), info.swap, location.left, location.top,
      (infmt & (1 << 16)) >> 16,
      (infmt & (3 << 12)) >> 12,
      (infmt & (1 << 8)) >> 8,
      (infmt & (3 << 10)) >> 10,
      (infmt & (1 << 9)) >> 9,
      VSP_LAYER_CHILD, VSP_NO_VIR, 0,
      StreamAlpha(info, alpha))
  }

  /**
   * The colour-space converter is enabled exactly when the sink and source
   * pads carry different codes, and the hardware format reaches the
   * library unchanged.
   */
  lemma {:induction false} SourceParamsFormatFields(info: FormatInfo, pix: PixFormat, crop: Rect, location: Rect,
                                                    bufAddr: seq<nat>, offsets: seq<u32>, alpha: nat, csc: bool)
    requires FormatInfoValid(info) && PixFormatValid(pix) && |bufAddr| == 3 && |offsets| == 2
    requires InFmtLayout() && HwFmtFits(info)
    ensures SourceParams(info, pix, crop, location, bufAddr, offsets, alpha, csc).csc == (if csc then 1 else 0)
    ensures SourceParams(info, pix, crop, location, bufAddr, offsets, alpha, csc).format & 0x7F == info.hwfmt as bv16
  {
    InFmtLowBits(info, csc);
    VspmFormatCarriesHwFmt(info, csc, info.bpp[0]);
  }

  /**
   * Queueing a buffer while streaming patches the three addresses only;
   * the result is the block stream-on would have written for the new buffer.
   */
  lemma {:induction false} QueuePatchIsRecompute(info: FormatInfo, pix: PixFormat, crop: Rect, location: Rect,
                                                 oldAddr: seq<nat>, newAddr: seq<nat>, offsets: seq<u32>, alpha: nat, csc: bool)
    requires FormatInfoValid(info) && PixFormatValid(pix) && |oldAddr| == 3 && |newAddr| == 3 && |offsets| == 2
    ensures SourceParams(info, pix, crop, location, oldAddr, offsets, alpha, csc)
              .(addr := newAddr[0] + offsets[0], addrC0 := newAddr[1] + offsets[1], addrC1 := newAddr[2] + offsets[1])
         == SourceParams(info, pix, crop, location, newAddr, offsets, alpha, csc)
  {
  }

  /**
   * Setting the alpha control while streaming patches the fixed alpha only;
   * the result is the block stream-on would have written with the new alpha.
   */
  lemma {:induction false} AlphaPatchIsRecompute(info: FormatInfo, pix: PixFormat, crop: Rect, location: Rect,
                                                 bufAddr: seq<nat>, offsets: seq<u32>, oldAlpha: nat, newAlpha: nat, csc: bool)
    requires FormatInfoValid(info) && PixFormatValid(pix) && |bufAddr| == 3 && |offsets| == 2
    ensures var s := SourceParams(info, pix, crop, location, bufAddr, offsets, oldAlpha, csc);
            s.(alpha := s.alpha.(afix := newAlpha)) == SourceParams(info, pix, crop, location, bufAddr, offsets, newAlpha, csc)
  {
  }

  // ---------------------------------------------------------------------------
  // The read pipe (struct vsp2_rwpf)

  class Rwpf {
    const entity: VspEntity
    var maxWidth: nat
    var maxHeight: nat
    /** video.fmtinfo and video.format: the memory format of the video node. */
    var fmtInfo: FormatInfo
    var pixFormat: PixFormat
    var crop: Rect
    var location: Rect
    var alpha: nat
    /** buf_addr[0..2]: the plane addresses of the current buffer. */
    var bufAddr: seq<nat>
    var offsets: seq<u32>

    constructor (entity: VspEntity, fmtInfo: FormatInfo, pixFormat: PixFormat)
      ensures this.entity == entity && this.fmtInfo == fmtInfo && this.pixFormat == pixFormat
      ensures maxWidth == RPF_MAX_WIDTH && maxHeight == RPF_MAX_HEIGHT
      ensures crop == ZERO_RECT && location == ZERO_RECT && alpha == 0
      ensures bufAddr == [0, 0, 0] && offsets == [0, 0]
    {
      this.entity := entity;
      this.fmtInfo := fmtInfo;
      this.pixFormat := pixFormat;
      maxWidth := RPF_MAX_WIDTH;
      maxHeight := RPF_MAX_HEIGHT;
      crop := ZERO_RECT;
      location := ZERO_RECT;
      alpha := 0;
      bufAddr := [0, 0, 0];
      offsets := [0, 0];
    }

    ghost predicate Valid()
      reads this, entity
    {
      && |bufAddr| == 3 && |offsets| == 2
      && FormatInfoValid(fmtInfo) && PixFormatValid(pixFormat)
      && |entity.formats| == RWPF_NUM_PADS
    }

    /** The sink and source pads carry different codes: the colour-space converter is needed. */
    predicate NeedsCsc()
      reads this, entity
      requires Valid()
    {
      entity.formats[RWPF_PAD_SINK].code != entity.formats[RWPF_PAD_SOURCE].code
    }

    /** The source block that matches the current state of the pipe. */
    function Source(): SrcPar
      reads this, entity
      requires Valid()
    {
      SourceParams(fmtInfo, pixFormat, crop, location, bufAddr, offsets, alpha, NeedsCsc())
    }

    /** While streaming, the pipe's source block describes its current buffer and settings. */
    ghost predicate InSync(par: VspPar)
      reads this, entity, par
    {
      Valid() && par.Valid() && entity.index < VSP_NUM_SRC
      && offsets == [LumaOffset(crop, pixFormat, fmtInfo), ChromaOffset(crop, pixFormat, fmtInfo)]
      && par.src[entity.index] == Source()
    }

    /**
     * rpf_s_ctrl: while streaming, the alpha control sets the fixed alpha of
     * the source block, propagates it through the pipeline and remembers it.
     */
    method SCtrl(id: nat, val: nat, par: VspPar, log: CallLog) returns (ret: int)
      requires Valid() && par.Valid()
      modifies par`src, this`alpha, log
      ensures par.Valid()
      ensures SrcIndex(entity.index).None? ==> ret == -EINVAL
      ensures SrcIndex(entity.index).Some? ==> ret == 0
      ensures var applied := entity.index < VSP_NUM_SRC && entity.streaming && id == V4L2_CID_ALPHA_COMPONENT;
        && (applied ==> par.src == old(par.src)[entity.index := old(par.src)[entity.index].(alpha := old(par.src)[entity.index].alpha.(afix := val))])
        && (applied ==> alpha == val && log.calls == old(log.calls) + [PropagateAlpha(entity.index, val)])
        && (!applied ==> par.src == old(par.src) && alpha == old(alpha) && log.calls == old(log.calls))
      ensures old(InSync(par)) ==> InSync(par)
    {
      ghost var wasInSync := InSync(par);
      var idx := SrcIndex(entity.index);
      if idx.None? {
        return -EINVAL;
      }
      if !entity.IsStreaming() {
        return 0;
      }
      if id == V4L2_CID_ALPHA_COMPONENT {
        var i := idx.value;
        if wasInSync {
          AlphaPatchIsRecompute(fmtInfo, pixFormat, crop, location, bufAddr, offsets, alpha, val, NeedsCsc());
        }
        par.src := par.src[i := par.src[i].(alpha := par.src[i].alpha.(afix := val))];
        log.Record(PropagateAlpha(i, val));
        alpha := val;
      }
      return 0;
    }

    /**
     * rpf_s_stream. `setupRet` is the result of the control handler setup
     * inside set_streaming, which re-applies the alpha control (current value
     * `alphaCtrl`).
     */
    method SStream(enable: bool, setupRet: int, alphaCtrl: nat, par: VspPar, log: CallLog) returns (ret: int)
      requires Valid() && par.Valid()
      modifies entity`streaming, par`src, par`rpfNum, this`alpha, this`offsets, log
      ensures Valid() && par.Valid()
      ensures entity.index >= VSP_NUM_SRC ==>
        ret == -EINVAL && entity.streaming == old(entity.streaming) && par.src == old(par.src) && log.calls == old(log.calls)
      ensures entity.index < VSP_NUM_SRC ==>
        ret == (if enable && old(entity.hasCtrlHandler) && setupRet < 0 then setupRet else 0)
      ensures entity.index < VSP_NUM_SRC ==> entity.streaming == (enable && ret == 0)
      ensures ret < 0 || !enable ==>
        par.src == old(par.src) && par.rpfNum == old(par.rpfNum) && alpha == old(alpha)
        && offsets == old(offsets) && log.calls == old(log.calls)
      ensures ret == 0 && enable ==>
        && alpha == (if old(entity.hasCtrlHandler) then alphaCtrl else old(alpha))
        && InSync(par)
        && par.src == old(par.src)[entity.index := Source()]
        && par.rpfNum == (if old(par.rpfNum) < entity.index + 1 then entity.index + 1 else old(par.rpfNum))
        && log.calls == old(log.calls)
             + (if old(entity.hasCtrlHandler) then [PropagateAlpha(entity.index, alphaCtrl)] else [])
             + [PropagateAlpha(entity.index, alpha)]
    {
      var idx := SrcIndex(entity.index);
      if idx.None? {
        return -EINVAL;
      }
      ret := entity.SetStreaming(enable, setupRet);
      if enable && entity.hasCtrlHandler && ret >= 0 {
        // The control handler setup ran rpf_s_ctrl with the streaming flag set.
        var _ := SCtrl(V4L2_CID_ALPHA_COMPONENT, alphaCtrl, par, log);
      }
      if ret < 0 {
        return ret;
      }
      if !enable {
        return 0;
      }
      WriteSource(par, log);
      return 0;
    }

    /**
     * The stream-on tail of rpf_s_stream: the plane offsets, the source
     * block of this input, the alpha propagation and the input count.
     */
    method WriteSource(par: VspPar, log: CallLog)
      requires Valid() && par.Valid() && entity.index < VSP_NUM_SRC
      modifies par`src, par`rpfNum, this`offsets, log
      ensures InSync(par)
      ensures par.src == old(par.src)[entity.index := Source()]
      ensures par.rpfNum == (if old(par.rpfNum) < entity.index + 1 then entity.index + 1 else old(par.rpfNum))
      ensures log.calls == old(log.calls) + [PropagateAlpha(entity.index, alpha)]
    {
      offsets := [LumaOffset(crop, pixFormat, fmtInfo), ChromaOffset(crop, pixFormat, fmtInfo)];
      par.src := par.src[entity.index := Source()];
      log.Record(PropagateAlpha(entity.index, alpha));
      if par.rpfNum < entity.index + 1 {
        par.rpfNum := entity.index + 1;
      }
    }

    /** The three plane addresses of the queued buffer, stored one by one. */
    method StoreAddrs(addrs: seq<nat>)
      requires |bufAddr| == 3 && |addrs| == 3
      modifies this`bufAddr
      ensures bufAddr == addrs
    {
      ghost var before := bufAddr;
      var i := 0;
      while i < 3
        invariant 0 <= i <= 3 && |bufAddr| == 3
        invariant bufAddr[..i] == addrs[..i] && bufAddr[i..] == before[i..]
      {
        bufAddr := bufAddr[i := addrs[i]];
        i := i + 1;
      }
      assert bufAddr == bufAddr[..3] && addrs == addrs[..3];
    }

    /**
     * rpf_vdev_queue: remember the plane addresses of the new buffer and,
     * while streaming, patch them (with the crop offsets) into the source block.
     */
    method VdevQueue(addrs: seq<nat>, par: VspPar)
      requires Valid() && par.Valid() && |addrs| == 3
      modifies this`bufAddr, par`src
      ensures Valid() && par.Valid()
      ensures entity.index >= VSP_NUM_SRC ==> bufAddr == old(bufAddr) && par.src == old(par.src)
      ensures entity.index < VSP_NUM_SRC ==> bufAddr == addrs
      ensures entity.index < VSP_NUM_SRC && entity.streaming ==>
        par.src == old(par.src)[entity.index := old(par.src)[entity.index].(
          addr := addrs[0] + offsets[0], addrC0 := addrs[1] + offsets[1], addrC1 := addrs[2] + offsets[1])]
      ensures !entity.streaming ==> par.src == old(par.src)
      ensures entity.streaming && old(InSync(par)) ==> InSync(par)
    {
      ghost var wasInSync := InSync(par);
      var idx := SrcIndex(entity.index);
      if idx.None? {
        return;
      }
      ghost var before := bufAddr;
      StoreAddrs(addrs);
      if !entity.IsStreaming() {
        return;
      }
      assert wasInSync ==> InSyncWith(par, before);
      PatchSource(par, before, wasInSync);
    }

    /** The pipe's source block was computed for the buffer at `addrs`. */
    ghost predicate InSyncWith(par: VspPar, addrs: seq<nat>)
      reads this, entity, par
    {
      Valid() && par.Valid() && entity.index < VSP_NUM_SRC && |addrs| == 3
      && offsets == [LumaOffset(crop, pixFormat, fmtInfo), ChromaOffset(crop, pixFormat, fmtInfo)]
      && par.src[entity.index] == SourceParams(fmtInfo, pixFormat, crop, location, addrs, offsets, alpha, NeedsCsc())
    }

    /**
     * The streaming half of rpf_vdev_queue: the three address fields of the
     * source block move to the stored buffer.
     */
    method PatchSource(par: VspPar, ghost before: seq<nat>, ghost wasInSync: bool)
      requires Valid() && par.Valid() && entity.index < VSP_NUM_SRC
      requires wasInSync ==> InSyncWith(par, before)
      modifies par`src
      ensures par.Valid()
      ensures par.src == old(par.src)[entity.index := old(par.src)[entity.index].(
        addr := bufAddr[0] + offsets[0], addrC0 := bufAddr[1] + offsets[1], addrC1 := bufAddr[2] + offsets[1])]
      ensures wasInSync ==> InSync(par)
    {
      var k := entity.index;
      par.src := par.src[k := par.src[k].(
        addr := bufAddr[0] + offsets[0], addrC0 := bufAddr[1] + offsets[1], addrC1 := bufAddr[2] + offsets[1])];
      if wasInSync {
        QueuePatchIsRecompute(fmtInfo, pixFormat, crop, location, before, bufAddr, offsets, alpha, NeedsCsc());
      }
    }
  }

  /**
   * What vsp2_rpf_create reports for the given step results: -EINVAL for an
   * index without a route, else the first failing step's error in the order
   * media_entity_init, control handler, vsp2_video_init, media link, else
   * media_entity_init's result.
   */
  function RpfCreateResult(index: nat, mediaInitRet: int, ctrlsError: int, videoInitRet: int, linkRet: int): int {
    if index >= VSP_NUM_SRC then -EINVAL
    else if mediaInitRet < 0 then mediaInitRet
    else if ctrlsError != 0 then ctrlsError
    else if videoInitRet < 0 then videoInitRet
    else if linkRet < 0 then linkRet
    else mediaInitRet
  }

  /**
   * Creation succeeds exactly when the index has a route and every step
   * succeeds, and then reports media_entity_init's result; otherwise the
   * error of the first failing step, in the driver's order.
   */
  lemma {:induction false} RpfCreateOutcome(index: nat, mediaInitRet: int, ctrlsError: int, videoInitRet: int, linkRet: int)
    requires ctrlsError <= 0
    ensures var r := RpfCreateResult(index, mediaInitRet, ctrlsError, videoInitRet, linkRet);
      && (r >= 0 <==> index < VSP_NUM_SRC && mediaInitRet >= 0 && ctrlsError == 0 && videoInitRet >= 0 && linkRet >= 0)
      && (r >= 0 ==> r == mediaInitRet)
      && (index >= VSP_NUM_SRC ==> r == -EINVAL)
      && (index < VSP_NUM_SRC && mediaInitRet < 0 ==> r == mediaInitRet)
      && (index < VSP_NUM_SRC && mediaInitRet >= 0 && ctrlsError < 0 ==> r == ctrlsError)
      && (index < VSP_NUM_SRC && mediaInitRet >= 0 && ctrlsError == 0 && videoInitRet < 0 ==> r == videoInitRet)
      && (index < VSP_NUM_SRC && mediaInitRet >= 0 && ctrlsError == 0 && videoInitRet >= 0 && linkRet < 0 ==> r == linkRet)
  {
  }

  /**
   * vsp2_rpf_create after allocation: entity RPF `index` with two pads, the
   * alpha control attached, the video node initialised and linked.
   * `mediaInitRet`, `ctrlsError`, `videoInitRet` and `linkRet` are the
   * results of media_entity_init, the control handler, vsp2_video_init and
   * media_entity_create_link; `fmtInfo`/`pixFormat` the default format the
   * video node starts with.
   */
  method CreateRpf(index: nat, mediaInitRet: int, ctrlsError: int, videoInitRet: int, linkRet: int,
                   fmtInfo: FormatInfo, pixFormat: PixFormat) returns (ret: int, rpf: Rwpf?)
    requires ctrlsError <= 0
    requires FormatInfoValid(fmtInfo) && PixFormatValid(pixFormat)
    ensures rpf != null <==> ret >= 0
    ensures ret == RpfCreateResult(index, mediaInitRet, ctrlsError, videoInitRet, linkRet)
    ensures rpf != null ==> fresh(rpf) && fresh(rpf.entity) && rpf.Valid() && rpf.entity.Valid()
    ensures rpf != null ==> rpf.entity.etype == Entity.Rpf && rpf.entity.index == index
    ensures rpf != null ==> rpf.entity.hasCtrlHandler && !rpf.entity.streaming && rpf.alpha == 0
    ensures rpf != null ==> rpf.entity.sink.None?
  {
    var e := new VspEntity(Entity.Rpf, index);
    ret := e.Init(RWPF_NUM_PADS, mediaInitRet);
    if ret < 0 {
      return ret, null;
    }
    var r := new Rwpf(e, fmtInfo, pixFormat);
    e.hasCtrlHandler := true;
    if ctrlsError != 0 {
      return ctrlsError, null;
    }
    if videoInitRet < 0 {
      return videoInitRet, null;
    }
    if linkRet < 0 {
      return linkRet, null;
    }
    return ret, r;
  }
}
