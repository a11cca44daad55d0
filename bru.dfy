/**
 * The blend/ROP unit (vsp2_bru.c): four sink pads composited onto one
 * source pad. Pad negotiation keeps every pad on the code of sink pad 0 and
 * the sizes within [BRU_MIN_SIZE, BRU_MAX_SIZE]; stream-on translates the
 * four inputs into the blend-control records of the job parameter block.
 */
module Bru {
  import opened Consts
  import opened Entity
  import opened Vspm

  const BRU_PAD_SINK0: nat := 0

  // ---------------------------------------------------------------------------
  // Control words (vsp2_bru.c:136-241)

  /** Register layout the field extraction of bru_s_stream relies on. */
  predicate BruCtrlLayout() {
    && VI6_BRU_CTRL_RBC == 1 << 31
    && VI6_BRU_CTRL_CROP_NOP & !0xF0 == 0
    && VI6_BRU_CTRL_AROP_NOP & !0x0F == 0
    && VI6_BRU_CTRL_DSTSEL_VRPF & 0x8000_00FF == 0
    && VI6_BRU_CTRL_SRCSEL_BRUIN_0 & 0x8000_00FF == 0
    && VI6_BRU_CTRL_SRCSEL_BRUIN_1 & 0x8000_00FF == 0
    && VI6_BRU_CTRL_SRCSEL_BRUIN_2 & 0x8000_00FF == 0
    && VI6_BRU_CTRL_SRCSEL_BRUIN_3 & 0x8000_00FF == 0
  }

  /** The flags word of the pipeline output, 0 when there is none. */
  function OutputFlags(output: Option<bv32>): bv32 {
    match output
    case None => 0
    case Some(flags) => flags
  }

  /** Whether a format's flags mark it as premultiplied. */
  predicate Premultiplied(flags: bv32) {
    flags & V4L2_PIX_FMT_FLAG_PREMUL_ALPHA != 0
  }

  /**
   * The VI6_BRU_INCTRL word: colour normalisation unless the pipeline output
   * is premultiplied.
   */
  function InCtrl(output: Option<bv32>): (inctrl: bv32)
    ensures inctrl == 0 || inctrl == VI6_BRU_INCTRL_NRM
    ensures output.None? ==> inctrl == VI6_BRU_INCTRL_NRM
    ensures output.Some? ==> (inctrl == 0 <==> Premultiplied(output.value) || VI6_BRU_INCTRL_NRM == 0)
  {
    if Premultiplied(OutputFlags(output)) then 0 else VI6_BRU_INCTRL_NRM
  }

  /** adiv: bit 28 of inctrl. */
  function Adiv(inctrl: bv32): (r: bv32)
    ensures r <= 1
  {
    (inctrl & (1 << 28)) >> 28
  }

  /** qnt[0..3]: bits 16..19 of inctrl. */
  function Qnt(inctrl: bv32): (r: seq<bv32>)
    ensures |r| == 4 && forall k :: 0 <= k < 4 ==> r[k] <= 1
  {
    [(inctrl & (1 << 16)) >> 16, (inctrl & (1 << 17)) >> 17,
     (inctrl & (1 << 18)) >> 18, (inctrl & (1 << 19)) >> 19]
  }

  /** dith[0..3]: the nibbles 0..3 of inctrl. */
  function Dith(inctrl: bv32): (r: seq<bv32>)
    ensures |r| == 4 && forall k :: 0 <= k < 4 ==> r[k] <= 0xF
  {
    [(inctrl & (0x000F << 0)) >> 0, (inctrl & (0x000F << 4)) >> 4,
     (inctrl & (0x000F << 8)) >> 8, (inctrl & (0x000F << 12)) >> 12]
  }

  /** The slices of inctrl recombine into its bits 28, 19:16 and 15:0, and nothing else. */
  lemma {:induction false} InCtrlSlicesRecombine(inctrl: bv32)
    ensures (Adiv(inctrl) << 28) | (Qnt(inctrl)[0] << 16) | (Qnt(inctrl)[1] << 17)
          | (Qnt(inctrl)[2] << 18) | (Qnt(inctrl)[3] << 19)
          | Dith(inctrl)[0] | (Dith(inctrl)[1] << 4) | (Dith(inctrl)[2] << 8) | (Dith(inctrl)[3] << 12)
          == inctrl & 0x100F_FFFF
  {
  }

  /** A premultiplied output turns dithering and normalisation off in every field. */
  lemma {:induction false} PremultipliedOutputClearsInCtrl(flags: bv32)
    requires Premultiplied(flags)
    ensures Adiv(InCtrl(Some(flags))) == 0
    ensures Qnt(InCtrl(Some(flags))) == [0, 0, 0, 0]
    ensures Dith(InCtrl(Some(flags))) == [0, 0, 0, 0]
  {
  }

  /** The routing bits of slot i: DSTSEL_VRPF on slot 0, SRCSEL_BRUIN(i) on every slot but 1. */
  function SlotRouting(i: nat): bv32
    requires i < BRU_NUM_INPUTS
  {
    (if i == 0 then VI6_BRU_CTRL_DSTSEL_VRPF else 0)
    | (if i != 1 then VI6_BRU_CTRL_SRCSEL_BRUIN(i) else 0)
  }

  /** The operation bits of a slot: RBC for a bound input, ROP NOP otherwise. */
  function SlotOperation(bound: bool): bv32 {
    if bound then VI6_BRU_CTRL_RBC else VI6_BRU_CTRL_CROP_NOP | VI6_BRU_CTRL_AROP_NOP
  }

  /** The control word built for slot i. */
  function SlotCtrlWord(i: nat, bound: bool): bv32
    requires i < BRU_NUM_INPUTS
  {
    SlotOperation(bound) | SlotRouting(i)
  }

  /**
   * The blend-control record for slot i; `input` is the format flags of the
   * RPF bound to the slot, None when no RPF is bound.
   */
  function BlendControlFor(i: nat, input: Option<bv32>): (r: BlendControl)
    requires i < BRU_NUM_INPUTS
    ensures r.blendFormula == VSP_FORM_BLEND0 && r.blendCoefx == VSP_COEFFICIENT_BLENDX4
    ensures r.aformula == VSP_FORM_ALPHA0 && r.acoefx == VSP_COEFFICIENT_ALPHAX4
    ensures r.acoefy == VSP_COEFFICIENT_ALPHAY5 && r.acoefxFix == 0 && r.acoefyFix == 0xFF
    ensures input.None? ==> r.blendCoefy == VSP_COEFFICIENT_BLENDY3
    ensures input.Some? ==> r.blendCoefy == (if Premultiplied(input.value) then VSP_COEFFICIENT_BLENDY5 else VSP_COEFFICIENT_BLENDY3)
    ensures r.rbc <= 1 && r.crop <= 0xF && r.arop <= 0xF
  {
    var ctrl := SlotCtrlWord(i, input.Some?);
    var premultiplied := input.Some? && Premultiplied(input.value);
    BlendControl(
      (ctrl & (1 << 31)) >> 31,
      (ctrl & (0xF << 4)) >> 4,
      (ctrl & (0xF << 0)) >> 0,
      VSP_FORM_BLEND0,
      VSP_COEFFICIENT_BLENDX4,
      if premultiplied then VSP_COEFFICIENT_BLENDY5 else VSP_COEFFICIENT_BLENDY3,
      VSP_FORM_ALPHA0,
      VSP_COEFFICIENT_ALPHAX4,
      VSP_COEFFICIENT_ALPHAY5,
      0,
      0xFF)
  }

  /** The rbc/crop/arop fields of a slot word, from the parts ORed into it. */
  lemma {:induction false} SlotFieldsOfParts(base: bv32, extra: bv32)
    requires extra & 0x8000_00FF == 0
    ensures ((base | extra) & (1 << 31)) >> 31 == (base & (1 << 31)) >> 31
    ensures ((base | extra) & (0xF << 4)) >> 4 == (base & (0xF << 4)) >> 4
    ensures ((base | extra) & (0xF << 0)) >> 0 == base & 0xF
  {
  }

  /**
   * Only the bound/unbound decision reaches rbc, crop and arop: a bound slot
   * gets rbc = 1 and no ROP, an unbound one rbc = 0 and the NOP fields. The
   * DSTSEL and SRCSEL bits ORed into the word reach no field.
   */
  lemma {:induction false} SlotControlFields(i: nat, input: Option<bv32>)
    requires BruCtrlLayout()
    requires i < BRU_NUM_INPUTS
    ensures BlendControlFor(i, input).rbc == (if input.Some? then 1 else 0)
    ensures BlendControlFor(i, input).crop == (if input.Some? then 0 else VI6_BRU_CTRL_CROP_NOP >> 4)
    ensures BlendControlFor(i, input).arop == (if input.Some? then 0 else VI6_BRU_CTRL_AROP_NOP)
  {
    SlotRoutingMasked(i);
    SlotFieldsOfParts(SlotOperation(input.Some?), SlotRouting(i));
    SlotOperationFields(input.Some?);
  }

  /** No routing bit falls into rbc, crop or arop. */
  lemma {:induction false} SlotRoutingMasked(i: nat)
    requires BruCtrlLayout()
    requires i < BRU_NUM_INPUTS
    ensures SlotRouting(i) & 0x8000_00FF == 0
  {
    match i
    case 0 =>
    case 1 =>
    case 2 =>
    case 3 =>
  }

  /** The fields the operation bits alone produce. */
  lemma {:induction false} SlotOperationFields(bound: bool)
    requires BruCtrlLayout()
    ensures (SlotOperation(bound) & (1 << 31)) >> 31 == (if bound then 1 else 0)
    ensures (SlotOperation(bound) & (0xF << 4)) >> 4 == (if bound then 0 else VI6_BRU_CTRL_CROP_NOP >> 4)
    ensures SlotOperation(bound) & 0xF == (if bound then 0 else VI6_BRU_CTRL_AROP_NOP)
  {
  }

  /** Under the register layout, a slot's record depends on its input only, not on its position. */
  lemma {:induction false} SlotRecordIndependentOfPosition(i: nat, j: nat, input: Option<bv32>)
    requires BruCtrlLayout()
    requires i < BRU_NUM_INPUTS && j < BRU_NUM_INPUTS
    ensures BlendControlFor(i, input) == BlendControlFor(j, input)
  {
    SlotControlFields(i, input);
    SlotControlFields(j, input);
  }

  /** The background colour word: the control value with an opaque alpha byte. */
  function BgColorWord(val: bv32): bv32 {
    val | (0xff << VI6_BRU_VIRRPF_COL_A_SHIFT)
  }

  /** With the alpha field at bits 31:24, a 24-bit colour keeps its RGB bytes and gets alpha 0xFF. */
  lemma {:induction false} BgColorWordFields(val: bv32)
    requires VI6_BRU_VIRRPF_COL_A_SHIFT == 24
    requires val <= 0xFF_FFFF
    ensures BgColorWord(val) & 0xFF_FFFF == val
    ensures BgColorWord(val) >> 24 == 0xFF
  {
  }

  /** The BRU block after stream-on, from the block before it (colour aside). */
  function StreamOnParams(b: BruPar, source: Format, output: Option<bv32>, inputs: seq<Option<bv32>>): (r: BruPar)
    requires |inputs| == BRU_NUM_INPUTS
    ensures BruParShape(r)
    ensures r.layOrder == b.layOrder && r.connect == b.connect && r.virt.color == b.virt.color
    ensures !r.hasBlendRop
    ensures r.adiv == Adiv(InCtrl(output)) && r.qnt == Qnt(InCtrl(output)) && r.dith == Dith(InCtrl(output))
    ensures r.virt.width == source.width && r.virt.height == source.height
    ensures r.virt.xPosition == 0 && r.virt.yPosition == 0 && r.virt.pwd == VSP_LAYER_PARENT
    ensures forall i :: 0 <= i < BRU_NUM_INPUTS ==> r.blend[i] == BlendControlFor(i, inputs[i])
  {
    var inctrl := InCtrl(output);
    b.(adiv := Adiv(inctrl), qnt := Qnt(inctrl), dith := Dith(inctrl),
       virt := b.virt.(width := source.width, height := source.height,
                       xPosition := 0, yPosition := 0, pwd := VSP_LAYER_PARENT),
       hasBlendRop := false,
       blend := seq(BRU_NUM_INPUTS, i requires 0 <= i < BRU_NUM_INPUTS => BlendControlFor(i, inputs[i])))
  }

  /** Stream-on is idempotent on the block: a second call with the same inputs changes nothing. */
  lemma {:induction false} StreamOnParamsIdempotent(b: BruPar, source: Format, output: Option<bv32>, inputs: seq<Option<bv32>>)
    requires |inputs| == BRU_NUM_INPUTS
    ensures StreamOnParams(StreamOnParams(b, source, output, inputs), source, output, inputs)
         == StreamOnParams(b, source, output, inputs)
  {
    var once := StreamOnParams(b, source, output, inputs);
    var twice := StreamOnParams(once, source, output, inputs);
    assert twice.blend == once.blend;
  }

  // ---------------------------------------------------------------------------
  // Formats (vsp2_bru.c:256-352)

  predicate SupportedCode(code: nat) {
    code == V4L2_MBUS_FMT_ARGB8888_1X32 || code == V4L2_MBUS_FMT_AYUV8_1X32
  }

  /**
   * bru_try_format: sink pad 0 keeps a supported code and falls back to
   * AYUV; every other pad takes the code of sink pad 0 (`sink0Code`). Sizes
   * are clamped, field and colorspace fixed.
   */
  function TryFormat(pad: nat, fmt: Format, sink0Code: nat): (r: Format)
    ensures pad == BRU_PAD_SINK0 ==> SupportedCode(r.code)
    ensures pad == BRU_PAD_SINK0 ==> (r.code == fmt.code <==> SupportedCode(fmt.code))
    ensures pad == BRU_PAD_SINK0 && !SupportedCode(fmt.code) ==> r.code == V4L2_MBUS_FMT_AYUV8_1X32
    ensures pad != BRU_PAD_SINK0 ==> r.code == sink0Code
    ensures BRU_MIN_SIZE <= r.width <= BRU_MAX_SIZE && BRU_MIN_SIZE <= r.height <= BRU_MAX_SIZE
    ensures BRU_MIN_SIZE <= fmt.width <= BRU_MAX_SIZE ==> r.width == fmt.width
    ensures BRU_MIN_SIZE <= fmt.height <= BRU_MAX_SIZE ==> r.height == fmt.height
    ensures r.field == V4L2_FIELD_NONE && r.colorspace == V4L2_COLORSPACE_SRGB
  {
    var code := if pad == BRU_PAD_SINK0 then
                  (if SupportedCode(fmt.code) then fmt.code else V4L2_MBUS_FMT_AYUV8_1X32)
                else sink0Code;
    Format(code,
           Clamp(fmt.width, BRU_MIN_SIZE, BRU_MAX_SIZE),
           Clamp(fmt.height, BRU_MIN_SIZE, BRU_MAX_SIZE),
           V4L2_FIELD_NONE,
           V4L2_COLORSPACE_SRGB)
  }

  /** Trying an already adjusted format changes nothing. */
  lemma {:induction false} TryFormatIdempotent(pad: nat, fmt: Format, sink0Code: nat)
    ensures TryFormat(pad, TryFormat(pad, fmt, sink0Code), sink0Code) == TryFormat(pad, fmt, sink0Code)
  {
  }

  /** bru_enum_mbus_code: pad 0 lists the two supported codes, other pads only the TRY code of pad 0. */
  function EnumMbusCode(pad: nat, index: nat, trySink0Code: nat): (r: Result<nat>)
    ensures r.Err? ==> r.errno == -EINVAL
    ensures pad == BRU_PAD_SINK0 ==> (r.Ok? <==> index < 2)
    ensures pad == BRU_PAD_SINK0 && r.Ok? ==> SupportedCode(r.value)
    ensures pad != BRU_PAD_SINK0 ==> (r.Ok? <==> index == 0)
    ensures pad != BRU_PAD_SINK0 && r.Ok? ==> r.value == trySink0Code
  {
    if pad == BRU_PAD_SINK0 then
      if index >= 2 then Err(-EINVAL)
      else Ok([V4L2_MBUS_FMT_ARGB8888_1X32, V4L2_MBUS_FMT_AYUV8_1X32][index])
    else if index != 0 then Err(-EINVAL)
    else Ok(trySink0Code)
  }

  /** Pad 0 enumerates exactly the codes bru_try_format keeps. */
  lemma {:induction false} EnumeratedCodesAreSupported(code: nat, anyCode: nat)
    ensures SupportedCode(code) <==> exists index: nat :: index < 2 && EnumMbusCode(BRU_PAD_SINK0, index, anyCode) == Ok(code)
  {
    if code == V4L2_MBUS_FMT_ARGB8888_1X32 {
      assert EnumMbusCode(BRU_PAD_SINK0, 0, anyCode) == Ok(code);
    } else if code == V4L2_MBUS_FMT_AYUV8_1X32 {
      assert EnumMbusCode(BRU_PAD_SINK0, 1, anyCode) == Ok(code);
    }
  }

  datatype FrameSizeRange = FrameSizeRange(minWidth: nat, maxWidth: nat, minHeight: nat, maxHeight: nat)

  /** bru_enum_frame_size: one range, for the supported codes only. */
  function EnumFrameSize(index: nat, code: nat): (r: Result<FrameSizeRange>)
    ensures r.Ok? <==> index == 0 && SupportedCode(code)
    ensures r.Err? ==> r.errno == -EINVAL
    ensures r.Ok? ==> r.value == FrameSizeRange(BRU_MIN_SIZE, BRU_MAX_SIZE, BRU_MIN_SIZE, BRU_MAX_SIZE)
  {
    if index != 0 then Err(-EINVAL)
    else if !SupportedCode(code) then Err(-EINVAL)
    else Ok(FrameSizeRange(BRU_MIN_SIZE, BRU_MAX_SIZE, BRU_MIN_SIZE, BRU_MAX_SIZE))
  }

  /** Every size bru_try_format produces lies in the range bru_enum_frame_size reports for its code. */
  lemma {:induction false} TriedSizeWithinEnumeratedRange(fmt: Format, sink0Code: nat)
    ensures var f := TryFormat(BRU_PAD_SINK0, fmt, sink0Code);
            var e := EnumFrameSize(0, f.code);
            e.Ok? && e.value.minWidth <= f.width <= e.value.maxWidth
                  && e.value.minHeight <= f.height <= e.value.maxHeight
  {
  }

  /**
   * The format store after bru_set_format wrote `f` to `pad`: setting sink
   * pad 0 also propagates its code to every pad.
   */
  function ApplySetFormat(store: seq<Format>, pad: nat, f: Format): (r: seq<Format>)
    requires pad < |store|
    ensures |r| == |store| && r[pad] == f
    ensures pad == BRU_PAD_SINK0 ==> forall i :: 0 <= i < |r| ==> r[i] == store[i].(code := f.code) || i == pad
    ensures pad != BRU_PAD_SINK0 ==> forall i :: 0 <= i < |r| && i != pad ==> r[i] == store[i]
  {
    var s := store[pad := f];
    if pad == BRU_PAD_SINK0 then seq(|s|, i requires 0 <= i < |s| => s[i].(code := f.code)) else s
  }

  /** All pads carry the same media-bus code. */
  predicate CodesUniform(store: seq<Format>) {
    forall i, j :: 0 <= i < |store| && 0 <= j < |store| ==> store[i].code == store[j].code
  }

  /**
   * The BRU cannot convert formats: once every pad carries one code,
   * bru_set_format on any pad keeps it so.
   */
  lemma {:induction false} SetFormatKeepsCodesUniform(store: seq<Format>, pad: nat, fmt: Format)
    requires pad < |store| && CodesUniform(store)
    ensures CodesUniform(ApplySetFormat(store, pad, TryFormat(pad, fmt, store[0].code)))
  {
    var f := TryFormat(pad, fmt, store[0].code);
    var r := ApplySetFormat(store, pad, f);
    forall i | 0 <= i < |r|
      ensures r[i].code == f.code
    {
      if i != pad && pad != BRU_PAD_SINK0 {
        assert r[i] == store[i];
      }
    }
  }

  // ---------------------------------------------------------------------------
  // Compose selection (vsp2_bru.c:391-451)

  datatype SelTarget = Compose | ComposeBounds | OtherTarget(raw: nat)

  /**
   * The clamp of the compose origin exactly as written:
   * clamp_t(unsigned int, x, 0, extent - 1) evaluated in unsigned arithmetic
   * and stored back into the signed field.
   */
  function ClampOriginAsWritten(x: s32, extent: u32): s32 {
    var hi := ToU32(extent - 1);
    var v := ToU32(x);
    ToS32(if v > hi then hi else v)
  }

  /** A compose origin one pixel left of the frame lands on its right edge. */
  lemma {:induction false} NegativeOriginWrapsToFarEdge()
    ensures ClampOriginAsWritten(-1, 100) == 99
  {
  }

  /**
   * The clamp as intended: the origin is kept inside [0, extent - 1]. An
   * extent of 0 (a source pad whose format was never set) leaves the upper
   * end open, as the unsigned subtraction does.
   */
  function ClampOrigin(x: s32, extent: u32): (r: s32)
    ensures 0 <= r
    ensures extent >= 1 ==> r <= extent - 1
    ensures x < 0 ==> r == 0
    ensures 0 <= x && (extent == 0 || x <= extent - 1) ==> r == x
    ensures extent >= 1 && x > extent - 1 ==> r == extent - 1
  {
    if x < 0 then 0
    else if extent >= 1 && x > extent - 1 then extent - 1
    else x
  }

  /** The two clamps differ only on negative origins. */
  lemma {:induction false} ClampOriginAgreesOnNonNegative(x: s32, extent: u32)
    requires x >= 0
    ensures ClampOriginAsWritten(x, extent) == ClampOrigin(x, extent)
  {
  }

  /**
   * The compose rectangle bru_set_selection stores: origin inside the
   * output frame `source`, size equal to the sink pad format `sink`.
   */
  function ComposeRect(r: Rect, source: Format, sink: Format): (c: Rect)
    ensures c.width == sink.width && c.height == sink.height
    ensures 0 <= c.left && 0 <= c.top
    ensures source.width >= 1 ==> c.left < source.width
    ensures source.height >= 1 ==> c.top < source.height
    ensures 0 <= r.left < source.width ==> c.left == r.left
    ensures 0 <= r.top < source.height ==> c.top == r.top
  {
    Rect(ClampOrigin(r.left, source.width), ClampOrigin(r.top, source.height), sink.width, sink.height)
  }

  /** The compose rectangle bru_set_selection stores as written, with the unsigned clamp. */
  function ComposeRectAsWritten(r: Rect, source: Format, sink: Format): (c: Rect)
    ensures c.width == sink.width && c.height == sink.height
  {
    Rect(ClampOriginAsWritten(r.left, source.width), ClampOriginAsWritten(r.top, source.height), sink.width, sink.height)
  }

  /** The stored rectangle as written and as corrected agree for every origin that is not negative. */
  lemma {:induction false} ComposeRectAgreesOnNonNegativeOrigin(r: Rect, source: Format, sink: Format)
    requires r.left >= 0 && r.top >= 0
    ensures ComposeRectAsWritten(r, source, sink) == ComposeRect(r, source, sink)
  {
    ClampOriginAgreesOnNonNegative(r.left, source.width);
    ClampOriginAgreesOnNonNegative(r.top, source.height);
  }

  /** As written, a compose rectangle one pixel left of a 100-pixel frame is stored at its right edge. */
  lemma {:induction false} NegativeComposeOriginWraps(r: Rect, source: Format, sink: Format)
    requires r.left == -1 && source.width == 100
    ensures ComposeRectAsWritten(r, source, sink).left == 99
    ensures ComposeRect(r, source, sink).left == 0
  {
    NegativeOriginWrapsToFarEdge();
  }

  /**
   * The body of bru_s_stream after stream-on: input control fields, the
   * virtual RPF geometry and one blend-control record per input.
   */
  method ProgramBlend(format: Format, output: Option<bv32>, inputs: seq<Option<bv32>>, par: VspPar)
    requires par.Valid() && |inputs| == BRU_NUM_INPUTS
    modifies par`bru
    ensures par.Valid()
    ensures par.bru == StreamOnParams(old(par.bru), format, output, inputs)
  {
    ghost var before := par.bru;
    var inctrl := InCtrl(output);
    par.bru := par.bru.(adiv := Adiv(inctrl), qnt := Qnt(inctrl), dith := Dith(inctrl));
    par.bru := par.bru.(virt := par.bru.virt.(width := format.width, height := format.height,
                                              xPosition := 0, yPosition := 0, pwd := VSP_LAYER_PARENT));
    par.bru := par.bru.(hasBlendRop := false);
    var i := 0;
    while i < BRU_NUM_INPUTS
      invariant 0 <= i <= BRU_NUM_INPUTS && |par.bru.blend| == BRU_NUM_INPUTS
      invariant forall j :: 0 <= j < i ==> par.bru.blend[j] == BlendControlFor(j, inputs[j])
      invariant par.bru.(blend := before.blend) == StreamOnParams(before, format, output, inputs).(blend := before.blend)
      invariant par.Valid()
    {
      par.bru := par.bru.(blend := par.bru.blend[i := BlendControlFor(i, inputs[i])]);
      i := i + 1;
    }
  }

  // ---------------------------------------------------------------------------
  // The unit (struct vsp2_bru)

  class BruUnit {
    const entity: VspEntity
    /** inputs[i].compose for the four sink pads. */
    var compose: seq<Rect>

    constructor (entity: VspEntity)
      ensures this.entity == entity
      ensures compose == seq(BRU_NUM_INPUTS, _ => ZERO_RECT)
    {
      this.entity := entity;
      compose := seq(BRU_NUM_INPUTS, _ => ZERO_RECT);
    }

    ghost predicate Valid()
      reads this, entity
    {
      |compose| == BRU_NUM_INPUTS && |entity.formats| == BRU_NUM_PADS
    }

    /** The file handle fits the BRU's pads. */
    ghost predicate FhFits(fh: SubdevFh?)
      reads fh
    {
      fh != null ==> |fh.tryFormats| == BRU_NUM_PADS && |fh.tryCrop| == BRU_NUM_PADS
    }

    /** The format store `which` selects: the entity's ACTIVE formats or the handle's TRY formats. */
    function Formats(fh: SubdevFh?, which: Which): seq<Format>
      reads this, entity, fh
      requires which.Try? ==> fh != null
    {
      if which.Try? then fh.tryFormats else entity.formats
    }

    /** The compose rectangles `which` selects (bru_get_compose on every sink pad). */
    function Composes(fh: SubdevFh?, which: Which): seq<Rect>
      reads this, fh
      requires which.Try? ==> fh != null
    {
      if which.Try? then fh.tryCrop else compose
    }

    /** bru_get_compose: the TRY crop of the handle, the ACTIVE compose rectangle, or NULL. */
    function GetCompose(fh: SubdevFh?, pad: nat, which: Which): (r: Option<Rect>)
      reads this, fh
      requires which.Try? ==> fh != null && pad < |fh.tryCrop|
      requires which.Active? ==> pad < |compose|
      ensures r.None? <==> which.OtherWhich?
      ensures r.Some? ==> r.value == Composes(fh, which)[pad]
    {
      match which
      case Try => Some(fh.tryCrop[pad])
      case Active => Some(compose[pad])
      case OtherWhich(_) => None
    }

    /**
     * bru_s_ctrl: while streaming, the background colour control writes the
     * virtual RPF colour; otherwise nothing is written.
     */
    method SCtrl(id: nat, val: bv32, par: VspPar) returns (ret: int)
      modifies par`bru
      ensures ret == 0
      ensures old(entity.streaming) && id == V4L2_CID_BG_COLOR ==>
        par.bru == old(par.bru).(virt := old(par.bru).virt.(color := BgColorWord(val)))
      ensures !(old(entity.streaming) && id == V4L2_CID_BG_COLOR) ==> par.bru == old(par.bru)
    {
      if !entity.IsStreaming() {
        return 0;
      }
      if id == V4L2_CID_BG_COLOR {
        par.bru := par.bru.(virt := par.bru.virt.(color := BgColorWord(val)));
      }
      return 0;
    }

    /**
     * bru_s_stream. `setupRet` is the result of the control handler setup
     * inside set_streaming, which re-applies the background colour control
     * (current value `bgColor`); `output` is the flags of the pipeline
     * output format (None without an output); `inputs[i]` the format flags of
     * the RPF bound to input i (None when unbound).
     */
    method SStream(enable: bool, setupRet: int, bgColor: bv32, output: Option<bv32>,
                   inputs: seq<Option<bv32>>, par: VspPar) returns (ret: int)
      requires Valid() && par.Valid() && |inputs| == BRU_NUM_INPUTS
      modifies entity`streaming, par`bru
      ensures par.Valid()
      ensures ret == (if enable && old(entity.hasCtrlHandler) && setupRet < 0 then setupRet else 0)
      ensures entity.streaming == (enable && ret == 0)
      ensures ret < 0 || !enable ==> par.bru == old(par.bru)
      ensures ret == 0 && enable ==>
        par.bru == StreamOnParams(
          (if old(entity.hasCtrlHandler) then old(par.bru).(virt := old(par.bru).virt.(color := BgColorWord(bgColor)))
           else old(par.bru)),
          old(entity.formats)[BRU_NUM_PADS - 1], output, inputs)
    {
      ret := entity.SetStreaming(enable, setupRet);
      if enable && entity.hasCtrlHandler && ret >= 0 {
        // The control handler setup ran bru_s_ctrl with the streaming flag set.
        var _ := SCtrl(V4L2_CID_BG_COLOR, bgColor, par);
      }
      if ret < 0 {
        return ret;
      }
      if !enable {
        return 0;
      }
      var format := entity.formats[BRU_NUM_PADS - 1];
      ProgramBlend(format, output, inputs, par);
      return 0;
    }

    /**
     * bru_set_format on a TRY or ACTIVE store (the V4L2 subdevice core
     * rejects any other `which` before the call). Returns the adjusted format.
     */
    method SetFormat(fh: SubdevFh?, pad: nat, fmt: Format, which: Which) returns (ret: int, out: Format)
      requires Valid() && FhFits(fh)
      requires pad < BRU_NUM_PADS
      requires which.Try? || which.Active?
      requires which.Try? ==> fh != null
      modifies entity`formats, this`compose, fh
      ensures Valid() && FhFits(fh)
      ensures ret == 0
      ensures out == TryFormat(pad, fmt, old(Formats(fh, which))[BRU_PAD_SINK0].code)
      ensures Formats(fh, which) == ApplySetFormat(old(Formats(fh, which)), pad, out)
      ensures pad != BRU_NUM_PADS - 1 ==>
        Composes(fh, which) == old(Composes(fh, which))[pad := Rect(0, 0, out.width, out.height)]
      ensures pad == BRU_NUM_PADS - 1 ==> Composes(fh, which) == old(Composes(fh, which))
      ensures which.Active? ==> fh == null || (fh.tryFormats == old(fh.tryFormats) && fh.tryCrop == old(fh.tryCrop))
      ensures which.Try? ==> entity.formats == old(entity.formats) && compose == old(compose)
    {
      var store := Formats(fh, which);
      out := TryFormat(pad, fmt, store[BRU_PAD_SINK0].code);
      store := store[pad := out];
      if pad != BRU_NUM_PADS - 1 {
        var c := Rect(0, 0, out.width, out.height);
        if which.Try? {
          fh.tryCrop := fh.tryCrop[pad := c];
        } else {
          compose := compose[pad := c];
        }
      }
      if pad == BRU_PAD_SINK0 {
        var i := 0;
        while i <= BRU_NUM_PADS - 1
          invariant 0 <= i <= BRU_NUM_PADS && |store| == BRU_NUM_PADS
          invariant forall j :: 0 <= j < i ==> store[j] == old(Formats(fh, which))[pad := out][j].(code := out.code)
          invariant forall j :: i <= j < BRU_NUM_PADS ==> store[j] == old(Formats(fh, which))[pad := out][j]
        {
          store := store[i := store[i].(code := out.code)];
          i := i + 1;
        }
      }
      if which.Try? {
        fh.tryFormats := store;
      } else {
        entity.formats := store;
      }
      ret := 0;
    }

    /** bru_get_selection: the compose bounds or the compose rectangle of a sink pad. */
    function GetSelection(fh: SubdevFh?, pad: nat, target: SelTarget, which: Which): (r: Result<Rect>)
      reads this, fh
      requires |compose| == BRU_NUM_INPUTS && FhFits(fh)
      requires pad < BRU_NUM_PADS
      requires which.Try? || which.Active?
      requires which.Try? ==> fh != null
      ensures r.Err? <==> pad == BRU_NUM_PADS - 1 || target.OtherTarget?
      ensures r.Err? ==> r.errno == -EINVAL
      ensures r.Ok? && target.ComposeBounds? ==> r.value == Rect(0, 0, BRU_MAX_SIZE, BRU_MAX_SIZE)
      ensures r.Ok? && target.Compose? ==> r.value == Composes(fh, which)[pad]
    {
      if pad == BRU_NUM_PADS - 1 then Err(-EINVAL)
      else match target
        case ComposeBounds => Ok(Rect(0, 0, BRU_MAX_SIZE, BRU_MAX_SIZE))
        case Compose => Ok(GetCompose(fh, pad, which).value)
        case OtherTarget(_) => Err(-EINVAL)
    }

    /**
     * bru_set_selection on the compose target of a sink pad: the origin is
     * kept inside the output frame (with the corrected clamp) and the size
     * forced to the sink pad format. Returns the stored rectangle.
     */
    method SetSelection(fh: SubdevFh?, pad: nat, target: SelTarget, which: Which, r: Rect) returns (ret: int, out: Rect)
      requires Valid() && FhFits(fh)
      requires pad < BRU_NUM_PADS
      requires which.Try? || which.Active?
      requires which.Try? ==> fh != null
      modifies this`compose, fh
      ensures Valid() && FhFits(fh)
      ensures ret == 0 || ret == -EINVAL
      ensures ret == -EINVAL <==> pad == BRU_NUM_PADS - 1 || !target.Compose?
      ensures ret == -EINVAL ==> compose == old(compose) && (fh != null ==> fh.tryCrop == old(fh.tryCrop))
      ensures ret == 0 ==> out == ComposeRect(r, Formats(fh, which)[BRU_NUM_PADS - 1], Formats(fh, which)[pad])
      ensures ret == 0 ==> Composes(fh, which) == old(Composes(fh, which))[pad := out]
      ensures which.Active? ==> fh == null || fh.tryCrop == old(fh.tryCrop)
      ensures which.Try? ==> compose == old(compose)
      ensures fh != null ==> fh.tryFormats == old(fh.tryFormats)
    {
      if pad == BRU_NUM_PADS - 1 {
        return -EINVAL, r;
      }
      if !target.Compose? {
        return -EINVAL, r;
      }
      var store := Formats(fh, which);
      out := ComposeRect(r, store[BRU_NUM_PADS - 1], store[pad]);
      if which.Try? {
        fh.tryCrop := fh.tryCrop[pad := out];
      } else {
        compose := compose[pad := out];
      }
      ret := 0;
    }

    /**
     * vsp2_entity_init_formats for the BRU: bru_set_format with a zeroed
     * format on every pad but the source, on the TRY store of `fh` when there
     * is a file handle (vsp2_entity_open) and on the ACTIVE store otherwise
     * (vsp2_bru_create).
     */
    method InitFormats(fh: SubdevFh?)
      requires Valid() && FhFits(fh)
      modifies entity`formats, this`compose, fh
      ensures Valid() && FhFits(fh)
      ensures var w := StoreOf(fh);
        forall p :: 0 <= p < BRU_NUM_PADS - 1 ==>
          Formats(fh, w)[p] == TryFormat(p, ZERO_FORMAT, Formats(fh, w)[BRU_PAD_SINK0].code)
      ensures var w := StoreOf(fh);
        Formats(fh, w)[BRU_NUM_PADS - 1] == old(Formats(fh, w))[BRU_NUM_PADS - 1].(code := Formats(fh, w)[BRU_PAD_SINK0].code)
      ensures var w := StoreOf(fh);
        SupportedCode(Formats(fh, w)[BRU_PAD_SINK0].code) && CodesUniform(Formats(fh, w))
      ensures var w := StoreOf(fh);
        forall p :: 0 <= p < BRU_NUM_INPUTS ==> Composes(fh, w)[p] == Rect(0, 0, BRU_MIN_SIZE, BRU_MIN_SIZE)
      ensures fh != null ==> entity.formats == old(entity.formats) && compose == old(compose)
    {
      var w := StoreOf(fh);
      var pad := 0;
      while pad < BRU_NUM_PADS - 1
        invariant 0 <= pad <= BRU_NUM_PADS - 1
        invariant Valid() && FhFits(fh)
        invariant pad > 0 ==> SupportedCode(Formats(fh, w)[BRU_PAD_SINK0].code)
        invariant pad > 0 ==> forall i :: 0 <= i < BRU_NUM_PADS ==> Formats(fh, w)[i].code == Formats(fh, w)[BRU_PAD_SINK0].code
        invariant forall p :: 0 <= p < pad ==>
          Formats(fh, w)[p] == TryFormat(p, ZERO_FORMAT, Formats(fh, w)[BRU_PAD_SINK0].code)
        invariant forall p :: 0 <= p < pad ==> Composes(fh, w)[p] == Rect(0, 0, BRU_MIN_SIZE, BRU_MIN_SIZE)
        invariant pad > 0 ==> Formats(fh, w)[BRU_NUM_PADS - 1] == old(Formats(fh, w))[BRU_NUM_PADS - 1].(code := Formats(fh, w)[BRU_PAD_SINK0].code)
        invariant pad == 0 ==> Formats(fh, w) == old(Formats(fh, w))
        invariant fh != null ==> entity.formats == old(entity.formats) && compose == old(compose)
      {
        var _, _ := SetFormat(fh, pad, ZERO_FORMAT, w);
        pad := pad + 1;
      }
    }

    /**
     * vsp2_entity_open: opening the subdevice initialises the TRY formats of
     * the new file handle and always succeeds; the ACTIVE state is untouched.
     */
    method Open(fh: SubdevFh) returns (ret: int)
      requires Valid() && FhFits(fh)
      modifies entity`formats, this`compose, fh
      ensures ret == 0 && Valid() && FhFits(fh)
      ensures SupportedCode(Formats(fh, Try)[BRU_PAD_SINK0].code) && CodesUniform(Formats(fh, Try))
      ensures forall p :: 0 <= p < BRU_NUM_INPUTS ==> Composes(fh, Try)[p] == Rect(0, 0, BRU_MIN_SIZE, BRU_MIN_SIZE)
      ensures entity.formats == old(entity.formats) && compose == old(compose)
    {
      InitFormats(fh);
      ret := 0;
    }
  }

  /** The store vsp2_entity_init_formats initialises: TRY with a file handle, ACTIVE without. */
  function StoreOf(fh: SubdevFh?): (w: Which)
    ensures w.Try? <==> fh != null
    ensures w.Active? <==> fh == null
  {
    if fh != null then Try else Active
  }

  /**
   * vsp2_bru_create after allocation: entity BRU0 with five pads, ACTIVE
   * formats initialised, the background colour control attached.
   * `mediaInitRet` is the result of media_entity_init and `ctrlsError` the
   * control handler's error (0 when it initialised).
   */
  method CreateBru(mediaInitRet: int, ctrlsError: int) returns (ret: int, bru: BruUnit?)
    requires ctrlsError <= 0
    ensures bru != null <==> ret >= 0
    ensures ret < 0 ==> ret == (if mediaInitRet < 0 then mediaInitRet else ctrlsError)
    ensures ret >= 0 ==> mediaInitRet >= 0 && ctrlsError == 0 && ret == mediaInitRet
    ensures bru != null ==> fresh(bru) && fresh(bru.entity) && bru.Valid() && bru.entity.Valid()
    ensures bru != null ==> bru.entity.etype == Entity.Bru && bru.entity.index == 0
    ensures bru != null ==> bru.entity.hasCtrlHandler && !bru.entity.streaming && bru.entity.sink.None?
    ensures bru != null ==> CodesUniform(bru.entity.formats)
  {
    var e := new VspEntity(Entity.Bru, 0);
    ret := e.Init(BRU_NUM_PADS, mediaInitRet);
    if ret < 0 {
      return ret, null;
    }
    var b := new BruUnit(e);
    b.InitFormats(null);
    e.hasCtrlHandler := true;
    if ctrlsError != 0 {
      return ctrlsError, null;
    }
    return ret, b;
  }
}
