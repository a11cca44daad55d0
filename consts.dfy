/**
 * Named constants of the VSP2 driver.
 *
 * The VI6_* register fields, the VSP_* / VSPM library enumerators and the
 * V4L2_* media codes are defined in headers that are not part of this model,
 * so they are declared here WITHOUT a value: every proof holds for whatever
 * value the headers give them. Where a property needs a fact about the
 * register layout (for instance that VI6_BRU_CTRL_RBC is bit 31), the lemma
 * takes that fact as a precondition instead of assuming it.
 *
 * Literal values that the driver spells out (sizes, pad numbers, masks) are
 * given exactly.
 */
module Consts {

  /** An unsigned 32-bit C integer. */
  type u32 = x: nat | x < 0x1_0000_0000

  /** A signed 32-bit C integer. */
  type s32 = x: int | -0x8000_0000 <= x < 0x8000_0000

  /** Conversion to unsigned int: reduction modulo 2^32. */
  function ToU32(x: int): (r: u32)
    ensures 0 <= x < 0x1_0000_0000 ==> r == x
    ensures -0x1_0000_0000 <= x < 0 ==> r == x + 0x1_0000_0000
  {
    x % 0x1_0000_0000
  }

  /** Conversion of an unsigned int back to a signed int (two's complement). */
  function ToS32(x: u32): (r: s32)
    ensures ToU32(r) == x
    ensures x < 0x8000_0000 ==> r == x
  {
    if x < 0x8000_0000 then x else x - 0x1_0000_0000
  }

  /** A C pointer that may be NULL. */
  datatype Option<+T> = None | Some(value: T)

  /** A value or a negative errno, as the driver's `int` returns and ERR_PTR encode them. */
  datatype Result<+T> = Ok(value: T) | Err(errno: int)

  // Linux errno values returned (negated) by the driver.
  const ENOMEM: int := 12
  const EFAULT: int := 14
  const EBUSY: int := 16
  const EINVAL: int := 22

  // Compositor geometry limits and pads (vsp2_bru.c:72-73, 491).
  const BRU_MIN_SIZE: nat := 1
  const BRU_MAX_SIZE: nat := 8190
  const BRU_NUM_PADS: nat := 5
  /** Sink pads 0..3 feed the four compositor inputs; the last pad is the source. */
  const BRU_PAD_SOURCE: nat := BRU_NUM_PADS - 1
  const BRU_NUM_INPUTS: nat := 4

  // Read/write pipe pads (vsp2_rpf.c:363: two pads, sink then source).
  const RWPF_NUM_PADS: nat := 2
  const RWPF_PAD_SINK: nat := 0
  const RWPF_PAD_SOURCE: nat := 1

  /** Number of source parameter blocks (src1_par .. src4_par). */
  const VSP_NUM_SRC: nat := 4

  // Instance counts of the hardware (vsp2.h).
  const VSP2_COUNT_RPF: nat
  const VSP2_COUNT_UDS: nat
  const VSP2_COUNT_WPF: nat

  // V4L2 media-bus codes, field order, colorspace, pixel-format flags, controls.
  const V4L2_MBUS_FMT_ARGB8888_1X32: nat
  const V4L2_MBUS_FMT_AYUV8_1X32: nat
  const V4L2_FIELD_NONE: nat
  const V4L2_COLORSPACE_SRGB: nat
  const V4L2_PIX_FMT_FLAG_PREMUL_ALPHA: bv32
  const V4L2_CID_BG_COLOR: nat
  const V4L2_CID_ALPHA_COMPONENT: nat

  // BRU register fields.
  const VI6_BRU_INCTRL_NRM: bv32
  const VI6_BRU_CTRL_RBC: bv32
  /** VI6_BRU_CTRL_CROP(VI6_ROP_NOP) */
  const VI6_BRU_CTRL_CROP_NOP: bv32
  /** VI6_BRU_CTRL_AROP(VI6_ROP_NOP) */
  const VI6_BRU_CTRL_AROP_NOP: bv32
  const VI6_BRU_CTRL_DSTSEL_VRPF: bv32
  const VI6_BRU_CTRL_SRCSEL_BRUIN_0: bv32
  const VI6_BRU_CTRL_SRCSEL_BRUIN_1: bv32
  const VI6_BRU_CTRL_SRCSEL_BRUIN_2: bv32
  const VI6_BRU_CTRL_SRCSEL_BRUIN_3: bv32
  const VI6_BRU_VIRRPF_COL_A_SHIFT: bv5

  /** VI6_BRU_CTRL_SRCSEL_BRUIN(n): selects compositor input n as SRC. */
  function VI6_BRU_CTRL_SRCSEL_BRUIN(n: nat): bv32
    requires n < BRU_NUM_INPUTS
  {
    match n
    case 0 => VI6_BRU_CTRL_SRCSEL_BRUIN_0
    case 1 => VI6_BRU_CTRL_SRCSEL_BRUIN_1
    case 2 => VI6_BRU_CTRL_SRCSEL_BRUIN_2
    case 3 => VI6_BRU_CTRL_SRCSEL_BRUIN_3
  }

  // RPF input-format register fields.
  const VI6_RPF_INFMT_CIPM: bv32
  const VI6_RPF_INFMT_RDFMT_SHIFT: bv5
  const VI6_RPF_INFMT_SPYCS: bv32
  const VI6_RPF_INFMT_SPUVS: bv32
  const VI6_RPF_INFMT_CSC: bv32
  const VI6_RPF_INFMT_CEXT_EXT: bv32

  // VSPM library enumerators.
  const VSPM_TYPE_VSP_VSPS: nat
  const R_VSPM_OK: int
  const VSP_LAYER_PARENT: nat
  const VSP_LAYER_CHILD: nat
  const VSP_NO_VIR: nat
  const VSP_ALPHA_NO: nat
  const VSP_SWAP_NO: nat
  const VSP_ALPHA_NUM1: nat
  const VSP_ALPHA_NUM5: nat
  const VSP_AEXT_COPY: nat
  const VSP_IROP_NOP: nat
  const VSP_MSKEN_ALPHA: nat
  const VSP_FORM_BLEND0: nat
  const VSP_COEFFICIENT_BLENDX4: nat
  const VSP_COEFFICIENT_BLENDY3: nat
  const VSP_COEFFICIENT_BLENDY5: nat
  const VSP_FORM_ALPHA0: nat
  const VSP_COEFFICIENT_ALPHAX4: nat
  const VSP_COEFFICIENT_ALPHAY5: nat
  const VSP_BRU_USE: bv32
  const VSP_LAY_VIRTUAL: bv32
  const VSP_LAY_1: bv32
  const VSP_LAY_2: bv32
  const VSP_LAY_3: bv32
  const VSP_LAY_4: bv32

  // Platform device ids and VSPM job priorities.
  const DEVID_1: int
  const VSP2_VSPM_JOB_PRI_0: nat
  const VSP2_VSPM_JOB_PRI_1: nat

  /** clamp(x, lo, hi) of the kernel. */
  function Clamp(x: int, lo: int, hi: int): (r: int)
    requires lo <= hi
    ensures lo <= r <= hi
    ensures lo <= x <= hi ==> r == x
    ensures x < lo ==> r == lo
    ensures x > hi ==> r == hi
  {
    if x < lo then lo else if x > hi then hi else x
  }
}
