/**
 * The job parameter block handed to the VSPM library (VSPM_IP_PAR and the
 * VSPM_VSP_PAR tree below it) and the driver's management of it
 * (vsp2_vspm.c): the reset before use, the layer order built before each
 * submission, library initialisation and the job priority.
 *
 * The tree of separately allocated records becomes one object holding
 * values: four source blocks (src1_par .. src4_par, each with its
 * alpha_blend record) and the BRU block (with its virtual-background record
 * and four blend-control records). The destination and UDS blocks are not
 * part of this model.
 */
module Vspm {
  import opened Consts
  import opened Pipeline

  /** T_VSP_ALPHA */
  datatype AlphaPar = AlphaPar(
    addrA: nat, alphan: nat, alpha1: nat, alpha2: nat, astride: nat, aswap: nat,
    asel: nat, aext: nat, anum0: nat, anum1: nat, afix: nat, irop: nat,
    msken: nat, bsel: nat, mgcolor: nat, mscolor0: nat, mscolor1: nat)

  const ZERO_ALPHA := AlphaPar(0, 0, 0, 0, 0, 0, 0, 0, 0, 0, 0, 0, 0, 0, 0, 0, 0)

  /** T_VSP_IN: one read-pipe source; addresses are plain numbers, NULL is 0. */
  datatype SrcPar = SrcPar(
    addr: nat, addrC0: nat, addrC1: nat, stride: nat, strideC: nat,
    width: nat, height: nat, widthEx: nat, heightEx: nat, xOffset: nat, yOffset: nat,
    format: bv16, swap: nat, xPosition: int, yPosition: int,
    cipm: bv32, cext: bv32, csc: bv32, iturbt: bv32, clrcng: bv32,
    pwd: nat, vir: nat, vircolor: nat, alpha: AlphaPar)

  const ZERO_SRC := SrcPar(0, 0, 0, 0, 0, 0, 0, 0, 0, 0, 0, 0, 0, 0, 0, 0, 0, 0, 0, 0, 0, 0, 0, ZERO_ALPHA)

  /** T_VSP_BLEND_CONTROL: one Blend/ROP unit. */
  datatype BlendControl = BlendControl(
    rbc: bv32, crop: bv32, arop: bv32,
    blendFormula: nat, blendCoefx: nat, blendCoefy: nat,
    aformula: nat, acoefx: nat, acoefy: nat, acoefxFix: nat, acoefyFix: nat)

  const ZERO_BLEND := BlendControl(0, 0, 0, 0, 0, 0, 0, 0, 0, 0, 0)

  /** T_VSP_BLEND_VIRTUAL: the virtual RPF that provides the background. */
  datatype BlendVirtual = BlendVirtual(width: nat, height: nat, xPosition: nat, yPosition: nat, pwd: nat, color: bv32)

  const ZERO_VIRTUAL := BlendVirtual(0, 0, 0, 0, 0, 0)

  /** T_VSP_BRU; hasBlendRop is false when blend_rop is NULL. */
  datatype BruPar = BruPar(
    layOrder: bv32, adiv: bv32, qnt: seq<bv32>, dith: seq<bv32>,
    hasBlendRop: bool, connect: nat, virt: BlendVirtual, blend: seq<BlendControl>)

  const ZERO_BRU := BruPar(0, 0, [0, 0, 0, 0], [0, 0, 0, 0], false, 0, ZERO_VIRTUAL,
                           [ZERO_BLEND, ZERO_BLEND, ZERO_BLEND, ZERO_BLEND])

  predicate BruParShape(b: BruPar) {
    |b.qnt| == 4 && |b.dith| == 4 && |b.blend| == BRU_NUM_INPUTS
  }

  // ---------------------------------------------------------------------------
  // Layer order (vsp2_vspm.c:337-351)

  /** VSP_LAY_k, the layer identifier of RPF k-1, for k in 1..4. */
  function LayId(k: nat): bv32
    requires 1 <= k <= 4
  {
    match k
    case 1 => VSP_LAY_1
    case 2 => VSP_LAY_2
    case 3 => VSP_LAY_3
    case 4 => VSP_LAY_4
  }

  /** Nibble k (bits 4k+3..4k) of a word, for the five nibbles lay_order uses. */
  function Nibble(w: bv32, k: nat): bv32
    requires k <= 4
  {
    match k
    case 0 => w & 0xF
    case 1 => (w >> 4) & 0xF
    case 2 => (w >> 8) & 0xF
    case 3 => (w >> 12) & 0xF
    case 4 => (w >> 16) & 0xF
  }

  /** The layer identifiers are 4-bit values, as the nibble packing of lay_order expects. */
  predicate LayIdsFitNibble() {
    VSP_LAY_VIRTUAL < 16 && VSP_LAY_1 < 16 && VSP_LAY_2 < 16 && VSP_LAY_3 < 16 && VSP_LAY_4 < 16
  }

  /** VSP_LAY_k shifted into nibble k. */
  function LayShifted(k: nat): bv32
    requires 1 <= k <= 4
  {
    match k
    case 1 => VSP_LAY_1 << 4
    case 2 => VSP_LAY_2 << 8
    case 3 => VSP_LAY_3 << 12
    case 4 => VSP_LAY_4 << 16
  }

  /** lay_order after the first k conditional updates, for `rpfNum` RPFs in use. */
  function LayOrderUpTo(rpfNum: nat, k: nat): bv32
    requires k <= 4
  {
    if k == 0 then VSP_LAY_VIRTUAL
    else if rpfNum >= k then LayOrderUpTo(rpfNum, k - 1) | LayShifted(k)
    else LayOrderUpTo(rpfNum, k - 1)
  }

  /** The lay_order word for `rpfNum` RPFs in use. */
  function LayOrder(rpfNum: nat): bv32 {
    LayOrderUpTo(rpfNum, 4)
  }

  /** VSP_LAY_k shifted into place occupies nibble k only. */
  lemma {:induction false} LayShiftedNibble(k: nat, j: nat)
    requires LayIdsFitNibble()
    requires 1 <= k <= 4 && j <= 4
    ensures Nibble(LayShifted(k), j) == (if j == k then LayId(k) else 0)
    ensures LayShifted(k) >> 20 == 0
  {
    match k
    case 1 => assert LayShifted(k) == VSP_LAY_1 << 4;
    case 2 => assert LayShifted(k) == VSP_LAY_2 << 8;
    case 3 => assert LayShifted(k) == VSP_LAY_3 << 12;
    case 4 => assert LayShifted(k) == VSP_LAY_4 << 16;
  }

  /** Nibbles distribute over bitwise or. */
  lemma {:induction false} NibbleOr(a: bv32, b: bv32, j: nat)
    requires j <= 4
    ensures Nibble(a | b, j) == Nibble(a, j) | Nibble(b, j)
  {
    match j
    case 0 =>
    case 1 =>
    case 2 =>
    case 3 =>
    case 4 =>
  }

  /** Invariant of the incremental construction: nibbles 1..k are filled, the rest zero. */
  lemma {:induction false} LayOrderUpToNibbles(rpfNum: nat, k: nat, j: nat)
    requires LayIdsFitNibble()
    requires k <= 4 && j <= 4
    ensures Nibble(LayOrderUpTo(rpfNum, k), j) ==
      (if j == 0 then VSP_LAY_VIRTUAL else if j <= k && rpfNum >= j then LayId(j) else 0)
    ensures LayOrderUpTo(rpfNum, k) >> 20 == 0
  {
    if k == 0 {
      match j
      case 0 =>
      case 1 =>
      case 2 =>
      case 3 =>
      case 4 =>
    } else {
      LayOrderUpToNibbles(rpfNum, k - 1, j);
      if rpfNum >= k {
        LayShiftedNibble(k, j);
        NibbleOr(LayOrderUpTo(rpfNum, k - 1), LayShifted(k), j);
        var a, b := LayOrderUpTo(rpfNum, k - 1), LayShifted(k);
        assert (a | b) >> 20 == 0;
      }
    }
  }

  /**
   * The packing is a nibble encoding: the virtual layer sits in nibble 0,
   * layer k in nibble k exactly when at least k RPFs are in use, and
   * nothing above nibble 4 is set.
   */
  lemma {:induction false} LayOrderNibbles(rpfNum: nat)
    requires LayIdsFitNibble()
    ensures Nibble(LayOrder(rpfNum), 0) == VSP_LAY_VIRTUAL
    ensures forall k :: 1 <= k <= 4 ==> Nibble(LayOrder(rpfNum), k) == (if rpfNum >= k then LayId(k) else 0)
    ensures LayOrder(rpfNum) >> 20 == 0
  {
    forall j | 0 <= j <= 4
      ensures Nibble(LayOrder(rpfNum), j) == (if j == 0 then VSP_LAY_VIRTUAL else if rpfNum >= j then LayId(j) else 0)
    {
      LayOrderUpToNibbles(rpfNum, 4, j);
    }
    LayOrderUpToNibbles(rpfNum, 4, 0);
  }

  /** Two RPF counts that agree below 4 and saturate alike build the same word. */
  lemma {:induction false} LayOrderUpToSaturates(m: nat, n: nat, k: nat)
    requires (if m < 4 then m else 4) == (if n < 4 then n else 4)
    requires k <= 4
    ensures LayOrderUpTo(m, k) == LayOrderUpTo(n, k)
  {
    if k > 0 {
      LayOrderUpToSaturates(m, n, k - 1);
    }
  }

  /** lay_order can be decoded back into the number of RPFs in use, saturated at 4. */
  lemma {:induction false} LayOrderDeterminesRpfCount(m: nat, n: nat)
    requires LayIdsFitNibble()
    requires VSP_LAY_1 != 0 && VSP_LAY_2 != 0 && VSP_LAY_3 != 0 && VSP_LAY_4 != 0
    ensures LayOrder(m) == LayOrder(n) <==> (if m < 4 then m else 4) == (if n < 4 then n else 4)
  {
    LayOrderNibbles(m);
    LayOrderNibbles(n);
    var cm := if m < 4 then m else 4;
    var cn := if n < 4 then n else 4;
    if cm != cn {
      var k := if cm < cn then cm + 1 else cn + 1;
      assert Nibble(LayOrder(m), k) != Nibble(LayOrder(n), k);
    } else {
      LayOrderUpToSaturates(m, n, 4);
    }
  }

  // ---------------------------------------------------------------------------
  // The parameter block

  class VspPar {
    /** uhType of VSPM_IP_PAR */
    var ipType: nat
    var rpfNum: nat
    var rpfOrder: nat
    var useModule: bv32
    /** src1_par .. src4_par */
    var src: seq<SrcPar>
    var bru: BruPar

    ghost predicate Valid()
      reads this
    {
      |src| == VSP_NUM_SRC && BruParShape(bru)
    }

    /** use_module has the VSP_BRU_USE bit: the job goes through the compositor. */
    predicate UsesBru()
      reads this
    {
      useModule & VSP_BRU_USE != 0
    }

    /** The state vsp2_vspm_param_init leaves. */
    predicate IsReset()
      reads this
    {
      && ipType == VSPM_TYPE_VSP_VSPS
      && rpfNum == 0 && rpfOrder == 0 && useModule == 0
      && src == seq(VSP_NUM_SRC, _ => ZERO_SRC)
      && bru == ZERO_BRU
    }

    /** The zero-filled block that allocation returns. */
    constructor ()
      ensures Valid()
      ensures ipType == 0 && rpfNum == 0 && rpfOrder == 0 && useModule == 0
      ensures src == seq(VSP_NUM_SRC, _ => ZERO_SRC) && bru == ZERO_BRU
    {
      ipType := 0;
      rpfNum := 0;
      rpfOrder := 0;
      useModule := 0;
      src := seq(VSP_NUM_SRC, _ => ZERO_SRC);
      bru := ZERO_BRU;
    }

    /**
     * vsp2_vspm_param_init: clears the four source blocks with their alpha
     * records, the BRU block with its virtual background and four
     * blend-control records, and the counters.
     */
    method ParamInit()
      requires Valid()
      modifies this
      ensures Valid() && IsReset()
    {
      ipType := VSPM_TYPE_VSP_VSPS;
      rpfNum := 0;
      rpfOrder := 0;
      useModule := 0;
      var i := 0;
      while i < VSP_NUM_SRC
        invariant 0 <= i <= VSP_NUM_SRC && |src| == VSP_NUM_SRC
        invariant forall j :: 0 <= j < i ==> src[j] == ZERO_SRC
        invariant ipType == VSPM_TYPE_VSP_VSPS && rpfNum == 0 && rpfOrder == 0 && useModule == 0
        invariant BruParShape(bru)
      {
        src := src[i := ZERO_SRC];
        i := i + 1;
      }
      bru := bru.(layOrder := 0, adiv := 0, qnt := [0, 0, 0, 0], dith := [0, 0, 0, 0],
                  hasBlendRop := false, connect := 0, virt := ZERO_VIRTUAL);
      i := 0;
      while i < BRU_NUM_INPUTS
        invariant 0 <= i <= BRU_NUM_INPUTS && |bru.blend| == BRU_NUM_INPUTS
        invariant forall j :: 0 <= j < i ==> bru.blend[j] == ZERO_BLEND
        invariant bru.(blend := ZERO_BRU.blend) == ZERO_BRU
        invariant ipType == VSPM_TYPE_VSP_VSPS && rpfNum == 0 && rpfOrder == 0 && useModule == 0
        invariant src == seq(VSP_NUM_SRC, _ => ZERO_SRC)
      {
        bru := bru.(blend := bru.blend[i := ZERO_BLEND]);
        i := i + 1;
      }
    }

    /** One step of the lay_order construction: `if (rpf_num >= k) lay_order |= VSP_LAY_k << 4k`. */
    method AddLayer(k: nat)
      requires 1 <= k <= 4 && bru.layOrder == LayOrderUpTo(rpfNum, k - 1)
      modifies this`bru
      ensures bru == old(bru).(layOrder := LayOrderUpTo(rpfNum, k))
    {
      if rpfNum >= k {
        bru := bru.(layOrder := bru.layOrder | LayShifted(k));
      }
    }

    /** lay_order rebuilt from VSP_LAY_VIRTUAL, one layer per RPF in use. */
    method RebuildLayOrder()
      modifies this`bru
      ensures bru == old(bru).(layOrder := LayOrder(rpfNum))
    {
      bru := bru.(layOrder := VSP_LAY_VIRTUAL);
      AddLayer(1);
      AddLayer(2);
      AddLayer(3);
      AddLayer(4);
    }

    /**
     * The parameter patch vsp2_vspm_drv_entry_work applies before each
     * submission: with the BRU in use, lay_order is rebuilt from scratch
     * for the RPFs in use; otherwise RPF0 becomes the parent layer.
     */
    method PrepareLayers()
      requires Valid()
      modifies this`bru, this`src
      ensures Valid()
      ensures old(UsesBru()) ==> bru == old(bru).(layOrder := LayOrder(rpfNum)) && src == old(src)
      ensures !old(UsesBru()) ==> bru == old(bru) && src == old(src)[0 := old(src)[0].(pwd := VSP_LAYER_PARENT)]
    {
      if UsesBru() {
        RebuildLayOrder();
      } else {
        src := src[0 := src[0].(pwd := VSP_LAYER_PARENT)];
      }
    }
  }

  /** vsp2_vspm_init's choice of job priority. */
  function JobPriority(devId: int): (pri: nat)
    ensures pri == VSP2_VSPM_JOB_PRI_1 || pri == VSP2_VSPM_JOB_PRI_0
    ensures VSP2_VSPM_JOB_PRI_1 != VSP2_VSPM_JOB_PRI_0 ==> (pri == VSP2_VSPM_JOB_PRI_1 <==> devId == DEVID_1)
  {
    if devId == DEVID_1 then VSP2_VSPM_JOB_PRI_1 else VSP2_VSPM_JOB_PRI_0
  }

  /** struct vsp2_vspm: the library handle, the current job and its priority. */
  class VspmState {
    var hdl: nat
    var jobId: nat
    var jobPri: nat
    const par: VspPar

    /**
     * vsp2_vspm_init after a successful allocation: the parameter block is
     * reset and the job priority chosen from the device id.
     */
    constructor (devId: int)
      ensures fresh(par) && par.Valid() && par.IsReset()
      ensures hdl == 0 && jobId == 0
      ensures jobPri == JobPriority(devId)
    {
      var p := new VspPar();
      p.ParamInit();
      par := p;
      hdl := 0;
      jobId := 0;
      jobPri := JobPriority(devId);
    }

    /**
     * vsp2_vspm_drv_init: VSPM_lib_DriverInitialize is handed the handle's
     * address, returns `initRet` and leaves `newHdl` in the handle, whether
     * it succeeds or not; only on success is the block reset.
     */
    method DrvInit(initRet: int, newHdl: nat, log: CallLog) returns (ret: int)
      requires par.Valid()
      modifies this`hdl, par, log
      ensures ret == initRet && par.Valid()
      ensures log.calls == old(log.calls) + [VspmInitialize(initRet)]
      ensures hdl == newHdl
      ensures ret == R_VSPM_OK ==> par.IsReset()
      ensures ret != R_VSPM_OK ==> unchanged(par)
    {
      log.Record(VspmInitialize(initRet));
      hdl := newHdl;
      ret := initRet;
      if ret != R_VSPM_OK {
        return;
      }
      par.ParamInit();
    }

    /** vsp2_vspm_drv_quit: the library's result is passed on. */
    method DrvQuit(quitRet: int, log: CallLog) returns (ret: int)
      modifies log
      ensures ret == quitRet
      ensures log.calls == old(log.calls) + [VspmQuit(quitRet)]
    {
      log.Record(VspmQuit(quitRet));
      ret := quitRet;
    }
  }
}
