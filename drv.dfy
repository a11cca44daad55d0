/**
 * The device (vsp2_drv.c): the entity graph, reference-counted library
 * initialisation, and the end-of-frame fan-out to the write pipes, together
 * with the job submission and completion paths of vsp2_vspm.c that end in it.
 */
module Drv {
  import opened Consts
  import opened Pipeline
  import opened Entity
  import opened Vspm
  import opened Bru
  import opened Rpf

  // ---------------------------------------------------------------------------
  // End-of-frame fan-out (vsp2_drv.c:80-97)

  /** Which write pipes exist. */
  function Present(ws: seq<VspEntity?>): (p: seq<bool>)
    ensures |p| == |ws| && forall i :: 0 <= i < |ws| ==> (p[i] <==> ws[i] != null)
  {
    seq(|ws|, i requires 0 <= i < |ws| => ws[i] != null)
  }

  /** The pipeline notifications vsp2_frame_end makes: one per present write pipe, in index order. */
  function FanOut(present: seq<bool>): (r: seq<Call>)
    decreases |present|
  {
    if |present| == 0 then []
    else FanOut(present[..|present| - 1])
         + (if present[|present| - 1] then [FrameEnd(|present| - 1)] else [])
  }

  /** The fan-out notifies exactly the present write pipes, each once, in increasing index order. */
  lemma {:induction false} FanOutNotifiesPresentInOrder(present: seq<bool>)
    decreases |present|
    ensures forall k :: 0 <= k < |FanOut(present)| ==>
      FanOut(present)[k].FrameEnd? && FanOut(present)[k].wpf < |present| && present[FanOut(present)[k].wpf]
    ensures forall i :: 0 <= i < |present| && present[i] ==> FrameEnd(i) in FanOut(present)
    ensures forall j, k :: 0 <= j < k < |FanOut(present)| ==> FanOut(present)[j].wpf < FanOut(present)[k].wpf
  {
    if |present| > 0 {
      var n := |present| - 1;
      var front := present[..n];
      FanOutNotifiesPresentInOrder(front);
      var r := FanOut(present);
      assert r == FanOut(front) + (if present[n] then [FrameEnd(n)] else []);
      forall k | 0 <= k < |r|
        ensures r[k].FrameEnd? && r[k].wpf < |present| && present[r[k].wpf]
      {
        if k < |FanOut(front)| {
          assert r[k] == FanOut(front)[k];
          assert present[r[k].wpf] == front[r[k].wpf];
        }
      }
      forall i | 0 <= i < |present| && present[i]
        ensures FrameEnd(i) in r
      {
        if i < n {
          assert front[i];
          var k :| 0 <= k < |FanOut(front)| && FanOut(front)[k] == FrameEnd(i);
          assert r[k] == FrameEnd(i);
        } else {
          assert r[|r| - 1] == FrameEnd(n);
        }
      }
      forall j, k | 0 <= j < k < |r|
        ensures r[j].wpf < r[k].wpf
      {
        if k < |FanOut(front)| {
          assert r[j] == FanOut(front)[j] && r[k] == FanOut(front)[k];
        } else {
          assert r[j] == FanOut(front)[j];
          assert r[k] == FrameEnd(n);
        }
      }
    }
  }

  // ---------------------------------------------------------------------------
  // Reference counting (vsp2_drv.c:268-333)

  datatype RefOp = Get(initRet: int) | Put(quitRet: int)

  datatype RefOutcome = RefOutcome(count: int, ret: int, calls: seq<Call>)

  /**
   * One vsp2_device_get or vsp2_device_put on a reference count: the new
   * count, the value returned and the library calls made.
   */
  function RefStep(count: int, op: RefOp): (r: RefOutcome)
    ensures op.Get? && count > 0 ==> r == RefOutcome(count + 1, 0, [])
    ensures op.Get? && count <= 0 ==> r.calls == [VspmInitialize(op.initRet)]
    ensures op.Get? ==> (r.ret == 0 <==> r.count == count + 1) && (r.ret != 0 <==> r.count == count)
    ensures op.Get? && count <= 0 ==> (r.ret == 0 <==> op.initRet == R_VSPM_OK)
    ensures op.Get? ==> r.ret == 0 || r.ret == -EFAULT
    ensures op.Put? ==> r.count == count - 1 && r.ret == 0
    ensures op.Put? ==> r.calls == (if count == 1 then [VspmQuit(op.quitRet)] else [])
  {
    match op
    case Get(initRet) =>
      if count > 0 then RefOutcome(count + 1, 0, [])
      else if initRet != R_VSPM_OK then RefOutcome(count, -EFAULT, [VspmInitialize(initRet)])
      else RefOutcome(count + 1, 0, [VspmInitialize(initRet)])
    case Put(quitRet) =>
      if count - 1 == 0 then RefOutcome(0, 0, [VspmQuit(quitRet)])
      else RefOutcome(count - 1, 0, [])
  }

  /** A sequence of gets and puts from count `count`: the final count and all library calls. */
  function RefRun(count: int, ops: seq<RefOp>): RefOutcome
    decreases |ops|
  {
    if ops == [] then RefOutcome(count, 0, [])
    else
      var s := RefStep(count, ops[0]);
      var rest := RefRun(s.count, ops[1..]);
      RefOutcome(rest.count, rest.ret, s.calls + rest.calls)
  }

  /** Every put releases a reference some earlier get took. */
  predicate Balanced(count: int, ops: seq<RefOp>)
    decreases |ops|
  {
    ops == [] || ((ops[0].Put? ==> count >= 1) && Balanced(RefStep(count, ops[0]).count, ops[1..]))
  }

  /** Successful library initialisations minus library shutdowns. */
  function Sessions(calls: seq<Call>): int
    decreases |calls|
  {
    if calls == [] then 0
    else
      (match calls[0]
       case VspmInitialize(r) => if r == R_VSPM_OK then 1 else 0
       case VspmQuit(_) => -1
       case _ => 0)
      + Sessions(calls[1..])
  }

  lemma {:induction false} SessionsAppend(a: seq<Call>, b: seq<Call>)
    decreases |a|
    ensures Sessions(a + b) == Sessions(a) + Sessions(b)
  {
    if a == [] {
      assert a + b == b;
    } else {
      assert (a + b)[0] == a[0];
      assert (a + b)[1..] == a[1..] + b;
      SessionsAppend(a[1..], b);
    }
  }

  /**
   * Starting from a non-negative count, a balanced run keeps the count
   * non-negative and opens as many library sessions as it takes the count
   * from zero to positive.
   */
  lemma {:induction false} RefRunSessions(count: int, ops: seq<RefOp>)
    requires count >= 0 && Balanced(count, ops)
    decreases |ops|
    ensures RefRun(count, ops).count >= 0
    ensures Sessions(RefRun(count, ops).calls)
         == (if RefRun(count, ops).count > 0 then 1 else 0) - (if count > 0 then 1 else 0)
  {
    if ops != [] {
      var s := RefStep(count, ops[0]);
      RefRunSessions(s.count, ops[1..]);
      SessionsAppend(s.calls, RefRun(s.count, ops[1..]).calls);
      assert Sessions([]) == 0;
    }
  }

  /**
   * The library is initialised exactly while the device is referenced: from
   * a fresh device, after any balanced sequence of gets and puts, the
   * library sessions still open number 1 if the count is positive, 0 if not.
   */
  lemma {:induction false} LibraryOpenIffReferenced(ops: seq<RefOp>)
    requires Balanced(0, ops)
    ensures RefRun(0, ops).count >= 0
    ensures Sessions(RefRun(0, ops).calls) == (if RefRun(0, ops).count > 0 then 1 else 0)
  {
    RefRunSessions(0, ops);
  }

  /**
   * vsp2_device_put has no underflow guard: an unmatched put drives the
   * count to -1, and the next get then opens a library session while the
   * count only returns to 0.
   */
  lemma {:induction false} UnmatchedPutLeavesSessionOpen(quitRet: int)
    ensures RefRun(0, [Put(quitRet), Get(R_VSPM_OK)]).count == 0
    ensures Sessions(RefRun(0, [Put(quitRet), Get(R_VSPM_OK)]).calls) == 1
  {
    var ops := [Put(quitRet), Get(R_VSPM_OK)];
    assert RefStep(0, ops[0]) == RefOutcome(-1, 0, []);
    assert ops[1..] == [Get(R_VSPM_OK)] && ops[1..][1..] == [];
    assert RefStep(-1, Get(R_VSPM_OK)) == RefOutcome(0, 0, [VspmInitialize(R_VSPM_OK)]);
    assert RefRun(0, []) == RefOutcome(0, 0, []);
    assert [VspmInitialize(R_VSPM_OK)] + [] == [VspmInitialize(R_VSPM_OK)];
    var rest := RefRun(-1, ops[1..]);
    assert rest == RefOutcome(0, 0, [VspmInitialize(R_VSPM_OK)]);
    assert RefRun(0, ops) == RefOutcome(0, 0, [] + [VspmInitialize(R_VSPM_OK)]);
    assert Sessions([VspmInitialize(R_VSPM_OK)]) == 1 + Sessions([]);
  }

  // ---------------------------------------------------------------------------
  // Links between entities (vsp2_drv.c:113-150)

  /** A media link from a source pad to a sink pad; `enabled` is MEDIA_LNK_FL_ENABLED. */
  datatype MediaLink = MediaLink(source: MediaRef, sourcePad: nat, sink: MediaRef, sinkPad: nat, enabled: bool)

  /** What vsp2_create_links reads of an entity: type, index, source pad and pad flags. */
  datatype Node = Node(etype: EntityType, index: nat, sourcePad: nat, pads: seq<PadFlag>)

  function NodeRef(n: Node): MediaRef {
    SubdevOf(n.etype, n.index)
  }

  /** Sources that may feed `target`: not of the target's own type, and never a write pipe. */
  predicate Admitted(src: Node, target: Node) {
    src.etype != target.etype && src.etype != Entity.Wpf
  }

  /** The only links created enabled: read pipe i to write pipe i. */
  predicate EnabledPair(src: Node, target: Node) {
    src.etype == Entity.Rpf && target.etype == Entity.Wpf && src.index == target.index
  }

  /** The links from `src` to the sink pads among the first n pads of `target`, in pad order. */
  function PadLinks(src: Node, target: Node, n: nat): (r: seq<MediaLink>)
    requires n <= |target.pads|
    decreases n
  {
    if n == 0 then []
    else PadLinks(src, target, n - 1)
         + (if target.pads[n - 1] == Sink
            then [MediaLink(NodeRef(src), src.sourcePad, NodeRef(target), n - 1, EnabledPair(src, target))]
            else [])
  }

  /** The links vsp2_create_links makes into `target` from the first m entities of the list. */
  function SourceLinks(nodes: seq<Node>, m: nat, target: Node): seq<MediaLink>
    requires m <= |nodes|
    decreases m
  {
    if m == 0 then []
    else SourceLinks(nodes, m - 1, target)
         + (if Admitted(nodes[m - 1], target) then PadLinks(nodes[m - 1], target, |target.pads|) else [])
  }

  /** Every link from `src` to `target` leaves src's source pad for a sink pad, enabled exactly for RPF i to WPF i. */
  lemma {:induction false} PadLinksShape(src: Node, target: Node, n: nat)
    requires n <= |target.pads|
    decreases n
    ensures forall k :: 0 <= k < |PadLinks(src, target, n)| ==>
      var l := PadLinks(src, target, n)[k];
      && l.source == NodeRef(src) && l.sourcePad == src.sourcePad && l.sink == NodeRef(target)
      && l.sinkPad < n && target.pads[l.sinkPad] == Sink
      && l.enabled == EnabledPair(src, target)
    ensures forall p :: 0 <= p < n && target.pads[p] == Sink ==>
      MediaLink(NodeRef(src), src.sourcePad, NodeRef(target), p, EnabledPair(src, target)) in PadLinks(src, target, n)
  {
    if n > 0 {
      PadLinksShape(src, target, n - 1);
      var front := PadLinks(src, target, n - 1);
      var r := PadLinks(src, target, n);
      forall k | 0 <= k < |r|
        ensures r[k].source == NodeRef(src) && r[k].sourcePad == src.sourcePad && r[k].sink == NodeRef(target)
        ensures r[k].sinkPad < n && target.pads[r[k].sinkPad] == Sink && r[k].enabled == EnabledPair(src, target)
      {
        if k < |front| {
          assert r[k] == front[k];
        }
      }
      forall p | 0 <= p < n && target.pads[p] == Sink
        ensures MediaLink(NodeRef(src), src.sourcePad, NodeRef(target), p, EnabledPair(src, target)) in r
      {
        if p < n - 1 {
          var k :| 0 <= k < |front| && front[k] == MediaLink(NodeRef(src), src.sourcePad, NodeRef(target), p, EnabledPair(src, target));
          assert r[k] == front[k];
        } else {
          assert r[|r| - 1] == MediaLink(NodeRef(src), src.sourcePad, NodeRef(target), p, EnabledPair(src, target));
        }
      }
    }
  }

  /** A link `l` into `target` as vsp2_create_links makes it from `src`. */
  predicate FilteredLink(l: MediaLink, src: Node, target: Node) {
    && Admitted(src, target)
    && l.source == NodeRef(src) && l.sourcePad == src.sourcePad
    && l.sink == NodeRef(target) && l.sinkPad < |target.pads| && target.pads[l.sinkPad] == Sink
    && l.enabled == EnabledPair(src, target)
  }

  /**
   * The link filter of vsp2_create_links: every link into `target` comes
   * from an admitted entity of the list, through its source pad, into a
   * sink pad, and is enabled exactly when it joins RPF i to WPF i.
   */
  lemma {:induction false} SourceLinksFilter(nodes: seq<Node>, m: nat, target: Node)
    requires m <= |nodes|
    decreases m
    ensures forall k :: 0 <= k < |SourceLinks(nodes, m, target)| ==>
      exists j :: 0 <= j < m && FilteredLink(SourceLinks(nodes, m, target)[k], nodes[j], target)
  {
    if m > 0 {
      SourceLinksFilter(nodes, m - 1, target);
      var front := SourceLinks(nodes, m - 1, target);
      var r := SourceLinks(nodes, m, target);
      if Admitted(nodes[m - 1], target) {
        PadLinksShape(nodes[m - 1], target, |target.pads|);
      }
      forall k | 0 <= k < |r|
        ensures exists j :: 0 <= j < m && FilteredLink(r[k], nodes[j], target)
      {
        if k < |front| {
          assert r[k] == front[k];
          var j :| 0 <= j < m - 1 && FilteredLink(front[k], nodes[j], target);
          assert FilteredLink(r[k], nodes[j], target);
        } else {
          var tail := PadLinks(nodes[m - 1], target, |target.pads|);
          assert r == front + tail;
          assert r[k] == tail[k - |front|];
          assert FilteredLink(r[k], nodes[m - 1], target);
        }
      }
    } else {
      assert SourceLinks(nodes, m, target) == [];
    }
  }


  /** Links made into a target never shrink as more of its pads are visited. */
  lemma {:induction false} PadLinksPrefix(src: Node, target: Node, n: nat, m: nat)
    requires n <= m <= |target.pads|
    decreases m
    ensures |PadLinks(src, target, n)| <= |PadLinks(src, target, m)|
    ensures PadLinks(src, target, n) == PadLinks(src, target, m)[..|PadLinks(src, target, n)|]
    ensures n < m && target.pads[n] == Sink ==> |PadLinks(src, target, n)| < |PadLinks(src, target, m)|
  {
    if n < m {
      PadLinksPrefix(src, target, n, m - 1);
      var a := PadLinks(src, target, n);
      var b := PadLinks(src, target, m - 1);
      var c := PadLinks(src, target, m);
      assert c[..|b|] == b;
      assert c[..|a|] == b[..|a|];
      if n == m - 1 && target.pads[n] == Sink {
        assert |c| == |b| + 1;
      }
    }
  }


  /** What vsp2_create_links reads of an entity. */
  function NodeOf(e: VspEntity): Node
    reads e`sourcePad, e`pads
  {
    Node(e.etype, e.index, e.sourcePad, e.pads)
  }


  /** No two entities of the list share a type and index. */
  predicate UniqueRefs(es: seq<VspEntity>) {
    forall i, j :: 0 <= i < j < |es| ==> (es[i].etype, es[i].index) != (es[j].etype, es[j].index)
  }

  /** The links into a target from the first n entities are a prefix of those from the first m. */
  lemma {:induction false} SourceLinksPrefix(nodes: seq<Node>, n: nat, m: nat, target: Node)
    requires n <= m <= |nodes|
    decreases m
    ensures |SourceLinks(nodes, n, target)| <= |SourceLinks(nodes, m, target)|
    ensures SourceLinks(nodes, n, target) == SourceLinks(nodes, m, target)[..|SourceLinks(nodes, n, target)|]
  {
    if n < m {
      SourceLinksPrefix(nodes, n, m - 1, target);
      var b := SourceLinks(nodes, m - 1, target);
      var c := SourceLinks(nodes, m, target);
      assert c[..|b|] == b;
    }
  }

  /** A source gets links into `target` exactly when `target` has a sink pad. */
  lemma PadLinksNonEmpty(src: Node, target: Node)
    ensures |PadLinks(src, target, |target.pads|)| > 0 <==> Sink in target.pads
  {
    PadLinksShape(src, target, |target.pads|);
    if |PadLinks(src, target, |target.pads|)| > 0 {
      assert target.pads[PadLinks(src, target, |target.pads|)[0].sinkPad] == Sink;
    }
    if Sink in target.pads {
      var p :| 0 <= p < |target.pads| && target.pads[p] == Sink;
    }
  }

  /**
   * The links after k links of entity s have been made are a prefix of all
   * the links into `target`, and they are the links of the first s + 1
   * entities exactly when none of entity s's links failed.
   */
  lemma {:induction false} LinksAfterEntry(nodes: seq<Node>, s: nat, target: Node, base: seq<MediaLink>, k: nat)
    requires s < |nodes| && Admitted(nodes[s], target) && k <= |PadLinks(nodes[s], target, |target.pads|)|
    ensures |SourceLinks(nodes, s, target)| + k <= |SourceLinks(nodes, |nodes|, target)|
    ensures base + SourceLinks(nodes, s, target) + PadLinks(nodes[s], target, |target.pads|)[..k]
         == base + SourceLinks(nodes, |nodes|, target)[..|SourceLinks(nodes, s, target)| + k]
    ensures k == |PadLinks(nodes[s], target, |target.pads|)| ==>
      base + SourceLinks(nodes, s, target) + PadLinks(nodes[s], target, |target.pads|)[..k]
      == base + SourceLinks(nodes, s + 1, target)
    ensures k < |PadLinks(nodes[s], target, |target.pads|)| ==>
      |SourceLinks(nodes, s, target)| + k < |SourceLinks(nodes, |nodes|, target)|
  {
    var front := SourceLinks(nodes, s, target);
    var planned := PadLinks(nodes[s], target, |target.pads|);
    var full := SourceLinks(nodes, |nodes|, target);
    assert SourceLinks(nodes, s + 1, target) == front + planned;
    SourceLinksPrefix(nodes, s + 1, |nodes|, target);
    assert full[..|front| + k] == (front + planned)[..|front| + k] == front + planned[..k];
    assert base + front + planned[..k] == base + (front + planned[..k]);
  }


  // ---------------------------------------------------------------------------
  // The entity graph vsp2_create_entities builds (vsp2_drv.c:166-266)

  /** An entity as vsp2_entity_init lays it out with `numPads` pads. */
  function PlannedNode(etype: EntityType, index: nat, numPads: nat): (n: Node)
    requires numPads >= 1
    ensures n.etype == etype && n.index == index
    ensures n.sourcePad == numPads - 1 && |n.pads| == numPads && n.pads[n.sourcePad] == Source
    ensures forall p :: 0 <= p < numPads - 1 ==> n.pads[p] == Sink
  {
    Node(etype, index, numPads - 1, PadLayout(numPads))
  }

  /**
   * The entity list in the order vsp2_create_entities adds to it: the BRU,
   * the read pipes, the scalers, the write pipes. The scaler and write-pipe
   * pad counts come from code that is not part of this model.
   */
  function Plan(udsPads: nat, wpfPads: nat): (r: seq<Node>)
    requires udsPads >= 1 && wpfPads >= 1
    ensures |r| == 1 + VSP2_COUNT_RPF + VSP2_COUNT_UDS + VSP2_COUNT_WPF
  {
    [PlannedNode(Entity.Bru, 0, BRU_NUM_PADS)]
    + Units(Entity.Rpf, VSP2_COUNT_RPF, RWPF_NUM_PADS)
    + Units(Entity.Uds, VSP2_COUNT_UDS, udsPads)
    + Units(Entity.Wpf, VSP2_COUNT_WPF, wpfPads)
  }

  /** `count` entities of one type, indices 0 to count-1, each with `numPads` pads. */
  function Units(etype: EntityType, count: nat, numPads: nat): (r: seq<Node>)
    requires numPads >= 1
    ensures |r| == count
    decreases count
  {
    if count == 0 then [] else Units(etype, count - 1, numPads) + [PlannedNode(etype, count - 1, numPads)]
  }

  lemma {:induction false} UnitsAt(etype: EntityType, count: nat, numPads: nat)
    requires numPads >= 1
    decreases count
    ensures forall i :: 0 <= i < count ==> Units(etype, count, numPads)[i] == PlannedNode(etype, i, numPads)
  {
    if count > 0 {
      UnitsAt(etype, count - 1, numPads);
      assert forall i :: 0 <= i < count - 1 ==> Units(etype, count, numPads)[i] == Units(etype, count - 1, numPads)[i];
    }
  }

  /** A list laid out as vsp2_create_entities plans it: the BRU, then each read pipe, scaler and write pipe in index order. */
  predicate PlanShape(r: seq<Node>, udsPads: nat, wpfPads: nat)
    requires udsPads >= 1 && wpfPads >= 1
  {
    && |r| == 1 + VSP2_COUNT_RPF + VSP2_COUNT_UDS + VSP2_COUNT_WPF
    && r[0] == PlannedNode(Entity.Bru, 0, BRU_NUM_PADS)
    && (forall i :: 0 <= i < VSP2_COUNT_RPF ==> r[1 + i] == PlannedNode(Entity.Rpf, i, RWPF_NUM_PADS))
    && (forall i :: 0 <= i < VSP2_COUNT_UDS ==> r[1 + VSP2_COUNT_RPF + i] == PlannedNode(Entity.Uds, i, udsPads))
    && (forall i :: 0 <= i < VSP2_COUNT_WPF ==>
          r[1 + VSP2_COUNT_RPF + VSP2_COUNT_UDS + i] == PlannedNode(Entity.Wpf, i, wpfPads))
  }

  /** The planned entity at each position of the list. */
  lemma PlanLayout(udsPads: nat, wpfPads: nat)
    requires udsPads >= 1 && wpfPads >= 1
    ensures PlanShape(Plan(udsPads, wpfPads), udsPads, wpfPads)
  {
    UnitsAt(Entity.Rpf, VSP2_COUNT_RPF, RWPF_NUM_PADS);
    UnitsAt(Entity.Uds, VSP2_COUNT_UDS, udsPads);
    UnitsAt(Entity.Wpf, VSP2_COUNT_WPF, wpfPads);
  }

  /** No two planned entities share a type and index. */
  lemma PlanRefsDistinct(r: seq<Node>, udsPads: nat, wpfPads: nat)
    requires udsPads >= 1 && wpfPads >= 1 && PlanShape(r, udsPads, wpfPads)
    ensures forall i, j :: 0 <= i < j < |r| ==> (r[i].etype, r[i].index) != (r[j].etype, r[j].index)
  {
    forall i, j | 0 <= i < j < |r|
      ensures (r[i].etype, r[i].index) != (r[j].etype, r[j].index)
    {
      PlanPosition(r, udsPads, wpfPads, i);
      PlanPosition(r, udsPads, wpfPads, j);
    }
  }

  /** The links vsp2_create_entities makes: create_links for each of the first t entities that is not a read pipe. */
  function GraphLinks(nodes: seq<Node>, t: nat): seq<MediaLink>
    requires t <= |nodes|
    decreases t
  {
    if t == 0 then []
    else GraphLinks(nodes, t - 1)
         + (if nodes[t - 1].etype == Entity.Rpf then [] else SourceLinks(nodes, |nodes|, nodes[t - 1]))
  }

  /** The links made for the first t entities are never more than those made for the first m >= t. */
  lemma {:induction false} GraphLinksGrow(nodes: seq<Node>, t: nat, m: nat)
    requires t <= m <= |nodes|
    decreases m - t
    ensures |GraphLinks(nodes, t)| <= |GraphLinks(nodes, m)|
  {
    if t < m {
      GraphLinksGrow(nodes, t, m - 1);
    }
  }

  /** The links into entity t come after those made before it and within those of the whole list. */
  lemma GraphLinksBound(nodes: seq<Node>, t: nat)
    requires t < |nodes| && nodes[t].etype != Entity.Rpf
    ensures |GraphLinks(nodes, t)| + |SourceLinks(nodes, |nodes|, nodes[t])| <= |GraphLinks(nodes, |nodes|)|
  {
    GraphLinksGrow(nodes, t + 1, |nodes|);
  }

  /**
   * Every link of the graph joins the source pad of an admitted entity to a
   * sink pad of an entity that is not a read pipe, and is enabled exactly
   * when it joins read pipe i to write pipe i.
   */
  lemma {:induction false} GraphLinksFilter(nodes: seq<Node>, t: nat)
    requires t <= |nodes|
    decreases t
    ensures forall k :: 0 <= k < |GraphLinks(nodes, t)| ==>
      exists s, d :: 0 <= s < |nodes| && 0 <= d < t && nodes[d].etype != Entity.Rpf
                     && FilteredLink(GraphLinks(nodes, t)[k], nodes[s], nodes[d])
  {
    if t > 0 {
      GraphLinksFilter(nodes, t - 1);
      var front := GraphLinks(nodes, t - 1);
      var r := GraphLinks(nodes, t);
      var d := t - 1;
      if nodes[d].etype != Entity.Rpf {
        SourceLinksFilter(nodes, |nodes|, nodes[d]);
      }
      forall k | 0 <= k < |r|
        ensures exists s, d :: 0 <= s < |nodes| && 0 <= d < t && nodes[d].etype != Entity.Rpf
                               && FilteredLink(r[k], nodes[s], nodes[d])
      {
        if k < |front| {
          assert r[k] == front[k];
          var s, d' :| 0 <= s < |nodes| && 0 <= d' < t - 1 && nodes[d'].etype != Entity.Rpf
                       && FilteredLink(front[k], nodes[s], nodes[d']);
          assert FilteredLink(r[k], nodes[s], nodes[d']);
        } else {
          var tail := SourceLinks(nodes, |nodes|, nodes[d]);
          assert nodes[d].etype != Entity.Rpf && r == front + tail;
          assert r[k] == tail[k - |front|];
          var s :| 0 <= s < |nodes| && FilteredLink(tail[k - |front|], nodes[s], nodes[d]);
        }
      }
    } else {
      assert GraphLinks(nodes, t) == [];
    }
  }

  /** The only enabled links of the graph join read pipe i to write pipe i. */
  lemma GraphEnabledLinks(nodes: seq<Node>)
    ensures forall k :: 0 <= k < |GraphLinks(nodes, |nodes|)| && GraphLinks(nodes, |nodes|)[k].enabled ==>
      exists i :: GraphLinks(nodes, |nodes|)[k].source == SubdevOf(Entity.Rpf, i)
                  && GraphLinks(nodes, |nodes|)[k].sink == SubdevOf(Entity.Wpf, i)
  {
    GraphLinksFilter(nodes, |nodes|);
    forall k | 0 <= k < |GraphLinks(nodes, |nodes|)| && GraphLinks(nodes, |nodes|)[k].enabled
      ensures exists i :: GraphLinks(nodes, |nodes|)[k].source == SubdevOf(Entity.Rpf, i)
                          && GraphLinks(nodes, |nodes|)[k].sink == SubdevOf(Entity.Wpf, i)
    {
      var s, d :| 0 <= s < |nodes| && 0 <= d < |nodes| && nodes[d].etype != Entity.Rpf
                  && FilteredLink(GraphLinks(nodes, |nodes|)[k], nodes[s], nodes[d]);
      assert GraphLinks(nodes, |nodes|)[k].source == SubdevOf(Entity.Rpf, nodes[s].index);
    }
  }

  /**
   * The sink entity i records once create_links has run for the first t
   * entities as targets: the last of them it is enabled towards, if any.
   */
  function PlannedSink(nodes: seq<Node>, i: nat, t: nat): Option<MediaRef>
    requires i < |nodes| && t <= |nodes|
    decreases t
  {
    if t == 0 then None
    else if EnabledPair(nodes[i], nodes[t - 1]) && Sink in nodes[t - 1].pads then Some(NodeRef(nodes[t - 1]))
    else PlannedSink(nodes, i, t - 1)
  }

  /**
   * In the planned graph, read pipe i records write pipe i as its sink when
   * that write pipe exists and has a sink pad; every other entity has none.
   */
  lemma {:induction false} PlannedSinkOfPlan(r: seq<Node>, udsPads: nat, wpfPads: nat, i: nat, t: nat)
    requires udsPads >= 1 && wpfPads >= 1 && PlanShape(r, udsPads, wpfPads)
    requires i < |r| && t <= |r|
    decreases t
    ensures PlannedSink(r, i, t)
         == (if 1 <= i <= VSP2_COUNT_RPF && i - 1 < VSP2_COUNT_WPF && wpfPads >= 2
                && 1 + VSP2_COUNT_RPF + VSP2_COUNT_UDS + (i - 1) < t
             then Some(SubdevOf(Entity.Wpf, i - 1)) else None)
  {
    var w := 1 + VSP2_COUNT_RPF + VSP2_COUNT_UDS;
    if t > 0 {
      PlannedSinkOfPlan(r, udsPads, wpfPads, i, t - 1);
      var d := t - 1;
      PlanPosition(r, udsPads, wpfPads, i);
      PlanPosition(r, udsPads, wpfPads, d);
      if 1 <= i <= VSP2_COUNT_RPF && i - 1 < VSP2_COUNT_WPF && wpfPads >= 2 && d == w + (i - 1) {
        assert r[d].pads[0] == Sink;
      }
    }
  }

  /** Where read pipes and write pipes sit in a list laid out as planned. */
  lemma PlanPosition(r: seq<Node>, udsPads: nat, wpfPads: nat, k: nat)
    requires udsPads >= 1 && wpfPads >= 1 && PlanShape(r, udsPads, wpfPads) && k < |r|
    ensures r[k].etype == Entity.Rpf <==> 1 <= k <= VSP2_COUNT_RPF
    ensures r[k].etype == Entity.Bru ==> k == 0
    ensures r[k].etype == Entity.Rpf ==> r[k].index == k - 1
    ensures r[k].etype == Entity.Uds ==> r[k].index == k - (1 + VSP2_COUNT_RPF)
    ensures r[k].etype == Entity.Wpf <==> 1 + VSP2_COUNT_RPF + VSP2_COUNT_UDS <= k
    ensures r[k].etype == Entity.Wpf ==>
      r[k].index == k - (1 + VSP2_COUNT_RPF + VSP2_COUNT_UDS) && r[k].pads == PadLayout(wpfPads)
  {
    if k == 0 {
    } else if k <= VSP2_COUNT_RPF {
      assert r[1 + (k - 1)] == PlannedNode(Entity.Rpf, k - 1, RWPF_NUM_PADS);
    } else if k < 1 + VSP2_COUNT_RPF + VSP2_COUNT_UDS {
      assert r[1 + VSP2_COUNT_RPF + (k - 1 - VSP2_COUNT_RPF)] == PlannedNode(Entity.Uds, k - 1 - VSP2_COUNT_RPF, udsPads);
    } else {
      var j := k - 1 - VSP2_COUNT_RPF - VSP2_COUNT_UDS;
      assert r[1 + VSP2_COUNT_RPF + VSP2_COUNT_UDS + j] == PlannedNode(Entity.Wpf, j, wpfPads);
    }
  }

  /**
   * The read-pipe loop of vsp2_create_entities: vsp2_rpf_create for each
   * index, stopping at the first failure. The results of the calls it makes
   * for index i are `rpfInit(i)`, `rpfCtrls(i)`, `rpfVideo(i)` and `rpfLink(i)`.
   */
  method CreateRpfs(rpfInit: nat -> int, rpfCtrls: nat -> int, rpfVideo: nat -> int, rpfLink: nat -> int,
                    fmtInfo: FormatInfo, pixFormat: PixFormat) returns (ret: int, made: seq<Rwpf>, ents: seq<VspEntity>)
    requires forall i :: rpfCtrls(i) <= 0
    requires FormatInfoValid(fmtInfo) && PixFormatValid(pixFormat)
    ensures ret <= 0 && (ret == 0 <==> |made| == VSP2_COUNT_RPF) && |ents| == |made|
    ensures ret < 0 ==> |made| < VSP2_COUNT_RPF
    ensures ret < 0 ==> ret == RpfCreateResult(|made|, rpfInit(|made|), rpfCtrls(|made|), rpfVideo(|made|), rpfLink(|made|))
    ensures forall i :: 0 <= i < |made| ==> RpfCreateResult(i, rpfInit(i), rpfCtrls(i), rpfVideo(i), rpfLink(i)) >= 0
    ensures (forall i :: 0 <= i < VSP2_COUNT_RPF ==> RpfCreateResult(i, rpfInit(i), rpfCtrls(i), rpfVideo(i), rpfLink(i)) >= 0)
      ==> ret == 0
    ensures forall i :: 0 <= i < |made| ==> fresh(made[i]) && fresh(ents[i]) && made[i].entity == ents[i]
    ensures forall i :: 0 <= i < |made| ==> made[i].Valid() && ents[i].Valid()
    ensures forall i :: 0 <= i < |made| ==>
      NodeOf(ents[i]) == PlannedNode(Entity.Rpf, i, RWPF_NUM_PADS) && ents[i].sink.None?
  {
    made, ents, ret := [], [], 0;
    var i := 0;
    while i < VSP2_COUNT_RPF
      invariant 0 <= i <= VSP2_COUNT_RPF && |made| == i && |ents| == i
      invariant RpfsSucceedBelow(i, rpfInit, rpfCtrls, rpfVideo, rpfLink)
      invariant forall j :: 0 <= j < |made| ==> fresh(made[j]) && fresh(ents[j]) && made[j].entity == ents[j]
      invariant forall j :: 0 <= j < |made| ==> made[j].Valid() && ents[j].Valid()
      invariant forall j :: 0 <= j < |made| ==>
        NodeOf(ents[j]) == PlannedNode(Entity.Rpf, j, RWPF_NUM_PADS) && ents[j].sink.None?
    {
      var r, rpf := CreateRpf(i, rpfInit(i), rpfCtrls(i), rpfVideo(i), rpfLink(i), fmtInfo, pixFormat);
      if r < 0 {
        ret := r;
        break;
      }
      made, ents := made + [rpf], ents + [rpf.entity];
      i := i + 1;
    }
    RpfsSucceedBelowAll(|made|, rpfInit, rpfCtrls, rpfVideo, rpfLink);
  }

  /** The read-pipe loop's result when the pipes below k are created and, if k is in range, pipe k is not. */
  lemma RpfsFailAt(rpfInit: nat -> int, rpfCtrls: nat -> int, rpfVideo: nat -> int, rpfLink: nat -> int, k: nat)
    requires k <= VSP2_COUNT_RPF
    requires forall j :: 0 <= j < k ==> RpfCreateResult(j, rpfInit(j), rpfCtrls(j), rpfVideo(j), rpfLink(j)) >= 0
    requires k < VSP2_COUNT_RPF ==> RpfCreateResult(k, rpfInit(k), rpfCtrls(k), rpfVideo(k), rpfLink(k)) < 0
    ensures FirstFailure(RpfResults(rpfInit, rpfCtrls, rpfVideo, rpfLink), 0, VSP2_COUNT_RPF)
            == (if k < VSP2_COUNT_RPF then RpfCreateResult(k, rpfInit(k), rpfCtrls(k), rpfVideo(k), rpfLink(k)) else 0)
  {
    var rr := RpfResults(rpfInit, rpfCtrls, rpfVideo, rpfLink);
    assert forall j :: 0 <= j < k ==> rr(j) == RpfCreateResult(j, rpfInit(j), rpfCtrls(j), rpfVideo(j), rpfLink(j));
    FirstFailureIs(rr, 0, VSP2_COUNT_RPF, k);
  }

  /** Every read pipe below `n` is created successfully, index by index. */
  ghost predicate RpfsSucceedBelow(n: nat, rpfInit: nat -> int, rpfCtrls: nat -> int, rpfVideo: nat -> int, rpfLink: nat -> int) {
    n == 0 || (RpfsSucceedBelow(n - 1, rpfInit, rpfCtrls, rpfVideo, rpfLink)
               && RpfCreateResult(n - 1, rpfInit(n - 1), rpfCtrls(n - 1), rpfVideo(n - 1), rpfLink(n - 1)) >= 0)
  }

  lemma {:induction false} RpfsSucceedBelowAll(n: nat, rpfInit: nat -> int, rpfCtrls: nat -> int, rpfVideo: nat -> int, rpfLink: nat -> int)
    ensures RpfsSucceedBelow(n, rpfInit, rpfCtrls, rpfVideo, rpfLink)
            <==> forall j :: 0 <= j < n ==> RpfCreateResult(j, rpfInit(j), rpfCtrls(j), rpfVideo(j), rpfLink(j)) >= 0
  {
    if n > 0 {
      RpfsSucceedBelowAll(n - 1, rpfInit, rpfCtrls, rpfVideo, rpfLink);
    }
  }


  /**
   * The scaler and write-pipe loops of vsp2_create_entities. Their create
   * functions are not part of this model beyond vsp2_entity_init with
   * `numPads` pads, whose media_entity_init for index i returns `initRet(i)`.
   */
  method CreateUnits(etype: EntityType, count: nat, numPads: nat, initRet: nat -> int)
    returns (ret: int, made: seq<VspEntity>)
    requires numPads >= 1
    ensures ret <= 0 && (ret == 0 <==> |made| == count)
    ensures ret < 0 ==> |made| < count && ret == (if HasRoute(etype, |made|) then initRet(|made|) else -EINVAL)
    ensures forall i :: 0 <= i < |made| ==> HasRoute(etype, i) && initRet(i) >= 0
    ensures (forall i :: 0 <= i < count ==> HasRoute(etype, i) && initRet(i) >= 0) ==> ret == 0
    ensures ret == FirstFailure(UnitResults(etype, initRet), 0, count)
    ensures forall i :: 0 <= i < |made| ==> fresh(made[i]) && made[i].Valid()
    ensures forall i :: 0 <= i < |made| ==> NodeOf(made[i]) == PlannedNode(etype, i, numPads) && made[i].sink.None?
  {
    made := [];
    var i := 0;
    while i < count
      invariant 0 <= i <= count && |made| == i
      invariant forall j :: 0 <= j < |made| ==> fresh(made[j]) && made[j].Valid()
      invariant forall j :: 0 <= j < |made| ==> HasRoute(etype, j) && initRet(j) >= 0
      invariant forall j :: 0 <= j < |made| ==> NodeOf(made[j]) == PlannedNode(etype, j, numPads) && made[j].sink.None?
    {
      var r, e := CreateUnit(etype, i, numPads, initRet(i));
      if r < 0 {
        UnitsFailAt(etype, count, initRet, i);
        return r, made;
      }
      made := made + [e];
      i := i + 1;
    }
    UnitsFailAt(etype, count, initRet, count);
    ret := 0;
  }

  /** The scaler or write-pipe loop's result when the units below k are created and, if k is in range, unit k is not. */
  lemma UnitsFailAt(etype: EntityType, count: nat, initRet: nat -> int, k: nat)
    requires k <= count
    requires forall j :: 0 <= j < k ==> HasRoute(etype, j) && initRet(j) >= 0
    requires k < count ==> !(HasRoute(etype, k) && initRet(k) >= 0)
    ensures FirstFailure(UnitResults(etype, initRet), 0, count)
            == (if k < count then (if HasRoute(etype, k) then initRet(k) else -EINVAL) else 0)
  {
    var ur := UnitResults(etype, initRet);
    assert forall j :: 0 <= j < k ==> ur(j) == initRet(j);
    FirstFailureIs(ur, 0, count, k);
  }

  /** One scaler or write pipe: allocate the entity and run vsp2_entity_init on it. */
  method CreateUnit(etype: EntityType, index: nat, numPads: nat, initRet: int) returns (ret: int, e: VspEntity)
    requires numPads >= 1
    ensures ret == (if HasRoute(etype, index) then initRet else -EINVAL)
    ensures ret >= 0 ==> fresh(e) && e.Valid()
    ensures ret >= 0 ==> NodeOf(e) == PlannedNode(etype, index, numPads) && e.sink.None?
  {
    e := new VspEntity(etype, index);
    ret := e.Init(numPads, initRet);
  }

  /**
   * The subdevice registration loop of vsp2_create_entities over `count`
   * entities, the i-th registration returning `registerRet(i)`: it stops at
   * the first failure and returns it.
   */
  method RegisterSubdevs(count: nat, registerRet: nat -> int) returns (ret: int)
    ensures ret <= 0
    ensures ret == 0 ==> forall i :: 0 <= i < count ==> registerRet(i) >= 0
    ensures ret < 0 ==> exists i :: 0 <= i < count && ret == registerRet(i)
                                    && forall j :: 0 <= j < i ==> registerRet(j) >= 0
    ensures ret == FirstFailure(registerRet, 0, count)
  {
    var i := 0;
    while i < count
      invariant 0 <= i <= count
      invariant forall j :: 0 <= j < i ==> registerRet(j) >= 0
    {
      if registerRet(i) < 0 {
        FirstFailureIs(registerRet, 0, count, i);
        return registerRet(i);
      }
      i := i + 1;
    }
    FirstFailureIs(registerRet, 0, count, count);
    return 0;
  }

  // ---------------------------------------------------------------------------
  // What a sequence of calls that stops at the first failure returns

  /**
   * The result of calls `r(base)`, ..., `r(base + n - 1)` made in order and
   * stopped at the first negative one: that error, or 0 when none fails.
   */
  function FirstFailure(r: nat -> int, base: nat, n: nat): int
    decreases n
  {
    if n == 0 then 0
    else if r(base) < 0 then r(base)
    else FirstFailure(r, base + 1, n - 1)
  }

  /** A step that fails stops the sequence with its error; otherwise the rest runs. */
  function FirstError(e: int, rest: int): int {
    if e < 0 then e else rest
  }

  /** The calls fail exactly when one of them does, and then with a negative error. */
  lemma {:induction false} FirstFailureNone(r: nat -> int, base: nat, n: nat)
    decreases n
    ensures FirstFailure(r, base, n) <= 0
    ensures FirstFailure(r, base, n) == 0 <==> forall j :: base <= j < base + n ==> r(j) >= 0
  {
    if n > 0 {
      FirstFailureNone(r, base + 1, n - 1);
    }
  }

  /** When the calls before position k succeed and the call at k fails, its error is the result. */
  lemma {:induction false} FirstFailureIs(r: nat -> int, base: nat, n: nat, k: nat)
    requires k <= n && forall j :: base <= j < base + k ==> r(j) >= 0
    requires k < n ==> r(base + k) < 0
    decreases k
    ensures FirstFailure(r, base, n) == (if k < n then r(base + k) else 0)
  {
    if k == 0 {
      if n > 0 {
        assert r(base) < 0;
      }
    } else {
      assert r(base) >= 0;
      FirstFailureIs(r, base + 1, n - 1, k - 1);
    }
  }

  /**
   * A loop over the calls `r(base)`, ... that made k of them successfully
   * and then stopped, with `ret` the failing call's error, or with 0 after
   * all n.
   */
  lemma StoppedAt(r: nat -> int, base: nat, n: nat, k: nat, ret: int)
    requires forall j :: base <= j < base + k ==> r(j) >= 0
    requires ret < 0 ==> ret == r(base + k) && k < n
    requires ret >= 0 ==> ret == 0 && k == n
    ensures ret == FirstFailure(r, base, n)
  {
    FirstFailureIs(r, base, n, k);
  }

  /** The results of vsp2_rpf_create for each index. */
  function RpfResults(rpfInit: nat -> int, rpfCtrls: nat -> int, rpfVideo: nat -> int, rpfLink: nat -> int): nat -> int {
    (i: nat) => RpfCreateResult(i, rpfInit(i), rpfCtrls(i), rpfVideo(i), rpfLink(i))
  }

  /** The results of creating the scaler or write pipe of each index. */
  function UnitResults(etype: EntityType, initRet: nat -> int): nat -> int {
    (i: nat) => if HasRoute(etype, i) then initRet(i) else -EINVAL
  }

  /**
   * What the creation part of vsp2_create_entities returns: the BRU's
   * media_entity_init and control errors, then the read pipes, the scalers
   * and the write pipes, each loop stopping at its first failure.
   */
  function CreationResult(bruInit: int, bruCtrls: int,
                          rpfInit: nat -> int, rpfCtrls: nat -> int, rpfVideo: nat -> int, rpfLink: nat -> int,
                          udsInit: nat -> int, wpfInit: nat -> int): int {
    FirstError(FirstError(FirstError(bruInit, bruCtrls), FirstFailure(RpfResults(rpfInit, rpfCtrls, rpfVideo, rpfLink), 0, VSP2_COUNT_RPF)),
               FirstError(FirstFailure(UnitResults(Entity.Uds, udsInit), 0, VSP2_COUNT_UDS),
                          FirstFailure(UnitResults(Entity.Wpf, wpfInit), 0, VSP2_COUNT_WPF)))
  }

  /** The BRU, every read pipe, every scaler and every write pipe is created. */
  ghost predicate AllCreated(bruInit: int, bruCtrls: int,
                             rpfInit: nat -> int, rpfCtrls: nat -> int, rpfVideo: nat -> int, rpfLink: nat -> int,
                             udsInit: nat -> int, wpfInit: nat -> int) {
    && bruInit >= 0 && bruCtrls == 0
    && (forall i :: 0 <= i < VSP2_COUNT_RPF ==> RpfCreateResult(i, rpfInit(i), rpfCtrls(i), rpfVideo(i), rpfLink(i)) >= 0)
    && (forall i :: 0 <= i < VSP2_COUNT_UDS ==> HasRoute(Entity.Uds, i) && udsInit(i) >= 0)
    && (forall i :: 0 <= i < VSP2_COUNT_WPF ==> HasRoute(Entity.Wpf, i) && wpfInit(i) >= 0)
  }

  /**
   * What vsp2_create_entities returns: the media device, the V4L2 device,
   * creation, links and subdevice registration in turn, stopping at the
   * first failure, and otherwise the node registration's result.
   */
  function EntitiesResult(mediaDevRet: int, v4l2DevRet: int, creationRet: int, linksRet: int, subdevsRet: int,
                          nodesRet: int): int {
    FirstError(mediaDevRet, FirstError(v4l2DevRet, FirstError(creationRet,
      FirstError(linksRet, FirstError(subdevsRet, nodesRet)))))
  }

  /**
   * vsp2_create_entities reports the node registration's result when every
   * call before it succeeds, and a negative error otherwise.
   */
  lemma CreateEntitiesSucceedsIff(mediaDevRet: int, v4l2DevRet: int, bruInit: int, bruCtrls: int,
                                  rpfInit: nat -> int, rpfCtrls: nat -> int, rpfVideo: nat -> int, rpfLink: nat -> int,
                                  udsInit: nat -> int, wpfInit: nat -> int, linkRet: nat -> int, linkCount: nat,
                                  registerRet: nat -> int, registerCount: nat, nodesRet: int)
    requires bruCtrls <= 0
    ensures var r := EntitiesResult(mediaDevRet, v4l2DevRet,
                                    CreationResult(bruInit, bruCtrls, rpfInit, rpfCtrls, rpfVideo, rpfLink, udsInit, wpfInit),
                                    FirstFailure(linkRet, 0, linkCount), FirstFailure(registerRet, 0, registerCount), nodesRet);
      if mediaDevRet >= 0 && v4l2DevRet >= 0
         && AllCreated(bruInit, bruCtrls, rpfInit, rpfCtrls, rpfVideo, rpfLink, udsInit, wpfInit)
         && (forall j :: 0 <= j < linkCount ==> linkRet(j) >= 0)
         && (forall i :: 0 <= i < registerCount ==> registerRet(i) >= 0)
      then r == nodesRet
      else r < 0
  {
    CreationSucceedsIff(bruInit, bruCtrls, rpfInit, rpfCtrls, rpfVideo, rpfLink, udsInit, wpfInit);
    FirstFailureNone(linkRet, 0, linkCount);
    FirstFailureNone(registerRet, 0, registerCount);
  }

  /**
   * Creation succeeds exactly when the BRU, every read pipe, every scaler
   * and every write pipe is created; it never reports a positive value.
   */
  lemma CreationSucceedsIff(bruInit: int, bruCtrls: int,
                            rpfInit: nat -> int, rpfCtrls: nat -> int, rpfVideo: nat -> int, rpfLink: nat -> int,
                            udsInit: nat -> int, wpfInit: nat -> int)
    requires bruCtrls <= 0
    ensures CreationResult(bruInit, bruCtrls, rpfInit, rpfCtrls, rpfVideo, rpfLink, udsInit, wpfInit) <= 0
    ensures CreationResult(bruInit, bruCtrls, rpfInit, rpfCtrls, rpfVideo, rpfLink, udsInit, wpfInit) == 0 <==>
      AllCreated(bruInit, bruCtrls, rpfInit, rpfCtrls, rpfVideo, rpfLink, udsInit, wpfInit)
  {
    var rr := RpfResults(rpfInit, rpfCtrls, rpfVideo, rpfLink);
    var ur := UnitResults(Entity.Uds, udsInit);
    var wr := UnitResults(Entity.Wpf, wpfInit);
    FirstFailureNone(rr, 0, VSP2_COUNT_RPF);
    FirstFailureNone(ur, 0, VSP2_COUNT_UDS);
    FirstFailureNone(wr, 0, VSP2_COUNT_WPF);
    assert (forall j :: 0 <= j < VSP2_COUNT_RPF ==> rr(j) >= 0) <==>
           (forall i :: 0 <= i < VSP2_COUNT_RPF ==> RpfCreateResult(i, rpfInit(i), rpfCtrls(i), rpfVideo(i), rpfLink(i)) >= 0) by {
      assert forall j :: 0 <= j < VSP2_COUNT_RPF ==> rr(j) == RpfCreateResult(j, rpfInit(j), rpfCtrls(j), rpfVideo(j), rpfLink(j));
    }
    assert (forall j :: 0 <= j < VSP2_COUNT_UDS ==> ur(j) >= 0) <==>
           (forall i :: 0 <= i < VSP2_COUNT_UDS ==> HasRoute(Entity.Uds, i) && udsInit(i) >= 0) by {
      assert forall j :: 0 <= j < VSP2_COUNT_UDS ==> (ur(j) >= 0 <==> HasRoute(Entity.Uds, j) && udsInit(j) >= 0);
    }
    assert (forall j :: 0 <= j < VSP2_COUNT_WPF ==> wr(j) >= 0) <==>
           (forall i :: 0 <= i < VSP2_COUNT_WPF ==> HasRoute(Entity.Wpf, i) && wpfInit(i) >= 0) by {
      assert forall j :: 0 <= j < VSP2_COUNT_WPF ==> (wr(j) >= 0 <==> HasRoute(Entity.Wpf, j) && wpfInit(j) >= 0);
    }
  }


  // ---------------------------------------------------------------------------
  // The device (struct vsp2_device)

  class Device {
    const log: CallLog
    const vspm: VspmState
    var refCount: int
    var bru: BruUnit?
    var rpf: seq<Rwpf?>
    var uds: seq<VspEntity?>
    var wpf: seq<VspEntity?>
    /** The entity list, in the order entities were added. */
    var entities: seq<VspEntity>
    /** The media links created between the entities. */
    var links: seq<MediaLink>

    /** The unit tables have one slot per hardware instance. */
    ghost predicate Valid()
      reads this`rpf, this`uds, this`wpf
    {
      |rpf| == VSP2_COUNT_RPF && |uds| == VSP2_COUNT_UDS && |wpf| == VSP2_COUNT_WPF
    }

    /** A device before probing creates its entities; vsp2_vspm_init ran with `devId`. */
    constructor (devId: int)
      ensures fresh(log) && fresh(vspm) && fresh(vspm.par)
      ensures log.calls == [] && vspm.par.Valid() && vspm.par.IsReset() && vspm.jobPri == JobPriority(devId)
      ensures refCount == 0 && bru == null && entities == [] && links == []
      ensures rpf == seq(VSP2_COUNT_RPF, _ => null)
      ensures uds == seq(VSP2_COUNT_UDS, _ => null)
      ensures wpf == seq(VSP2_COUNT_WPF, _ => null)
      ensures Valid()
    {
      log := new CallLog();
      vspm := new VspmState(devId);
      refCount := 0;
      bru := null;
      rpf := seq(VSP2_COUNT_RPF, _ => null);
      uds := seq(VSP2_COUNT_UDS, _ => null);
      wpf := seq(VSP2_COUNT_WPF, _ => null);
      entities := [];
      links := [];
    }

    /**
     * The inner loop of vsp2_create_links for one admitted source: one link
     * per sink pad of `target`, stopping at the first failure. The result of
     * the n-th media_entity_create_link of the device is `linkRet(n)`.
     */
    method LinkSource(src: VspEntity, target: VspEntity, linkRet: nat -> int) returns (ret: int)
      requires Admitted(NodeOf(src), NodeOf(target))
      modifies this`links, src`sink
      ensures |old(links)| <= |links| <= |old(links)| + |PadLinks(NodeOf(src), NodeOf(target), |target.pads|)|
      ensures links == old(links) + PadLinks(NodeOf(src), NodeOf(target), |target.pads|)[..|links| - |old(links)|]
      ensures ret == 0 <==> |links| == |old(links)| + |PadLinks(NodeOf(src), NodeOf(target), |target.pads|)|
      ensures ret != 0 ==> ret < 0 && ret == linkRet(|links|)
      ensures forall j :: |old(links)| <= j < |links| ==> linkRet(j) >= 0
      ensures src.sink == (if EnabledPair(NodeOf(src), NodeOf(target)) && |links| > |old(links)|
                           then Some(NodeRef(NodeOf(target))) else old(src.sink))
    {
      ghost var sn := NodeOf(src);
      ghost var tn := NodeOf(target);
      var enabled := src.etype == Entity.Rpf && target.etype == Entity.Wpf && src.index == target.index;
      var pad := 0;
      while pad < |target.pads|
        invariant 0 <= pad <= |target.pads| == |tn.pads|
        invariant NodeOf(src) == sn && NodeOf(target) == tn && enabled == EnabledPair(sn, tn)
        invariant links == old(links) + PadLinks(sn, tn, pad)
        invariant forall j :: |old(links)| <= j < |links| ==> linkRet(j) >= 0
        invariant src.sink == (if enabled && |links| > |old(links)| then Some(NodeRef(tn)) else old(src.sink))
      {
        if target.pads[pad] == Sink {
          ret := linkRet(|links|);
          if ret < 0 {
            PadLinksPrefix(sn, tn, pad, |tn.pads|);
            return;
          }
          ghost var l := MediaLink(NodeRef(sn), sn.sourcePad, NodeRef(tn), pad, enabled);
          assert PadLinks(sn, tn, pad + 1) == PadLinks(sn, tn, pad) + [l];
          links := links + [MediaLink(SubdevOf(src.etype, src.index), src.sourcePad,
                                      SubdevOf(target.etype, target.index), pad, enabled)];
          if enabled {
            src.sink := Some(SubdevOf(target.etype, target.index));
          }
        } else {
          assert PadLinks(sn, tn, pad + 1) == PadLinks(sn, tn, pad) + [];
        }
        pad := pad + 1;
      }
      PadLinksPrefix(sn, tn, |tn.pads|, |tn.pads|);
      ret := 0;
    }

    /**
     * vsp2_create_links: links from every admitted entity of the list into
     * the sink pads of `target`, stopping at the first failure. On success
     * every read pipe paired with `target` records it as its sink (when
     * `target` has a sink pad); on failure a sink may have been set only
     * by such a pairing.
     */
    method CreateLinks(target: VspEntity, linkRet: nat -> int, ghost nodes: seq<Node>) returns (ret: int)
      requires |nodes| == |entities| && forall i :: 0 <= i < |entities| ==> NodeOf(entities[i]) == nodes[i]
      requires UniqueRefs(entities)
      modifies this`links, (set e | e in entities)`sink
      ensures |old(links)| <= |links| <= |old(links)| + |SourceLinks(nodes, |nodes|, old(NodeOf(target)))|
      ensures links == old(links) + SourceLinks(nodes, |nodes|, old(NodeOf(target)))[..|links| - |old(links)|]
      ensures ret == 0 <==> |links| == |old(links)| + |SourceLinks(nodes, |nodes|, old(NodeOf(target)))|
      ensures ret != 0 ==> ret < 0 && ret == linkRet(|links|)
      ensures forall j :: |old(links)| <= j < |links| ==> linkRet(j) >= 0
      ensures ret == 0 ==> forall i :: 0 <= i < |entities| ==>
        entities[i].sink == (if EnabledPair(nodes[i], old(NodeOf(target))) && Sink in target.pads
                             then Some(NodeRef(old(NodeOf(target)))) else old(entities[i].sink))
      ensures ret != 0 ==> forall i :: 0 <= i < |entities| ==>
        entities[i].sink == old(entities[i].sink)
        || (EnabledPair(nodes[i], old(NodeOf(target))) && entities[i].sink == Some(NodeRef(old(NodeOf(target)))))
    {
      ghost var tnode := NodeOf(target);
      var s := 0;
      while s < |entities|
        invariant 0 <= s <= |entities|
        invariant links == old(links) + SourceLinks(nodes, s, tnode)
        invariant forall j :: |old(links)| <= j < |links| ==> linkRet(j) >= 0
        invariant forall i :: 0 <= i < |entities| ==>
          entities[i].sink == (if i < s && EnabledPair(nodes[i], tnode) && Sink in tnode.pads
                               then Some(NodeRef(tnode)) else old(entities[i].sink))
      {
        ret := LinkEntry(s, target, linkRet, nodes, tnode, old(links));
        assert forall i :: 0 <= i < |entities| && i != s ==> entities[i] != entities[s];
        if ret < 0 {
          return;
        }
        s := s + 1;
      }
      SourceLinksPrefix(nodes, |entities|, |entities|, tnode);
      ret := 0;
    }

    /** One pass of the outer loop of vsp2_create_links: entity s of the list as a source for `target`. */
    method LinkEntry(s: nat, target: VspEntity, linkRet: nat -> int,
                     ghost nodes: seq<Node>, ghost tnode: Node, ghost base: seq<MediaLink>) returns (ret: int)
      requires s < |entities| == |nodes| && nodes[s] == NodeOf(entities[s]) && tnode == NodeOf(target)
      requires links == base + SourceLinks(nodes, s, tnode)
      modifies this`links, {entities[s]}`sink
      ensures ret == 0 ==> links == base + SourceLinks(nodes, s + 1, tnode)
      ensures ret != 0 ==> ret < 0 && ret == linkRet(|links|)
      ensures ret != 0 ==> |base| <= |links| < |base| + |SourceLinks(nodes, |nodes|, tnode)|
      ensures ret != 0 ==> links == base + SourceLinks(nodes, |nodes|, tnode)[..|links| - |base|]
      ensures forall j :: |old(links)| <= j < |links| ==> linkRet(j) >= 0
      ensures ret == 0 ==> entities[s].sink == (if EnabledPair(nodes[s], tnode) && Sink in tnode.pads
                                                then Some(NodeRef(tnode)) else old(entities[s].sink))
      ensures ret != 0 ==> entities[s].sink == old(entities[s].sink)
                           || (EnabledPair(nodes[s], tnode) && entities[s].sink == Some(NodeRef(tnode)))
    {
      var source := entities[s];
      if source.etype == target.etype || source.etype == Entity.Wpf {
        assert SourceLinks(nodes, s + 1, tnode) == SourceLinks(nodes, s, tnode) + [];
        return 0;
      }
      ghost var before := links;
      PadLinksNonEmpty(nodes[s], tnode);
      ret := LinkSource(source, target, linkRet);
      LinksAfterEntry(nodes, s, tnode, base, |links| - |before|);
    }

    /**
     * One step of the link loop of vsp2_create_entities: create_links into
     * entity t unless it is a read pipe. `base` is the link list before the
     * loop started.
     */
    method LinkTarget(t: nat, linkRet: nat -> int, ghost nodes: seq<Node>, ghost base: seq<MediaLink>) returns (ret: int)
      requires t < |entities| && |nodes| == |entities|
      requires forall i :: 0 <= i < |entities| ==> NodeOf(entities[i]) == nodes[i]
      requires UniqueRefs(entities)
      requires links == base + GraphLinks(nodes, t) && forall j :: |base| <= j < |links| ==> linkRet(j) >= 0
      requires forall i :: 0 <= i < |entities| ==> entities[i].sink == PlannedSink(nodes, i, t)
      modifies this`links, (set e | e in entities)`sink
      ensures ret <= 0
      ensures ret == 0 ==> links == base + GraphLinks(nodes, t + 1) && forall j :: |base| <= j < |links| ==> linkRet(j) >= 0
      ensures ret < 0 ==> ret == linkRet(|links|) && |base| + |GraphLinks(nodes, t)| <= |links| < |base| + |GraphLinks(nodes, |nodes|)|
      ensures forall j :: |base| <= j < |links| ==> linkRet(j) >= 0
      ensures ret == 0 ==> forall i :: 0 <= i < |entities| ==> entities[i].sink == PlannedSink(nodes, i, t + 1)
      ensures forall i :: 0 <= i < |entities| ==> NodeOf(entities[i]) == nodes[i]
    {
      if entities[t].etype != Entity.Rpf {
        ret := CreateLinks(entities[t], linkRet, nodes);
        if ret < 0 {
          GraphLinksBound(nodes, t);
          return;
        }
        ghost var full := SourceLinks(nodes, |nodes|, nodes[t]);
        assert full[..|full|] == full;
        assert links == base + (GraphLinks(nodes, t) + full);
      } else {
        ret := 0;
        assert GraphLinks(nodes, t + 1) == GraphLinks(nodes, t) + [];
      }
    }

    /**
     * The link loop of vsp2_create_entities: create_links into every entity
     * of the list that is not a read pipe, stopping at the first failure.
     * The entities come to it freshly created, with no sink recorded.
     */
    method LinkAll(linkRet: nat -> int, ghost nodes: seq<Node>) returns (ret: int)
      requires |nodes| == |entities| && forall i :: 0 <= i < |entities| ==> NodeOf(entities[i]) == nodes[i]
      requires UniqueRefs(entities)
      requires forall i :: 0 <= i < |entities| ==> entities[i].sink.None?
      modifies this`links, (set e | e in entities)`sink
      ensures ret <= 0
      ensures ret == FirstFailure(linkRet, |old(links)|, |GraphLinks(nodes, |nodes|)|)
      ensures ret == 0 ==> links == old(links) + GraphLinks(nodes, |nodes|)
      ensures forall j :: |old(links)| <= j < |links| ==> linkRet(j) >= 0
      ensures ret == 0 ==> forall i :: 0 <= i < |entities| ==> entities[i].sink == PlannedSink(nodes, i, |nodes|)
      ensures forall i :: 0 <= i < |entities| ==> NodeOf(entities[i]) == nodes[i]
    {
      ghost var base := links;
      var t := 0;
      ret := 0;
      while t < |entities| && ret == 0
        invariant 0 <= t <= |entities| && ret <= 0
        invariant forall i :: 0 <= i < |entities| ==> NodeOf(entities[i]) == nodes[i]
        invariant ret == 0 ==> links == base + GraphLinks(nodes, t)
        invariant forall j :: |base| <= j < |links| ==> linkRet(j) >= 0
        invariant ret < 0 ==> ret == linkRet(|links|) && |base| <= |links| < |base| + |GraphLinks(nodes, |nodes|)|
        invariant ret == 0 ==> forall i :: 0 <= i < |entities| ==> entities[i].sink == PlannedSink(nodes, i, t)
      {
        ret := LinkTarget(t, linkRet, nodes, base);
        t := t + 1;
      }
      StoppedAt(linkRet, |base|, |GraphLinks(nodes, |nodes|)|, |links| - |base|, ret);
    }

    /** vsp2_destroy_entities: the list is emptied and its links go with it. */
    method DestroyEntities()
      modifies this`entities, this`links
      ensures entities == [] && links == []
    {
      entities := [];
      links := [];
    }

    /** The read-pipe phase of vsp2_create_entities: each read pipe is stored and appended to the list. */
    method AppendRpfs(rpfInit: nat -> int, rpfCtrls: nat -> int, rpfVideo: nat -> int, rpfLink: nat -> int,
                      fmtInfo: FormatInfo, pixFormat: PixFormat, ghost plan: seq<Node>) returns (ret: int)
      requires forall i :: rpfCtrls(i) <= 0
      requires FormatInfoValid(fmtInfo) && PixFormatValid(pixFormat)
      requires |entities| + VSP2_COUNT_RPF <= |plan|
      requires forall i :: 0 <= i < VSP2_COUNT_RPF ==> plan[|entities| + i] == PlannedNode(Entity.Rpf, i, RWPF_NUM_PADS)
      requires forall i :: 0 <= i < |entities| ==> NodeOf(entities[i]) == plan[i] && entities[i].sink.None?
      requires Valid()
      modifies this`rpf, this`entities
      ensures Valid()
      ensures ret <= 0
      ensures ret == FirstFailure(RpfResults(rpfInit, rpfCtrls, rpfVideo, rpfLink), 0, VSP2_COUNT_RPF)
      ensures ret == 0 ==> |entities| == |old(entities)| + VSP2_COUNT_RPF && entities[..|old(entities)|] == old(entities)
      ensures ret == 0 ==> forall i :: |old(entities)| <= i < |entities| ==> fresh(entities[i])
      ensures ret == 0 ==> forall i :: 0 <= i < |entities| ==> NodeOf(entities[i]) == plan[i] && entities[i].sink.None?
      ensures ret == 0 ==> |rpf| == VSP2_COUNT_RPF && forall i :: 0 <= i < VSP2_COUNT_RPF ==>
        rpf[i] != null && rpf[i].entity == entities[|old(entities)| + i] && rpf[i].Valid()
    {
      ghost var prev := entities;
      var made, ents;
      ret, made, ents := CreateRpfs(rpfInit, rpfCtrls, rpfVideo, rpfLink, fmtInfo, pixFormat);
      RpfsFailAt(rpfInit, rpfCtrls, rpfVideo, rpfLink, |made|);
      if ret < 0 {
        return;
      }
      rpf := made;
      entities := entities + ents;
      assert forall i :: 0 <= i < |prev| ==> entities[i] == prev[i];
      assert forall i :: 0 <= i < |ents| ==> entities[|prev| + i] == ents[i];
    }

    /** The scaler or write-pipe phase of vsp2_create_entities: each unit is appended to the list. */
    method AppendUnits(etype: EntityType, count: nat, numPads: nat, initRet: nat -> int, ghost plan: seq<Node>)
      returns (ret: int, made: seq<VspEntity>)
      requires numPads >= 1
      requires |entities| + count <= |plan|
      requires forall i :: 0 <= i < count ==> plan[|entities| + i] == PlannedNode(etype, i, numPads)
      requires forall i :: 0 <= i < |entities| ==> NodeOf(entities[i]) == plan[i] && entities[i].sink.None?
      modifies this`entities
      ensures ret <= 0
      ensures ret == FirstFailure(UnitResults(etype, initRet), 0, count)
      ensures ret == 0 ==> |made| == count && entities == old(entities) + made
      ensures ret == 0 ==> forall i :: 0 <= i < |made| ==> fresh(made[i])
      ensures ret == 0 ==> forall i :: 0 <= i < |entities| ==> NodeOf(entities[i]) == plan[i] && entities[i].sink.None?
    {
      ret, made := CreateUnits(etype, count, numPads, initRet);
      if ret < 0 {
        return;
      }
      entities := entities + made;
    }

    /** The first half of the creation part of vsp2_create_entities: the BRU, then the read pipes. */
    method AddBruAndRpfs(bruInit: int, bruCtrls: int,
                         rpfInit: nat -> int, rpfCtrls: nat -> int, rpfVideo: nat -> int, rpfLink: nat -> int,
                         fmtInfo: FormatInfo, pixFormat: PixFormat, udsPads: nat, wpfPads: nat,
                         ghost plan: seq<Node>) returns (ret: int)
      requires entities == []
      requires bruCtrls <= 0 && forall i :: rpfCtrls(i) <= 0
      requires FormatInfoValid(fmtInfo) && PixFormatValid(pixFormat)
      requires udsPads >= 1 && wpfPads >= 1 && PlanShape(plan, udsPads, wpfPads)
      requires Valid()
      modifies this`bru, this`rpf, this`entities
      ensures Valid()
      ensures ret <= 0
      ensures ret == FirstError(FirstError(bruInit, bruCtrls),
                                FirstFailure(RpfResults(rpfInit, rpfCtrls, rpfVideo, rpfLink), 0, VSP2_COUNT_RPF))
      ensures ret == 0 ==> |entities| == 1 + VSP2_COUNT_RPF && forall i :: 0 <= i < |entities| ==> fresh(entities[i])
      ensures ret == 0 ==> forall i :: 0 <= i < |entities| ==> NodeOf(entities[i]) == plan[i] && entities[i].sink.None?
      ensures ret == 0 ==> bru != null && bru.entity == entities[0] && bru.Valid()
      ensures ret == 0 ==> |rpf| == VSP2_COUNT_RPF && forall i :: 0 <= i < VSP2_COUNT_RPF ==>
        rpf[i] != null && rpf[i].entity == entities[1 + i] && rpf[i].Valid()
    {
      var r, b := CreateBru(bruInit, bruCtrls);
      if r < 0 {
        bru := null;
        return r;
      }
      bru := b;
      entities := [b.entity];
      assert NodeOf(entities[0]) == plan[0];
      assert forall i :: 0 <= i < VSP2_COUNT_RPF ==> plan[|entities| + i] == PlannedNode(Entity.Rpf, i, RWPF_NUM_PADS);
      ret := AppendRpfs(rpfInit, rpfCtrls, rpfVideo, rpfLink, fmtInfo, pixFormat, plan);
    }

    /** The second half of the creation part of vsp2_create_entities: the scalers, then the write pipes. */
    method AddUdsAndWpfs(udsPads: nat, udsInit: nat -> int, wpfPads: nat, wpfInit: nat -> int,
                         ghost plan: seq<Node>) returns (ret: int)
      requires udsPads >= 1 && wpfPads >= 1 && PlanShape(plan, udsPads, wpfPads)
      requires |entities| == 1 + VSP2_COUNT_RPF
      requires forall i :: 0 <= i < |entities| ==> NodeOf(entities[i]) == plan[i] && entities[i].sink.None?
      requires Valid()
      modifies this`uds, this`wpf, this`entities
      ensures Valid()
      ensures ret <= 0
      ensures ret == FirstError(FirstFailure(UnitResults(Entity.Uds, udsInit), 0, VSP2_COUNT_UDS),
                                FirstFailure(UnitResults(Entity.Wpf, wpfInit), 0, VSP2_COUNT_WPF))
      ensures ret == 0 ==> |entities| == |plan| && entities[..|old(entities)|] == old(entities)
      ensures ret == 0 ==> forall i :: |old(entities)| <= i < |entities| ==> fresh(entities[i])
      ensures ret == 0 ==> forall i :: 0 <= i < |entities| ==> NodeOf(entities[i]) == plan[i] && entities[i].sink.None?
      ensures ret == 0 ==> |uds| == VSP2_COUNT_UDS && forall i :: 0 <= i < VSP2_COUNT_UDS ==>
        uds[i] == entities[1 + VSP2_COUNT_RPF + i]
      ensures ret == 0 ==> |wpf| == VSP2_COUNT_WPF && forall i :: 0 <= i < VSP2_COUNT_WPF ==>
        wpf[i] == entities[1 + VSP2_COUNT_RPF + VSP2_COUNT_UDS + i]
    {
      assert forall i :: 0 <= i < VSP2_COUNT_UDS ==> plan[|entities| + i] == PlannedNode(Entity.Uds, i, udsPads);
      ret := AddUdss(udsPads, udsInit, plan);
      if ret < 0 {
        return;
      }
      assert forall i :: 0 <= i < VSP2_COUNT_WPF ==> plan[|entities| + i] == PlannedNode(Entity.Wpf, i, wpfPads);
      ret := AddWpfs(wpfPads, wpfInit, plan);
      if ret < 0 {
        return;
      }
    }

    /** The scaler loop of vsp2_create_entities, appending the UDSs after the RPFs. */
    method AddUdss(udsPads: nat, udsInit: nat -> int, ghost plan: seq<Node>) returns (ret: int)
      requires udsPads >= 1
      requires |entities| == 1 + VSP2_COUNT_RPF && |entities| + VSP2_COUNT_UDS <= |plan|
      requires forall i :: 0 <= i < VSP2_COUNT_UDS ==> plan[|entities| + i] == PlannedNode(Entity.Uds, i, udsPads)
      requires forall i :: 0 <= i < |entities| ==> NodeOf(entities[i]) == plan[i] && entities[i].sink.None?
      requires Valid()
      modifies this`uds, this`entities
      ensures Valid()
      ensures ret <= 0
      ensures ret == FirstFailure(UnitResults(Entity.Uds, udsInit), 0, VSP2_COUNT_UDS)
      ensures ret == 0 ==> |entities| == 1 + VSP2_COUNT_RPF + VSP2_COUNT_UDS && entities[..|old(entities)|] == old(entities)
      ensures ret == 0 ==> forall i :: |old(entities)| <= i < |entities| ==> fresh(entities[i])
      ensures ret == 0 ==> forall i :: 0 <= i < |entities| ==> NodeOf(entities[i]) == plan[i] && entities[i].sink.None?
      ensures ret == 0 ==> |uds| == VSP2_COUNT_UDS && forall i :: 0 <= i < VSP2_COUNT_UDS ==>
        uds[i] == entities[1 + VSP2_COUNT_RPF + i]
    {
      var udss;
      ret, udss := AppendUnits(Entity.Uds, VSP2_COUNT_UDS, udsPads, udsInit, plan);
      if ret < 0 {
        return;
      }
      uds := udss;
    }

    /** The write-pipe loop of vsp2_create_entities, appending the WPFs after the UDSs. */
    method AddWpfs(wpfPads: nat, wpfInit: nat -> int, ghost plan: seq<Node>) returns (ret: int)
      requires wpfPads >= 1
      requires |entities| == 1 + VSP2_COUNT_RPF + VSP2_COUNT_UDS && |entities| + VSP2_COUNT_WPF <= |plan|
      requires forall i :: 0 <= i < VSP2_COUNT_WPF ==> plan[|entities| + i] == PlannedNode(Entity.Wpf, i, wpfPads)
      requires forall i :: 0 <= i < |entities| ==> NodeOf(entities[i]) == plan[i] && entities[i].sink.None?
      requires Valid()
      modifies this`wpf, this`entities
      ensures Valid()
      ensures ret <= 0
      ensures ret == FirstFailure(UnitResults(Entity.Wpf, wpfInit), 0, VSP2_COUNT_WPF)
      ensures ret == 0 ==> |entities| == 1 + VSP2_COUNT_RPF + VSP2_COUNT_UDS + VSP2_COUNT_WPF
      ensures ret == 0 ==> entities[..|old(entities)|] == old(entities)
      ensures ret == 0 ==> forall i :: |old(entities)| <= i < |entities| ==> fresh(entities[i])
      ensures ret == 0 ==> forall i :: 0 <= i < |entities| ==> NodeOf(entities[i]) == plan[i] && entities[i].sink.None?
      ensures ret == 0 ==> |wpf| == VSP2_COUNT_WPF && forall i :: 0 <= i < VSP2_COUNT_WPF ==>
        wpf[i] == entities[1 + VSP2_COUNT_RPF + VSP2_COUNT_UDS + i]
    {
      var wpfs;
      ret, wpfs := AppendUnits(Entity.Wpf, VSP2_COUNT_WPF, wpfPads, wpfInit, plan);
      if ret < 0 {
        return;
      }
      wpf := wpfs;
    }

    /**
     * The creation part of vsp2_create_entities: the BRU, then the read
     * pipes, the scalers and the write pipes, each appended to the entity
     * list as it is created, stopping at the first failure.
     */
    method AddEntities(bruInit: int, bruCtrls: int,
                       rpfInit: nat -> int, rpfCtrls: nat -> int, rpfVideo: nat -> int, rpfLink: nat -> int,
                       fmtInfo: FormatInfo, pixFormat: PixFormat,
                       udsPads: nat, udsInit: nat -> int, wpfPads: nat, wpfInit: nat -> int,
                       ghost plan: seq<Node>) returns (ret: int)
      requires entities == []
      requires bruCtrls <= 0 && forall i :: rpfCtrls(i) <= 0
      requires FormatInfoValid(fmtInfo) && PixFormatValid(pixFormat)
      requires udsPads >= 1 && wpfPads >= 1 && PlanShape(plan, udsPads, wpfPads)
      requires Valid()
      modifies this`bru, this`rpf, this`uds, this`wpf, this`entities
      ensures Valid()
      ensures ret <= 0
      ensures ret == CreationResult(bruInit, bruCtrls, rpfInit, rpfCtrls, rpfVideo, rpfLink, udsInit, wpfInit)
      ensures ret == 0 ==> |entities| == |plan| && forall i :: 0 <= i < |entities| ==> fresh(entities[i])
      ensures ret == 0 ==> forall i :: 0 <= i < |entities| ==>
        NodeOf(entities[i]) == plan[i] && entities[i].sink.None?
      ensures ret == 0 ==> bru != null && bru.entity == entities[0] && bru.Valid()
      ensures ret == 0 ==> |rpf| == VSP2_COUNT_RPF && forall i :: 0 <= i < VSP2_COUNT_RPF ==>
        rpf[i] != null && rpf[i].entity == entities[1 + i] && rpf[i].Valid()
      ensures ret == 0 ==> |uds| == VSP2_COUNT_UDS && forall i :: 0 <= i < VSP2_COUNT_UDS ==>
        uds[i] == entities[1 + VSP2_COUNT_RPF + i]
      ensures ret == 0 ==> |wpf| == VSP2_COUNT_WPF && forall i :: 0 <= i < VSP2_COUNT_WPF ==>
        wpf[i] == entities[1 + VSP2_COUNT_RPF + VSP2_COUNT_UDS + i]
    {
      ret := AddBruAndRpfs(bruInit, bruCtrls, rpfInit, rpfCtrls, rpfVideo, rpfLink, fmtInfo, pixFormat,
                           udsPads, wpfPads, plan);
      if ret < 0 {
        return;
      }
      ghost var first := entities;
      ret := AddUdsAndWpfs(udsPads, udsInit, wpfPads, wpfInit, plan);
      if ret < 0 {
        return;
      }
      assert forall i :: 0 <= i < |first| ==> entities[i] == first[i];
    }

    /**
     * vsp2_create_entities. `mediaDevRet` and `v4l2DevRet` are the results
     * of registering the media and V4L2 devices, `nodesRet` that of
     * registering the subdevice nodes; the other parameters are the results
     * of the calls each phase makes. A failure after the media device is
     * registered destroys every entity created so far.
     */
    method CreateEntities(mediaDevRet: int, v4l2DevRet: int, bruInit: int, bruCtrls: int,
                          rpfInit: nat -> int, rpfCtrls: nat -> int, rpfVideo: nat -> int, rpfLink: nat -> int,
                          fmtInfo: FormatInfo, pixFormat: PixFormat,
                          udsPads: nat, udsInit: nat -> int, wpfPads: nat, wpfInit: nat -> int,
                          linkRet: nat -> int, registerRet: nat -> int, nodesRet: int) returns (ret: int)
      requires entities == [] && links == []
      requires Valid()
      requires bruCtrls <= 0 && forall i :: rpfCtrls(i) <= 0
      requires FormatInfoValid(fmtInfo) && PixFormatValid(pixFormat)
      requires udsPads >= 1 && wpfPads >= 1
      modifies this`bru, this`rpf, this`uds, this`wpf, this`entities, this`links
      ensures Valid()
      ensures ret == EntitiesResult(mediaDevRet, v4l2DevRet,
        CreationResult(bruInit, bruCtrls, rpfInit, rpfCtrls, rpfVideo, rpfLink, udsInit, wpfInit),
        FirstFailure(linkRet, 0, |GraphLinks(Plan(udsPads, wpfPads), |Plan(udsPads, wpfPads)|)|),
        FirstFailure(registerRet, 0, |Plan(udsPads, wpfPads)|), nodesRet)
      ensures mediaDevRet < 0 ==> ret == mediaDevRet && unchanged(this)
      ensures mediaDevRet >= 0 && v4l2DevRet < 0 ==> ret == v4l2DevRet
      ensures ret < 0 ==> entities == [] && links == []
      ensures ret >= 0 ==> ret == nodesRet && mediaDevRet >= 0 && v4l2DevRet >= 0
      ensures ret >= 0 ==> |entities| == |Plan(udsPads, wpfPads)|
      ensures ret >= 0 ==> forall i :: 0 <= i < |entities| ==> NodeOf(entities[i]) == Plan(udsPads, wpfPads)[i]
      ensures ret >= 0 ==> links == GraphLinks(Plan(udsPads, wpfPads), |entities|)
      ensures ret >= 0 ==> forall j :: 0 <= j < |links| ==> linkRet(j) >= 0
      ensures ret >= 0 ==> forall i :: 0 <= i < |entities| ==>
        entities[i].sink == PlannedSink(Plan(udsPads, wpfPads), i, |entities|)
      ensures ret >= 0 ==> bru != null && bru.entity == entities[0]
      ensures ret >= 0 ==> |rpf| == VSP2_COUNT_RPF && forall i :: 0 <= i < VSP2_COUNT_RPF ==>
        rpf[i] != null && rpf[i].entity == entities[1 + i]
      ensures ret >= 0 ==> |uds| == VSP2_COUNT_UDS && forall i :: 0 <= i < VSP2_COUNT_UDS ==>
        uds[i] == entities[1 + VSP2_COUNT_RPF + i]
      ensures ret >= 0 ==> |wpf| == VSP2_COUNT_WPF && forall i :: 0 <= i < VSP2_COUNT_WPF ==>
        wpf[i] == entities[1 + VSP2_COUNT_RPF + VSP2_COUNT_UDS + i]
      ensures ret >= 0 ==> forall i :: 0 <= i < |entities| ==> registerRet(i) >= 0
    {
      if mediaDevRet < 0 {
        return mediaDevRet;
      }
      if v4l2DevRet < 0 {
        DestroyEntities();
        return v4l2DevRet;
      }
      ghost var plan := Plan(udsPads, wpfPads);
      PlanLayout(udsPads, wpfPads);
      var r := AddAndLink(bruInit, bruCtrls, rpfInit, rpfCtrls, rpfVideo, rpfLink, fmtInfo, pixFormat,
                          udsPads, udsInit, wpfPads, wpfInit, linkRet, plan);
      if r < 0 {
        DestroyEntities();
        return r;
      }
      r := RegisterSubdevs(|entities|, registerRet);
      if r < 0 {
        DestroyEntities();
        return r;
      }
      ret := nodesRet;
      if ret < 0 {
        DestroyEntities();
      }
    }

    /** The entity and link phases of vsp2_create_entities, before any rollback. */
    method AddAndLink(bruInit: int, bruCtrls: int,
                      rpfInit: nat -> int, rpfCtrls: nat -> int, rpfVideo: nat -> int, rpfLink: nat -> int,
                      fmtInfo: FormatInfo, pixFormat: PixFormat,
                      udsPads: nat, udsInit: nat -> int, wpfPads: nat, wpfInit: nat -> int,
                      linkRet: nat -> int, ghost plan: seq<Node>) returns (ret: int)
      requires entities == [] && links == []
      requires bruCtrls <= 0 && forall i :: rpfCtrls(i) <= 0
      requires FormatInfoValid(fmtInfo) && PixFormatValid(pixFormat)
      requires udsPads >= 1 && wpfPads >= 1 && PlanShape(plan, udsPads, wpfPads) && plan == Plan(udsPads, wpfPads)
      requires Valid()
      modifies this`bru, this`rpf, this`uds, this`wpf, this`entities, this`links
      ensures Valid()
      ensures ret <= 0
      ensures ret == FirstError(CreationResult(bruInit, bruCtrls, rpfInit, rpfCtrls, rpfVideo, rpfLink, udsInit, wpfInit),
                                FirstFailure(linkRet, 0, |GraphLinks(plan, |plan|)|))
      ensures ret == 0 ==> |entities| == |plan|
      ensures ret == 0 ==> forall i :: 0 <= i < |entities| ==> NodeOf(entities[i]) == plan[i]
      ensures ret == 0 ==> links == GraphLinks(plan, |entities|)
      ensures ret == 0 ==> forall j :: 0 <= j < |links| ==> linkRet(j) >= 0
      ensures ret == 0 ==> forall i :: 0 <= i < |entities| ==> entities[i].sink == PlannedSink(plan, i, |entities|)
      ensures ret == 0 ==> bru != null && bru.entity == entities[0]
      ensures ret == 0 ==> |rpf| == VSP2_COUNT_RPF && forall i :: 0 <= i < VSP2_COUNT_RPF ==>
        rpf[i] != null && rpf[i].entity == entities[1 + i]
      ensures ret == 0 ==> |uds| == VSP2_COUNT_UDS && forall i :: 0 <= i < VSP2_COUNT_UDS ==>
        uds[i] == entities[1 + VSP2_COUNT_RPF + i]
      ensures ret == 0 ==> |wpf| == VSP2_COUNT_WPF && forall i :: 0 <= i < VSP2_COUNT_WPF ==>
        wpf[i] == entities[1 + VSP2_COUNT_RPF + VSP2_COUNT_UDS + i]
    {
      ret := AddEntities(bruInit, bruCtrls, rpfInit, rpfCtrls, rpfVideo, rpfLink, fmtInfo, pixFormat,
                         udsPads, udsInit, wpfPads, wpfInit, plan);
      if ret < 0 {
        return;
      }
      PlanRefsDistinct(plan, udsPads, wpfPads);
      ret := LinkAll(linkRet, plan);
    }

    /** vsp2_frame_end: notify the pipeline of every present write pipe. */
    method FrameEnd()
      requires Valid()
      modifies log
      ensures log.calls == old(log.calls) + FanOut(Present(wpf))
    {
      var i := 0;
      while i < VSP2_COUNT_WPF
        invariant 0 <= i <= |wpf|
        invariant log.calls == old(log.calls) + FanOut(Present(wpf)[..i])
      {
        assert Present(wpf)[..i + 1][..i] == Present(wpf)[..i];
        if wpf[i] != null {
          log.Record(Call.FrameEnd(i));
        }
        i := i + 1;
      }
      assert Present(wpf)[..|wpf|] == Present(wpf);
    }

    /**
     * vsp2_vspm_drv_entry_cb: the job id and the result are only reported;
     * the frame ends in every case.
     */
    method EntryCb(jobId: nat, result: int)
      requires Valid()
      modifies log
      ensures log.calls == old(log.calls) + FanOut(Present(wpf))
    {
      FrameEnd();
    }

    /**
     * vsp2_vspm_drv_entry_work: prepare the layers and submit the job.
     * VSPM_lib_Entry returns `entryRet` and writes `newJobId` to the job
     * id; when it refuses the job the frame ends at once.
     */
    method EntryWork(entryRet: int, newJobId: nat)
      requires Valid() && vspm.par.Valid()
      modifies vspm.par`bru, vspm.par`src, vspm`jobId, log
      ensures vspm.par.Valid()
      ensures old(vspm.par.UsesBru()) ==>
        vspm.par.bru == old(vspm.par.bru).(layOrder := LayOrder(vspm.par.rpfNum)) && vspm.par.src == old(vspm.par.src)
      ensures !old(vspm.par.UsesBru()) ==>
        vspm.par.bru == old(vspm.par.bru)
        && vspm.par.src == old(vspm.par.src)[0 := old(vspm.par.src)[0].(pwd := VSP_LAYER_PARENT)]
      ensures vspm.jobId == newJobId
      ensures log.calls == old(log.calls) + [VspmEntry(vspm.jobPri, entryRet)]
                           + (if entryRet != R_VSPM_OK then FanOut(Present(wpf)) else [])
    {
      vspm.par.PrepareLayers();
      log.Record(VspmEntry(vspm.jobPri, entryRet));
      vspm.jobId := newJobId;
      if entryRet != R_VSPM_OK {
        FrameEnd();
      }
    }

    /**
     * vsp2_device_get: the first reference initialises the library
     * (VSPM_lib_DriverInitialize returns `initRet` and leaves `newHdl` in
     * the handle); a failure is reported as -EFAULT and takes no reference.
     */
    method DeviceGet(initRet: int, newHdl: nat) returns (ret: int)
      requires vspm.par.Valid()
      modifies this`refCount, vspm`hdl, vspm.par, log
      ensures vspm.par.Valid()
      ensures refCount == RefStep(old(refCount), Get(initRet)).count && ret == RefStep(old(refCount), Get(initRet)).ret
      ensures log.calls == old(log.calls) + RefStep(old(refCount), Get(initRet)).calls
      ensures vspm.hdl == (if old(refCount) <= 0 then newHdl else old(vspm.hdl))
      ensures old(refCount) <= 0 && initRet == R_VSPM_OK ==> vspm.par.IsReset()
      ensures !(old(refCount) <= 0 && initRet == R_VSPM_OK) ==> unchanged(vspm.par)
    {
      ret := 0;
      if refCount <= 0 {
        var vspmRet := vspm.DrvInit(initRet, newHdl, log);
        if vspmRet != R_VSPM_OK {
          ret := -EFAULT;
        }
      }
      if ret == 0 {
        refCount := refCount + 1;
      }
    }

    /** vsp2_device_put: the last reference shuts the library down (VSPM_lib_DriverQuit returns `quitRet`). */
    method DevicePut(quitRet: int)
      modifies this`refCount, log
      ensures refCount == RefStep(old(refCount), Put(quitRet)).count
      ensures log.calls == old(log.calls) + RefStep(old(refCount), Put(quitRet)).calls
    {
      refCount := refCount - 1;
      if refCount == 0 {
        var _ := vspm.DrvQuit(quitRet, log);
      }
    }
  }
}
