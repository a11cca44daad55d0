/**
 * Entities of the VSP2 processing graph (vsp2_entity.h, vsp2_entity.c):
 * the static route table, pad layout, per-pad active formats, the streaming
 * flag and the single downstream link a source pad drives.
 */
module Entity {
  import opened Consts

  datatype EntityType = Bru | Rpf | Uds | Wpf

  /** A node of the media graph: a VSP2 subdevice or the video node of one. */
  datatype MediaRef =
    | SubdevOf(etype: EntityType, index: nat)
    | VideoOf(etype: EntityType, index: nat)

  // ---------------------------------------------------------------------------
  // Route table (vsp2_entity.c:207-217)

  /** Output routing register of an entity; NoRouteReg is the literal 0. */
  datatype DprReg = BruRoute | RpfRoute(n: nat) | UdsRoute(n: nat) | NoRouteReg

  /** Target node of one input; NodeUnset is the zero padding of inputs[4]. */
  datatype DprNode = NodeBruIn(n: nat) | NodeRpf(n: nat) | NodeUds(n: nat) | NodeWpf(n: nat) | NodeUnset

  datatype Route = Route(etype: EntityType, index: nat, reg: DprReg, inputs: seq<DprNode>)

  const ROUTES: seq<Route> := [
    Route(Bru, 0, BruRoute, [NodeBruIn(0), NodeBruIn(1), NodeBruIn(2), NodeBruIn(3)]),
    Route(Rpf, 0, RpfRoute(0), [NodeRpf(0), NodeUnset, NodeUnset, NodeUnset]),
    Route(Rpf, 1, RpfRoute(1), [NodeRpf(1), NodeUnset, NodeUnset, NodeUnset]),
    Route(Rpf, 2, RpfRoute(2), [NodeRpf(2), NodeUnset, NodeUnset, NodeUnset]),
    Route(Rpf, 3, RpfRoute(3), [NodeRpf(3), NodeUnset, NodeUnset, NodeUnset]),
    Route(Uds, 0, UdsRoute(0), [NodeUds(0), NodeUnset, NodeUnset, NodeUnset]),
    Route(Wpf, 0, NoRouteReg, [NodeWpf(0), NodeUnset, NodeUnset, NodeUnset])
  ]

  predicate RouteMatches(r: Route, t: EntityType, index: nat) {
    r.etype == t && r.index == index
  }

  /** The entities the table knows: BRU0, RPF0-3, UDS0 and WPF0. */
  predicate HasRoute(t: EntityType, index: nat) {
    match t
    case Bru => index == 0
    case Rpf => index < 4
    case Uds => index == 0
    case Wpf => index == 0
  }

  /** The table has an entry for (t, index) exactly when HasRoute says so, and at most one. */
  lemma {:induction false} RouteTableKeys(t: EntityType, index: nat)
    ensures HasRoute(t, index) <==> exists j :: 0 <= j < |ROUTES| && RouteMatches(ROUTES[j], t, index)
    ensures forall j, k ::
      (0 <= j < |ROUTES| && 0 <= k < |ROUTES| &&
       RouteMatches(ROUTES[j], t, index) && RouteMatches(ROUTES[k], t, index)) ==> j == k
  {
    if HasRoute(t, index) {
      var j := match t
        case Bru => 0
        case Rpf => 1 + index
        case Uds => 5
        case Wpf => 6;
      assert RouteMatches(ROUTES[j], t, index);
    }
  }

  /** The linear scan of vsp2_entity_init: index of the first matching entry, or None. */
  method FindRoute(t: EntityType, index: nat) returns (r: Option<nat>)
    ensures r.None? <==> !HasRoute(t, index)
    ensures r.Some? ==> r.value < |ROUTES| && RouteMatches(ROUTES[r.value], t, index)
    ensures r.Some? ==> forall j :: 0 <= j < r.value ==> !RouteMatches(ROUTES[j], t, index)
  {
    RouteTableKeys(t, index);
    var i := 0;
    while i < |ROUTES|
      invariant 0 <= i <= |ROUTES|
      invariant forall j :: 0 <= j < i ==> !RouteMatches(ROUTES[j], t, index)
    {
      if ROUTES[i].etype == t && ROUTES[i].index == index {
        return Some(i);
      }
      i := i + 1;
    }
    return None;
  }

  // ---------------------------------------------------------------------------
  // Pads and formats

  /** media_pad flags: zero after allocation, then SINK or SOURCE. */
  datatype PadFlag = NoPadFlag | Sink | Source

  /** The pad layout vsp2_entity_init builds: n-1 sink pads then one source pad. */
  function PadLayout(numPads: nat): (pads: seq<PadFlag>)
    requires numPads >= 1
    ensures |pads| == numPads
    ensures pads[numPads - 1] == Source
    ensures forall p :: 0 <= p < numPads - 1 ==> pads[p] == Sink
  {
    seq(numPads - 1, _ => Sink) + [Source]
  }

  /** v4l2_mbus_framefmt, restricted to the fields the driver sets. */
  datatype Format = Format(code: nat, width: u32, height: u32, field: nat, colorspace: nat)

  const ZERO_FORMAT := Format(0, 0, 0, 0, 0)

  /** v4l2_rect: signed position, unsigned size. */
  datatype Rect = Rect(left: s32, top: s32, width: u32, height: u32)

  const ZERO_RECT := Rect(0, 0, 0, 0)

  /** The `which` argument of the pad operations. */
  datatype Which = Try | Active | OtherWhich(raw: nat)

  /** The TRY formats and crop rectangles a V4L2 subdevice file handle holds per pad. */
  class SubdevFh {
    var tryFormats: seq<Format>
    var tryCrop: seq<Rect>

    constructor (numPads: nat)
      ensures tryFormats == seq(numPads, _ => ZERO_FORMAT)
      ensures tryCrop == seq(numPads, _ => ZERO_RECT)
    {
      tryFormats := seq(numPads, _ => ZERO_FORMAT);
      tryCrop := seq(numPads, _ => ZERO_RECT);
    }
  }

  // ---------------------------------------------------------------------------
  // Link setup (vsp2_entity.c:171-196)

  /** The downstream connection a source pad drives. */
  datatype LinkState = LinkState(sink: Option<MediaRef>, sinkPad: nat)

  const UNLINKED := LinkState(None, 0)

  /**
   * One link_setup call on a local pad: `isSource` says whether that pad is a
   * source pad, `hasRoute` whether the entity has a route. A recorded sink is
   * never replaced by another: enabling then fails with -EBUSY and changes nothing.
   */
  function LinkSetupStep(isSource: bool, hasRoute: bool, s: LinkState,
                         remote: MediaRef, remotePad: nat, enable: bool): (r: (int, LinkState))
    ensures r.0 == 0 || r.0 == -EBUSY
    ensures r.0 == -EBUSY <==> isSource && hasRoute && enable && s.sink.Some?
    ensures r.0 == -EBUSY ==> r.1 == s
    ensures !(isSource && hasRoute) ==> r.1 == s
    ensures s.sink.Some? && r.1.sink.Some? ==> r.1 == s
    ensures isSource && hasRoute && !enable ==> r.1 == UNLINKED
    ensures isSource && hasRoute && enable && s.sink.None? ==> r.1 == LinkState(Some(remote), remotePad)
  {
    if !isSource || !hasRoute then (0, s)
    else if enable then
      if s.sink.Some? then (-EBUSY, s) else (0, LinkState(Some(remote), remotePad))
    else (0, UNLINKED)
  }

  /** A link_setup request on the entity's pad `local`. */
  datatype LinkRequest = LinkRequest(local: nat, remote: MediaRef, remotePad: nat, enable: bool)

  /** The state after a sequence of link_setup calls on one entity, with their results. */
  function LinkSetupRun(pads: seq<PadFlag>, hasRoute: bool, s: LinkState, reqs: seq<LinkRequest>): (r: (seq<int>, LinkState))
    requires forall k :: 0 <= k < |reqs| ==> reqs[k].local < |pads|
    ensures |r.0| == |reqs|
    decreases |reqs|
  {
    if reqs == [] then ([], s)
    else
      var q := reqs[0];
      var step := LinkSetupStep(pads[q.local] == Source, hasRoute, s, q.remote, q.remotePad, q.enable);
      var rest := LinkSetupRun(pads, hasRoute, step.1, reqs[1..]);
      ([step.0] + rest.0, rest.1)
  }

  /**
   * Exclusivity: once a source pad drives a sink, no sequence of enable
   * requests changes it, and each one made on the source pad fails with -EBUSY.
   */
  lemma {:induction false} LinkedSinkIsSticky(pads: seq<PadFlag>, s: LinkState, reqs: seq<LinkRequest>)
    requires s.sink.Some?
    requires forall k :: 0 <= k < |reqs| ==> reqs[k].local < |pads| && reqs[k].enable
    ensures LinkSetupRun(pads, true, s, reqs).1 == s
    ensures forall k :: 0 <= k < |reqs| ==>
      LinkSetupRun(pads, true, s, reqs).0[k] == (if pads[reqs[k].local] == Source then -EBUSY else 0)
  {
    if reqs != [] {
      LinkedSinkIsSticky(pads, s, reqs[1..]);
      var r := LinkSetupRun(pads, true, s, reqs);
      var rest := LinkSetupRun(pads, true, s, reqs[1..]);
      forall k | 0 <= k < |reqs|
        ensures r.0[k] == (if pads[reqs[k].local] == Source then -EBUSY else 0)
      {
        if k > 0 {
          assert r.0[k] == rest.0[k - 1];
        }
      }
    }
  }

  // ---------------------------------------------------------------------------
  // The entity (struct vsp2_entity)

  class VspEntity {
    const etype: EntityType
    const index: nat
    /** Index of the bound entry of ROUTES; None is a NULL route. */
    var route: Option<nat>
    var pads: seq<PadFlag>
    var sourcePad: nat
    /** Active format of each pad. */
    var formats: seq<Format>
    var sink: Option<MediaRef>
    var sinkPad: nat
    var streaming: bool
    var hasCtrlHandler: bool

    /** The zero-filled entity a create function allocates, with its type and index set. */
    constructor (etype: EntityType, index: nat)
      ensures this.etype == etype && this.index == index
      ensures route.None? && pads == [] && sourcePad == 0 && formats == []
      ensures sink.None? && sinkPad == 0 && !streaming && !hasCtrlHandler
    {
      this.etype := etype;
      this.index := index;
      route := None;
      pads := [];
      sourcePad := 0;
      formats := [];
      sink := None;
      sinkPad := 0;
      streaming := false;
      hasCtrlHandler := false;
    }

    /** Pad layout and route binding that vsp2_entity_init establishes. */
    ghost predicate Valid()
      reads this
    {
      && |pads| >= 1
      && sourcePad == |pads| - 1
      && pads == PadLayout(|pads|)
      && |formats| == |pads|
      && route.Some?
      && route.value < |ROUTES|
      && RouteMatches(ROUTES[route.value], etype, index)
    }

    function Link(): LinkState
      reads this
    {
      LinkState(sink, sinkPad)
    }

    /**
     * vsp2_entity_init: binds the route, then lays out the pads. The result
     * of media_entity_init, not part of this model, is `mediaInitRet`.
     */
    method Init(numPads: nat, mediaInitRet: int) returns (ret: int)
      requires numPads >= 1
      modifies this
      ensures !HasRoute(etype, index) ==> ret == -EINVAL && unchanged(this)
      ensures HasRoute(etype, index) ==> ret == mediaInitRet && Valid()
      ensures HasRoute(etype, index) ==> |pads| == numPads && formats == seq(numPads, _ => ZERO_FORMAT)
      ensures HasRoute(etype, index) ==> forall j :: 0 <= j < route.value ==> !RouteMatches(ROUTES[j], etype, index)
      ensures sink == old(sink) && sinkPad == old(sinkPad)
      ensures streaming == old(streaming) && hasCtrlHandler == old(hasCtrlHandler)
    {
      var r := FindRoute(etype, index);
      if r.None? {
        return -EINVAL;
      }
      route := r;
      sourcePad := numPads - 1;
      formats := seq(numPads, _ => ZERO_FORMAT);
      var p: seq<PadFlag> := seq(numPads, _ => NoPadFlag);
      var i := 0;
      while i < numPads - 1
        invariant 0 <= i <= numPads - 1
        invariant |p| == numPads
        invariant forall k :: 0 <= k < i ==> p[k] == Sink
      {
        p := p[i := Sink];
        i := i + 1;
      }
      p := p[numPads - 1 := Source];
      pads := p;
      return mediaInitRet;
    }

    /** vsp2_entity_is_streaming */
    function IsStreaming(): (s: bool)
      reads this
    {
      streaming
    }

    /**
     * vsp2_entity_set_streaming. Entering the streaming state re-applies the
     * controls through v4l2_ctrl_handler_setup, whose result is `setupRet`;
     * a failure rolls the flag back to false and is returned.
     */
    method SetStreaming(enable: bool, setupRet: int) returns (ret: int)
      modifies this`streaming
      ensures !enable ==> ret == 0 && !streaming
      ensures enable && !hasCtrlHandler ==> ret == 0 && streaming
      ensures enable && hasCtrlHandler ==> ret == setupRet && streaming == (setupRet >= 0)
    {
      streaming := enable;
      if !enable {
        return 0;
      }
      if !hasCtrlHandler {
        return 0;
      }
      ret := setupRet;
      if ret < 0 {
        streaming := false;
      }
    }

    /**
     * vsp2_entity_get_pad_format: the active format of the pad, the file
     * handle's TRY format, or NULL for any other `which`.
     */
    function PadFormat(fh: SubdevFh?, pad: nat, which: Which): (r: Option<Format>)
      reads this, fh
      requires which.Active? ==> pad < |formats|
      requires which.Try? ==> fh != null && pad < |fh.tryFormats|
      ensures r.None? <==> which.OtherWhich?
      ensures which.Active? ==> r == Some(formats[pad])
      ensures which.Try? ==> r == Some(fh.tryFormats[pad])
    {
      match which
      case Try => Some(fh.tryFormats[pad])
      case Active => Some(formats[pad])
      case OtherWhich(_) => None
    }

    /**
     * vsp2_entity_link_setup on local pad `local` of this entity: only a
     * source pad of a routed entity records or clears its sink.
     */
    method LinkSetup(local: nat, remote: MediaRef, remotePad: nat, enable: bool) returns (ret: int)
      requires local < |pads|
      modifies this`sink, this`sinkPad
      ensures (ret, Link()) == LinkSetupStep(pads[local] == Source, route.Some?, old(Link()), remote, remotePad, enable)
    {
      if pads[local] != Source {
        return 0;
      }
      if route.None? {
        return 0;
      }
      if enable {
        if sink.Some? {
          return -EBUSY;
        }
        sink := Some(remote);
        sinkPad := remotePad;
      } else {
        sink := None;
        sinkPad := 0;
      }
      return 0;
    }
  }
}
