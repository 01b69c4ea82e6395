/**
 * Entities: rectangular visuals positioned by an anchor and an origin, with
 * an entering/exiting transition state machine and edge-triggered hover
 * detection.
 *
 * Origin resolution is pure (a function of anchor, origin, width and
 * height); the state machine and hover flag live in the `Entity` class.
 */
module Entities {
  import opened Wrappers
  import opened Primitives
  import opened Filters
  import RenderingHelper

  /** Which point of the bounding box the anchor designates. */
  datatype Origin =
    | TopLeft | TopCenter | TopRight
    | CenterLeft | CenterCenter | CenterRight
    | BottomLeft | BottomCenter | BottomRight

  datatype TransitionState = Entering | Present | Exiting | Dead

  // ---------------------------------------------------------------------
  // Origin resolution

  /** `GetTopLeft`: the top-left corner of the box whose `origin` point is `anchor`. */
  function TopLeftOf(anchor: Vector2, origin: Origin, width: real, height: real): Vector2 {
    match origin
    case TopLeft => anchor
    case TopCenter => Vector2(anchor.x - width / 2.0, anchor.y)
    case TopRight => Vector2(anchor.x - width, anchor.y)
    case CenterLeft => Vector2(anchor.x, anchor.y - height / 2.0)
    case CenterCenter => Vector2(anchor.x - width / 2.0, anchor.y - height / 2.0)
    case CenterRight => Vector2(anchor.x - width, anchor.y - height / 2.0)
    case BottomLeft => Vector2(anchor.x, anchor.y - height)
    case BottomCenter => Vector2(anchor.x - width / 2.0, anchor.y - height)
    case BottomRight => Vector2(anchor.x - width, anchor.y - height)
  }

  /** `GetCenter`: the centre of the box whose `origin` point is `anchor`. */
  function CenterOf(anchor: Vector2, origin: Origin, width: real, height: real): Vector2 {
    match origin
    case TopLeft => Add(anchor, Vector2(width / 2.0, height / 2.0))
    case TopCenter => Add(anchor, Vector2(0.0, height / 2.0))
    case TopRight => Add(anchor, Vector2(width / -2.0, height / 2.0))
    case CenterLeft => Add(anchor, Vector2(width / 2.0, 0.0))
    case CenterCenter => anchor
    case CenterRight => Add(anchor, Vector2(width / -2.0, 0.0))
    case BottomLeft => Add(anchor, Vector2(width / 2.0, height / -2.0))
    case BottomCenter => Add(anchor, Vector2(0.0, height / -2.0))
    case BottomRight => Add(anchor, Vector2(width / -2.0, height / -2.0))
  }

  /** `GetBoundary`: the box in virtual-screen units. */
  function BoundaryOf(anchor: Vector2, origin: Origin, width: real, height: real): Rectangle {
    Rectangle(TopLeftOf(anchor, origin, width, height), width, height)
  }

  /** `GetRawBoundary`: the box in viewport pixels, used for hit-testing the cursor. */
  function RawBoundaryOf(h: RenderingHelper.Host, anchor: Vector2, origin: Origin, width: real, height: real): Rectangle {
    var topLeft := TopLeftOf(anchor, origin, width, height);
    var scale := RenderingHelper.TileScale(h);
    Rectangle(
      Vector2(topLeft.x * scale + RenderingHelper.MarginWidth(h), topLeft.y * scale + RenderingHelper.MarginHeight(h)),
      width * scale,
      height * scale)
  }

  /** Reference definition: the fraction of the width left of the origin point (0, 1/2 or 1). */
  function HorizontalFraction(origin: Origin): real {
    if origin in {TopLeft, CenterLeft, BottomLeft} then 0.0
    else if origin in {TopCenter, CenterCenter, BottomCenter} then 0.5
    else 1.0
  }

  /** Reference definition: the fraction of the height above the origin point (0, 1/2 or 1). */
  function VerticalFraction(origin: Origin): real {
    if origin in {TopLeft, TopCenter, TopRight} then 0.0
    else if origin in {CenterLeft, CenterCenter, CenterRight} then 0.5
    else 1.0
  }

  /**
   * Every origin names the point at fractions (fx, fy) of the box, so the
   * top-left corner is the anchor minus (fx * width, fy * height), and adding
   * that offset back reproduces the anchor.
   */
  lemma TopLeftByFractions(anchor: Vector2, origin: Origin, width: real, height: real)
    ensures TopLeftOf(anchor, origin, width, height)
         == Vector2(anchor.x - HorizontalFraction(origin) * width, anchor.y - VerticalFraction(origin) * height)
    ensures Add(TopLeftOf(anchor, origin, width, height),
                Vector2(HorizontalFraction(origin) * width, VerticalFraction(origin) * height)) == anchor
  {
  }

  /** For all nine origins the centre is the top-left corner plus half the extent. */
  lemma CenterIsTopLeftPlusHalf(anchor: Vector2, origin: Origin, width: real, height: real)
    ensures CenterOf(anchor, origin, width, height)
         == Add(TopLeftOf(anchor, origin, width, height), Vector2(width / 2.0, height / 2.0))
  {
  }

  /** Anchor (150, 90) with origin CenterCenter and size 40 x 20 has its top-left corner at (130, 80). */
  lemma CenteredExample()
    ensures TopLeftOf(Vector2(150.0, 90.0), CenterCenter, 40.0, 20.0) == Vector2(130.0, 80.0)
    ensures TopLeftOf(Vector2(150.0, 90.0), BottomRight, 40.0, 20.0) == Vector2(110.0, 70.0)
    ensures TopLeftOf(Vector2(150.0, 90.0), TopLeft, 40.0, 20.0) == Vector2(150.0, 90.0)
  {
  }

  /** The raw boundary is the virtual boundary scaled by the tile scale and shifted to the north-west corner. */
  lemma RawBoundaryIsScaledBoundary(h: RenderingHelper.Host, anchor: Vector2, origin: Origin, width: real, height: real)
    ensures var s := RenderingHelper.TileScale(h);
            RawBoundaryOf(h, anchor, origin, width, height)
            == Rectangle(Add(Multiply(BoundaryOf(anchor, origin, width, height).topLeft, s), RenderingHelper.NorthWest(h)),
                         width * s, height * s)
  {
  }

  /**
   * The raw boundary is the virtual boundary carried through
   * `ConvertAdjustedScreenToRaw`: both of its corners are the converted
   * corners of the virtual box.
   */
  lemma RawBoundaryIsConvertedBoundary(h: RenderingHelper.Host, anchor: Vector2, origin: Origin, width: real, height: real)
    ensures var raw := RawBoundaryOf(h, anchor, origin, width, height);
            var box := BoundaryOf(anchor, origin, width, height);
            && raw.topLeft == RenderingHelper.ConvertAdjustedScreenToRaw(h, box.topLeft)
            && Add(raw.topLeft, Vector2(raw.width, raw.height))
               == RenderingHelper.ConvertAdjustedScreenToRaw(h, Add(box.topLeft, Vector2(width, height)))
  {
    var s := RenderingHelper.TileScale(h);
    var tl := BoundaryOf(anchor, origin, width, height).topLeft;
    RawBoundaryIsScaledBoundary(h, anchor, origin, width, height);
    assert (tl.x + width) * s == tl.x * s + width * s;
    assert (tl.y + height) * s == tl.y * s + height * s;
  }

  /** Scaling by a positive factor and shifting keeps a point inside or outside a box. */
  lemma ScaledContains(r: Rectangle, p: Vector2, s: real, shift: Vector2)
    requires s > 0.0
    ensures Contains(r, p)
        <==> Contains(Rectangle(Add(Multiply(r.topLeft, s), shift), r.width * s, r.height * s), Add(Multiply(p, s), shift))
  {
    assert (r.topLeft.x + r.width) * s == r.topLeft.x * s + r.width * s;
    assert (r.topLeft.y + r.height) * s == r.topLeft.y * s + r.height * s;
    RenderingHelper.MultiplyPreservesOrder(r.topLeft.x, p.x, s);
    RenderingHelper.MultiplyPreservesOrder(p.x, r.topLeft.x + r.width, s);
    RenderingHelper.MultiplyPreservesOrder(r.topLeft.y, p.y, s);
    RenderingHelper.MultiplyPreservesOrder(p.y, r.topLeft.y + r.height, s);
  }

  /** A virtual point lies in the boundary exactly when its pixel image lies in the raw boundary. */
  lemma HitTestAgrees(h: RenderingHelper.Host, anchor: Vector2, origin: Origin, width: real, height: real, p: Vector2)
    ensures Contains(BoundaryOf(anchor, origin, width, height), p)
        <==> Contains(RawBoundaryOf(h, anchor, origin, width, height), RenderingHelper.ConvertAdjustedScreenToRaw(h, p))
  {
    RenderingHelper.TileScaleLaw(h);
    RawBoundaryIsScaledBoundary(h, anchor, origin, width, height);
    ScaledContains(BoundaryOf(anchor, origin, width, height), p, RenderingHelper.TileScale(h), RenderingHelper.NorthWest(h));
  }

  // ---------------------------------------------------------------------
  // Transition state machine

  /** `UpdateTransitionState` as a function of the state and the two transition slots. */
  function NextState(state: TransitionState, entering: Option<Transition>, exiting: Option<Transition>): TransitionState {
    match state
    case Present => Present
    case Dead => Dead
    case Entering => if entering.Some? && entering.value.finished then Present else Entering
    case Exiting => if exiting.None? || exiting.value.finished then Dead else Exiting
  }

  /** Present and Dead are fixed points of an update. */
  lemma StableStates(entering: Option<Transition>, exiting: Option<Transition>)
    ensures NextState(Present, entering, exiting) == Present
    ensures NextState(Dead, entering, exiting) == Dead
  {
  }

  /**
   * Entering becomes Present exactly when the entering transition exists and
   * is finished (without one it stays Entering); Exiting becomes Dead exactly
   * when the exiting transition is missing or finished. No other move exists.
   */
  lemma UpdateMoves(state: TransitionState, entering: Option<Transition>, exiting: Option<Transition>)
    ensures (NextState(state, entering, exiting) != state)
        <==> ((state == Entering && entering.Some? && entering.value.finished)
              || (state == Exiting && (exiting.None? || exiting.value.finished)))
    ensures state == Entering ==> NextState(state, entering, exiting) in {Entering, Present}
    ensures state == Exiting ==> NextState(state, entering, exiting) in {Exiting, Dead}
    ensures state == Entering && entering.None? ==> NextState(state, entering, exiting) == Entering
    ensures state == Exiting && exiting.None? ==> NextState(state, entering, exiting) == Dead
  {
  }

  /** With the transitions unchanged, a second update changes nothing. */
  lemma NextStateIdempotent(state: TransitionState, entering: Option<Transition>, exiting: Option<Transition>)
    ensures NextState(NextState(state, entering, exiting), entering, exiting) == NextState(state, entering, exiting)
  {
  }

  // ---------------------------------------------------------------------
  // Active filters

  /**
   * `GetFilters`: the exiting transition while Exiting, else the entering
   * transition while Entering (each only when present), then every
   * permanent filter in insertion order.
   */
  function ActiveFilters(state: TransitionState, entering: Option<Transition>, exiting: Option<Transition>, filters: seq<Filter>): seq<Filter> {
    (if state == Exiting && exiting.Some? then [exiting.value.filter] else [])
    + (if state == Entering && entering.Some? then [entering.value.filter] else [])
    + filters
  }

  /**
   * At most one transition is ever active, it comes first, and the
   * permanent filters follow unchanged and in order.
   */
  lemma ActiveFiltersShape(state: TransitionState, entering: Option<Transition>, exiting: Option<Transition>, filters: seq<Filter>)
    ensures var active := ActiveFilters(state, entering, exiting, filters);
            && |filters| <= |active| <= |filters| + 1
            && active[|active| - |filters|..] == filters
            && (|active| == |filters| + 1 <==> (state == Exiting && exiting.Some?) || (state == Entering && entering.Some?))
            && (state == Exiting && exiting.Some? ==> active[0] == exiting.value.filter)
            && (state == Entering && entering.Some? ==> active[0] == entering.value.filter)
  {
  }

  // ---------------------------------------------------------------------
  // Hover

  /** Whether the cursor counts as hovering: only a Present entity whose raw boundary holds it. */
  predicate HoverHit(state: TransitionState, rawBoundary: Rectangle, mouse: Vector2) {
    state == Present && Contains(rawBoundary, mouse)
  }

  /**
   * Number of hover callbacks over consecutive ticks whose hit tests are
   * `hits`, starting from hover flag `wasHovered`: one per tick whose hit
   * follows a tick without one.
   */
  function CallbackCount(wasHovered: bool, hits: seq<bool>): nat
    decreases |hits|
  {
    if hits == [] then 0
    else (if hits[0] && !wasHovered then 1 else 0) + CallbackCount(hits[0], hits[1..])
  }

  /**
   * While the cursor stays on a present entity the callback fires once, on
   * the tick it enters, and never again while it remains.
   */
  lemma {:induction false} CallbackOncePerEntry(wasHovered: bool, hits: seq<bool>)
    requires forall i :: 0 <= i < |hits| ==> hits[i]
    ensures CallbackCount(wasHovered, hits) == if hits != [] && !wasHovered then 1 else 0
    decreases |hits|
  {
    if hits != [] {
      CallbackOncePerEntry(true, hits[1..]);
    }
  }

  /** The callbacks never outnumber the ticks with a hit; without any hit there are none. */
  lemma {:induction false} CallbacksBoundedByHits(wasHovered: bool, hits: seq<bool>)
    ensures CallbackCount(wasHovered, hits) <= multiset(hits)[true]
    ensures (forall i :: 0 <= i < |hits| ==> !hits[i]) ==> CallbackCount(wasHovered, hits) == 0
    decreases |hits|
  {
    if hits != [] {
      CallbacksBoundedByHits(hits[0], hits[1..]);
      assert hits == [hits[0]] + hits[1..];
      assert multiset(hits)[true] == multiset([hits[0]])[true] + multiset(hits[1..])[true];
    }
  }

  /** The hit test of each cursor position against one raw boundary. */
  function Hits(rawBoundary: Rectangle, mice: seq<Vector2>): (hits: seq<bool>)
    ensures |hits| == |mice|
    ensures forall i :: 0 <= i < |mice| ==> (hits[i] <==> Contains(rawBoundary, mice[i]))
  {
    seq(|mice|, i requires 0 <= i < |mice| => Contains(rawBoundary, mice[i]))
  }

  /** One more tick adds a callback exactly when it hits and the tick before it (or the start) did not. */
  lemma {:induction false} CallbackCountSnoc(wasHovered: bool, hits: seq<bool>, hit: bool)
    ensures CallbackCount(wasHovered, hits + [hit])
         == CallbackCount(wasHovered, hits)
            + (if hit && !(if hits == [] then wasHovered else hits[|hits| - 1]) then 1 else 0)
    decreases |hits|
  {
    if hits != [] {
      assert (hits + [hit])[1..] == hits[1..] + [hit];
      CallbackCountSnoc(hits[0], hits[1..], hit);
    }
  }

  // ---------------------------------------------------------------------
  // The entity

  /**
   * An entity. Width, height, identifier and permanent filters are supplied
   * by the concrete subclass; here they are constructor arguments.
   */
  class Entity {
    var anchor: Vector2
    const origin: Origin
    const layerDepth: real
    var entering: Option<Transition>
    var exiting: Option<Transition>
    const filters: seq<Filter>
    const id: string
    var isHovered: bool
    var transitionState: TransitionState
    const width: NonNegReal
    const height: NonNegReal

    /**
     * Stores the arguments, clears the hover flag and initialises the
     * state: with an entering transition the entity is Entering and that
     * transition is keyed with the entity's id and started; otherwise it is
     * Present.
     */
    constructor (origin: Origin, anchor: Vector2, layerDepth: real,
                 entering: Option<Transition>, exiting: Option<Transition>,
                 id: string, width: NonNegReal, height: NonNegReal, filters: seq<Filter>)
      ensures this.anchor == anchor && this.origin == origin && this.layerDepth == layerDepth
      ensures this.id == id && this.width == width && this.height == height && this.filters == filters
      ensures this.exiting == exiting && !isHovered
      ensures transitionState == (if entering.Some? then Entering else Present)
      ensures this.entering == (if entering.Some? then Some(StartFilter(SetKey(entering.value, id))) else None)
    {
      this.anchor := anchor;
      this.exiting := exiting;
      this.isHovered := false;
      this.id := id;
      this.layerDepth := layerDepth;
      this.origin := origin;
      this.width := width;
      this.height := height;
      this.filters := filters;
      // InitializeTransitionState
      if entering.Some? {
        this.transitionState := Entering;
        this.entering := Some(StartFilter(SetKey(entering.value, id)));
      } else {
        this.transitionState := Present;
        this.entering := None;
      }
    }

    function GetTopLeft(): Vector2
      reads this
    {
      TopLeftOf(anchor, origin, width, height)
    }

    function GetCenter(): Vector2
      reads this
    {
      CenterOf(anchor, origin, width, height)
    }

    function GetBoundary(): Rectangle
      reads this
    {
      BoundaryOf(anchor, origin, width, height)
    }

    function GetRawBoundary(h: RenderingHelper.Host): Rectangle
      reads this
    {
      RawBoundaryOf(h, anchor, origin, width, height)
    }

    /** The list `GetFilters` builds from the current state. */
    function ActiveFilterList(): seq<Filter>
      reads this
    {
      ActiveFilters(transitionState, entering, exiting, filters)
    }

    /** `GetFilters`: a fresh list holding the active transition, if any, then the permanent filters. */
    method GetFilters() returns (result: seq<Filter>)
      ensures result == ActiveFilters(transitionState, entering, exiting, filters)
    {
      result := [];
      if transitionState == Exiting && exiting.Some? {
        result := result + [exiting.value.filter];
      }
      if transitionState == Entering && entering.Some? {
        result := result + [entering.value.filter];
      }
      ghost var prefix := result;
      for i := 0 to |filters|
        invariant result == prefix + filters[..i]
      {
        result := result + [filters[i]];
      }
      assert filters[..|filters|] == filters;
    }

    method SetAnchor(anchor: Vector2)
      modifies this
      ensures this.anchor == anchor
      ensures entering == old(entering) && exiting == old(exiting)
      ensures isHovered == old(isHovered) && transitionState == old(transitionState)
    {
      this.anchor := anchor;
    }

    /** Replaces the entering transition without starting it. */
    method SetEnteringTransition(transition: Option<Transition>)
      modifies this
      ensures entering == transition
      ensures anchor == old(anchor) && exiting == old(exiting)
      ensures isHovered == old(isHovered) && transitionState == old(transitionState)
    {
      entering := transition;
    }

    /** Replaces the exiting transition without starting it. */
    method SetExitingTransition(transition: Option<Transition>)
      modifies this
      ensures exiting == transition
      ensures anchor == old(anchor) && entering == old(entering)
      ensures isHovered == old(isHovered) && transitionState == old(transitionState)
    {
      exiting := transition;
    }

    /**
     * Sets the state. When `start` holds and the slot matching the new state
     * (Entering or Exiting) holds a transition, that transition is reset,
     * keyed with the entity's id and started; the other slot is untouched.
     */
    method SetTransitionState(state: TransitionState, start: bool)
      modifies this
      ensures transitionState == state
      ensures entering == if state == Entering && start && old(entering).Some?
                          then Some(StartFilter(SetKey(ResetTransition(old(entering).value), id)))
                          else old(entering)
      ensures exiting == if state == Exiting && start && old(exiting).Some?
                         then Some(StartFilter(SetKey(ResetTransition(old(exiting).value), id)))
                         else old(exiting)
      ensures anchor == old(anchor) && isHovered == old(isHovered)
    {
      transitionState := state;
      if transitionState == Entering && entering.Some? && start {
        entering := Some(StartFilter(SetKey(ResetTransition(entering.value), id)));
      }
      if transitionState == Exiting && exiting.Some? && start {
        exiting := Some(StartFilter(SetKey(ResetTransition(exiting.value), id)));
      }
    }

    /** One tick: the state update, then the hover update; reports whether the hover callback fired. */
    method Update(h: RenderingHelper.Host, mouse: Vector2) returns (hoverFired: bool)
      modifies this
      ensures transitionState == NextState(old(transitionState), entering, exiting)
      ensures isHovered == HoverHit(transitionState, GetRawBoundary(h), mouse)
      ensures hoverFired <==> isHovered && !old(isHovered)
      ensures anchor == old(anchor) && entering == old(entering) && exiting == old(exiting)
    {
      UpdateTransitionState();
      hoverFired := UpdateHover(h, mouse);
    }

    /** Advances Entering or Exiting when the matching transition allows it. */
    method UpdateTransitionState()
      modifies this
      ensures transitionState == NextState(old(transitionState), entering, exiting)
      ensures anchor == old(anchor) && entering == old(entering) && exiting == old(exiting)
      ensures isHovered == old(isHovered)
    {
      if transitionState == Present || transitionState == Dead {
        return;
      }
      if transitionState == Entering && entering.Some? && entering.value.finished {
        transitionState := Present;
      } else if transitionState == Exiting && ((exiting.Some? && exiting.value.finished) || exiting.None?) {
        transitionState := Dead;
      }
    }

    /**
     * Sets the hover flag to whether a Present entity's raw boundary holds
     * the cursor; the callback fires only when the flag rises.
     */
    method UpdateHover(h: RenderingHelper.Host, mouse: Vector2) returns (callbackFired: bool)
      modifies this
      ensures isHovered == HoverHit(transitionState, GetRawBoundary(h), mouse)
      ensures callbackFired <==> isHovered && !old(isHovered)
      ensures anchor == old(anchor) && entering == old(entering) && exiting == old(exiting)
      ensures transitionState == old(transitionState)
    {
      callbackFired := false;
      if transitionState == Present && Contains(GetRawBoundary(h), mouse) {
        if !isHovered {
          callbackFired := true;
        }
        isHovered := true;
      } else if isHovered {
        isHovered := false;
      }
    }
  }
}
