/**
 * Short runs of the stateful parts through their public operations, each
 * proved against the operations' contracts alone: an entity's life from
 * entering to dead, the hover callback's single firing, an animation that
 * overruns its interval, the shipped options page, and an unfiltered draw.
 */
module Scenarios {
  import opened Wrappers
  import opened Primitives
  import opened Filters
  import opened Entities
  import opened Render
  import opened Animations
  import opened Pages
  import RenderingHelper

  /**
   * An entity built with a finished entering transition starts Entering,
   * is Present after one tick, Exiting once told to leave, and Dead after
   * the next tick because it has no exiting transition.
   */
  method EntityLifecycle(h: RenderingHelper.Host, mouse: Vector2, enter: Transition)
    returns (states: seq<TransitionState>)
    requires enter.finished
    ensures states == [Entering, Present, Exiting, Dead]
  {
    var e := new Entity(CenterCenter, Vector2(150.0, 90.0), 0.5, Some(enter), None, "tablet", 40.0, 20.0, []);
    states := [e.transitionState];
    var _ := e.Update(h, mouse);
    states := states + [e.transitionState];
    e.SetTransitionState(Exiting, true);
    states := states + [e.transitionState];
    var _ := e.Update(h, mouse);
    states := states + [e.transitionState];
  }

  /**
   * With the cursor inside a present entity for two ticks, the hover
   * callback fires on the first tick only; once the cursor leaves, the
   * flag drops without a callback.
   */
  method HoverFiresOnEntry(h: RenderingHelper.Host, inside: Vector2, outside: Vector2)
    returns (fired: seq<bool>)
    requires Primitives.Contains(RawBoundaryOf(h, Vector2(0.0, 0.0), TopLeft, 10.0, 10.0), inside)
    requires !Primitives.Contains(RawBoundaryOf(h, Vector2(0.0, 0.0), TopLeft, 10.0, 10.0), outside)
    ensures fired == [true, false, false]
  {
    var e := new Entity(TopLeft, Vector2(0.0, 0.0), 0.5, None, None, "button", 10.0, 10.0, []);
    var f1 := e.Update(h, inside);
    var f2 := e.Update(h, inside);
    var f3 := e.Update(h, outside);
    fired := [f1, f2, f3];
  }

  /**
   * A present entity updated once per cursor position fires exactly the
   * callbacks `CallbackCount` predicts for the positions' hit tests, and so
   * never more than the number of ticks whose position is inside it.
   */
  method HoverOverTicks(h: RenderingHelper.Host, e: Entity, mice: seq<Vector2>) returns (callbacks: nat)
    requires e.transitionState == Present
    modifies e
    ensures callbacks == CallbackCount(old(e.isHovered), Hits(old(e.GetRawBoundary(h)), mice))
    ensures callbacks <= multiset(Hits(old(e.GetRawBoundary(h)), mice))[true]
    ensures e.transitionState == Present
  {
    ghost var wasHovered := e.isHovered;
    ghost var hits := Hits(e.GetRawBoundary(h), mice);
    callbacks := 0;
    for i := 0 to |mice|
      invariant e.transitionState == Present && e.anchor == old(e.anchor)
      invariant callbacks == CallbackCount(wasHovered, hits[..i])
      invariant e.isHovered == (if i == 0 then wasHovered else hits[i - 1])
    {
      var fired := e.Update(h, mice[i]);
      assert hits[..i + 1] == hits[..i] + [hits[i]];
      CallbackCountSnoc(wasHovered, hits[..i], hits[i]);
      if fired {
        callbacks := callbacks + 1;
      }
    }
    assert hits[..|mice|] == hits;
    CallbacksBoundedByHits(wasHovered, hits);
  }

  /**
   * An animation with a 100 ms interval read after 150 ms reports 1 and
   * restarts its timer, so a read 50 ms later reports one half.
   */
  method AnimationOverrun() returns (first: real, second: real)
    ensures first == 1.0 && second == 0.5
  {
    var timer := new Timer();
    var animation := new Animation("portrait", 100, timer);
    timer.Elapse(150.0);
    first := animation.GetProgress();
    timer.Elapse(50.0);
    second := animation.GetProgress();
  }

  /**
   * The shipped page has six options, so neither the wheel nor the arrows
   * move its window, and releasing the button lets go of any held slot.
   */
  method ShippedPageStaysAtTop(menuX: int, menuY: int, menuHeight: int, x: int, y: int, optionHits: seq<bool>)
    returns (index: int, held: int)
    requires |optionHits| == VisibleSlots
    ensures index == 0 && held == -1
  {
    var page := new MenuPage(menuX, menuY, menuHeight);
    page.ReceiveScrollWheelAction(-1, false);
    page.ReceiveLeftClick(x, y, false, optionHits);
    page.ReceiveScrollWheelAction(1, false);
    page.ReleaseLeftClick(false);
    ShippedOptionsNeverScroll(page);
    index := page.currentItemIndex;
    held := page.optionsSlotHeld;
  }

  /**
   * A present entity without filters is drawn once, at its
   * top-left corner in pixels, white, unrotated, unflipped, at tile scale
   * and at its own layer depth.
   */
  method DrawUnfiltered(h: RenderingHelper.Host, source: SourceRectangle, texture: Texture)
    returns (call: DrawCall)
    ensures call.destination == RenderingHelper.ConvertAdjustedScreenToRaw(h, Vector2(130.0, 80.0))
    ensures call.color == White && call.rotation == 0.0 && call.origin == Vector2(0.0, 0.0)
    ensures call.effects == NoEffects && call.scale == RenderingHelper.TileScale(h) && call.layerDepth == 0.5
    ensures call.source == source && call.texture == texture
  {
    var e := new Entity(CenterCenter, Vector2(150.0, 90.0), 0.5, None, None, "tablet", 40.0, 20.0, []);
    var drawer := new Drawer(e, source, texture);
    var batch := new SpriteBatch();
    drawer.Draw(batch, h, NoOverrides);
    call := batch.calls[0];
    RenderingHelper.TileScaleLaw(h);
  }
}
