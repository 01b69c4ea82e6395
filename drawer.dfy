/**
 * The drawer: resolves the nine attributes of one draw call for its entity
 * and hands them to the host sprite batch.
 *
 * Each attribute starts from the caller's override, if given, or from the
 * drawer's raw default, and the entity's active filters are folded over it
 * in list order. Scale has two extra rules: an override is multiplied by the
 * tile scale, and a folded scale of exactly zero becomes 0.001.
 */
module Render {
  import opened Wrappers
  import opened Primitives
  import opened Filters
  import opened Entities
  import RenderingHelper

  /** The arguments of one host `SpriteBatch.Draw` call, in its argument order. */
  datatype DrawCall = DrawCall(
    texture: Texture,
    destination: Vector2,
    source: SourceRectangle,
    color: Color,
    rotation: real,
    origin: Vector2,
    scale: real,
    effects: SpriteEffects,
    layerDepth: real)

  /** The optional per-call overrides of `Draw` (`null` is `None`). */
  datatype Overrides = Overrides(
    destination: Option<Vector2>,
    source: Option<SourceRectangle>,
    color: Option<Color>,
    rotation: Option<real>,
    origin: Option<Vector2>,
    scale: Option<real>,
    effects: Option<SpriteEffects>,
    layerDepth: Option<real>)

  const NoOverrides: Overrides := Overrides(None, None, None, None, None, None, None, None)

  /** What a zero scale is replaced with. */
  const ScaleEpsilon: real := 0.001

  // Raw defaults of the base drawer.
  const RawColor: Color := White
  const RawEffects: SpriteEffects := NoEffects
  const RawOrigin: Vector2 := Vector2(0.0, 0.0)
  const RawRotation: real := 0.0

  /** `GetRawDestination`: the entity's top-left corner scaled into viewport pixels. */
  function RawDestination(h: RenderingHelper.Host, topLeft: Vector2): Vector2 {
    Vector2(topLeft.x * RenderingHelper.TileScale(h) + RenderingHelper.MarginWidth(h),
            topLeft.y * RenderingHelper.TileScale(h) + RenderingHelper.MarginHeight(h))
  }

  /** `GetRawScale`: the tile scale. */
  function RawScale(h: RenderingHelper.Host): real {
    RenderingHelper.TileScale(h)
  }

  /** An attribute resolved through the filters: the override or the raw value, folded in list order. */
  function Resolve<T>(filters: seq<Filter>, select: Filter -> (T -> T), override: Option<T>, raw: T): T {
    Fold(filters, select, override.GetOr(raw))
  }

  /** Scale's starting value: an override is in tiles and is multiplied by the tile scale. */
  function ScaleStart(h: RenderingHelper.Host, override: Option<real>): real {
    match override
    case None => RawScale(h)
    case Some(s) => s * RenderingHelper.TileScale(h)
  }

  /** The resolved scale: the folded value, with zero replaced by the epsilon. */
  function ResolveScale(h: RenderingHelper.Host, filters: seq<Filter>, override: Option<real>): real {
    var folded := Fold(filters, ExecuteScale, ScaleStart(h, override));
    if folded == 0.0 then ScaleEpsilon else folded
  }

  /** All nine attributes of a draw, each resolved independently over the same filter list. */
  function ResolveCall(h: RenderingHelper.Host, filters: seq<Filter>, o: Overrides, texture: Texture,
                       topLeft: Vector2, rawSource: SourceRectangle, rawLayerDepth: real): DrawCall {
    DrawCall(
      texture,
      Resolve(filters, ExecuteDestination, o.destination, RawDestination(h, topLeft)),
      Resolve(filters, ExecuteSource, o.source, rawSource),
      Resolve(filters, ExecuteColor, o.color, RawColor),
      Resolve(filters, ExecuteRotation, o.rotation, RawRotation),
      Resolve(filters, ExecuteOrigin, o.origin, RawOrigin),
      ResolveScale(h, filters, o.scale),
      Resolve(filters, ExecuteEffects, o.effects, RawEffects),
      Resolve(filters, ExecuteLayerDepth, o.layerDepth, rawLayerDepth))
  }

  /** `ShouldDraw`: only an entity that is not Dead is drawn. */
  predicate Drawable(state: TransitionState) {
    state != Dead
  }

  /** The loop each `Get<Attribute>` runs: every filter's transform, in list order. */
  method ApplyFilters<T>(filters: seq<Filter>, select: Filter -> (T -> T), start: T) returns (value: T)
    ensures value == Fold(filters, select, start)
  {
    value := start;
    for i := 0 to |filters|
      invariant value == Fold(filters[..i], select, start)
    {
      assert filters[..i + 1][..i] == filters[..i];
      value := select(filters[i])(value);
    }
    assert filters[..|filters|] == filters;
  }

  /** The host's sprite batch, reduced to the list of draw calls it has received. */
  class SpriteBatch {
    var calls: seq<DrawCall>

    constructor ()
      ensures calls == []
    {
      calls := [];
    }
  }

  /** A drawer bound to one entity; `rawSource` and `tileset` are what the concrete subclass supplies. */
  class Drawer {
    const entity: Entity
    const rawSource: SourceRectangle
    const tileset: Texture

    constructor (entity: Entity, rawSource: SourceRectangle, tileset: Texture)
      ensures this.entity == entity && this.rawSource == rawSource && this.tileset == tileset
    {
      this.entity := entity;
      this.rawSource := rawSource;
      this.tileset := tileset;
    }

    predicate ShouldDraw()
      reads entity
    {
      Drawable(entity.transitionState)
    }

    method GetColor(override: Option<Color>) returns (color: Color)
      ensures color == Resolve(entity.ActiveFilterList(), ExecuteColor, override, RawColor)
    {
      var filters := entity.GetFilters();
      color := ApplyFilters(filters, ExecuteColor, if override.None? then RawColor else override.value);
    }

    method GetDestination(h: RenderingHelper.Host, override: Option<Vector2>) returns (destination: Vector2)
      ensures destination == Resolve(entity.ActiveFilterList(), ExecuteDestination, override,
                                     RawDestination(h, entity.GetTopLeft()))
    {
      var start := if override.None? then RawDestination(h, entity.GetTopLeft()) else override.value;
      var filters := entity.GetFilters();
      destination := ApplyFilters(filters, ExecuteDestination, start);
    }

    method GetEffects(override: Option<SpriteEffects>) returns (effects: SpriteEffects)
      ensures effects == Resolve(entity.ActiveFilterList(), ExecuteEffects, override, RawEffects)
    {
      var filters := entity.GetFilters();
      effects := ApplyFilters(filters, ExecuteEffects, if override.None? then RawEffects else override.value);
    }

    method GetLayerDepth(override: Option<real>) returns (layerDepth: real)
      ensures layerDepth == Resolve(entity.ActiveFilterList(), ExecuteLayerDepth, override, entity.layerDepth)
    {
      var start := if override.None? then entity.layerDepth else override.value;
      var filters := entity.GetFilters();
      layerDepth := ApplyFilters(filters, ExecuteLayerDepth, start);
    }

    method GetOrigin(override: Option<Vector2>) returns (origin: Vector2)
      ensures origin == Resolve(entity.ActiveFilterList(), ExecuteOrigin, override, RawOrigin)
    {
      var filters := entity.GetFilters();
      origin := ApplyFilters(filters, ExecuteOrigin, if override.None? then RawOrigin else override.value);
    }

    method GetRotation(override: Option<real>) returns (rotation: real)
      ensures rotation == Resolve(entity.ActiveFilterList(), ExecuteRotation, override, RawRotation)
    {
      var filters := entity.GetFilters();
      rotation := ApplyFilters(filters, ExecuteRotation, if override.None? then RawRotation else override.value);
    }

    method GetScale(h: RenderingHelper.Host, override: Option<real>) returns (scale: real)
      ensures scale == ResolveScale(h, entity.ActiveFilterList(), override)
      ensures scale != 0.0
    {
      var start := if override.None? then RawScale(h) else override.value * RenderingHelper.TileScale(h);
      assert start == ScaleStart(h, override);
      var filters := entity.GetFilters();
      scale := ApplyFilters(filters, ExecuteScale, start);
      if scale == 0.0 {
        scale := ScaleEpsilon;
      }
    }

    method GetSource(override: Option<SourceRectangle>) returns (source: SourceRectangle)
      ensures source == Resolve(entity.ActiveFilterList(), ExecuteSource, override, rawSource)
    {
      var filters := entity.GetFilters();
      source := ApplyFilters(filters, ExecuteSource, if override.None? then rawSource else override.value);
    }

    /** Issues exactly one host draw with the nine resolved attributes. */
    method Draw(batch: SpriteBatch, h: RenderingHelper.Host, o: Overrides)
      modifies batch
      ensures batch.calls == old(batch.calls) + [ResolveCall(h, entity.ActiveFilterList(), o, tileset,
                                                              entity.GetTopLeft(), rawSource, entity.layerDepth)]
    {
      var destination := GetDestination(h, o.destination);
      var source := GetSource(o.source);
      var color := GetColor(o.color);
      var rotation := GetRotation(o.rotation);
      var origin := GetOrigin(o.origin);
      var scale := GetScale(h, o.scale);
      var effects := GetEffects(o.effects);
      var layerDepth := GetLayerDepth(o.layerDepth);
      batch.calls := batch.calls + [DrawCall(tileset, destination, source, color, rotation, origin, scale, effects, layerDepth)];
    }
  }

  // ---------------------------------------------------------------------
  // Properties of resolution

  /** The resolved scale is never zero; a non-zero fold passes through and a zero one becomes 0.001. */
  lemma ScaleNeverZero(h: RenderingHelper.Host, filters: seq<Filter>, override: Option<real>)
    ensures ResolveScale(h, filters, override) != 0.0
    ensures var folded := Fold(filters, ExecuteScale, ScaleStart(h, override));
            ResolveScale(h, filters, override) == if folded == 0.0 then 0.001 else folded
  {
  }

  /**
   * Only the scale override is rescaled: with no filters an override `s`
   * resolves to `s * TileScale` (or the epsilon when `s` is zero), while
   * every other override is used as given.
   */
  lemma OverridesWithoutFilters(h: RenderingHelper.Host, o: Overrides, texture: Texture,
                                topLeft: Vector2, rawSource: SourceRectangle, rawLayerDepth: real)
    requires o.destination.Some? && o.source.Some? && o.color.Some? && o.rotation.Some?
    requires o.origin.Some? && o.scale.Some? && o.effects.Some? && o.layerDepth.Some?
    ensures var call := ResolveCall(h, [], o, texture, topLeft, rawSource, rawLayerDepth);
            && call.destination == o.destination.value && call.source == o.source.value
            && call.color == o.color.value && call.rotation == o.rotation.value
            && call.origin == o.origin.value && call.effects == o.effects.value
            && call.layerDepth == o.layerDepth.value
            && (o.scale.value != 0.0 ==> call.scale == o.scale.value * RenderingHelper.TileScale(h))
            && (o.scale.value == 0.0 ==> call.scale == ScaleEpsilon)
  {
    RenderingHelper.TileScaleLaw(h);
  }

  /**
   * With no active filters and no overrides a draw uses the raw defaults:
   * white, no rotation, origin (0, 0), no flips, the entity's own layer
   * depth, the tile scale, and the entity's top-left corner converted to
   * viewport pixels.
   */
  lemma DefaultsWithoutFilters(h: RenderingHelper.Host, texture: Texture, topLeft: Vector2,
                               rawSource: SourceRectangle, rawLayerDepth: real)
    ensures var call := ResolveCall(h, [], NoOverrides, texture, topLeft, rawSource, rawLayerDepth);
            && call.texture == texture
            && call.color == White && call.rotation == 0.0 && call.origin == Vector2(0.0, 0.0)
            && call.effects == SpriteEffects(false, false) && call.layerDepth == rawLayerDepth
            && call.scale == RenderingHelper.TileScale(h) && call.source == rawSource
            && call.destination == RenderingHelper.ConvertAdjustedScreenToRaw(h, topLeft)
  {
    RenderingHelper.TileScaleLaw(h);
  }

  /**
   * A filter list `[f, g]` acts on every attribute as `g(f(x))`, where `x`
   * is the override or the raw default; for scale, when the result is not
   * zero.
   */
  lemma FiltersApplyInOrder(h: RenderingHelper.Host, f: Filter, g: Filter, o: Overrides, texture: Texture,
                            topLeft: Vector2, rawSource: SourceRectangle, rawLayerDepth: real)
    ensures var call := ResolveCall(h, [f, g], o, texture, topLeft, rawSource, rawLayerDepth);
            && call.destination == g.destination(f.destination(o.destination.GetOr(RawDestination(h, topLeft))))
            && call.source == g.source(f.source(o.source.GetOr(rawSource)))
            && call.color == g.color(f.color(o.color.GetOr(RawColor)))
            && call.origin == g.origin(f.origin(o.origin.GetOr(RawOrigin)))
            && call.effects == g.effects(f.effects(o.effects.GetOr(RawEffects)))
            && call.rotation == g.rotation(f.rotation(o.rotation.GetOr(RawRotation)))
            && call.layerDepth == g.layerDepth(f.layerDepth(o.layerDepth.GetOr(rawLayerDepth)))
            && (g.scale(f.scale(ScaleStart(h, o.scale))) != 0.0
                ==> call.scale == g.scale(f.scale(ScaleStart(h, o.scale))))
  {
    FoldInOrder(f, g, ExecuteDestination, o.destination.GetOr(RawDestination(h, topLeft)));
    FoldInOrder(f, g, ExecuteSource, o.source.GetOr(rawSource));
    FoldInOrder(f, g, ExecuteColor, o.color.GetOr(RawColor));
    FoldInOrder(f, g, ExecuteOrigin, o.origin.GetOr(RawOrigin));
    FoldInOrder(f, g, ExecuteEffects, o.effects.GetOr(RawEffects));
    FoldInOrder(f, g, ExecuteRotation, o.rotation.GetOr(RawRotation));
    FoldInOrder(f, g, ExecuteLayerDepth, o.layerDepth.GetOr(rawLayerDepth));
    FoldInOrder(f, g, ExecuteScale, ScaleStart(h, o.scale));
  }

  /** The raw destination is the top-left corner of the entity's raw boundary. */
  lemma RawDestinationIsRawBoundaryCorner(h: RenderingHelper.Host, anchor: Vector2, origin: Origin, width: real, height: real)
    ensures RawDestination(h, TopLeftOf(anchor, origin, width, height))
         == RawBoundaryOf(h, anchor, origin, width, height).topLeft
    ensures RawDestination(h, TopLeftOf(anchor, origin, width, height))
         == RenderingHelper.ConvertAdjustedScreenToRaw(h, TopLeftOf(anchor, origin, width, height))
  {
  }

  /** Once an entity is not drawn, no update makes it drawn again; Entering and Present entities are drawn. */
  lemma DrawnUntilDead(state: TransitionState, entering: Option<Transition>, exiting: Option<Transition>)
    ensures Drawable(NextState(state, entering, exiting)) ==> Drawable(state)
    ensures Drawable(state) <==> state in {Entering, Present, Exiting}
  {
  }
}
