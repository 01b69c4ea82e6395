/**
 * Filters and transitions. A filter rewrites the draw attributes of an
 * entity, one transform per attribute; a transition is a filter with a
 * start/finish lifecycle driven by the shared timer table.
 *
 * The concrete filter and transition classes are not part of this model:
 * a filter is the record of its nine transforms, and a transition the
 * record of its filter together with the lifecycle flags its methods set.
 */
module Filters {
  import opened Primitives

  datatype Filter = Filter(
    key: string,
    name: string,
    color: Color -> Color,
    destination: Vector2 -> Vector2,
    source: SourceRectangle -> SourceRectangle,
    origin: Vector2 -> Vector2,
    scale: real -> real,
    rotation: real -> real,
    effects: SpriteEffects -> SpriteEffects,
    layerDepth: real -> real)

  // One selector per Execute<Attribute> of a filter.

  function ExecuteColor(f: Filter): Color -> Color { f.color }
  function ExecuteDestination(f: Filter): Vector2 -> Vector2 { f.destination }
  function ExecuteSource(f: Filter): SourceRectangle -> SourceRectangle { f.source }
  function ExecuteOrigin(f: Filter): Vector2 -> Vector2 { f.origin }
  function ExecuteScale(f: Filter): real -> real { f.scale }
  function ExecuteRotation(f: Filter): real -> real { f.rotation }
  function ExecuteEffects(f: Filter): SpriteEffects -> SpriteEffects { f.effects }
  function ExecuteLayerDepth(f: Filter): real -> real { f.layerDepth }

  /**
   * A transition: its filter (whose key names its timer), whether it has
   * been started, and whether it reports finished (`IsFinished`).
   */
  datatype Transition = Transition(filter: Filter, started: bool, finished: bool)

  /** `SetKey`: the transition's timer is now looked up under `key`. */
  function SetKey(t: Transition, key: string): Transition {
    t.(filter := t.filter.(key := key))
  }

  /** `StartFilter`: the transition's timer runs. */
  function StartFilter(t: Transition): Transition {
    t.(started := true)
  }

  /** `ResetTransition`: back to not started and not finished. */
  function ResetTransition(t: Transition): Transition {
    t.(started := false, finished := false)
  }

  /**
   * Applies `select(f)` of every filter in `fs` to `x`, first filter first:
   * the value a loop `x := select(f)(x)` over `fs` ends with.
   */
  function Fold<T>(fs: seq<Filter>, select: Filter -> (T -> T), x: T): T
    decreases |fs|
  {
    if fs == [] then x else select(fs[|fs| - 1])(Fold(fs[..|fs| - 1], select, x))
  }

  /** Folding a concatenation folds the first part, then the second over its result. */
  lemma {:induction false} FoldAppend<T>(a: seq<Filter>, b: seq<Filter>, select: Filter -> (T -> T), x: T)
    ensures Fold(a + b, select, x) == Fold(b, select, Fold(a, select, x))
    decreases |b|
  {
    if b == [] {
      assert a + b == a;
    } else {
      var front := b[..|b| - 1];
      assert (a + b)[..|a + b| - 1] == a + front;
      assert (a + b)[|a + b| - 1] == b[|b| - 1];
      FoldAppend(a, front, select, x);
    }
  }

  /** Filters compose in list order: with `[f, g]` the result is `g(f(x))`, never `f(g(x))`. */
  lemma FoldInOrder<T>(f: Filter, g: Filter, select: Filter -> (T -> T), x: T)
    ensures Fold([f, g], select, x) == select(g)(select(f)(x))
  {
    assert [f, g][..1] == [f];
    assert [f][..0] == [];
    assert Fold([f], select, x) == select(f)(x);
  }

  /** The first filter of a list sees the starting value; the rest fold over what it returns. */
  lemma FoldFirst<T>(f: Filter, rest: seq<Filter>, select: Filter -> (T -> T), x: T)
    ensures Fold([f] + rest, select, x) == Fold(rest, select, select(f)(x))
  {
    FoldAppend([f], rest, select, x);
    assert [f][..0] == [];
  }
}
