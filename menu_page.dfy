/**
 * The options page of the game menu: a window of seven visible slots over a
 * list of option widgets, scrolled by arrows, the wheel, gamepad snapping and
 * a draggable scroll bar.
 *
 * The page is modelled as the state its handlers update in place: the index
 * of the first visible option, the held slot, the scrolling flag and the
 * scroll bar's vertical position. What the host does around these (sounds,
 * moving the mouse, forwarding clicks and keys to the option widgets,
 * keyboard focus, drawing) is not part of this model. Pixel positions are
 * integers and C#'s truncating integer division is written out as `Div`.
 */
module Pages {
  import opened Wrappers

  /** Number of option slots shown at once (`MenuPage.VisibleSlots`). */
  const VisibleSlots: int := 7

  /** Width of the page in pixels (`MenuPage.Width`). */
  const MenuWidth: int := 880

  /** The host's tile size and pixel zoom (`Game1.tileSize`, `Game1.pixelZoom`). */
  const TileSize: int := 64
  const PixelZoom: int := 4

  /**
   * Integer division truncating toward zero, as C# `/` on `int`: `q * b`
   * lies between 0 and `a`, on the dividend's side, and falls short of `a`
   * by less than `|b|`.
   */
  function Div(a: int, b: int): (q: int)
    requires b != 0
    ensures Abs(a - q * b) < Abs(b)
    ensures a >= 0 ==> 0 <= q * b <= a
    ensures a < 0 ==> a <= q * b <= 0
  {
    var d := Abs(b);
    NatQuotient(Abs(a), d);
    if (a >= 0) == (b > 0) then Abs(a) / d else -(Abs(a) / d)
  }

  /** Euclidean quotient of a natural number: its multiple lies in `[x - d + 1, x]` and is not negative. */
  lemma NatQuotient(x: nat, d: int)
    requires d > 0
    ensures 0 <= (x / d) * d <= x
    ensures x - (x / d) * d < d
  {
    NatDivNonNegative(x, d);
    MulMonotone(d, 0, x / d);
    assert x == d * (x / d) + x % d;
  }

  function Abs(a: int): nat {
    if a < 0 then -a else a
  }

  function Max(a: int, b: int): int {
    if a < b then b else a
  }

  function Min(a: int, b: int): int {
    if a < b then a else b
  }

  /** Multiplying by a non-negative factor keeps the order. */
  lemma MulMonotone(b: int, m: int, n: int)
    requires b >= 0 && m <= n
    ensures b * m <= b * n
  {
    var d: nat := n - m;
    assert b * n == b * m + b * d;
    assert b * d >= 0;
  }

  /** A positive factor can be cancelled from a strict inequality. */
  lemma MulCancel(b: int, m: int, n: int)
    requires b > 0 && b * m < b * n
    ensures m < n
  {
    if n <= m {
      MulMonotone(b, n, m);
    }
  }

  /** Euclidean division by a positive divisor is monotone in the dividend. */
  lemma NatDivMonotone(x1: nat, x2: nat, b: int)
    requires b > 0 && x1 <= x2
    ensures x1 / b <= x2 / b
  {
    var q1, q2 := x1 / b, x2 / b;
    assert b * q1 <= x1 by {
      assert x1 == b * q1 + x1 % b;
    }
    assert x2 < b * (q2 + 1) by {
      assert x2 == b * q2 + x2 % b;
    }
    MulCancel(b, q1, q2 + 1);
  }

  /** Euclidean division of a non-negative number by a positive divisor is non-negative. */
  lemma NatDivNonNegative(x: nat, b: int)
    requires b > 0
    ensures x / b >= 0
  {
    var q := x / b;
    assert x == b * q + x % b;
    if q < 0 {
      MulMonotone(b, q, -1);
    }
  }

  /** An exact multiple divides back to its factor. */
  lemma DivOfMultiple(c: nat, b: int)
    requires b > 0
    ensures Div(b * c, b) == c
  {
    var q := Div(b * c, b);
    MulMonotone(b, 0, c);
    MulCancel(b, c - 1, q);
    MulCancel(b, q, c + 1);
  }

  /** Truncating division by a positive divisor keeps the dividend's sign (or gives 0). */
  lemma DivSign(a: int, b: int)
    requires b > 0
    ensures a >= 0 ==> Div(a, b) >= 0
    ensures a <= 0 ==> Div(a, b) <= 0
  {
    if a >= 0 {
      NatDivNonNegative(a, b);
    } else {
      NatDivNonNegative(-a, b);
    }
  }

  /** Truncating division by a positive divisor is monotone in the dividend. */
  lemma DivMonotone(a1: int, a2: int, b: int)
    requires b > 0 && a1 <= a2
    ensures Div(a1, b) <= Div(a2, b)
  {
    if a1 >= 0 {
      NatDivMonotone(a1, a2, b);
    } else if a2 < 0 {
      NatDivMonotone(-a2, -a1, b);
    } else {
      DivSign(a1, b);
      DivSign(a2, b);
    }
  }

  /** The kinds of option widget the page lists. */
  datatype OptionKind = Label | Checkbox | DropDown | TextEntry

  /** Gamepad snap directions. */
  datatype Direction = Up | Right | Down | Left

  /** A slot's neighbour for gamepad navigation: another slot, or the page's own snap handler. */
  datatype Neighbor = SlotId(id: int) | CustomSnap

  /** An integer rectangle of the host (position and size in pixels). */
  datatype Bounds = Bounds(x: int, y: int, width: int, height: int) {
    function Bottom(): int { y + height }
  }

  /** Whether the point lies inside `b`: the left and top edges are in, the right and bottom edges are out. */
  predicate Contains(b: Bounds, x: int, y: int) {
    b.x <= x < b.x + b.width && b.y <= y < b.y + b.height
  }

  /** A visible slot: its bounds, its id and its up/down neighbours. */
  datatype OptionSlot = OptionSlot(bounds: Bounds, myId: int, down: Neighbor, up: Neighbor)

  /** The options the page lists: a title label, two checkboxes and three dropdowns. */
  const ShippedOptions: seq<OptionKind> := [Label, Checkbox, Checkbox, DropDown, DropDown, DropDown]

  /** Largest first-visible index for `count` options: the last window shows the last seven. */
  function MaxIndex(count: int): (m: int)
    ensures m >= 0
    ensures count > VisibleSlots ==> m + VisibleSlots == count
    ensures count <= VisibleSlots ==> m == 0
  {
    Max(0, count - VisibleSlots)
  }

  /** The clamp `max(0, min(count - 7, i))` applied to the index after a click. */
  function ClampIndex(count: int, i: int): (r: int)
    ensures 0 <= r <= MaxIndex(count)
    ensures 0 <= i <= MaxIndex(count) ==> r == i
    ensures i < 0 ==> r == 0
    ensures i > MaxIndex(count) ==> r == MaxIndex(count)
  {
    Max(0, Min(count - VisibleSlots, i))
  }

  /**
   * The index a scroll-bar drag to height `y` selects: the fraction of the
   * runner above `y`, times the option count, clamped to the valid range.
   */
  function DragIndex(count: int, y: int, runnerY: int, runnerHeight: int): (r: int)
    requires runnerHeight != 0
    ensures 0 <= r <= MaxIndex(count)
  {
    Max(0, Min(count - VisibleSlots, Div(count * (y - runnerY), runnerHeight)))
  }

  /** Dragging to or above the runner's top shows the first window. */
  lemma DragToTop(count: nat, y: int, runnerY: int, runnerHeight: int)
    requires runnerHeight > 0 && y <= runnerY
    ensures DragIndex(count, y, runnerY, runnerHeight) == 0
  {
    MulMonotone(count, y - runnerY, 0);
    DivSign(count * (y - runnerY), runnerHeight);
  }

  /** Dragging to or below the runner's bottom shows the last window. */
  lemma DragToBottom(count: nat, y: int, runnerY: int, runnerHeight: int)
    requires runnerHeight > 0 && y >= runnerY + runnerHeight
    ensures DragIndex(count, y, runnerY, runnerHeight) == MaxIndex(count)
  {
    MulMonotone(count, runnerHeight, y - runnerY);
    DivMonotone(count * runnerHeight, count * (y - runnerY), runnerHeight);
    DivOfMultiple(count, runnerHeight);
  }

  /** Dragging further down never selects an earlier window. */
  lemma DragMonotone(count: nat, y1: int, y2: int, runnerY: int, runnerHeight: int)
    requires runnerHeight > 0 && y1 <= y2
    ensures DragIndex(count, y1, runnerY, runnerHeight) <= DragIndex(count, y2, runnerY, runnerHeight)
  {
    MulMonotone(count, y1 - runnerY, y2 - runnerY);
    DivMonotone(count * (y1 - runnerY), count * (y2 - runnerY), runnerHeight);
  }

  /**
   * Where the scroll bar is drawn for index `idx`: one runner step per index
   * below the up arrow, except that the last window pins it just above the
   * down arrow.
   */
  function ScrollBarY(count: int, idx: int, runnerHeight: int, upArrow: Bounds, downArrow: Bounds, barHeight: int): (y: int)
    ensures idx == count - VisibleSlots ==> y == downArrow.y - barHeight - PixelZoom
    ensures idx == 0 && count != VisibleSlots ==> y == upArrow.Bottom() + PixelZoom
  {
    if idx == count - VisibleSlots then downArrow.y - barHeight - PixelZoom
    else Div(runnerHeight, Max(1, count - VisibleSlots + 1)) * idx + upArrow.Bottom() + PixelZoom
  }

  /** Below the last window, a later index never places the scroll bar higher. */
  lemma ScrollBarMonotone(count: int, i: int, j: int, runnerHeight: int, upArrow: Bounds, downArrow: Bounds, barHeight: int)
    requires runnerHeight >= 0 && 0 <= i <= j
    requires i != count - VisibleSlots && j != count - VisibleSlots
    ensures ScrollBarY(count, i, runnerHeight, upArrow, downArrow, barHeight)
            <= ScrollBarY(count, j, runnerHeight, upArrow, downArrow, barHeight)
  {
    var step := Div(runnerHeight, Max(1, count - VisibleSlots + 1));
    DivSign(runnerHeight, Max(1, count - VisibleSlots + 1));
    MulMonotone(step, i, j);
  }

  /** The scroll bar's height while dragging: the mouse height kept between the arrows. */
  function DragBarY(y: int, menuY: int, menuHeight: int, upArrowHeight: int, barHeight: int): (r: int)
    ensures r <= menuY + menuHeight - TileSize - PixelZoom * 3 - barHeight
    ensures menuY + upArrowHeight + PixelZoom * 5 <= menuY + menuHeight - TileSize - PixelZoom * 3 - barHeight
            ==> r >= menuY + upArrowHeight + PixelZoom * 5
    ensures menuY + upArrowHeight + PixelZoom * 5 <= y <= menuY + menuHeight - TileSize - PixelZoom * 3 - barHeight
            ==> r == y
  {
    Min(menuY + menuHeight - TileSize - PixelZoom * 3 - barHeight, Max(y, menuY + upArrowHeight + PixelZoom * 5))
  }

  /** Slot `i` of the page: a row of the page's inner area, linked to the slots above and below. */
  function SlotAt(i: int, menuX: int, menuY: int, menuWidth: int, menuHeight: int): OptionSlot {
    OptionSlot(
      Bounds(
        menuX + TileSize / 4,
        menuY + TileSize * 5 / 4 + PixelZoom + Div(i * (menuHeight - TileSize * 2), VisibleSlots),
        menuWidth - TileSize / 2,
        Div(menuHeight - TileSize * 2, VisibleSlots) + PixelZoom),
      i,
      if i + 1 < VisibleSlots then SlotId(i + 1) else CustomSnap,
      if i - 1 >= 0 then SlotId(i - 1) else CustomSnap)
  }

  /** The seven slots, in order: slot `i` has id `i`. */
  function SlotLayout(menuX: int, menuY: int, menuWidth: int, menuHeight: int): (slots: seq<OptionSlot>)
    ensures |slots| == VisibleSlots
    ensures forall i :: 0 <= i < |slots| ==> slots[i].myId == i && slots[i] == SlotAt(i, menuX, menuY, menuWidth, menuHeight)
  {
    seq(VisibleSlots, i => SlotAt(i, menuX, menuY, menuWidth, menuHeight))
  }

  /**
   * Gamepad navigation between slots is a chain: each slot's down neighbour
   * is the next slot and that slot's up neighbour is it again; above the
   * first and below the last slot the page's snap handler takes over.
   */
  lemma SlotChain(menuX: int, menuY: int, menuWidth: int, menuHeight: int)
    ensures var slots := SlotLayout(menuX, menuY, menuWidth, menuHeight);
      && slots[0].up == CustomSnap
      && slots[VisibleSlots - 1].down == CustomSnap
      && (forall i :: 0 <= i < VisibleSlots - 1 ==>
            slots[i].down == SlotId(i + 1) && slots[i + 1].up == SlotId(i))
  {
  }

  /** With a page at least two tiles tall, the slots go down the page in order and all have the same size. */
  lemma SlotsStackDown(menuX: int, menuY: int, menuWidth: int, menuHeight: int)
    requires menuHeight >= TileSize * 2
    ensures var slots := SlotLayout(menuX, menuY, menuWidth, menuHeight);
      forall i :: 0 <= i < VisibleSlots - 1 ==>
        slots[i].bounds.y <= slots[i + 1].bounds.y && slots[i].bounds.height == slots[i + 1].bounds.height
  {
    var slots := SlotLayout(menuX, menuY, menuWidth, menuHeight);
    forall i | 0 <= i < VisibleSlots - 1
      ensures slots[i].bounds.y <= slots[i + 1].bounds.y
    {
      var span := menuHeight - TileSize * 2;
      assert i * span <= (i + 1) * span;
      DivMonotone(i * span, (i + 1) * span, VisibleSlots);
    }
  }

  /** The option shown in slot `componentId` when the window starts at `idx`, if there is one. */
  function VisibleOption(options: seq<OptionKind>, idx: int, componentId: int): (r: Option<OptionKind>)
    ensures r.Some? <==> componentId < VisibleSlots && 0 <= idx + componentId < |options|
    ensures r.Some? ==> r.value == options[idx + componentId]
  {
    if componentId >= VisibleSlots then None
    else if 0 <= idx + componentId < |options| then Some(options[idx + componentId])
    else None
  }

  /** Whether a left click at (x, y) lands on the option in slot `i`. */
  predicate SlotHit(slots: seq<OptionSlot>, i: int, x: int, y: int, idx: int, count: int, optionHits: seq<bool>)
    requires 0 <= i < |slots| && i < |optionHits|
  {
    Contains(slots[i].bounds, x, y) && idx + i < count && optionHits[i]
  }

  /** The first slot at or after `from` that a click hits. */
  function FirstSlotHit(slots: seq<OptionSlot>, from: nat, x: int, y: int, idx: int, count: int, optionHits: seq<bool>): (r: Option<int>)
    requires |slots| <= |optionHits|
    ensures r.Some? ==> from <= r.value < |slots| && SlotHit(slots, r.value, x, y, idx, count, optionHits)
    ensures r.Some? ==> forall j :: from <= j < r.value ==> !SlotHit(slots, j, x, y, idx, count, optionHits)
    ensures r.None? ==> forall j :: from <= j < |slots| ==> !SlotHit(slots, j, x, y, idx, count, optionHits)
    decreases |slots| - from
  {
    if from >= |slots| then None
    else if SlotHit(slots, from, x, y, idx, count, optionHits) then Some(from)
    else FirstSlotHit(slots, from + 1, x, y, idx, count, optionHits)
  }

  /** A slot that is hit with none hit above it is the first slot hit. */
  lemma FirstSlotHitIsFirst(slots: seq<OptionSlot>, i: int, x: int, y: int, idx: int, count: int, optionHits: seq<bool>)
    requires 0 <= i < |slots| <= |optionHits|
    requires SlotHit(slots, i, x, y, idx, count, optionHits)
    requires forall j :: 0 <= j < i ==> !SlotHit(slots, j, x, y, idx, count, optionHits)
    ensures FirstSlotHit(slots, 0, x, y, idx, count, optionHits) == Some(i)
  {
  }

  /** With no slot hit there is no first slot hit. */
  lemma FirstSlotHitNone(slots: seq<OptionSlot>, x: int, y: int, idx: int, count: int, optionHits: seq<bool>)
    requires |slots| <= |optionHits|
    requires forall j :: 0 <= j < |slots| ==> !SlotHit(slots, j, x, y, idx, count, optionHits)
    ensures FirstSlotHit(slots, 0, x, y, idx, count, optionHits) == None
  {
  }

  /** The options page's scroll window and the handlers that move it. */
  class MenuPage {
    const xPositionOnScreen: int
    const yPositionOnScreen: int
    const width: int
    const height: int
    const upArrow: Bounds
    const downArrow: Bounds
    const scrollBarRunner: Bounds

    var scrollBar: Bounds
    var options: seq<OptionKind>
    var optionSlots: seq<OptionSlot>
    var currentItemIndex: int
    var optionsSlotHeld: int
    var isScrolling: bool

    /**
     * The window shows a full or the only window of options, the held slot
     * is a slot or -1 for none, and the slots are the page's layout.
     */
    ghost predicate Valid()
      reads this
    {
      && 0 <= currentItemIndex <= MaxIndex(|options|)
      && -1 <= optionsSlotHeld < VisibleSlots
      && optionSlots == SlotLayout(xPositionOnScreen, yPositionOnScreen, width, height)
    }

    /**
     * Builds the page at the host menu's position, ten pixels lower, with
     * the host menu's height; lists the options, lays out the slots and
     * places the arrows, the scroll bar and its runner to the right.
     */
    constructor (menuX: int, menuY: int, menuHeight: int)
      ensures Valid()
      ensures xPositionOnScreen == menuX && yPositionOnScreen == menuY + 10
      ensures width == MenuWidth && height == menuHeight
      ensures options == ShippedOptions
      ensures optionSlots == SlotLayout(menuX, menuY + 10, MenuWidth, menuHeight)
      ensures currentItemIndex == 0 && optionsSlotHeld == -1 && !isScrolling
      ensures upArrow == Bounds(menuX + MenuWidth + TileSize / 4, menuY + 10 + TileSize, 11 * PixelZoom, 12 * PixelZoom)
      ensures downArrow == Bounds(upArrow.x, menuY + 10 + menuHeight - TileSize, upArrow.width, upArrow.height)
      ensures scrollBar == Bounds(upArrow.x + PixelZoom * 3, upArrow.Bottom() + PixelZoom, 6 * PixelZoom, 10 * PixelZoom)
      ensures scrollBarRunner == Bounds(scrollBar.x, scrollBar.y, scrollBar.width,
                                        menuHeight - TileSize * 2 - upArrow.height - PixelZoom * 2)
    {
      xPositionOnScreen := menuX;
      yPositionOnScreen := menuY + 10;
      width := MenuWidth;
      height := menuHeight;
      var up := Bounds(menuX + MenuWidth + TileSize / 4, menuY + 10 + TileSize, 11 * PixelZoom, 12 * PixelZoom);
      var bar := Bounds(up.x + PixelZoom * 3, up.y + up.height + PixelZoom, 6 * PixelZoom, 10 * PixelZoom);
      upArrow := up;
      downArrow := Bounds(up.x, menuY + 10 + menuHeight - TileSize, up.width, up.height);
      scrollBar := bar;
      scrollBarRunner := Bounds(bar.x, bar.y, bar.width, menuHeight - TileSize * 2 - up.height - PixelZoom * 2);
      options := [];
      optionSlots := [];
      currentItemIndex := 0;
      optionsSlotHeld := -1;
      isScrolling := false;
      new;
      CreateComponents();
    }

    /** Appends the shipped options and the seven slots. */
    method CreateComponents()
      modifies this
      ensures options == old(options) + ShippedOptions
      ensures optionSlots == old(optionSlots) + SlotLayout(xPositionOnScreen, yPositionOnScreen, width, height)
      ensures scrollBar == old(scrollBar) && currentItemIndex == old(currentItemIndex)
      ensures optionsSlotHeld == old(optionsSlotHeld) && isScrolling == old(isScrolling)
    {
      options := options + ShippedOptions;
      ghost var layout := SlotLayout(xPositionOnScreen, yPositionOnScreen, width, height);
      for i := 0 to VisibleSlots
        invariant optionSlots == old(optionSlots) + layout[..i]
        invariant options == old(options) + ShippedOptions
        invariant scrollBar == old(scrollBar) && currentItemIndex == old(currentItemIndex)
        invariant optionsSlotHeld == old(optionsSlotHeld) && isScrolling == old(isScrolling)
      {
        optionSlots := optionSlots + [SlotAt(i, xPositionOnScreen, yPositionOnScreen, width, height)];
        assert layout[..i + 1] == layout[..i] + [layout[i]];
      }
      assert layout[..VisibleSlots] == layout;
    }

    /** The option in slot `componentId`, if the window shows one there. */
    function GetVisibleOption(componentId: int): (r: Option<OptionKind>)
      reads this
      ensures r.Some? <==> componentId < VisibleSlots && 0 <= currentItemIndex + componentId < |options|
      ensures r.Some? ==> r.value == options[currentItemIndex + componentId]
    {
      VisibleOption(options, currentItemIndex, componentId)
    }

    /** The option in the held slot, if a slot is held and shows an option. */
    function HeldOption(): (r: Option<OptionKind>)
      reads this
      requires Valid()
      ensures r.Some? <==> optionsSlotHeld > -1 && optionsSlotHeld + currentItemIndex < |options|
      ensures r.Some? ==> r == GetVisibleOption(optionsSlotHeld)
    {
      if optionsSlotHeld > -1 && optionsSlotHeld + currentItemIndex < |options|
      then Some(options[currentItemIndex + optionsSlotHeld])
      else None
    }

    /** A dropdown is active exactly when the held slot shows a dropdown. */
    function IsDropdownActive(): (active: bool)
      reads this
      requires Valid()
      ensures active <==> HeldOption() == Some(DropDown)
    {
      optionsSlotHeld != -1 && optionsSlotHeld + currentItemIndex < |options|
        && options[currentItemIndex + optionsSlotHeld] == DropDown
    }

    /** The scroll bar's height for the current index, with the bar otherwise where it is. */
    function ScrollBarForCurrentItem(): Bounds
      reads this
    {
      if |options| > 0
      then scrollBar.(y := ScrollBarY(|options|, currentItemIndex, scrollBarRunner.height, upArrow, downArrow, scrollBar.height))
      else scrollBar
    }

    /** The scroll bar `bar` moved to the height that index `idx` gives it. */
    function BarAt(bar: Bounds, idx: int): Bounds
      reads this
    {
      bar.(y := ScrollBarY(|options|, idx, scrollBarRunner.height, upArrow, downArrow, bar.height))
    }

    /** Moves the scroll bar to the current index; with no options it stays where it is. */
    method SetScrollBarToCurrentItem()
      modifies this
      ensures scrollBar == old(ScrollBarForCurrentItem())
      ensures old(|options|) == 0 ==> scrollBar == old(scrollBar)
      ensures scrollBar.x == old(scrollBar.x) && scrollBar.width == old(scrollBar.width)
      ensures scrollBar.height == old(scrollBar.height)
      ensures options == old(options) && optionSlots == old(optionSlots)
      ensures currentItemIndex == old(currentItemIndex) && optionsSlotHeld == old(optionsSlotHeld)
      ensures isScrolling == old(isScrolling)
    {
      if |options| > 0 {
        scrollBar := scrollBar.(y := Div(scrollBarRunner.height, Max(1, |options| - 7 + 1)) * currentItemIndex
                                     + upArrow.Bottom() + PixelZoom);
        if currentItemIndex == |options| - 7 {
          scrollBar := scrollBar.(y := downArrow.y - scrollBar.height - PixelZoom);
        }
      }
    }

    /** Scrolls one option down unless a dropdown is open; called only when a later window exists. */
    method DownArrowPressed()
      requires Valid() && currentItemIndex < MaxIndex(|options|)
      modifies this
      ensures Valid()
      ensures old(IsDropdownActive()) ==> currentItemIndex == old(currentItemIndex) && scrollBar == old(scrollBar)
      ensures !old(IsDropdownActive()) ==> currentItemIndex == old(currentItemIndex) + 1
      ensures !old(IsDropdownActive()) ==> scrollBar == BarAt(old(scrollBar), currentItemIndex)
      ensures options == old(options) && optionSlots == old(optionSlots)
      ensures optionsSlotHeld == old(optionsSlotHeld) && isScrolling == old(isScrolling)
    {
      if !IsDropdownActive() {
        currentItemIndex := currentItemIndex + 1;
        SetScrollBarToCurrentItem();
      }
    }

    /** Scrolls one option up unless a dropdown is open; called only when an earlier window exists. */
    method UpArrowPressed()
      requires Valid() && currentItemIndex > 0
      modifies this
      ensures Valid()
      ensures old(IsDropdownActive()) ==> currentItemIndex == old(currentItemIndex) && scrollBar == old(scrollBar)
      ensures !old(IsDropdownActive()) ==> currentItemIndex == old(currentItemIndex) - 1
      ensures !old(IsDropdownActive()) ==> scrollBar == BarAt(old(scrollBar), currentItemIndex)
      ensures options == old(options) && optionSlots == old(optionSlots)
      ensures optionsSlotHeld == old(optionsSlotHeld) && isScrolling == old(isScrolling)
    {
      if !IsDropdownActive() {
        currentItemIndex := currentItemIndex - 1;
        SetScrollBarToCurrentItem();
      }
    }

    /**
     * Gamepad movement past the last slot scrolls down and past the first
     * slot scrolls up, when there is more to show; moving up from the first
     * window snaps to the menu tab instead (`toTab`).
     */
    method CustomSnapBehavior(direction: Direction, oldId: int) returns (toTab: bool)
      requires Valid()
      modifies this
      ensures Valid()
      ensures toTab <==> oldId == 0 && direction == Up && old(currentItemIndex) == 0
      ensures (oldId == VisibleSlots - 1 && direction == Down && old(currentItemIndex) + VisibleSlots < |options|
               && !old(IsDropdownActive())) ==>
                currentItemIndex == old(currentItemIndex) + 1 && scrollBar == BarAt(old(scrollBar), currentItemIndex)
      ensures (oldId == 0 && direction == Up && old(currentItemIndex) > 0 && !old(IsDropdownActive())) ==>
                currentItemIndex == old(currentItemIndex) - 1 && scrollBar == BarAt(old(scrollBar), currentItemIndex)
      ensures (old(IsDropdownActive())
               || (!(oldId == VisibleSlots - 1 && direction == Down && old(currentItemIndex) + VisibleSlots < |options|)
                   && !(oldId == 0 && direction == Up && old(currentItemIndex) > 0))) ==>
                currentItemIndex == old(currentItemIndex) && scrollBar == old(scrollBar)
      ensures options == old(options) && optionSlots == old(optionSlots)
      ensures optionsSlotHeld == old(optionsSlotHeld) && isScrolling == old(isScrolling)
    {
      toTab := false;
      if oldId == VisibleSlots - 1 && direction == Down {
        if currentItemIndex + VisibleSlots < |options| {
          DownArrowPressed();
        }
      } else if oldId == 0 && direction == Up {
        if currentItemIndex > 0 {
          UpArrowPressed();
        } else {
          toTab := true;
        }
      }
    }

    /**
     * Dragging with the button held: while scrolling, the bar follows the
     * mouse between the arrows and the index follows the bar; otherwise the
     * held option receives the drag and the page state is unchanged.
     */
    method LeftClickHeld(x: int, y: int, forcePreventClose: bool)
      requires Valid() && (!forcePreventClose && isScrolling ==> scrollBarRunner.height != 0)
      modifies this
      ensures Valid()
      ensures (forcePreventClose || !old(isScrolling)) ==>
                currentItemIndex == old(currentItemIndex) && scrollBar == old(scrollBar)
      ensures !forcePreventClose && old(isScrolling) ==>
                currentItemIndex == DragIndex(|options|, y, scrollBarRunner.y, scrollBarRunner.height)
      ensures !forcePreventClose && old(isScrolling) && |options| > 0 ==>
                scrollBar.y == ScrollBarY(|options|, currentItemIndex, scrollBarRunner.height, upArrow, downArrow, scrollBar.height)
      ensures !forcePreventClose && old(isScrolling) && |options| == 0 ==>
                scrollBar.y == DragBarY(y, yPositionOnScreen, height, upArrow.height, scrollBar.height)
      ensures scrollBar.x == old(scrollBar.x) && scrollBar.width == old(scrollBar.width)
      ensures scrollBar.height == old(scrollBar.height)
      ensures options == old(options) && optionSlots == old(optionSlots)
      ensures optionsSlotHeld == old(optionsSlotHeld) && isScrolling == old(isScrolling)
    {
      if !forcePreventClose {
        if isScrolling {
          scrollBar := scrollBar.(y := Min(yPositionOnScreen + height - TileSize - PixelZoom * 3 - scrollBar.height,
                                           Max(y, yPositionOnScreen + upArrow.height + PixelZoom * 5)));
          currentItemIndex := Max(0, Min(|options| - VisibleSlots,
                                         Div(|options| * (y - scrollBarRunner.y), scrollBarRunner.height)));
          SetScrollBarToCurrentItem();
        }
      }
    }

    /** The wheel turned up scrolls up and turned down scrolls down, when there is more to show. */
    method ReceiveScrollWheelAction(direction: int, forcePreventClose: bool)
      requires Valid()
      modifies this
      ensures Valid()
      ensures (!forcePreventClose && direction > 0 && old(currentItemIndex) > 0 && !old(IsDropdownActive())) ==>
                currentItemIndex == old(currentItemIndex) - 1 && scrollBar == BarAt(old(scrollBar), currentItemIndex)
      ensures (!forcePreventClose && direction < 0 && old(currentItemIndex) + VisibleSlots < |options|
               && !old(IsDropdownActive())) ==>
                currentItemIndex == old(currentItemIndex) + 1 && scrollBar == BarAt(old(scrollBar), currentItemIndex)
      ensures (forcePreventClose || old(IsDropdownActive())
               || (!(direction > 0 && old(currentItemIndex) > 0)
                   && !(direction < 0 && old(currentItemIndex) + VisibleSlots < |options|))) ==>
                currentItemIndex == old(currentItemIndex) && scrollBar == old(scrollBar)
      ensures options == old(options) && optionSlots == old(optionSlots)
      ensures optionsSlotHeld == old(optionsSlotHeld) && isScrolling == old(isScrolling)
    {
      if !forcePreventClose {
        if direction > 0 && currentItemIndex > 0 {
          UpArrowPressed();
        } else if direction < 0 && currentItemIndex + VisibleSlots < |options| {
          DownArrowPressed();
        }
      }
    }

    /** Releasing the button lets go of the held slot and ends scrolling. */
    method ReleaseLeftClick(forcePreventClose: bool)
      requires Valid()
      modifies this
      ensures Valid()
      ensures !forcePreventClose ==> optionsSlotHeld == -1 && !isScrolling
      ensures forcePreventClose ==> optionsSlotHeld == old(optionsSlotHeld) && isScrolling == old(isScrolling)
      ensures options == old(options) && currentItemIndex == old(currentItemIndex) && scrollBar == old(scrollBar)
    {
      if !forcePreventClose {
        optionsSlotHeld := -1;
        isScrolling := false;
      }
    }

    /** A click at (x, y) scrolls down: it is on the down arrow and a later window exists. */
    predicate DownArrowScrolls(x: int, y: int)
      reads this
    {
      Contains(downArrow, x, y) && currentItemIndex < MaxIndex(|options|)
    }

    /** A click at (x, y) scrolls up: it does not scroll down, is on the up arrow, and an earlier window exists. */
    predicate UpArrowScrolls(x: int, y: int)
      reads this
    {
      !DownArrowScrolls(x, y) && Contains(upArrow, x, y) && currentItemIndex > 0
    }

    /**
     * The first half of a left click: the arrows scroll when there is more
     * to show (unless a dropdown is open), and otherwise a click on the
     * scroll bar, or beside it but not on the down arrow, starts scrolling.
     */
    method ScrollOnClick(x: int, y: int)
      requires Valid()
      modifies this
      ensures Valid()
      ensures old(DownArrowScrolls(x, y)) && !old(IsDropdownActive()) ==>
                currentItemIndex == old(currentItemIndex) + 1 && scrollBar == BarAt(old(scrollBar), currentItemIndex)
      ensures old(UpArrowScrolls(x, y)) && !old(IsDropdownActive()) ==>
                currentItemIndex == old(currentItemIndex) - 1 && scrollBar == BarAt(old(scrollBar), currentItemIndex)
      ensures (old(DownArrowScrolls(x, y)) || old(UpArrowScrolls(x, y))) && old(IsDropdownActive()) ==>
                currentItemIndex == old(currentItemIndex) && scrollBar == old(scrollBar)
      ensures old(DownArrowScrolls(x, y)) || old(UpArrowScrolls(x, y)) ==> isScrolling == old(isScrolling)
      ensures !old(DownArrowScrolls(x, y)) && !old(UpArrowScrolls(x, y)) ==>
                && currentItemIndex == old(currentItemIndex) && scrollBar == old(scrollBar)
                && (isScrolling <==> old(isScrolling) || Contains(scrollBar, x, y) || NearScrollBar(x, y))
      ensures options == old(options) && optionSlots == old(optionSlots) && optionsSlotHeld == old(optionsSlotHeld)
    {
      if Contains(downArrow, x, y) && currentItemIndex < Max(0, |options| - 7) {
        DownArrowPressed();
      } else if Contains(upArrow, x, y) && currentItemIndex > 0 {
        UpArrowPressed();
      } else if Contains(scrollBar, x, y) {
        isScrolling := true;
      } else if !Contains(downArrow, x, y)
                && x > xPositionOnScreen + width && x < xPositionOnScreen + width + TileSize * 2
                && y > yPositionOnScreen && y < yPositionOnScreen + height {
        isScrolling := true;
      }
    }

    /** The strip two tiles wide to the right of the page, off the down arrow, where a click also starts scrolling. */
    predicate NearScrollBar(x: int, y: int)
      reads this
    {
      && !Contains(downArrow, x, y)
      && xPositionOnScreen + width < x < xPositionOnScreen + width + TileSize * 2
      && yPositionOnScreen < y < yPositionOnScreen + height
    }

    /**
     * The second half of a left click: the first slot, top to bottom, whose
     * option the click hits becomes the held slot; if none is hit the held
     * slot stays as it was.
     */
    method HoldSlotOnClick(x: int, y: int, optionHits: seq<bool>)
      requires Valid() && |optionHits| == VisibleSlots
      modifies this
      ensures Valid()
      ensures var hit := FirstSlotHit(optionSlots, 0, x, y, currentItemIndex, |options|, optionHits);
              optionsSlotHeld == (if hit.Some? then hit.value else old(optionsSlotHeld))
      ensures options == old(options) && currentItemIndex == old(currentItemIndex)
      ensures isScrolling == old(isScrolling) && scrollBar == old(scrollBar)
    {
      for i := 0 to |optionSlots|
        invariant Valid()
        invariant options == old(options) && currentItemIndex == old(currentItemIndex)
        invariant isScrolling == old(isScrolling) && scrollBar == old(scrollBar)
        invariant optionsSlotHeld == old(optionsSlotHeld)
        invariant forall j :: 0 <= j < i ==> !SlotHit(optionSlots, j, x, y, currentItemIndex, |options|, optionHits)
      {
        if Contains(optionSlots[i].bounds, x, y) && currentItemIndex + i < |options| && optionHits[i] {
          FirstSlotHitIsFirst(optionSlots, i, x, y, currentItemIndex, |options|, optionHits);
          optionsSlotHeld := i;
          return;
        }
      }
      FirstSlotHitNone(optionSlots, x, y, currentItemIndex, |options|, optionHits);
    }

    /**
     * A left click at (x, y): scroll by arrow or start scrolling, clamp the
     * index to the valid range, then hold the slot whose option was hit.
     * `optionHits[i]` is whether the option shown in slot `i` contains the
     * click, relative to the slot.
     */
    method ReceiveLeftClick(x: int, y: int, forcePreventClose: bool, optionHits: seq<bool>)
      requires Valid() && |optionHits| == VisibleSlots
      modifies this
      ensures Valid()
      ensures forcePreventClose ==>
                currentItemIndex == old(currentItemIndex) && optionsSlotHeld == old(optionsSlotHeld)
                && isScrolling == old(isScrolling) && scrollBar == old(scrollBar)
      ensures !forcePreventClose && old(DownArrowScrolls(x, y)) && !old(IsDropdownActive()) ==>
                currentItemIndex == old(currentItemIndex) + 1 && scrollBar == BarAt(old(scrollBar), currentItemIndex)
      ensures !forcePreventClose && old(UpArrowScrolls(x, y)) && !old(IsDropdownActive()) ==>
                currentItemIndex == old(currentItemIndex) - 1 && scrollBar == BarAt(old(scrollBar), currentItemIndex)
      ensures (old(DownArrowScrolls(x, y)) || old(UpArrowScrolls(x, y))) && old(IsDropdownActive()) ==>
                currentItemIndex == old(currentItemIndex) && scrollBar == old(scrollBar)
      ensures old(DownArrowScrolls(x, y)) || old(UpArrowScrolls(x, y)) ==> isScrolling == old(isScrolling)
      ensures !forcePreventClose && !old(DownArrowScrolls(x, y)) && !old(UpArrowScrolls(x, y)) ==>
                && currentItemIndex == old(currentItemIndex) && scrollBar == old(scrollBar)
                && (isScrolling <==> old(isScrolling) || Contains(scrollBar, x, y) || NearScrollBar(x, y))
      ensures !forcePreventClose ==>
                var hit := FirstSlotHit(optionSlots, 0, x, y, currentItemIndex, |options|, optionHits);
                optionsSlotHeld == (if hit.Some? then hit.value else old(optionsSlotHeld))
      ensures options == old(options) && optionSlots == old(optionSlots)
    {
      if !forcePreventClose {
        ScrollOnClick(x, y);
        currentItemIndex := Max(0, Min(|options| - VisibleSlots, currentItemIndex));
        HoldSlotOnClick(x, y, optionHits);
      }
    }
  }

  /** The shipped option list fits in one window: the index can only be 0 and slot 6 stays empty. */
  lemma ShippedOptionsNeverScroll(page: MenuPage)
    requires page.Valid() && page.options == ShippedOptions
    ensures page.currentItemIndex == 0
    ensures forall id :: 0 <= id < VisibleSlots ==> (page.GetVisibleOption(id).Some? <==> id < |ShippedOptions|)
    ensures page.GetVisibleOption(3) == Some(DropDown)
  {
  }
}
