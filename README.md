# Crop calculator menu: entities, drawing and the options page in Dafny

This project models the core of a Stardew Valley mod that adds a crop
calculator tab to the game menu. The model covers the mod's own logic and
leaves the host game's widgets and I/O behind parameters.

- **Entities** (`entity.dfy`, module `Entities`).
  - An entity is a rectangle placed by an anchor point and one of nine origins.
  - Its transition state machine runs Entering → Present → Exiting → Dead.
  - Its hover flag fires a callback on the rising edge only.
  - It assembles the filter list it is drawn with.
- **Filters** (`filters.dfy`, module `Filters`).
  - A filter is a record of transforms, one per draw attribute.
  - A transition is a filter with a key, a started flag and a finished flag.
  - `Fold` applies a filter list in list order.
- **Drawing** (`drawer.dfy`, module `Render`).
  - Each of the nine sprite-batch arguments starts from the caller's override, or from the drawer's raw default.
  - The entity's active filters are then folded over it in list order.
  - A scale override is multiplied by the tile scale, and a resolved scale of exactly zero becomes 0.001.
  - The drawer class records the draw call on a sprite batch.
- **Screen geometry** (`rendering_helper.dfy`, module `RenderingHelper`).
  - The fixed 300 × 180 virtual menu screen is scaled by the tile scale (4 / zoom) and letterboxed into the viewport.
  - Two conversions map between virtual and pixel coordinates.
- **Animations** (`animation.dfy`, module `Animations`).
  - Progress is read from a named timer. Past its interval the timer restarts and the progress is exactly 1.
- **Options page** (`menu_page.dfy`, module `Pages`).
  - A window of seven slots over the option list. The model tracks the first visible index, the held slot, the scrolling flag and the scroll bar's height.
  - These change under the arrows, the wheel, gamepad snapping, clicking, dragging and releasing.
- **Seasonal crops** (`game_data.dfy`, module `GameData`): an order-preserving filter of the crop table by season.
- **Numeric text box** (`number_input.dfy`, module `Elements`): the guard that decides whether typed or pasted input reaches the host's text box.
- **Scenarios** (`scenarios.dfy`): short runs of the classes through their operations.

`wrappers.dfy` (the `Option` type) and `primitives.dfy` (vectors, rectangles, colours, sprite effects, textures) hold the shared value types.

Representation choices:
- C# `float` is modelled as `real`.
- The options page's pixel arithmetic stays on `int`. C#'s truncating division is written out as `Pages.Div`.
- The host's zoom level and window size are the parameter `RenderingHelper.Host`.
- The tile size (64) and pixel zoom (4) of the game are constants.

## Model

| member | source | states |
|---|---|---|
| RenderingHelper.TileScaleLaw | CropCalculator/Helpers/RenderingHelper.cs:66-76 | the tile scale is positive and times the zoom level gives 4 |
| RenderingHelper.Letterbox | CropCalculator/Helpers/RenderingHelper.cs:94-171 | adjusted size is 300 × 180 times the tile scale; two margins plus the adjusted size fill the viewport; NE − NW is the adjusted width, SW − NW the adjusted height, SE combines them |
| RenderingHelper.RoundTripAdjusted | CropCalculator/Helpers/RenderingHelper.cs:15-39 | virtual → pixels → virtual gives back the point |
| RenderingHelper.RoundTripRaw | CropCalculator/Helpers/RenderingHelper.cs:15-39 | pixels → virtual → pixels gives back the point |
| RenderingHelper.CornersAndCentre | CropCalculator/Helpers/RenderingHelper.cs:15-23 | (0,0) maps to the north-west corner and (300,180) to the south-east; (150,90) maps to the viewport centre, which is also the adjusted centre shifted by the north-west corner |
| RenderingHelper.ConvertIsIncreasing | CropCalculator/Helpers/RenderingHelper.cs:15-23 | virtual → pixels is strictly increasing on each axis |
| RenderingHelper.MultiplyPreservesOrder | CropCalculator/Helpers/RenderingHelper.cs:73-76 | scaling by the (positive) tile scale keeps strict and weak order |
| RenderingHelper.PixelZoomAdjustment | CropCalculator/Helpers/RenderingHelper.cs:66-69 | definition: 1 / zoom level; its law is `TileScaleLaw` |
| RenderingHelper.TileScale | CropCalculator/Helpers/RenderingHelper.cs:73-76 | definition: 4 × the pixel zoom adjustment; positive and 4 / zoom by `TileScaleLaw` |
| RenderingHelper.AdjustedWidth | CropCalculator/Helpers/RenderingHelper.cs:130-139 | definition: 300 × tile scale; see `Letterbox` |
| RenderingHelper.AdjustedHeight | CropCalculator/Helpers/RenderingHelper.cs:130-139 | definition: 180 × tile scale; see `Letterbox` |
| RenderingHelper.DifferenceWidth | CropCalculator/Helpers/RenderingHelper.cs:145-155 | definition: viewport width minus adjusted width; see `Letterbox` |
| RenderingHelper.DifferenceHeight | CropCalculator/Helpers/RenderingHelper.cs:145-155 | definition: viewport height minus adjusted height; see `Letterbox` |
| RenderingHelper.MarginWidth | CropCalculator/Helpers/RenderingHelper.cs:161-171 | definition: half the width difference; two margins and the adjusted width fill the viewport (`Letterbox`) |
| RenderingHelper.MarginHeight | CropCalculator/Helpers/RenderingHelper.cs:161-171 | definition: half the height difference; two margins and the adjusted height fill the viewport (`Letterbox`) |
| RenderingHelper.NorthWest | CropCalculator/Helpers/RenderingHelper.cs:103-109 | definition: (margin width, margin height); the image of (0,0) by `CornersAndCentre` |
| RenderingHelper.NorthEast | CropCalculator/Helpers/RenderingHelper.cs:94-100 | definition: north-west shifted by the adjusted width; see `Letterbox` |
| RenderingHelper.SouthEast | CropCalculator/Helpers/RenderingHelper.cs:112-118 | definition: north-west shifted by the adjusted size; the image of (300,180) by `CornersAndCentre` |
| RenderingHelper.SouthWest | CropCalculator/Helpers/RenderingHelper.cs:121-127 | definition: north-west shifted by the adjusted height; see `Letterbox` |
| RenderingHelper.AdjustedCenter | CropCalculator/Helpers/RenderingHelper.cs:82-91 | definition: half the adjusted size; with the north-west corner added it is the viewport centre (`CornersAndCentre`) |
| RenderingHelper.ViewportCenter | CropCalculator/Helpers/RenderingHelper.cs:178-187 | definition: half the viewport size; the image of (150,90) by `CornersAndCentre` |
| RenderingHelper.ConvertAdjustedScreenToRaw | CropCalculator/Helpers/RenderingHelper.cs:15-23 | definition: scale by the tile scale, then shift by the north-west corner; inverse of `ConvertRawToAdjustedScreen` (`RoundTripAdjusted`, `RoundTripRaw`), strictly increasing (`ConvertIsIncreasing`) |
| RenderingHelper.ConvertRawToAdjustedScreen | CropCalculator/Helpers/RenderingHelper.cs:31-39 | definition: shift back by the north-west corner, then divide by the tile scale; inverse of `ConvertAdjustedScreenToRaw` (`RoundTripAdjusted`, `RoundTripRaw`) |
| Filters.FoldAppend | CropCalculator/Render/Drawer.cs:73-78 | folding a concatenated filter list folds the first part, then the second over its result |
| Filters.FoldInOrder | CropCalculator/Render/Drawer.cs:75-78 | with filters [f, g] the value is g(f(x)) |
| Filters.FoldFirst | CropCalculator/Render/Drawer.cs:75-78 | the first filter sees the starting value, the rest fold over its result |
| Filters.Fold | CropCalculator/Render/Drawer.cs:73-78 | definition: each filter's transform applied in list order; laws `FoldAppend`, `FoldInOrder`, `FoldFirst`, and the loop `Render.ApplyFilters` equals it |
| Filters.SetKey | CropCalculator/Entities/Entity.cs:370 | definition: the transition's filter now carries the key; used by `Entities.Entity.SetTransitionState` and the constructor |
| Filters.StartFilter | CropCalculator/Entities/Entity.cs:371 | definition: marks the transition started; used by `Entities.Entity.SetTransitionState` and the constructor |
| Filters.ResetTransition | CropCalculator/Entities/Entity.cs:369 | definition: not started and not finished; used by `Entities.Entity.SetTransitionState` |
| Entities.TopLeftByFractions | CropCalculator/Entities/Entity.cs:242-314 | for each of the nine origins the top-left corner is the anchor minus (fx·w, fy·h) with fx, fy ∈ {0, ½, 1} read from the origin's name, and adding the offset back gives the anchor |
| Entities.CenterIsTopLeftPlusHalf | CropCalculator/Entities/Entity.cs:117-167 | for every origin the centre equals the top-left corner plus (w/2, h/2) |
| Entities.CenteredExample | CropCalculator/Entities/Entity.cs:242-314 | anchor (150,90), size 40 × 20: CenterCenter gives (130,80), BottomRight (110,70), TopLeft the anchor |
| Entities.TopLeftOf | CropCalculator/Entities/Entity.cs:242-314 | definition: the anchor shifted per origin; equal to the fraction table by `TopLeftByFractions` |
| Entities.CenterOf | CropCalculator/Entities/Entity.cs:117-167 | definition: the anchor shifted per origin; the top-left plus half the size by `CenterIsTopLeftPlusHalf` |
| Entities.BoundaryOf | CropCalculator/Entities/Entity.cs:107-114 | definition: the rectangle at the top-left with the entity's size; hit test agrees with the raw one (`HitTestAgrees`) |
| Entities.RawBoundaryOf | CropCalculator/Entities/Entity.cs:227-239 | definition: the boundary scaled into pixels; the converted boundary by `RawBoundaryIsConvertedBoundary` and `RawBoundaryIsScaledBoundary` |
| Entities.RawBoundaryIsScaledBoundary | CropCalculator/Entities/Entity.cs:227-239 | the raw boundary is the virtual boundary scaled by the tile scale and shifted to the north-west corner |
| Entities.RawBoundaryIsConvertedBoundary | CropCalculator/Entities/Entity.cs:227-239 | the raw boundary's corners are the virtual boundary's corners converted to pixels |
| Entities.HitTestAgrees | CropCalculator/Entities/Entity.cs:227-239 | a virtual point is in the boundary exactly when its pixel image is in the raw boundary |
| Entities.NextState | CropCalculator/Entities/Entity.cs:444-461 | definition: Entering → Present on a finished entering transition, Exiting → Dead on a missing or finished exiting one; properties in `StableStates`, `UpdateMoves`, `NextStateIdempotent` |
| Entities.StableStates | CropCalculator/Entities/Entity.cs:446 | an update leaves Present and Dead unchanged |
| Entities.UpdateMoves | CropCalculator/Entities/Entity.cs:444-461 | the state changes exactly when Entering with a finished entering transition or Exiting with a missing or finished exiting transition; Entering without a transition stays Entering |
| Entities.NextStateIdempotent | CropCalculator/Entities/Entity.cs:444-461 | with the transitions unchanged, a second update changes nothing |
| Entities.ActiveFiltersShape | CropCalculator/Entities/Entity.cs:188-209 | the active list is the permanent filters preceded by at most one transition: the exiting one while Exiting, the entering one while Entering |
| Entities.ActiveFilters | CropCalculator/Entities/Entity.cs:188-209 | definition: the active transition, if any, then the permanent filters; shape proved by `ActiveFiltersShape`, and `Entities.Entity.GetFilters` equals it |
| Entities.HoverHit | CropCalculator/Entities/Entity.cs:430-431 | definition: Present and the raw boundary holds the cursor; used by `Entities.Entity.UpdateHover` |
| Entities.CallbackOncePerEntry | CropCalculator/Entities/Entity.cs:428-439 | while the cursor stays on a present entity the callback fires once, on entry |
| Entities.CallbacksBoundedByHits | CropCalculator/Entities/Entity.cs:428-439 | callbacks never outnumber the ticks with a hit (the number of `true` entries of the hit list), and without any hit there are none |
| Entities.CallbackCount | CropCalculator/Entities/Entity.cs:428-439 | definition: one callback per hit tick after a tick without a hit; `Scenarios.HoverOverTicks` proves the class fires exactly this many |
| Entities.Entity.constructor | CropCalculator/Entities/Entity.cs:74-92 | stores the arguments and clears hover; the state is Entering exactly when an entering transition is given, and that transition is then keyed with the id and started; otherwise Present |
| Entities.Entity.GetFilters | CropCalculator/Entities/Entity.cs:188-209 | the loop builds exactly the active filter list and leaves the entity unchanged |
| Entities.Entity.SetAnchor | CropCalculator/Entities/Entity.cs:340-343 | replaces the anchor only |
| Entities.Entity.SetEnteringTransition | CropCalculator/Entities/Entity.cs:346-349 | replaces the entering transition only |
| Entities.Entity.SetExitingTransition | CropCalculator/Entities/Entity.cs:352-355 | replaces the exiting transition only |
| Entities.Entity.SetTransitionState | CropCalculator/Entities/Entity.cs:358-382 | always sets the state; only with `start` and a transition in the matching slot is it reset, rekeyed to the id and started; the other slot is untouched |
| Entities.Entity.Update | CropCalculator/Entities/Entity.cs:385-389 | the state update runs first, then the hover update sees the new state |
| Entities.Entity.UpdateTransitionState | CropCalculator/Entities/Entity.cs:444-461 | the new state is `NextState` of the old one |
| Entities.Entity.UpdateHover | CropCalculator/Entities/Entity.cs:428-439 | hovered becomes "Present and the raw boundary holds the cursor"; the callback fires exactly on a false → true change |
| Entities.Entity.GetTopLeft | CropCalculator/Entities/Entity.cs:242-314 | definition: `TopLeftOf` of the entity's fields |
| Entities.Entity.GetCenter | CropCalculator/Entities/Entity.cs:117-167 | definition: `CenterOf` of the entity's fields |
| Entities.Entity.GetBoundary | CropCalculator/Entities/Entity.cs:107-114 | definition: `BoundaryOf` of the entity's fields |
| Entities.Entity.GetRawBoundary | CropCalculator/Entities/Entity.cs:227-239 | definition: `RawBoundaryOf` of the entity's fields |
| Render.ApplyFilters | CropCalculator/Render/Drawer.cs:73-78 | the foreach loop ends with the fold of the filters, in list order, over the start value |
| Render.RawDestination | CropCalculator/Render/Drawer.cs:188-194 | definition: the top-left corner scaled into pixels; the raw boundary's corner by `RawDestinationIsRawBoundaryCorner` |
| Render.Resolve | CropCalculator/Render/Drawer.cs:69-302 | definition: the override or the raw value, folded through the filters; per-attribute values in `OverridesWithoutFilters`, `DefaultsWithoutFilters`, `FiltersApplyInOrder` |
| Render.ScaleStart | CropCalculator/Render/Drawer.cs:268 | definition: the override times the tile scale, or the tile scale |
| Render.ResolveScale | CropCalculator/Render/Drawer.cs:266-283 | definition: the folded scale with 0 replaced by 0.001; never 0 by `ScaleNeverZero` |
| Render.ResolveCall | CropCalculator/Render/Drawer.cs:28-50 | definition: the nine resolved arguments in the host's order; `Render.Drawer.Draw` appends exactly it |
| Render.Drawer.constructor | CropCalculator/Render/Drawer.cs:22-25 | binds the drawer to its entity |
| Render.Drawer.ShouldDraw | CropCalculator/Render/Drawer.cs:59-62 | definition: the entity is not Dead; `DrawnUntilDead` |
| Render.Drawer.GetColor | CropCalculator/Render/Drawer.cs:69-81 | the override, else White, folded through the active filters |
| Render.Drawer.GetDestination | CropCalculator/Render/Drawer.cs:88-100 | the override, else the raw destination, folded through the active filters |
| Render.Drawer.GetEffects | CropCalculator/Render/Drawer.cs:107-119 | the override, else no effects, folded through the active filters |
| Render.Drawer.GetLayerDepth | CropCalculator/Render/Drawer.cs:144-156 | the override, else the entity's layer depth, folded through the active filters |
| Render.Drawer.GetOrigin | CropCalculator/Render/Drawer.cs:163-175 | the override, else (0,0), folded through the active filters |
| Render.Drawer.GetRotation | CropCalculator/Render/Drawer.cs:247-259 | the override, else 0, folded through the active filters |
| Render.Drawer.GetScale | CropCalculator/Render/Drawer.cs:266-283 | the override times the tile scale, else the tile scale, folded, with 0 replaced by 0.001; never 0 |
| Render.Drawer.GetSource | CropCalculator/Render/Drawer.cs:290-302 | the override, else the raw source, folded through the active filters |
| Render.Drawer.Draw | CropCalculator/Render/Drawer.cs:28-50 | appends exactly one draw call holding the nine resolved attributes in the host's argument order |
| Render.ScaleNeverZero | CropCalculator/Render/Drawer.cs:277-282 | the resolved scale is never 0, and equals the folded value whenever that is not 0 |
| Render.OverridesWithoutFilters | CropCalculator/Render/Drawer.cs:71-268 | with no filters every given override is used as is, except scale, which is multiplied by the tile scale |
| Render.DefaultsWithoutFilters | CropCalculator/Render/Drawer.cs:180-235 | with no filters and no overrides the call is White, rotation 0, origin (0,0), no effects, tile scale, the entity's layer depth and the raw destination |
| Render.FiltersApplyInOrder | CropCalculator/Render/Drawer.cs:69-302 | with filters [f, g] the destination, source, colour, rotation, origin, effects and layer depth are each g(f(start)), start being the override or the raw default; the scale is too whenever that is not 0 |
| Render.RawDestinationIsRawBoundaryCorner | CropCalculator/Render/Drawer.cs:188-194 | the raw destination is the top-left of the entity's raw boundary and the converted top-left corner |
| Render.DrawnUntilDead | CropCalculator/Render/Drawer.cs:59-62 | `ShouldDraw` holds exactly for Entering, Present and Exiting, and an update never makes a dead entity drawable |
| Animations.Timer.StartTimer | CropCalculator/Render/Filters/Animations/Animation.cs:11 | the key's elapsed time becomes 0, other keys unchanged |
| Animations.Timer.EndTimer | CropCalculator/Render/Filters/Animations/Animation.cs:25 | the key is removed, other keys unchanged |
| Animations.Timer.CheckTimer | CropCalculator/Render/Filters/Animations/Animation.cs:21 | returns the key's elapsed time |
| Animations.Progress | CropCalculator/Render/Filters/Animations/Animation.cs:21-29 | never above 1, and either exactly 1 or the elapsed/interval ratio; for a positive interval in [0, 1] and the ratio while the elapsed time is within the interval; for a negative interval the ratio, at most 0 |
| Animations.RestartsExactlyWhenOverdue | CropCalculator/Render/Filters/Animations/Animation.cs:23 | the restart branch is taken exactly when the interval is positive and the elapsed time exceeds it; a negative interval never restarts |
| Animations.Animation.constructor | CropCalculator/Render/Filters/Animations/Animation.cs:7-12 | stores the interval (any value) and the key and starts the key's timer at 0 |
| Animations.Animation.GetName | CropCalculator/Render/Filters/Animations/Animation.cs:14-17 | always "portrait-fire-animation" |
| Animations.Animation.GetProgress | CropCalculator/Render/Filters/Animations/Animation.cs:19-30 | ratio ≤ 1: returns it and leaves the timer table unchanged; ratio > 1: restarts the key at 0 and returns 1; never above 1 |
| Pages.Div | CropCalculator/Pages/MenuPage.cs:208 | C# integer division: the quotient times the divisor lies between 0 and the dividend, on the dividend's side, and within less than the divisor's size of it, which is truncation toward zero for every sign |
| Pages.MaxIndex | CropCalculator/Pages/MenuPage.cs:554 | the last first-visible index, max(0, count − 7): the last window shows the last seven options |
| Pages.ClampIndex | CropCalculator/Pages/MenuPage.cs:581 | the clamped index lies in [0, max(0, count − 7)] and a valid index is left as is |
| Pages.DragIndex | CropCalculator/Pages/MenuPage.cs:399-402 | the index a drag selects lies in [0, max(0, count − 7)] |
| Pages.DragToTop | CropCalculator/Pages/MenuPage.cs:399-402 | dragging at or above the runner's top selects index 0 |
| Pages.DragToBottom | CropCalculator/Pages/MenuPage.cs:399-402 | dragging at or below the runner's bottom selects the last window |
| Pages.DragMonotone | CropCalculator/Pages/MenuPage.cs:399-402 | dragging lower never selects an earlier window |
| Pages.ScrollBarY | CropCalculator/Pages/MenuPage.cs:365-372 | the last window pins the bar above the down arrow; otherwise index 0 puts it just below the up arrow |
| Pages.ScrollBarMonotone | CropCalculator/Pages/MenuPage.cs:365-367 | before the last window, a later index never puts the bar higher |
| Pages.DragBarY | CropCalculator/Pages/MenuPage.cs:394-397 | while dragging, the bar follows the mouse, kept between the up-arrow limit and the bottom limit |
| Pages.SlotLayout | CropCalculator/Pages/MenuPage.cs:203-221 | exactly seven slots, slot i has id i |
| Pages.SlotAt | CropCalculator/Pages/MenuPage.cs:205-219 | definition: slot i's bounds, id and neighbours; `SlotLayout`, `SlotChain`, `SlotsStackDown` |
| Pages.SlotChain | CropCalculator/Pages/MenuPage.cs:216-217 | slot i's down neighbour is i+1 and slot i+1's up neighbour is i; above slot 0 and below slot 6 the custom snap takes over |
| Pages.SlotsStackDown | CropCalculator/Pages/MenuPage.cs:207-210 | on a page at least two tiles tall, the slots go down the page in order and have equal heights |
| Pages.VisibleOption | CropCalculator/Pages/MenuPage.cs:708-722 | an option is shown exactly when the id is below 7 and index + id is in range, and it is the option at index + id |
| Pages.FirstSlotHit | CropCalculator/Pages/MenuPage.cs:584-594 | the result is the first slot whose bounds hold the click, shows an option, and whose option is hit; none when no slot qualifies |
| Pages.MenuPage.constructor | CropCalculator/Pages/MenuPage.cs:125-181 | the page sits at the host menu's position ten pixels lower, 880 wide; it lists the six options and the seven slots, shows the first window, holds nothing, and places the arrows, bar and runner |
| Pages.MenuPage.CreateComponents | CropCalculator/Pages/MenuPage.cs:186-222 | appends the six options (label, two checkboxes, three dropdowns) and the seven slots of the layout |
| Pages.MenuPage.GetVisibleOption | CropCalculator/Pages/MenuPage.cs:708-722 | as `VisibleOption` for the page's current index |
| Pages.MenuPage.HeldOption | CropCalculator/Pages/MenuPage.cs:411 | an option is held exactly when a slot is held and it shows an option |
| Pages.MenuPage.IsDropdownActive | CropCalculator/Pages/MenuPage.cs:490-497 | true exactly when the held slot shows a dropdown |
| Pages.MenuPage.SetScrollBarToCurrentItem | CropCalculator/Pages/MenuPage.cs:361-374 | with no options nothing moves; otherwise only the bar's height changes, to `ScrollBarY` |
| Pages.MenuPage.BarAt | CropCalculator/Pages/MenuPage.cs:365-372 | definition: the bar moved to the height `ScrollBarY` gives an index |
| Pages.MenuPage.DownArrowPressed | CropCalculator/Pages/MenuPage.cs:502-511 | while a dropdown is active nothing changes; otherwise the index goes up by 1 and the bar follows; keeps the index in range |
| Pages.MenuPage.UpArrowPressed | CropCalculator/Pages/MenuPage.cs:516-525 | while a dropdown is active nothing changes; otherwise the index goes down by 1 and the bar follows; keeps the index in range |
| Pages.MenuPage.CustomSnapBehavior | CropCalculator/Pages/MenuPage.cs:287-321 | down from the last slot scrolls down when more follows, up from the first slot scrolls up when an earlier window exists, each moving the bar to `ScrollBarY` of the new index unless a dropdown is open; up from the first window snaps to the menu tab; in every other case index and bar are unchanged; options, slots, held slot and scrolling flag never change |
| Pages.MenuPage.LeftClickHeld | CropCalculator/Pages/MenuPage.cs:381-419 | only while scrolling and not locked: the index becomes `DragIndex` and the bar `ScrollBarY` (or `DragBarY` with no options); otherwise index and bar are unchanged; the index stays in range; a non-zero runner height is needed only on the scrolling path, the one that divides by it |
| Pages.MenuPage.ReceiveScrollWheelAction | CropCalculator/Pages/MenuPage.cs:442-459 | wheel up moves the index down by 1 from above 0, wheel down moves it up by 1 when more options follow, each moving the bar to `ScrollBarY` of the new index unless a dropdown is open; otherwise index and bar are unchanged; nothing else changes |
| Pages.MenuPage.ReleaseLeftClick | CropCalculator/Pages/MenuPage.cs:466-488 | unless the menu is locked, ends with no slot held and not scrolling |
| Pages.MenuPage.ScrollOnClick | CropCalculator/Pages/MenuPage.cs:554-579 | the down arrow scrolls down when a later window exists, else the up arrow scrolls up when an earlier one exists, moving the bar with the index (nothing moves while a dropdown is open) and leaving the scrolling flag; otherwise index and bar stay and scrolling starts on the bar or the strip beside it |
| Pages.MenuPage.DownArrowScrolls | CropCalculator/Pages/MenuPage.cs:554 | definition: on the down arrow with a later window |
| Pages.MenuPage.UpArrowScrolls | CropCalculator/Pages/MenuPage.cs:559 | definition: not scrolling down, on the up arrow, with an earlier window |
| Pages.MenuPage.HoldSlotOnClick | CropCalculator/Pages/MenuPage.cs:584-594 | the held slot becomes `FirstSlotHit`, or stays as it was when no slot is hit |
| Pages.MenuPage.ReceiveLeftClick | CropCalculator/Pages/MenuPage.cs:550-596 | unless locked: the arrow cases of `ScrollOnClick` with the bar following the index and the scrolling flag kept; otherwise index and bar unchanged and scrolling started on the bar or beside it; the clamp keeps the index in [0, max(0, count − 7)]; then the first hit slot is held; nothing changes when locked |
| Pages.ShippedOptionsNeverScroll | CropCalculator/Pages/MenuPage.cs:194-201 | with the six shipped options the index is always 0, slots 0-5 show options, slot 6 is empty and slot 3 is a dropdown |
| GameData.GetSeasonalCrops | CropCalculator/Helpers/GameData.cs:113-127 | the loop returns exactly the in-season crops in table order; the result is a crop exactly when the table has it and it grows in the season; it is no longer than the table and a subsequence of it |
| GameData.InSeasonMembers | CropCalculator/Helpers/GameData.cs:118-124 | a crop is returned exactly when it is in the table and its seasons contain the season |
| GameData.InSeasonLength | CropCalculator/Helpers/GameData.cs:115-127 | the result is no longer than the table |
| GameData.InSeasonIsSubsequence | CropCalculator/Helpers/GameData.cs:118-124 | the result keeps the table's relative order |
| GameData.InSeasonCounts | CropCalculator/Helpers/GameData.cs:118-124 | each in-season crop appears as often as in the table, others never |
| GameData.InSeason | CropCalculator/Helpers/GameData.cs:113-127 | definition: the in-season crops in table order; membership, length, order and counts in the `InSeason*` lemmas, and `GetSeasonalCrops` equals it |
| Elements.ReceiveChar | CropCalculator/Elements/MenuNumberInputTextBox.cs:23-29 | a character is passed on, unchanged, exactly when it is not a digit |
| Elements.ReceiveText | CropCalculator/Elements/MenuNumberInputTextBox.cs:31-37 | an empty string throws index-out-of-range; a non-empty one is passed on whole, unchanged, exactly when its first character is not a digit, and dropped otherwise |
| Elements.TextAgreesWithChar | CropCalculator/Elements/MenuNumberInputTextBox.cs:23-37 | a one-character string is treated as that character typed |
| Elements.CharGuardIsInverted | CropCalculator/Elements/MenuNumberInputTextBox.cs:25 | as written, '7' is dropped and 'x' passed on |
| Elements.TextGuardReadsOnlyFirst | CropCalculator/Elements/MenuNumberInputTextBox.cs:33 | as written, "a1" is passed on with its digit, "1a" dropped, and an empty paste throws |
| Elements.ReceiveDigitChar | CropCalculator/Elements/MenuNumberInputTextBox.cs:23-29 | intended guard: a character is passed on exactly when it is a digit |
| Elements.ReceiveDigitText | CropCalculator/Elements/MenuNumberInputTextBox.cs:31-37 | intended guard: a string is passed on exactly when all its characters are digits |
| Elements.DigitGuardsAgree | CropCalculator/Elements/MenuNumberInputTextBox.cs:23-37 | with the intended guards a one-character string agrees with the typed character and only digits reach the host box |
| Elements.IsDigit | CropCalculator/Elements/MenuNumberInputTextBox.cs:25 | definition: '0' to '9' (see Left out for other Unicode digits) |
| Scenarios.EntityLifecycle | CropCalculator/Entities/Entity.cs:358-461 | a finished entering transition, then an exit without a transition, runs Entering, Present, Exiting, Dead |
| Scenarios.HoverFiresOnEntry | CropCalculator/Entities/Entity.cs:428-439 | inside, inside, outside fires the callback on the first tick only |
| Scenarios.HoverOverTicks | CropCalculator/Entities/Entity.cs:385-439 | a present entity updated once per cursor position fires exactly `CallbackCount` of the hit tests, hence no more than the ticks with a hit |
| Scenarios.AnimationOverrun | CropCalculator/Render/Filters/Animations/Animation.cs:19-30 | interval 100: a read at 150 gives 1 and restarts; a read 50 later gives 0.5 |
| Scenarios.ShippedPageStaysAtTop | CropCalculator/Pages/MenuPage.cs:442-596 | on the shipped page the wheel and a click never move the window, and a release lets go of any held slot |
| Scenarios.DrawUnfiltered | CropCalculator/Render/Drawer.cs:28-50 | a filterless entity is drawn at its converted top-left corner with all defaults |

## Left out

- Debug drawing (`DrawDebugPoint`, `DrawDebugCircle`, `DrawDebugLine`) and both mouse-cursor drawers: they are host output with trigonometry and rounding.
- Menu tab wiring, page loaders, the mod entry point, translations, textures, the other widgets and the option enums: they are host event glue, I/O and constants.
- IEEE float behaviour (rounding, infinities, NaN): geometry, scale and progress are modelled over the reals.
- `Pages.Div`: the modelled pixel arithmetic is exact. C#'s 32-bit `int` overflow is not modelled.
- `Elements.ReceiveText` takes a Dafny string, which is never null; the source's null-reference case is not modelled.
- `Elements.IsDigit` covers '0'-'9' only. `Char.IsDigit` also accepts the other Unicode decimal digits.
- Entity ids: the source draws a fresh GUID in the constructor, which is randomness. The model takes the id as a constructor argument.
- `InitializeFilters`, width and height, and `GetRawSource` are supplied by concrete subclasses. They are constructor arguments; width and height are non-negative.
- `GetTileset` has a virtual default, `Textures.Default`. The model replaces that default with a constructor argument of the drawer.
- Filters are modelled as side-effect-free functions of their input. In the source an animation filter's `Execute*` can call `GetProgress`, which may end and restart the shared timer. So the nine getters of one `Draw` may see different timer states, which the model does not capture.
- Transitions are held as values. An object shared between two entities or slots (aliasing) is not modelled, and neither are the casts from `IFilter`.
- `Utilities.Timer` is not part of this model. `Animations.Timer` assumes that starting a key sets its time to 0 and that ending it removes the key. `Elapse` stands in for the clock.
- `Animations.Timer.CheckTimer` on a key that is not running is not modelled: it requires a running key.
- `Animations.Animation.GetProgress`: a zero interval is not modelled, so it requires a non-zero one. In the source a zero interval divides to IEEE infinity (restart, 1) or NaN (returned as is). Negative intervals are modelled: the progress is the ratio, at most 0, and the timer never restarts.
- `Primitives.Rectangle.Contains` is not part of this model. It is taken as closed containment; the host's `ClickableComponent.containsPoint` is the half-open `Pages.Contains`.
- `Pages.MenuPage.LeftClickHeld` requires a non-zero runner height only while it is scrolling and not locked. On that path the source divides by the runner height and would throw on zero.
- `Pages.MenuPage.DownArrowPressed` and `Pages.MenuPage.UpArrowPressed` require the guards all their callers check first (a later or an earlier window exists). The page invariant depends on those guards.
- The option widgets' own reactions to clicks, drags, releases and keys are host calls and are not modelled. `receiveKeyPress`, `OnMenuChanged`, hover text, sounds, cursor moves, keyboard unsubscription and `draw` are left out for the same reason.
- `GameMenu.forcePreventClose` is the parameter `forcePreventClose`.
- The rest of `GameData` is left out: it is plain reads of the player and the game clock.

## Findings

| source | as written | input that shows it | evidently intended | confidence | as-written member | corrected member |
|---|---|---|---|---|---|---|
| CropCalculator/Elements/MenuNumberInputTextBox.cs:23-37 | the numeric text box passes on typed characters and pasted strings that do NOT start with a digit | typing '7' is dropped and 'x' is accepted; pasting "a1" is accepted | only digits reach the number box: a character when it is a digit, a string when all its characters are digits | not executed | Elements.CharGuardIsInverted | Elements.DigitGuardsAgree |
