# ScrollableTabs in Dafny

A model of the selection and configuration logic of ScrollableTabs, a
horizontally scrolling tab-selector control for iOS. The control owns an
ordered list of item views (one per tab title), a selection marker drawn
under the selected item, a selected index that is either a position or the
sentinel -1, and a configuration (label margin, peaking width, line count,
normal and selected text attributes) that every item view follows. Taps on
an item view reach the control, which moves the selection and tells its
delegate; programmatic selection never does.

Files and modules:

- `item_view.dfy`, module `TabItem`: class `ItemView`, one tab. Its `text`
  and `index` are constants; the selection flag, both attribute
  dictionaries, the two label margins, the line count and the label's
  rendered text are fields. `Valid()` says the label always shows `text` in
  the style the selection flag calls for, and that both margins are equal.
- `scrollable_tabs.dfy`, module `Tabs`: class `ScrollableTabs`, the control,
  together with the pure arithmetic it uses (index normalisation, the
  maximum-width constant, the scroll offset). `items` is a sequence of
  `ItemData` records (a view and its maximum-width constant), `marker` holds
  the marker's constraint state, `contentOffsetX` the scroll offset, and the
  ghost field `notifications` logs every `didSelectItem` sent to the
  delegate. `Valid()` is the control's invariant: item *k* has index *k* and
  follows the configuration, its maximum-width constant matches the item
  count, the selected index is -1 or a position, exactly the item at the
  selected index shows as selected, the marker is pinned to that item (or,
  with no selection, the no-selection constraints are on), and the offset,
  which is the one the control itself last wrote, is never negative.
- `scenarios.dfy`, module `TabsScenarios`: client methods that combine
  several calls (the three-item example, replacing the items twice, tapping
  the selected item, tapping another item twice, programmatic selection,
  changing the peaking width) and state what follows from the operations'
  contracts.

Modelling choices:

- `CGFloat` is `real`: the model computes with exact reals and ignores the
  rounding of the source's double-precision arithmetic.
- Text-attribute dictionaries are an opaque type `TextAttributes` with
  equality; `EmptyAttributes` stands for the initial `[:]`.
- Layout output (each item view's frame centre, the viewport width, the
  content width) is an input: the `Geometry` argument of the operations that
  apply a selection. An item with no entry in it has a zero frame, as a view
  just created and not yet laid out has.
- `set(items:selectedItemIndex:)` applies the selection right after creating
  the new views, whose frames are still zero
  (Source/ScrollableTabsItemView.swift:48), so `SetItems` takes only the
  viewport and content widths and applies the selection with every item
  centre at 0. With a selection and a non-negative viewport width the scroll
  offset therefore becomes 0: the content is scrolled to its start, not to
  the selected item. `updateSelectionUI` computes a centring offset from the
  selected view's frame (Source/ScrollableTabs.swift:383-384), but inside
  `set(items:)` that frame is still zero, so the offset is 0; the model does
  the same, and `TabsScenarios.FirstSecondThird` states the offset 0.
- The constraint objects are modelled by the state they leave behind: the
  `maxWidthConstant` in each `ItemData`, the `MarkerConstraints` record (the
  no-selection pair on or off, and the item view that the width and centre
  constraints are pinned to), and the views' margin fields.
- The item view's weak delegate is replaced by a return value:
  `ItemView.ButtonDidTap` hands back the view itself, and the caller passes
  it to `ScrollableTabs.ItemViewDidTapButton`, which reads `index` off it.
- The closing loop of `updateSelectionUI` (the selection flag of each view)
  is its own method, `MarkSelectedItem`, called at the same point.
- `set(items:selectedItemIndex:)` creates every new view with one line,
  whatever `itemNumberOfLines` holds (Source/ScrollableTabs.swift:272); the
  model does the same, so the control's line count and its items' line
  counts can differ, and `Valid()` does not tie them together.

## Model

| member | source | states |
|---|---|---|
| `TabItem.ItemView.constructor` | Source/ScrollableTabsItemView.swift:35-80 | A new view has the given text, index, margins on both sides, line count and dictionaries, is not selected, and shows its text in the normal style. |
| `TabItem.ItemView.SetLabelHorizontalMargin` | Source/ScrollableTabsItemView.swift:84-87 | Both label margins become the new value; only those two fields change. |
| `TabItem.ItemView.SetNumberOfLines` | Source/ScrollableTabsItemView.swift:89-91 | The line count becomes the new value; only that field changes. |
| `TabItem.ItemView.SetTextAttributes` | Source/ScrollableTabsItemView.swift:93-97 | Both dictionaries are stored and the label is re-rendered with the one the unchanged selection flag picks. |
| `TabItem.ItemView.SetSelected` | Source/ScrollableTabsItemView.swift:99-102 | The flag becomes the new value and the label shows the selected style exactly when it is true; dictionaries, margins and line count are untouched. |
| `TabItem.ItemView.ButtonDidTap` | Source/ScrollableTabsItemView.swift:106-108 | A tap forwards the view itself, so the owner sees this view's index. |
| `TabItem.ItemView.UpdateText` | Source/ScrollableTabsItemView.swift:112-115 | The label shows the view's text with the selected dictionary when the view is selected and the normal one otherwise; only the label changes. |
| `TabItem.ItemView.RenderedAttributes` | Source/ScrollableTabsItemView.swift:113-114 | For a valid view, the attributes the label is drawn with are the selected ones exactly when the view is selected. |
| `Tabs.ClampSelectedIndex` | Source/ScrollableTabs.swift:315-319 | The result is always -1 or a position; a position is kept as it is; anything other than -1 in the result is the requested value. |
| `Tabs.PeakingNeighbours` | Source/ScrollableTabs.swift:208-213 | The number of neighbours that peak in: at most two, at most one fewer than the items, at least one from two items on, and two exactly when there are more than two items. |
| `Tabs.ScrollableTabs.CalculateItemMaxWidthConstant` | Source/ScrollableTabs.swift:360-368 | The constant is minus (margin + peaking width) once for each peaking neighbour; it is zero for zero or one item and never positive when margin + peaking width is not negative. |
| `Tabs.TargetContentOffset` | Source/ScrollableTabs.swift:383-384 | The offset is never negative and never past the end of the content; it centres the item when that fits, is zero when the item is near the start, and is the last offset when the item is near the end. |
| `Tabs.OneHotCount` | Source/ScrollableTabs.swift:395-397 | Flags set exactly at one index hold one true flag when that index is a position and none otherwise. |
| `Tabs.ScrollableTabs.constructor` | Source/ScrollableTabs.swift:66-72 | A new control has no items, no selection, margin 10, peaking width 20, one line, empty dictionaries, the no-selection marker constraints on, offset zero and no notifications. |
| `Tabs.ScrollableTabs.SelectedItemIndex` | Source/ScrollableTabs.swift:310-313 | The getter returns the stored index, which is -1 or a position. |
| `Tabs.ScrollableTabs.MarkedItemIndex` | Source/ScrollableTabs.swift:386-390 | The item the marker is pinned to, read from the marker's constraints alone, is always the selected index (-1 when unpinned). |
| `Tabs.ScrollableTabs.AtMostOneItemSelected` | Source/ScrollableTabs.swift:395-397 | In a valid control no item is selected when the index is -1 and exactly one is otherwise. |
| `Tabs.ScrollableTabs.SetItemLabelHorizontalMargin` | Source/ScrollableTabs.swift:198-205 | The margin is stored, every view gets it on both sides, every item's constant is recomputed for the current count; views, order, selection, marker, offset and line counts are unchanged. |
| `Tabs.ScrollableTabs.SetNextItemMinPeakingWidth` | Source/ScrollableTabs.swift:218-222 | The peaking width is stored and every item's constant is recomputed; views, order, selection, marker and offset are unchanged. |
| `Tabs.ScrollableTabs.SetItemNumberOfLines` | Source/ScrollableTabs.swift:231-234 | The line count is stored and given to every view; nothing else changes. |
| `Tabs.ScrollableTabs.SetTextAttributes` | Source/ScrollableTabs.swift:326-330 | Both dictionaries are stored and every view is re-rendered, the selected item in the selected style and every other in the normal style. |
| `Tabs.ScrollableTabs.SetItems` | Source/ScrollableTabs.swift:263-303 | The items become one fresh view per string, in order, view *k* with index *k*, one line, the current margin and dictionaries, and the constant for the new count; the selection is the clamped argument, applied as the setter does with every new view still at a zero frame, so with an item selected the offset is the clamped offset for centre 0, which is 0 for a non-negative viewport width, and with none it stays; configuration and notifications are unchanged. |
| `Tabs.ScrollableTabs.SetSelectedItemIndex` | Source/ScrollableTabs.swift:314-321 | The stored index is the argument when it is a position and -1 otherwise; the selection is then applied; no notification is sent and only selection state changes. |
| `Tabs.ScrollableTabs.ItemViewDidTapButton` | Source/ScrollableTabs.swift:338-352 | A tap on the view whose index is selected changes nothing at all; any other tap sets the selection from the view's index as the setter does and appends exactly that index to the notifications. |
| `Tabs.ScrollableTabs.UpdateSelectionUI` | Source/ScrollableTabs.swift:370-398 | With an item selected the marker is pinned to it, the no-selection constraints are off and the offset is the clamped centring offset; otherwise the marker is unpinned, the no-selection constraints are on and the offset stays; afterwards the control is valid. |
| `Tabs.ScrollableTabs.MarkSelectedItem` | Source/ScrollableTabs.swift:395-397 | Every view's flag becomes whether its index is the selected index; nothing but flags and labels changes. |
| `TabsScenarios.FirstSecondThird` | Source/ScrollableTabs.swift:263-303 | Three items with index 1 on a default control: item 1 alone is selected, the marker is pinned to it, every constant is -60, no notification, and the offset is 0 (the new views are not laid out yet) for any non-negative viewport width. |
| `TabsScenarios.SetItemsTwice` | Source/ScrollableTabs.swift:263-302 | The state after the first call is stated from the arguments and the configuration alone (clamped selection, item *k* with string *k*, index *k*, its flag, the constant for the count, the margin, one line and the style its flag picks, and the offset for centre 0 or the old one), and the second call ends in exactly that state. |
| `TabsScenarios.TapSelectedItem` | Source/ScrollableTabs.swift:339-342 | Tapping the selected item leaves the control and its views completely unchanged. |
| `TabsScenarios.TapOtherItemTwice` | Source/ScrollableTabs.swift:339-351 | Tapping another item twice selects it, leaves exactly one item selected and sends exactly one notification. |
| `TabsScenarios.SelectProgrammatically` | Source/ScrollableTabs.swift:305-309 | Programmatic selection of any value sends no notification and leaves -1 or a position. |
| `TabsScenarios.ChangePeakingWidth` | Source/ScrollableTabs.swift:214-222 | With three or more items, a new peaking width caps every existing item at minus twice (margin + new width), with no item replaced. |

## Left out

- The host example screen (text-field parsing, outlets, animation calls around property sets), because it is glue outside the control.
- Layout solving: the constraint priorities, the equal-width and preferred-width constraints, the leading/trailing chain between item views and the frames the engine computes; the model keeps only the constants and bindings the control writes and takes the engine's results as `Geometry`.
- Animation and `selectionAnimationDuration`: both branches of the tap handler set the same state; only timing differs.
- View-hierarchy construction in `commonInit`, subview removal, and the pass-through properties `allowBounce`, `allowAlwaysBounce`, `selectionMarkerColor`, `selectionMarkerHeight`, `itemsTopMargin`, `itemsBottomMargin`, which only forward to platform objects.
- `accessibilitySelectedTitle`: the control passes it to the item view initializer, which has no such parameter, so it has no modelled effect.
- The getters of margin, peaking width and line count, which return the stored fields directly.
- Rendering of attributed strings, colours and fonts: text attributes are opaque values.
- Scrolling by the user, including bounces past the ends when `allowBounce` or `allowAlwaysBounce` is on: `contentOffsetX` is the offset the control last wrote, not the scroll view's live offset, which the user can drag anywhere and which is below 0 during a bounce.
- Tabs.ScrollableTabs.ItemViewDidTapButton: the delegate is weak and may be absent, in which case the source sends nothing; the model logs the notification the control sends whether or not a delegate receives it.
- Tabs.ScrollableTabs.SetItems: the old item views are dropped from the model rather than removed from a view hierarchy, and the new list is built in a local sequence and assigned once rather than appended to the field item by item.
