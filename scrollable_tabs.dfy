/** The tab-selector control: an ordered list of item views inside a
    horizontally scrolling container, a selection marker under the selected
    item, the selected index, and the configuration (label margin, peaking
    width, line count, text attributes) that every item view follows.

    The layout engine's output (the frames of the item views, the width of
    the viewport and of the scrollable content) is not computed here; the
    operations that read it take it as a `Geometry` argument. */
module Tabs {
  import opened TabItem

  /** The selected index that stands for "nothing is selected". */
  const NoSelectionIndex: int := -1

  datatype Option<T> = None | Some(value: T)

  /** What the layout engine reports when the selection is applied: the
      horizontal centre of each item view's frame (by position), the width of
      the viewport and the width of the scrollable content. */
  datatype Geometry = Geometry(itemMidX: seq<real>, viewportWidth: real, contentWidth: real)

  /** The horizontal centre of item `k`. A view the engine has not laid out
      yet has a zero frame. */
  function ItemMidX(g: Geometry, k: int): (r: real)
  {
    if 0 <= k < |g.itemMidX| then g.itemMidX[k] else 0.0
  }

  function Min(a: real, b: real): (r: real) { if a <= b then a else b }

  function Max(a: real, b: real): (r: real) { if a <= b then b else a }

  function MinInt(a: int, b: int): (r: int) { if a <= b then a else b }

  /** The selection marker's horizontal constraints: whether the
      low-priority pair that centres it in the content with zero width is
      active, and the item view (if any) that its width and its centre are
      pinned to. */
  datatype MarkerConstraints = MarkerConstraints(
    noSelectionCenterXActive: bool,
    noSelectionWidthActive: bool,
    widthTarget: Option<ItemView>,
    centerXTarget: Option<ItemView>)

  /** The control's record per item: the view and the constant of its
      maximum-width constraint (item width <= viewport width + constant). */
  datatype ItemData = ItemData(itemView: ItemView, maxWidthConstant: real)

  /** What can be observed of one item: its view's text, index, selection
      flag, label margin, line count and rendered text, and the constant of
      its maximum-width constraint. */
  datatype ItemSnapshot = ItemSnapshot(
    text: string,
    index: int,
    isSelected: bool,
    maxWidthConstant: real,
    labelMargin: real,
    numberOfLines: int,
    attributedText: StyledText)

  ghost function Snapshot(d: ItemData): (r: ItemSnapshot)
    reads d.itemView
  {
    var v := d.itemView;
    ItemSnapshot(v.text, v.index, v.isSelected, d.maxWidthConstant,
                 v.leadingLabelMargin, v.numberOfLines, v.attributedText)
  }

  /** `i` is something the selected index may hold for `count` items. */
  predicate IsSelectionIndex(i: int, count: int)
  {
    i == NoSelectionIndex || 0 <= i < count
  }

  /** The selected-index setter's normalisation: an index outside the items
      becomes "no selection". */
  function ClampSelectedIndex(newValue: int, count: int): (r: int)
    ensures IsSelectionIndex(r, count)
    ensures 0 <= newValue < count ==> r == newValue
    ensures r != NoSelectionIndex ==> r == newValue
  {
    if 0 <= newValue < count then newValue else NoSelectionIndex
  }

  /** How many neighbours of the current item are guaranteed to peak into the
      viewport: one on each side at most, so none for a single item and one
      for two items. */
  function PeakingNeighbours(itemsNumber: int): (r: nat)
    ensures r <= 2
    ensures itemsNumber >= 1 ==> r <= itemsNumber - 1
    ensures 2 <= itemsNumber ==> 1 <= r
    ensures r == 2 <==> itemsNumber > 2
  {
    if itemsNumber <= 1 then 0 else MinInt(itemsNumber - 1, 2)
  }

  /** The scroll offset that shows the item whose centre is `itemMidX` in the
      middle of the viewport, as far as the content allows. */
  function TargetContentOffset(itemMidX: real, viewportWidth: real, contentWidth: real): (r: real)
    ensures 0.0 <= r
    ensures r <= Max(0.0, contentWidth - viewportWidth)
    ensures 0.0 <= itemMidX - viewportWidth / 2.0 <= contentWidth - viewportWidth ==>
              r == itemMidX - viewportWidth / 2.0
    ensures itemMidX - viewportWidth / 2.0 <= 0.0 ==> r == 0.0
    ensures 0.0 <= contentWidth - viewportWidth <= itemMidX - viewportWidth / 2.0 ==>
              r == contentWidth - viewportWidth
  {
    var targetOffsetX := itemMidX - viewportWidth * 0.5;
    Max(0.0, Min(targetOffsetX, contentWidth - viewportWidth))
  }

  /** The number of `true` entries. */
  function CountSelected(flags: seq<bool>): (r: nat)
    ensures r <= |flags|
  {
    if flags == [] then 0
    else CountSelected(flags[..|flags| - 1]) + (if flags[|flags| - 1] then 1 else 0)
  }

  /** Flags that are set exactly at position `sel` hold one `true` when `sel`
      is a position and none otherwise. */
  lemma {:induction false} OneHotCount(flags: seq<bool>, sel: int)
    requires forall k :: 0 <= k < |flags| ==> flags[k] == (k == sel)
    ensures CountSelected(flags) == if 0 <= sel < |flags| then 1 else 0
  {
    if flags != [] {
      var init := flags[..|flags| - 1];
      assert forall k :: 0 <= k < |init| ==> init[k] == flags[k];
      OneHotCount(init, sel);
    }
  }

  class ScrollableTabs {
    var items: seq<ItemData>
    /** The item views the control owns. */
    ghost var Repr: set<ItemView>

    var currentSelectedItemIndex: int
    var currentItemLabelHorizontalMargin: real
    var currentNextItemMinPeakingWidth: real
    var currentItemNumberOfLines: int
    var currentTextAttributesNormal: TextAttributes
    var currentTextAttributesSelected: TextAttributes

    /** The selection marker's horizontal constraints. */
    var marker: MarkerConstraints

    /** Horizontal content offset of the scroll container. */
    var contentOffsetX: real

    /** Every `didSelectItem` notification sent to the delegate, oldest
        first. */
    ghost var notifications: seq<int>

    /** The maximum-width constant for `itemsNumber` items: room for the label
        margin and the peaking width is kept free for each neighbour that may
        peak into the viewport. */
    function CalculateItemMaxWidthConstant(itemsNumber: int): (r: real)
      reads this
      ensures r == -(currentItemLabelHorizontalMargin + currentNextItemMinPeakingWidth)
                   * (PeakingNeighbours(itemsNumber) as real)
      ensures itemsNumber <= 1 ==> r == 0.0
      ensures currentItemLabelHorizontalMargin + currentNextItemMinPeakingWidth >= 0.0 ==> r <= 0.0
    {
      if itemsNumber > 2 then
        -(currentItemLabelHorizontalMargin + currentNextItemMinPeakingWidth) * 2.0
      else if itemsNumber == 2 then
        -(currentItemLabelHorizontalMargin + currentNextItemMinPeakingWidth)
      else
        0.0
    }

    /** Item `d` sits at position `k` and follows the current configuration. */
    ghost predicate ItemAgrees(d: ItemData, k: int)
      reads this, d.itemView
    {
      var v := d.itemView;
      v.Valid() && v.index == k &&
      v.leadingLabelMargin == currentItemLabelHorizontalMargin &&
      v.textAttributesNormal == currentTextAttributesNormal &&
      v.textAttributesSelected == currentTextAttributesSelected &&
      d.maxWidthConstant == CalculateItemMaxWidthConstant(|items|)
    }

    /** The item list: views owned by the control, each at the position its
        index names (so no view appears twice), each following the
        configuration. */
    ghost predicate ItemsWellFormed()
      reads this, Repr
    {
      (forall k :: 0 <= k < |items| ==> items[k].itemView in Repr) &&
      (forall k :: 0 <= k < |items| ==> ItemAgrees(items[k], k))
    }

    ghost predicate SelectionInRange()
      reads this
    {
      IsSelectionIndex(currentSelectedItemIndex, |items|)
    }

    /** With an item selected, the marker is pinned to that item's view and
        the no-selection constraints are off; otherwise it is pinned to
        nothing and they are on. */
    ghost predicate MarkerTracksSelection()
      reads this
    {
      if 0 <= currentSelectedItemIndex < |items| then
        !marker.noSelectionCenterXActive && !marker.noSelectionWidthActive &&
        marker.widthTarget == Some(items[currentSelectedItemIndex].itemView) &&
        marker.centerXTarget == Some(items[currentSelectedItemIndex].itemView)
      else
        marker.noSelectionCenterXActive && marker.noSelectionWidthActive &&
        marker.widthTarget == None && marker.centerXTarget == None
    }

    /** Exactly the item at the selected index shows as selected. */
    ghost predicate SelectionFlagsAgree()
      reads this, Repr
      requires ItemsWellFormed()
    {
      forall k :: 0 <= k < |items| ==> items[k].itemView.isSelected == (k == currentSelectedItemIndex)
    }

    /** The control's invariant. */
    ghost predicate Valid()
      reads this, Repr
    {
      ItemsWellFormed() && SelectionInRange() && MarkerTracksSelection() &&
      SelectionFlagsAgree() && contentOffsetX >= 0.0
    }

    /** The selection flag of each item view, by position. */
    ghost function SelectedFlags(): (r: seq<bool>)
      reads this, Repr
      requires ItemsWellFormed()
      ensures |r| == |items|
      ensures forall k :: 0 <= k < |items| ==> r[k] == items[k].itemView.isSelected
    {
      seq(|items|, k requires 0 <= k < |items| && items[k].itemView in Repr reads this, Repr =>
            items[k].itemView.isSelected)
    }

    /** The observable state of every item, by position. */
    ghost function ItemSnapshots(): (r: seq<ItemSnapshot>)
      reads this, Repr
      requires ItemsWellFormed()
      ensures |r| == |items|
      ensures forall k :: 0 <= k < |items| ==> r[k] == Snapshot(items[k])
    {
      seq(|items|, k requires 0 <= k < |items| && items[k].itemView in Repr reads this, Repr =>
            Snapshot(items[k]))
    }

    /** The index of the item view the marker is pinned to, read off the
        marker's constraints alone; it is always the selected index. */
    function MarkedItemIndex(): (r: int)
      reads this, Repr
      requires Valid()
      ensures r == currentSelectedItemIndex
    {
      match marker.widthTarget
      case Some(v) => v.index
      case None => NoSelectionIndex
    }

    /** At most one item is selected, and one is exactly when the selected
        index is not the sentinel. */
    lemma AtMostOneItemSelected()
      requires Valid()
      ensures CountSelected(SelectedFlags()) == if currentSelectedItemIndex == NoSelectionIndex then 0 else 1
    {
      OneHotCount(SelectedFlags(), currentSelectedItemIndex);
    }

    /** The configuration and the items' views and settings are as before;
        only the selection, the marker, the scroll offset and the items'
        selection flags may differ. */
    twostate predicate OnlySelectionChanged()
      reads this, Repr
      requires ItemsWellFormed()
    {
      Repr == old(Repr) && items == old(items) &&
      currentItemLabelHorizontalMargin == old(currentItemLabelHorizontalMargin) &&
      currentNextItemMinPeakingWidth == old(currentNextItemMinPeakingWidth) &&
      currentItemNumberOfLines == old(currentItemNumberOfLines) &&
      currentTextAttributesNormal == old(currentTextAttributesNormal) &&
      currentTextAttributesSelected == old(currentTextAttributesSelected) &&
      forall k :: 0 <= k < |items| ==>
        items[k].itemView.numberOfLines == old(items[k].itemView.numberOfLines) &&
        items[k].itemView.leadingLabelMargin == old(items[k].itemView.leadingLabelMargin) &&
        items[k].itemView.textAttributesNormal == old(items[k].itemView.textAttributesNormal) &&
        items[k].itemView.textAttributesSelected == old(items[k].itemView.textAttributesSelected)
    }

    /** The scroll offset after the selection is applied with geometry `g`. */
    twostate predicate OffsetFollowsSelection(g: Geometry)
      reads this
    {
      if 0 <= currentSelectedItemIndex < |items| then
        contentOffsetX == TargetContentOffset(ItemMidX(g, currentSelectedItemIndex),
                                              g.viewportWidth, g.contentWidth)
      else
        contentOffsetX == old(contentOffsetX)
    }

    constructor ()
      ensures Valid() && fresh(Repr)
      ensures items == [] && currentSelectedItemIndex == NoSelectionIndex
      ensures currentItemLabelHorizontalMargin == 10.0
      ensures currentNextItemMinPeakingWidth == 20.0
      ensures currentItemNumberOfLines == 1
      ensures currentTextAttributesNormal == EmptyAttributes && currentTextAttributesSelected == EmptyAttributes
      ensures contentOffsetX == 0.0
      ensures notifications == []
    {
      items := [];
      Repr := {};
      currentSelectedItemIndex := NoSelectionIndex;
      currentItemLabelHorizontalMargin := 10.0;
      currentNextItemMinPeakingWidth := 20.0;
      currentItemNumberOfLines := 1;
      currentTextAttributesNormal := EmptyAttributes;
      currentTextAttributesSelected := EmptyAttributes;
      marker := MarkerConstraints(true, true, None, None);
      contentOffsetX := 0.0;
      notifications := [];
    }

    /** The selected-index getter. */
    function SelectedItemIndex(): (r: int)
      reads this
      requires SelectionInRange()
      ensures r == NoSelectionIndex || 0 <= r < |items|
      ensures r == currentSelectedItemIndex
    {
      currentSelectedItemIndex
    }

    /** Sets the label margin of the control and of every item view, and
        recomputes every item's maximum-width constant. */
    method SetItemLabelHorizontalMargin(newValue: real)
      requires Valid()
      modifies this, Repr
      ensures Valid() && Repr == old(Repr)
      ensures currentItemLabelHorizontalMargin == newValue
      ensures |items| == old(|items|)
      ensures forall k :: 0 <= k < |items| ==>
        items[k].itemView == old(items[k].itemView) &&
        items[k].itemView.leadingLabelMargin == newValue &&
        items[k].itemView.trailingLabelMargin == newValue &&
        items[k].maxWidthConstant == CalculateItemMaxWidthConstant(|items|) &&
        items[k].itemView.numberOfLines == old(items[k].itemView.numberOfLines)
      ensures unchanged(this`currentSelectedItemIndex, this`currentNextItemMinPeakingWidth,
                        this`currentItemNumberOfLines, this`currentTextAttributesNormal,
                        this`currentTextAttributesSelected, this`contentOffsetX)
      ensures unchanged(this`marker, this`notifications)
    {
      currentItemLabelHorizontalMargin := newValue;
      var maxWidthConstant := CalculateItemMaxWidthConstant(|items|);
      var updated: seq<ItemData> := [];
      var k := 0;
      while k < |items|
        modifies Repr
        invariant 0 <= k <= |items| && |updated| == k
        invariant forall j :: 0 <= j < k ==> updated[j] == ItemData(items[j].itemView, maxWidthConstant)
        invariant forall j :: 0 <= j < |items| ==>
          var v := items[j].itemView;
          v in Repr && v.index == j && v.Valid() &&
          v.isSelected == (j == currentSelectedItemIndex) &&
          v.textAttributesNormal == currentTextAttributesNormal &&
          v.textAttributesSelected == currentTextAttributesSelected &&
          v.numberOfLines == old(v.numberOfLines) &&
          (j < k ==> v.leadingLabelMargin == newValue)
      {
        items[k].itemView.SetLabelHorizontalMargin(newValue);
        updated := updated + [ItemData(items[k].itemView, maxWidthConstant)];
        k := k + 1;
      }
      items := updated;
    }

    /** Sets the peaking width and recomputes every item's maximum-width
        constant. */
    method SetNextItemMinPeakingWidth(newValue: real)
      requires Valid()
      modifies this
      ensures Valid() && Repr == old(Repr)
      ensures currentNextItemMinPeakingWidth == newValue
      ensures |items| == old(|items|)
      ensures forall k :: 0 <= k < |items| ==>
        items[k].itemView == old(items[k].itemView) &&
        items[k].maxWidthConstant == CalculateItemMaxWidthConstant(|items|)
      ensures unchanged(this`currentSelectedItemIndex, this`currentItemLabelHorizontalMargin,
                        this`currentItemNumberOfLines, this`currentTextAttributesNormal,
                        this`currentTextAttributesSelected, this`contentOffsetX)
      ensures unchanged(this`marker, this`notifications)
    {
      currentNextItemMinPeakingWidth := newValue;
      var maxWidthConstant := CalculateItemMaxWidthConstant(|items|);
      var updated: seq<ItemData> := [];
      var k := 0;
      while k < |items|
        modifies {}
        invariant 0 <= k <= |items| && |updated| == k
        invariant forall j :: 0 <= j < k ==> updated[j] == ItemData(items[j].itemView, maxWidthConstant)
      {
        updated := updated + [ItemData(items[k].itemView, maxWidthConstant)];
        k := k + 1;
      }
      items := updated;
    }

    /** Sets the line count of the control and of every item view. */
    method SetItemNumberOfLines(newValue: int)
      requires Valid()
      modifies this, Repr
      ensures Valid() && Repr == old(Repr) && items == old(items)
      ensures currentItemNumberOfLines == newValue
      ensures forall k :: 0 <= k < |items| ==>
        items[k].itemView.numberOfLines == newValue &&
        items[k].itemView.leadingLabelMargin == old(items[k].itemView.leadingLabelMargin)
      ensures unchanged(this`currentSelectedItemIndex, this`currentItemLabelHorizontalMargin,
                        this`currentNextItemMinPeakingWidth, this`currentTextAttributesNormal,
                        this`currentTextAttributesSelected, this`contentOffsetX)
      ensures unchanged(this`marker, this`notifications)
    {
      currentItemNumberOfLines := newValue;
      var k := 0;
      while k < |items|
        modifies Repr
        invariant 0 <= k <= |items|
        invariant forall j :: 0 <= j < |items| ==>
          var v := items[j].itemView;
          v in Repr && v.index == j && v.Valid() &&
          v.isSelected == (j == currentSelectedItemIndex) &&
          v.leadingLabelMargin == currentItemLabelHorizontalMargin &&
          v.textAttributesNormal == currentTextAttributesNormal &&
          v.textAttributesSelected == currentTextAttributesSelected &&
          (j < k ==> v.numberOfLines == newValue)
      {
        items[k].itemView.SetNumberOfLines(newValue);
        k := k + 1;
      }
    }

    /** Stores both dictionaries and gives them to every item view, which
        re-renders in the style of its own selection flag. */
    method SetTextAttributes(normal: TextAttributes, selected: TextAttributes)
      requires Valid()
      modifies this, Repr
      ensures Valid() && Repr == old(Repr) && items == old(items)
      ensures currentTextAttributesNormal == normal && currentTextAttributesSelected == selected
      ensures forall k :: 0 <= k < |items| ==>
        items[k].itemView.attributedText ==
          StyledText(items[k].itemView.text,
                     if k == currentSelectedItemIndex then selected else normal) &&
        items[k].itemView.numberOfLines == old(items[k].itemView.numberOfLines)
      ensures unchanged(this`currentSelectedItemIndex, this`currentItemLabelHorizontalMargin,
                        this`currentNextItemMinPeakingWidth, this`currentItemNumberOfLines,
                        this`contentOffsetX)
      ensures unchanged(this`marker, this`notifications)
    {
      currentTextAttributesNormal := normal;
      currentTextAttributesSelected := selected;
      var k := 0;
      while k < |items|
        modifies Repr
        invariant 0 <= k <= |items|
        invariant forall j :: 0 <= j < |items| ==>
          var v := items[j].itemView;
          v in Repr && v.index == j && v.Valid() &&
          v.isSelected == (j == currentSelectedItemIndex) &&
          v.leadingLabelMargin == currentItemLabelHorizontalMargin &&
          v.numberOfLines == old(v.numberOfLines) &&
          (j < k ==> v.textAttributesNormal == normal && v.textAttributesSelected == selected) &&
          (k <= j ==> v.textAttributesNormal == old(v.textAttributesNormal) &&
                      v.textAttributesSelected == old(v.textAttributesSelected))
      {
        items[k].itemView.SetTextAttributes(normal, selected);
        k := k + 1;
      }
    }

    /** Replaces every item with one new view per string, in order, and then
        applies `newSelectedItemIndex` through the selected-index setter. The
        old views are dropped, not changed. The selection is applied before
        any layout pass, so every new view still has a zero frame: only the
        widths of the viewport and of the content, as last laid out, come
        from the layout engine, and the selected item is "centred" at
        horizontal position 0, which scrolls the content to its start. */
    method SetItems(newItems: seq<string>, newSelectedItemIndex: int,
                    viewportWidth: real, contentWidth: real)
      requires Valid()
      modifies this
      ensures Valid() && fresh(Repr)
      ensures |items| == |newItems|
      ensures forall k :: 0 <= k < |items| ==>
        var v := items[k].itemView;
        v.text == newItems[k] && v.index == k && v.numberOfLines == 1 &&
        v.leadingLabelMargin == currentItemLabelHorizontalMargin &&
        v.trailingLabelMargin == currentItemLabelHorizontalMargin &&
        v.textAttributesNormal == currentTextAttributesNormal &&
        v.textAttributesSelected == currentTextAttributesSelected &&
        items[k].maxWidthConstant == CalculateItemMaxWidthConstant(|newItems|)
      ensures currentSelectedItemIndex == ClampSelectedIndex(newSelectedItemIndex, |newItems|)
      ensures 0 <= currentSelectedItemIndex < |items| ==>
                contentOffsetX == TargetContentOffset(0.0, viewportWidth, contentWidth)
      ensures 0 <= currentSelectedItemIndex < |items| && 0.0 <= viewportWidth ==>
                contentOffsetX == 0.0
      ensures currentSelectedItemIndex == NoSelectionIndex ==> contentOffsetX == old(contentOffsetX)
      ensures unchanged(this`currentItemLabelHorizontalMargin, this`currentNextItemMinPeakingWidth,
                        this`currentItemNumberOfLines, this`currentTextAttributesNormal,
                        this`currentTextAttributesSelected, this`notifications)
    {
      items := [];
      var maxWidthConstant := CalculateItemMaxWidthConstant(|newItems|);
      var built: seq<ItemData> := [];
      ghost var views: set<ItemView> := {};
      var index := 0;
      while index < |newItems|
        modifies {}
        invariant 0 <= index <= |newItems| && |built| == index
        invariant fresh(views)
        invariant forall k :: 0 <= k < index ==>
          var v := built[k].itemView;
          v in views && v.Valid() && !v.isSelected &&
          v.text == newItems[k] && v.index == k && v.numberOfLines == 1 &&
          v.leadingLabelMargin == currentItemLabelHorizontalMargin &&
          v.textAttributesNormal == currentTextAttributesNormal &&
          v.textAttributesSelected == currentTextAttributesSelected &&
          built[k].maxWidthConstant == maxWidthConstant
      {
        var itemView := new ItemView(newItems[index], index, currentItemLabelHorizontalMargin, 1,
                                     currentTextAttributesNormal, currentTextAttributesSelected);
        built := built + [ItemData(itemView, maxWidthConstant)];
        views := views + {itemView};
        index := index + 1;
      }
      items := built;
      Repr := views;
      SetSelectedItemIndex(newSelectedItemIndex, Geometry([], viewportWidth, contentWidth));
    }

    /** The selected-index setter: stores `newValue` when it names an item and
        the sentinel otherwise, then updates the marker, the scroll offset and
        the items' selection flags. It sends no notification. */
    method SetSelectedItemIndex(newValue: int, g: Geometry)
      requires ItemsWellFormed() && contentOffsetX >= 0.0
      modifies this, Repr
      ensures Valid() && OnlySelectionChanged()
      ensures currentSelectedItemIndex == ClampSelectedIndex(newValue, |items|)
      ensures OffsetFollowsSelection(g)
      ensures notifications == old(notifications)
    {
      currentSelectedItemIndex := ClampSelectedIndex(newValue, |items|);
      UpdateSelectionUI(g);
    }

    /** A tap on `itemView`, forwarded by the view. A tap on the selected item
        does nothing; any other sets the selected index to the view's index
        and then notifies the delegate once with that index. */
    method ItemViewDidTapButton(itemView: ItemView, g: Geometry)
      requires Valid()
      modifies this, Repr
      ensures Valid() && OnlySelectionChanged()
      ensures itemView.index == old(currentSelectedItemIndex) ==>
        unchanged(this) && unchanged(Repr)
      ensures itemView.index != old(currentSelectedItemIndex) ==>
        currentSelectedItemIndex == ClampSelectedIndex(itemView.index, |items|) &&
        OffsetFollowsSelection(g) &&
        notifications == old(notifications) + [itemView.index]
    {
      var newIndex := itemView.index;
      if newIndex == currentSelectedItemIndex {
        return;
      }
      SetSelectedItemIndex(newIndex, g);
      notifications := notifications + [newIndex];
    }

    /** Applies the stored selected index: re-pins the marker, scrolls the
        selected item towards the middle of the viewport and sets every item
        view's selection flag. */
    method UpdateSelectionUI(g: Geometry)
      requires ItemsWellFormed() && SelectionInRange() && contentOffsetX >= 0.0
      modifies this, Repr
      ensures Valid() && OnlySelectionChanged()
      ensures currentSelectedItemIndex == old(currentSelectedItemIndex)
      ensures OffsetFollowsSelection(g)
      ensures notifications == old(notifications)
    {
      // The previous pins are removed in any case.
      var m := marker.(widthTarget := None, centerXTarget := None);
      if currentSelectedItemIndex >= 0 && currentSelectedItemIndex < |items| {
        var itemView := items[currentSelectedItemIndex].itemView;
        contentOffsetX := TargetContentOffset(ItemMidX(g, currentSelectedItemIndex),
                                              g.viewportWidth, g.contentWidth);
        m := m.(noSelectionCenterXActive := false, noSelectionWidthActive := false,
                widthTarget := Some(itemView), centerXTarget := Some(itemView));
      } else {
        m := m.(noSelectionCenterXActive := true, noSelectionWidthActive := true);
      }
      marker := m;
      MarkSelectedItem();
    }

    /** The closing loop of `UpdateSelectionUI`: tells every item view whether
        it is the selected one. */
    method MarkSelectedItem()
      requires ItemsWellFormed()
      modifies Repr
      ensures ItemsWellFormed() && SelectionFlagsAgree()
      ensures forall j :: 0 <= j < |items| ==>
        items[j].itemView.numberOfLines == old(items[j].itemView.numberOfLines)
    {
      var k := 0;
      while k < |items|
        modifies Repr
        invariant 0 <= k <= |items|
        invariant ItemsWellFormed()
        invariant forall j :: 0 <= j < |items| ==>
          items[j].itemView.numberOfLines == old(items[j].itemView.numberOfLines)
        invariant forall j :: 0 <= j < k ==>
          items[j].itemView.isSelected == (j == currentSelectedItemIndex)
      {
        var itemView := items[k].itemView;
        itemView.SetSelected(itemView.index == currentSelectedItemIndex);
        k := k + 1;
      }
    }
  }
}
