/** Uses of the control that follow its documented behaviour across several
    calls: what a caller of `Tabs.ScrollableTabs` can conclude from the
    operations' contracts alone. */
module TabsScenarios {
  import opened TabItem
  import opened Tabs

  /** Three items with the middle one selected, on a fresh control with the
      default configuration: the middle item alone is selected and the marker
      is pinned to it; with a 10 point margin and a 20 point peaking width
      every item is capped 60 points below the viewport width. The new views
      are not laid out yet when the selection is applied, so the content is
      scrolled to its start, not to the middle item. */
  method FirstSecondThird(viewportWidth: real, contentWidth: real) returns (t: ScrollableTabs)
    ensures t.Valid()
    ensures t.SelectedItemIndex() == 1
    ensures |t.items| == 3
    ensures t.items[0].itemView.text == "FIRST" && t.items[1].itemView.text == "SECOND"
    ensures t.items[2].itemView.text == "THIRD"
    ensures forall k :: 0 <= k < 3 ==> t.items[k].maxWidthConstant == -60.0
    ensures forall k :: 0 <= k < 3 ==> t.items[k].itemView.isSelected == (k == 1)
    ensures t.marker.widthTarget == Some(t.items[1].itemView)
    ensures 0.0 <= viewportWidth ==> t.contentOffsetX == 0.0
    ensures t.notifications == []
  {
    t := new ScrollableTabs();
    t.SetItems(["FIRST", "SECOND", "THIRD"], 1, viewportWidth, contentWidth);
  }

  /** Replacing the items with the same strings and the same index a second
      time gives the same observable state as the first time: `first`,
      `firstSelection` and `firstOffset` are the state after the first call,
      stated from the arguments and the configuration alone, and the second
      call ends in exactly that state. */
  method SetItemsTwice(t: ScrollableTabs, newItems: seq<string>, index: int,
                       viewportWidth: real, contentWidth: real)
    returns (ghost first: seq<ItemSnapshot>, ghost firstSelection: int, ghost firstOffset: real)
    requires t.Valid()
    modifies t
    ensures firstSelection == ClampSelectedIndex(index, |newItems|)
    ensures firstOffset == if firstSelection == NoSelectionIndex then old(t.contentOffsetX)
                           else TargetContentOffset(0.0, viewportWidth, contentWidth)
    ensures |first| == |newItems|
    ensures forall k :: 0 <= k < |first| ==>
      first[k] == ItemSnapshot(newItems[k], k, k == firstSelection,
                               t.CalculateItemMaxWidthConstant(|newItems|),
                               t.currentItemLabelHorizontalMargin, 1,
                               StyledText(newItems[k], if k == firstSelection then t.currentTextAttributesSelected
                                                       else t.currentTextAttributesNormal))
    ensures unchanged(t`currentItemLabelHorizontalMargin, t`currentNextItemMinPeakingWidth,
                      t`currentItemNumberOfLines, t`currentTextAttributesNormal,
                      t`currentTextAttributesSelected)
    ensures t.Valid()
    ensures t.ItemSnapshots() == first
    ensures t.currentSelectedItemIndex == firstSelection
    ensures t.contentOffsetX == firstOffset
    ensures t.notifications == old(t.notifications)
  {
    t.SetItems(newItems, index, viewportWidth, contentWidth);
    first, firstSelection, firstOffset := t.ItemSnapshots(), t.currentSelectedItemIndex, t.contentOffsetX;
    forall k | 0 <= k < |first|
      ensures first[k].isSelected == (k == firstSelection)
    {
      assert t.items[k].itemView.isSelected == (k == t.currentSelectedItemIndex);
    }
    t.SetItems(newItems, index, viewportWidth, contentWidth);
    forall k | 0 <= k < |first|
      ensures t.ItemSnapshots()[k] == first[k]
    {
      assert t.items[k].itemView.isSelected == (k == t.currentSelectedItemIndex);
    }
  }

  /** A tap on the selected item changes nothing and notifies nobody. */
  method TapSelectedItem(t: ScrollableTabs, g: Geometry)
    requires t.Valid() && 0 <= t.currentSelectedItemIndex < |t.items|
    modifies t, t.Repr
    ensures unchanged(t) && unchanged(t.Repr)
  {
    var tapped := t.items[t.currentSelectedItemIndex].itemView.ButtonDidTap();
    t.ItemViewDidTapButton(tapped, g);
  }

  /** A tap on another item selects it and sends one notification with its
      index; a second tap on it then sends nothing more. */
  method TapOtherItemTwice(t: ScrollableTabs, k: int, g: Geometry)
    requires t.Valid() && 0 <= k < |t.items| && k != t.currentSelectedItemIndex
    modifies t, t.Repr
    ensures t.Valid()
    ensures t.currentSelectedItemIndex == k
    ensures t.notifications == old(t.notifications) + [k]
    ensures CountSelected(t.SelectedFlags()) == 1 && t.items[k].itemView.isSelected
  {
    var tapped := t.items[k].itemView.ButtonDidTap();
    t.ItemViewDidTapButton(tapped, g);
    tapped := t.items[k].itemView.ButtonDidTap();
    t.ItemViewDidTapButton(tapped, g);
    t.AtMostOneItemSelected();
  }

  /** Setting the selected index programmatically, to any value, never
      notifies the delegate, and always leaves a valid index or the
      sentinel. */
  method SelectProgrammatically(t: ScrollableTabs, i: int, g: Geometry)
    requires t.Valid()
    modifies t, t.Repr
    ensures t.Valid()
    ensures t.notifications == old(t.notifications)
    ensures t.currentSelectedItemIndex == NoSelectionIndex || 0 <= t.currentSelectedItemIndex < |t.items|
    ensures t.currentSelectedItemIndex == (if 0 <= i < |t.items| then i else NoSelectionIndex)
  {
    t.SetSelectedItemIndex(i, g);
  }

  /** A new peaking width re-caps every existing item for the current item
      count, without replacing any item. */
  method ChangePeakingWidth(t: ScrollableTabs, p: real)
    requires t.Valid() && |t.items| >= 3
    modifies t
    ensures t.Valid() && |t.items| == old(|t.items|)
    ensures forall k :: 0 <= k < |t.items| ==>
      t.items[k].itemView == old(t.items[k].itemView) &&
      t.items[k].maxWidthConstant == -(t.currentItemLabelHorizontalMargin + p) * 2.0
  {
    t.SetNextItemMinPeakingWidth(p);
  }
}
