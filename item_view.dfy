/** One tab of the control: a label showing the item's text, styled with the
    normal or the selected text attributes, inside a full-size tap target.
    The view knows its own position (`index`) but not which item of the
    control is selected; the control tells it through `SetSelected`. */
module TabItem {

  /** A text-attribute dictionary (font, colour, ... keyed by attribute
      name). Its contents are platform objects the model does not look into:
      only whether two dictionaries are the same matters here. */
  type TextAttributes(==, 0)

  /** The empty dictionary, the control's initial setting. */
  const EmptyAttributes: TextAttributes

  /** What the label displays: a string together with the attributes used to
      draw it. */
  datatype StyledText = StyledText(text: string, attributes: TextAttributes)

  class ItemView {
    /** Fixed at construction. */
    const text: string
    const index: int

    var textAttributesNormal: TextAttributes
    var textAttributesSelected: TextAttributes
    var isSelected: bool
    /** Constants of the leading and trailing label constraints. */
    var leadingLabelMargin: real
    var trailingLabelMargin: real
    /** The label's line count. */
    var numberOfLines: int
    /** The label's current attributed text, written only by `UpdateText`. */
    var attributedText: StyledText

    /** The attributes the current selection flag calls for. */
    function StyleForSelection(): (r: TextAttributes)
      reads this
    {
      if isSelected then textAttributesSelected else textAttributesNormal
    }

    /** The view's invariant: the label always shows `text` in the style
        chosen by `isSelected`, and both label margins are equal. */
    ghost predicate Valid()
      reads this
    {
      attributedText == StyledText(text, StyleForSelection()) &&
      leadingLabelMargin == trailingLabelMargin
    }

    /** The attributes the label is drawn with right now. */
    function RenderedAttributes(): (r: TextAttributes)
      reads this
      requires Valid()
      ensures isSelected ==> r == textAttributesSelected
      ensures !isSelected ==> r == textAttributesNormal
    {
      attributedText.attributes
    }

    constructor (text: string, index: int, labelMargin: real, numberOfLines: int,
                 textAttributesNormal: TextAttributes, textAttributesSelected: TextAttributes)
      ensures Valid()
      ensures this.text == text && this.index == index
      ensures this.textAttributesNormal == textAttributesNormal
      ensures this.textAttributesSelected == textAttributesSelected
      ensures !isSelected
      ensures leadingLabelMargin == labelMargin && trailingLabelMargin == labelMargin
      ensures this.numberOfLines == numberOfLines
      ensures attributedText == StyledText(text, textAttributesNormal)
    {
      this.text := text;
      this.index := index;
      this.textAttributesNormal := textAttributesNormal;
      this.textAttributesSelected := textAttributesSelected;
      isSelected := false;
      leadingLabelMargin := labelMargin;
      trailingLabelMargin := labelMargin;
      this.numberOfLines := numberOfLines;
      new;
      UpdateText();
    }

    /** Sets both label margins to `newValue`; nothing else changes. */
    method SetLabelHorizontalMargin(newValue: real)
      requires Valid()
      modifies this`leadingLabelMargin, this`trailingLabelMargin
      ensures Valid()
      ensures leadingLabelMargin == newValue && trailingLabelMargin == newValue
    {
      leadingLabelMargin := newValue;
      trailingLabelMargin := newValue;
    }

    /** Sets the label's line count; nothing else changes. */
    method SetNumberOfLines(newValue: int)
      requires Valid()
      modifies this`numberOfLines
      ensures Valid()
      ensures numberOfLines == newValue
    {
      numberOfLines := newValue;
    }

    /** Stores both dictionaries and re-renders with the unchanged selection
        flag. */
    method SetTextAttributes(normal: TextAttributes, selected: TextAttributes)
      requires Valid()
      modifies this`textAttributesNormal, this`textAttributesSelected, this`attributedText
      ensures Valid()
      ensures textAttributesNormal == normal && textAttributesSelected == selected
      ensures attributedText == StyledText(text, if isSelected then selected else normal)
    {
      textAttributesNormal := normal;
      textAttributesSelected := selected;
      UpdateText();
    }

    /** Sets the selection flag and re-renders, so that the label shows the
        style of the new flag. */
    method SetSelected(newValue: bool)
      requires Valid()
      modifies this`isSelected, this`attributedText
      ensures Valid()
      ensures isSelected == newValue
      ensures attributedText ==
        StyledText(text, if newValue then textAttributesSelected else textAttributesNormal)
    {
      isSelected := newValue;
      UpdateText();
    }

    /** A tap on the button: the view hands itself to its owner, which reads
        `index` off it (see `Tabs.ScrollableTabs.ItemViewDidTapButton`). */
    method ButtonDidTap() returns (forwarded: ItemView)
      ensures forwarded == this
    {
      forwarded := this;
    }

    /** Re-renders the label from `text`, `isSelected` and the two
        dictionaries. */
    method UpdateText()
      modifies this`attributedText
      ensures attributedText.text == text
      ensures attributedText.attributes == StyleForSelection()
      ensures leadingLabelMargin == trailingLabelMargin ==> Valid()
    {
      attributedText := StyledText(text, StyleForSelection());
    }
  }
}
