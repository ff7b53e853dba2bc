/** The toolbar: a text box whose trimmed, non-empty contents are emitted
    as an `addText` event, a colour picker and a sticker picker of which at
    most one is open, and the colour and sticker events. Each
    `EventEmitter` is an append-only log of what was emitted. */
module Toolbar {
  import opened Optional
  import opened JsText

  class ToolbarComponent {
    var selectedColor: string
    var textInput: string
    var showColorPicker: bool
    var showStickerPicker: bool
    /** What `addText.emit` has emitted, oldest first. */
    var addTextEvents: seq<string>
    /** What `addSticker.emit` has emitted. */
    var addStickerEvents: seq<string>
    /** What `changeBackgroundColor.emit` has emitted. */
    var colorEvents: seq<string>

    /** The two pickers are never open at once. */
    ghost predicate Valid()
      reads this
    {
      !(showColorPicker && showStickerPicker)
    }

    constructor ()
      ensures Valid()
      ensures selectedColor == "#f8f9fa" && textInput == ""
      ensures !showColorPicker && !showStickerPicker
      ensures addTextEvents == [] && addStickerEvents == [] && colorEvents == []
    {
      selectedColor, textInput := "#f8f9fa", "";
      showColorPicker, showStickerPicker := false, false;
      addTextEvents, addStickerEvents, colorEvents := [], [], [];
    }

    /** `onAddText`: when the trimmed input is non-empty, emits it and
        empties the input; otherwise (empty or whitespace-only input)
        nothing happens. */
    method OnAddText()
      requires Valid()
      modifies this`textInput, this`addTextEvents
      ensures Valid()
      ensures !AllTrimmable(old(textInput)) ==>
        addTextEvents == old(addTextEvents) + [Trim(old(textInput))] && textInput == ""
      ensures AllTrimmable(old(textInput)) ==>
        addTextEvents == old(addTextEvents) && textInput == old(textInput)
      ensures forall k :: |old(addTextEvents)| <= k < |addTextEvents| ==>
        addTextEvents[k] != "" && !IsTrimmable(addTextEvents[k][0])
    {
      var t := Trim(textInput);
      if t != "" {
        addTextEvents := addTextEvents + [t];
        textInput := "";
      }
    }

    /** `onKeyPress`: Enter adds the text, any other key does nothing. */
    method OnKeyPress(key: string)
      requires Valid()
      modifies this`textInput, this`addTextEvents
      ensures Valid()
      ensures key == "Enter" && !AllTrimmable(old(textInput)) ==>
        addTextEvents == old(addTextEvents) + [Trim(old(textInput))] && textInput == ""
      ensures key != "Enter" || AllTrimmable(old(textInput)) ==>
        addTextEvents == old(addTextEvents) && textInput == old(textInput)
    {
      if key == "Enter" {
        OnAddText();
      }
    }

    /** `onAddSticker`: `rendered` is the data URL the canvas produced, or
        `None` when no 2D context was available; the sticker picker is
        closed either way. */
    method OnAddSticker(rendered: Option<string>)
      requires Valid()
      modifies this`addStickerEvents, this`showStickerPicker
      ensures Valid() && !showStickerPicker
      ensures rendered.Some? ==> addStickerEvents == old(addStickerEvents) + [rendered.value]
      ensures rendered.None? ==> addStickerEvents == old(addStickerEvents)
    {
      if rendered.Some? {
        addStickerEvents := addStickerEvents + [rendered.value];
      }
      showStickerPicker := false;
    }

    /** `onColorSelect`: records and emits the colour and closes the colour picker. */
    method OnColorSelect(color: string)
      requires Valid()
      modifies this`selectedColor, this`colorEvents, this`showColorPicker
      ensures Valid() && !showColorPicker && selectedColor == color
      ensures colorEvents == old(colorEvents) + [color]
    {
      selectedColor := color;
      colorEvents := colorEvents + [color];
      showColorPicker := false;
    }

    /** `toggleColorPicker`: flips the colour picker and closes the sticker picker. */
    method ToggleColorPicker()
      requires Valid()
      modifies this`showColorPicker, this`showStickerPicker
      ensures Valid()
      ensures showColorPicker == !old(showColorPicker) && !showStickerPicker
    {
      showColorPicker := !showColorPicker;
      showStickerPicker := false;
    }

    /** `toggleStickerPicker`: flips the sticker picker and closes the colour picker. */
    method ToggleStickerPicker()
      requires Valid()
      modifies this`showColorPicker, this`showStickerPicker
      ensures Valid()
      ensures showStickerPicker == !old(showStickerPicker) && !showColorPicker
    {
      showStickerPicker := !showStickerPicker;
      showColorPicker := false;
    }
  }
}
