/** Clients of the two components: short sessions whose outcome follows
    from the components' contracts alone. */
module Scenarios {
  import opened Optional
  import opened BoardItems
  import opened Geometry
  import opened Moodboard
  import opened Toolbar
  import opened JsText

  /** Two images: the first gets zIndex 0, the second zIndex 1, and adding
      the second leaves the first as it was. */
  method TwoImages() returns (first: Item, second: Item, firstAfter: Item)
    ensures first.kind == Image && first.content == "data:img1" && first.zIndex == 0
    ensures first.width == Some(200.0) && first.height == Some(200.0)
    ensures second.zIndex == 1 && firstAfter == first
  {
    var board := new MoodboardComponent([]);
    board.AddImage("data:img1", "a", 0.5, 0.5);
    first := board.Snapshot()[0];
    board.AddImage("data:img2", "b", 0.25, 0.75);
    second, firstAfter := board.Snapshot()[1], board.Snapshot()[0];
  }

  /** `addText()` with no argument yields the placeholder text item. */
  method DefaultTextItem() returns (it: Item)
    ensures it.kind == Text && it.content == "Add your text here"
    ensures it.fontSize == Some(24.0) && it.width.None?
  {
    var board := new MoodboardComponent([]);
    board.AddText("t", 0.0, 0.0);
    it := board.Snapshot()[0];
  }

  /** On a 500x500 board at the origin, a 200x200 image at (40, 40)
      grabbed at (50, 50) and moved to (80, 80) lands at (70, 70), and
      releasing it saves that position. */
  method DragInsideBoard() returns (x: real, y: real, saved: seq<Item>)
    ensures x == 70.0 && y == 70.0
    ensures |saved| == 1 && saved[0].x == 70.0 && saved[0].y == 70.0
  {
    var board := new MoodboardComponent([]);
    board.AddImage("data:img1", "a", 0.2, 0.2);
    var item := board.items[0];
    var rect := Rect(0.0, 0.0, 500.0, 500.0);
    board.OnMouseDown(50.0, 50.0, rect, item);
    board.OnMouseMove(80.0, 80.0, rect);
    board.OnMouseUp();
    x, y := item.x, item.y;
    saved := board.stored;
    assert saved == board.Snapshot();
  }

  /** Dragging far past the corner pins the item at the board's edge. */
  method DragPastCorner() returns (x: real, y: real)
    ensures x == 300.0 && y == 0.0
  {
    var board := new MoodboardComponent([]);
    board.AddImage("data:img1", "a", 0.2, 0.2);
    var item := board.items[0];
    var rect := Rect(0.0, 0.0, 500.0, 500.0);
    board.OnMouseDown(50.0, 50.0, rect, item);
    board.OnMouseMove(900.0, -900.0, rect);
    x, y := item.x, item.y;
  }

  /** While a text is being edited, pressing on an item starts no drag,
      and a later move does not shift the item. */
  method EditingBlocksDrag() returns (dragging: bool, selected: bool, x: real)
    ensures !dragging && !selected && x == 40.0
  {
    var board := new MoodboardComponent([]);
    board.AddText("t", 0.2, 0.2);
    var item := board.items[0];
    var rect := Rect(0.0, 0.0, 500.0, 500.0);
    board.OnTextFocus();
    board.OnMouseDown(50.0, 50.0, rect, item);
    board.OnMouseMove(80.0, 80.0, rect);
    dragging, selected, x := board.isDragging, board.selectedItem == item, item.x;
  }

  /** Deleting an item twice removes it once: the second call leaves the
      list, the storage slot and a selection made in between as they were. */
  method DeleteTwice() returns (n1: nat, n2: nat, sameStore: bool, selection: bool)
    ensures n1 == 0 && n2 == 0 && sameStore && selection
  {
    var board := new MoodboardComponent([]);
    board.AddImage("data:img1", "a", 0.0, 0.0);
    var a := board.items[0];
    assert FindIndex(board.Snapshot(), "a") == 0;
    board.DeleteItem(a);
    n1 := |board.items|;
    var keep := board.stored;
    board.SelectItem(a);
    board.DeleteItem(a);
    n2 := |board.items|;
    sameStore := board.stored == keep;
    selection := board.selectedItem == a;
  }

  /** A fresh board after three `addImage` calls, all drawn at the corner. */
  method ThreeImages() returns (board: MoodboardComponent)
    ensures fresh(board) && board.Valid()
    ensures board.Snapshot() == [
      NewItem(Image, "a", "data:1", 0.0, 0.0, 0),
      NewItem(Image, "b", "data:2", 0.0, 0.0, 1),
      NewItem(Image, "c", "data:3", 0.0, 0.0, 2)]
  {
    board := new MoodboardComponent([]);
    board.AddImage("data:1", "a", 0.0, 0.0);
    assert board.Snapshot() == [NewItem(Image, "a", "data:1", 0.0, 0.0, 0)];
    board.AddImage("data:2", "b", 0.0, 0.0);
    assert board.Snapshot() == [
      NewItem(Image, "a", "data:1", 0.0, 0.0, 0),
      NewItem(Image, "b", "data:2", 0.0, 0.0, 1)];
    board.AddImage("data:3", "c", 0.0, 0.0);
  }

  /** After three images and the deletion of the first two, a fourth image
      gets zIndex 1, below the remaining image's 2. */
  method StackingAfterDeletes() returns (zOlder: int, zNewer: int)
    ensures zOlder == 2 && zNewer == 1
  {
    var board := ThreeImages();
    var a, b := board.items[0], board.items[1];
    ghost var s3 := board.Snapshot();
    assert FindIndex(s3, "a") == 0;
    board.DeleteItem(a);
    ghost var s2 := board.Snapshot();
    assert s2 == RemoveAt(s3, 0);
    assert FindIndex(s2, "b") == 0;
    board.DeleteItem(b);
    assert board.Snapshot() == RemoveAt(s2, 0);
    board.AddImage("data:4", "d", 0.0, 0.0);
    zOlder, zNewer := board.items[0].zIndex, board.items[1].zIndex;
  }

  /** Whitespace-only input emits nothing; padded input emits its middle. */
  method TextEntry() returns (afterBlank: seq<string>, afterPadded: seq<string>, box: string)
    ensures afterBlank == [] && afterPadded == ["hi"] && box == ""
  {
    var bar := new ToolbarComponent();
    bar.textInput := " \t\n";
    bar.OnKeyPress("Enter");
    afterBlank := bar.addTextEvents;
    bar.textInput := "  hi ";
    bar.OnKeyPress("a");
    assert IsTrimCut("  hi ", 2, 4) && "  hi "[2..4] == "hi";
    TrimIsTheCut("  hi ", 2, 4);
    bar.OnKeyPress("Enter");
    afterPadded, box := bar.addTextEvents, bar.textInput;
  }

  /** Opening one picker closes the other. */
  method Pickers() returns (color: bool, sticker: bool)
    ensures !color && sticker
  {
    var bar := new ToolbarComponent();
    bar.ToggleColorPicker();
    bar.ToggleStickerPicker();
    color, sticker := bar.showColorPicker, bar.showStickerPicker;
  }
}
