/** The board: MoodboardComponent owns an ordered list of MoodBoardItem
    objects, writes it to local storage after each mutating call, and runs
    the select / drag / text-edit state machine on those same objects. */
module Moodboard {
  import opened Optional
  import opened BoardItems
  import opened Geometry

  /** A MoodBoardItem object. The list, `selectedItem` and `dragItem` hold
      references to these, so a write through one is seen through the others. */
  class MoodBoardItem {
    var id: string
    var kind: Kind
    var content: string
    var x: real
    var y: real
    var width: Option<real>
    var height: Option<real>
    var color: Option<string>
    var fontSize: Option<real>
    var fontFamily: Option<string>
    var zIndex: int

    /** The record this object holds. */
    function Data(): Item
      reads this
    {
      Item(id, kind, content, x, y, width, height, color, fontSize, fontFamily, zIndex)
    }

    constructor (v: Item)
      ensures Data() == v
    {
      id, kind, content := v.id, v.kind, v.content;
      x, y, width, height := v.x, v.y, v.width, v.height;
      color, fontSize, fontFamily, zIndex := v.color, v.fontSize, v.fontFamily, v.zIndex;
    }

    /** Overwrites every property with those of `v`. */
    method Assign(v: Item)
      modifies this
      ensures Data() == v
    {
      id, kind, content := v.id, v.kind, v.content;
      x, y, width, height := v.x, v.y, v.width, v.height;
      color, fontSize, fontFamily, zIndex := v.color, v.fontSize, v.fontFamily, v.zIndex;
    }
  }

  /** No object occurs twice in `s`. */
  ghost predicate Distinct<T>(s: seq<T>) {
    forall i, j :: 0 <= i < j < |s| ==> s[i] != s[j]
  }

  lemma RemoveAtKeepsDistinct<T>(s: seq<T>, k: nat)
    requires k < |s| && Distinct(s)
    ensures Distinct(RemoveAt(s, k))
  {
  }

  /** The records held by a list of item objects. */
  function Records(s: seq<MoodBoardItem>): (r: seq<Item>)
    reads s
    ensures |r| == |s|
    ensures forall j :: 0 <= j < |s| ==> r[j] == s[j].Data()
  {
    seq(|s|, j requires 0 <= j < |s| reads s => s[j].Data())
  }

  /** Splicing the object list splices its records the same way. */
  lemma RecordsOfRemoveAt(s: seq<MoodBoardItem>, k: nat)
    requires k < |s|
    ensures Records(RemoveAt(s, k)) == RemoveAt(Records(s), k)
  {
  }

  /** Appending an object appends its record. */
  lemma RecordsOfAppend(s: seq<MoodBoardItem>, o: MoodBoardItem)
    ensures Records(s + [o]) == Records(s) + [o.Data()]
  {
  }

  /** When only the records of objects other than `s[k]` are kept and the
      objects are distinct, the new records are the old ones with position
      `k` replaced. */
  lemma OnlyPositionChanges(s: seq<MoodBoardItem>, before: seq<Item>, after: seq<Item>, k: nat)
    requires Distinct(s) && k < |s| && |before| == |s| && |after| == |s|
    requires forall j :: 0 <= j < |s| && s[j] != s[k] ==> after[j] == before[j]
    ensures after == before[k := after[k]]
  {
  }

  /** `target.textContent || ''`. */
  function TextOrEmpty(textContent: Option<string>): string {
    if textContent.Some? then textContent.value else ""
  }

  class MoodboardComponent {
    var items: seq<MoodBoardItem>
    var selectedItem: MoodBoardItem?
    var backgroundColor: string
    var isDragging: bool
    var dragItem: MoodBoardItem?
    var dragOffsetX: real
    var dragOffsetY: real
    var isTextEditing: bool
    /** The value of the `moodboard-items` slot of local storage. */
    var stored: seq<Item>

    /** The list never holds one object twice, and a drag is active exactly
        when there is an item being dragged. */
    ghost predicate Valid()
      reads this
    {
      && Distinct(items)
      && (isDragging <==> dragItem != null)
    }

    /** The records of the list, in order: what `saveToLocalStorage` writes. */
    function Snapshot(): (s: seq<Item>)
      reads this, items
      ensures |s| == |items|
      ensures forall j :: 0 <= j < |items| ==> s[j] == items[j].Data()
    {
      Records(items)
    }

    /** A fresh component on a browser whose storage slot holds `persisted`
        (loading it in `ngOnInit` is not part of this model). */
    constructor (persisted: seq<Item>)
      ensures Valid()
      ensures items == [] && selectedItem == null && backgroundColor == "#f8f9fa"
      ensures !isDragging && dragItem == null && dragOffsetX == 0.0 && dragOffsetY == 0.0
      ensures !isTextEditing && stored == persisted
    {
      items, selectedItem, backgroundColor := [], null, "#f8f9fa";
      isDragging, dragItem, dragOffsetX, dragOffsetY := false, null, 0.0, 0.0;
      isTextEditing := false;
      stored := persisted;
    }

    /** `saveToLocalStorage`. */
    method Save()
      modifies this`stored
      ensures stored == Snapshot()
    {
      stored := Snapshot();
    }

    /** `items.push(new item); saveToLocalStorage()`. */
    method PushAndSave(v: Item)
      requires Valid()
      modifies this`items, this`stored
      ensures Valid()
      ensures |items| == |old(items)| + 1 && items[..|old(items)|] == old(items)
      ensures fresh(items[|old(items)|])
      ensures Snapshot() == old(Snapshot()) + [v]
      ensures stored == Snapshot()
    {
      var obj := new MoodBoardItem(v);
      items := items + [obj];
      assert items[..|old(items)|] == old(items);
      Save();
    }

    /** `addImage`: appends a 200x200 image at a random spot with zIndex equal
        to the old length. `id` stands for `generateId()`, `rx` and `ry` for
        the two `Math.random()` draws. */
    method AddImage(imageUrl: string, id: string, rx: real, ry: real)
      requires Valid() && IsDraw(rx) && IsDraw(ry)
      modifies this`items, this`stored
      ensures Valid()
      ensures |items| == |old(items)| + 1 && items[..|old(items)|] == old(items)
      ensures fresh(items[|old(items)|])
      ensures Snapshot() == old(Snapshot()) + [NewItem(Image, id, imageUrl, rx, ry, |old(items)|)]
      ensures stored == Snapshot()
    {
      PushAndSave(NewItem(Image, id, imageUrl, rx, ry, |items|));
    }

    /** `addText`: appends a text item styled `#000000`, 24, Arial, without
        width or height. */
    method AddText(id: string, rx: real, ry: real, text: string := DefaultText)
      requires Valid() && IsDraw(rx) && IsDraw(ry)
      modifies this`items, this`stored
      ensures Valid()
      ensures |items| == |old(items)| + 1 && items[..|old(items)|] == old(items)
      ensures fresh(items[|old(items)|])
      ensures Snapshot() == old(Snapshot()) + [NewItem(Text, id, text, rx, ry, |old(items)|)]
      ensures stored == Snapshot()
    {
      PushAndSave(NewItem(Text, id, text, rx, ry, |items|));
    }

    /** `addSticker`: appends a 100x100 sticker. */
    method AddSticker(stickerUrl: string, id: string, rx: real, ry: real)
      requires Valid() && IsDraw(rx) && IsDraw(ry)
      modifies this`items, this`stored
      ensures Valid()
      ensures |items| == |old(items)| + 1 && items[..|old(items)|] == old(items)
      ensures fresh(items[|old(items)|])
      ensures Snapshot() == old(Snapshot()) + [NewItem(Sticker, id, stickerUrl, rx, ry, |old(items)|)]
      ensures stored == Snapshot()
    {
      PushAndSave(NewItem(Sticker, id, stickerUrl, rx, ry, |items|));
    }

    /** `selectItem`. */
    method SelectItem(item: MoodBoardItem)
      requires Valid()
      modifies this`selectedItem
      ensures Valid() && selectedItem == item
    {
      selectedItem := item;
    }

    /** `deleteItem`: removes the first list element whose id is `item.id`,
        clears the selection (whichever item it was) and saves; when no
        element has that id nothing changes and nothing is written. */
    method DeleteItem(item: MoodBoardItem)
      requires Valid()
      modifies this`items, this`selectedItem, this`stored
      ensures Valid()
      ensures Snapshot() == Deleted(old(Snapshot()), item.id)
      ensures HasId(old(Snapshot()), item.id) ==>
        && items == RemoveAt(old(items), FindIndex(old(Snapshot()), item.id))
        && selectedItem == null && stored == Snapshot()
      ensures !HasId(old(Snapshot()), item.id) ==>
        items == old(items) && selectedItem == old(selectedItem) && stored == old(stored)
    {
      ghost var before := Snapshot();
      var index := FindIndex(Snapshot(), item.id);
      if index > -1 {
        SpliceAndSave(index);
        assert Snapshot() == Deleted(before, item.id);
      }
    }

    /** The body of `deleteItem` once the item was found at `index`. */
    method SpliceAndSave(index: nat)
      requires Valid() && index < |items|
      modifies this`items, this`selectedItem, this`stored
      ensures Valid()
      ensures items == RemoveAt(old(items), index)
      ensures Snapshot() == RemoveAt(old(Snapshot()), index)
      ensures selectedItem == null && stored == Snapshot()
    {
      RecordsOfRemoveAt(items, index);
      RemoveAtKeepsDistinct(items, index);
      items := RemoveAt(items, index);
      selectedItem := null;
      Save();
    }

    /** `updateItemPosition`: moves `item` (in the list or not) and saves. */
    method UpdateItemPosition(item: MoodBoardItem, x: real, y: real)
      requires Valid()
      modifies item, this`stored
      ensures Valid() && items == old(items)
      ensures item.Data() == old(item.Data()).(x := x, y := y)
      ensures forall j :: 0 <= j < |items| ==>
        Snapshot()[j] == if items[j] == item then item.Data() else old(Snapshot())[j]
      ensures forall k :: 0 <= k < |items| && items[k] == item ==>
        Snapshot() == old(Snapshot())[k := item.Data()]
      ensures stored == Snapshot()
    {
      ghost var before := Snapshot();
      item.x, item.y := x, y;
      Save();
      forall k | 0 <= k < |items| && items[k] == item
        ensures Snapshot() == before[k := item.Data()]
      {
        OnlyPositionChanges(items, before, Snapshot(), k);
      }
    }

    /** `updateItemSize`: gives `item` an explicit size and saves. */
    method UpdateItemSize(item: MoodBoardItem, width: real, height: real)
      requires Valid()
      modifies item, this`stored
      ensures Valid() && items == old(items)
      ensures item.Data() == old(item.Data()).(width := Some(width), height := Some(height))
      ensures forall j :: 0 <= j < |items| ==>
        Snapshot()[j] == if items[j] == item then item.Data() else old(Snapshot())[j]
      ensures forall k :: 0 <= k < |items| && items[k] == item ==>
        Snapshot() == old(Snapshot())[k := item.Data()]
      ensures stored == Snapshot()
    {
      ghost var before := Snapshot();
      item.width, item.height := Some(width), Some(height);
      Save();
      forall k | 0 <= k < |items| && items[k] == item
        ensures Snapshot() == before[k := item.Data()]
      {
        OnlyPositionChanges(items, before, Snapshot(), k);
      }
    }

    /** `updateTextProperties`: `Object.assign(item, properties)` and save. */
    method UpdateTextProperties(item: MoodBoardItem, properties: Patch)
      requires Valid()
      modifies item, this`stored
      ensures Valid() && items == old(items)
      ensures item.Data() == Assigned(old(item.Data()), properties)
      ensures forall j :: 0 <= j < |items| ==>
        Snapshot()[j] == if items[j] == item then item.Data() else old(Snapshot())[j]
      ensures forall k :: 0 <= k < |items| && items[k] == item ==>
        Snapshot() == old(Snapshot())[k := item.Data()]
      ensures stored == Snapshot()
    {
      ghost var before := Snapshot();
      item.Assign(Assigned(item.Data(), properties));
      Save();
      forall k | 0 <= k < |items| && items[k] == item
        ensures Snapshot() == before[k := item.Data()]
      {
        OnlyPositionChanges(items, before, Snapshot(), k);
      }
    }

    /** `changeBackgroundColor`: not persisted. */
    method ChangeBackgroundColor(color: string)
      requires Valid()
      modifies this`backgroundColor
      ensures Valid() && backgroundColor == color
    {
      backgroundColor := color;
    }

    /** `clearBoard`. */
    method ClearBoard()
      requires Valid()
      modifies this`items, this`selectedItem, this`stored
      ensures Valid()
      ensures items == [] && selectedItem == null && stored == []
    {
      items := [];
      selectedItem := null;
      Save();
    }

    /** `onMouseDown` on `item` with the pointer at (clientX, clientY) and
        the board at `rect`: does nothing while text is being edited;
        otherwise starts a drag of `item`, selects it and records the
        pointer's offset from the item's corner. */
    method OnMouseDown(clientX: real, clientY: real, rect: Rect, item: MoodBoardItem)
      requires Valid()
      modifies this`isDragging, this`dragItem, this`selectedItem, this`dragOffsetX, this`dragOffsetY
      ensures Valid()
      ensures old(isTextEditing) ==>
        && isDragging == old(isDragging) && dragItem == old(dragItem) && selectedItem == old(selectedItem)
        && dragOffsetX == old(dragOffsetX) && dragOffsetY == old(dragOffsetY)
      ensures !old(isTextEditing) ==>
        && isDragging && dragItem == item && selectedItem == item
        && dragOffsetX == clientX - rect.left - item.x
        && dragOffsetY == clientY - rect.top - item.y
    {
      if isTextEditing {
        return;
      }
      isDragging := true;
      dragItem := item;
      selectedItem := item;
      dragOffsetX := clientX - rect.left - item.x;
      dragOffsetY := clientY - rect.top - item.y;
    }

    /** `onMouseMove`: during a drag, puts the dragged item where the pointer
        minus the recorded offset is, clamped so that it stays on the board;
        only that item changes and nothing is written to storage. */
    method OnMouseMove(clientX: real, clientY: real, rect: Rect)
      requires Valid()
      modifies dragItem
      ensures Valid()
      ensures dragItem != null ==>
        var maxX := rect.width - EffectiveSize(dragItem.width);
        var maxY := rect.height - EffectiveSize(dragItem.height);
        && dragItem.Data() == old(dragItem.Data()).(
             x := Clamp(clientX - rect.left - dragOffsetX, maxX),
             y := Clamp(clientY - rect.top - dragOffsetY, maxY))
        && 0.0 <= dragItem.x && 0.0 <= dragItem.y
        && (0.0 <= maxX ==> dragItem.x <= maxX)
        && (0.0 <= maxY ==> dragItem.y <= maxY)
      ensures forall j :: 0 <= j < |items| ==>
        Snapshot()[j] == if items[j] == dragItem then items[j].Data() else old(Snapshot())[j]
      ensures forall k :: 0 <= k < |items| && items[k] == dragItem ==>
        Snapshot() == old(Snapshot())[k := dragItem.Data()]
    {
      if !isDragging || dragItem == null {
        return;
      }
      var newX := clientX - rect.left - dragOffsetX;
      var newY := clientY - rect.top - dragOffsetY;
      var maxX := rect.width - EffectiveSize(dragItem.width);
      var maxY := rect.height - EffectiveSize(dragItem.height);
      ghost var before := Snapshot();
      dragItem.x := Clamp(newX, maxX);
      dragItem.y := Clamp(newY, maxY);
      forall k | 0 <= k < |items| && items[k] == dragItem
        ensures Snapshot() == before[k := dragItem.Data()]
      {
        OnlyPositionChanges(items, before, Snapshot(), k);
      }
    }

    /** `onMouseUp`: saves if a drag was active, and always ends the drag. */
    method OnMouseUp()
      requires Valid()
      modifies this`isDragging, this`dragItem, this`stored
      ensures Valid() && !isDragging && dragItem == null
      ensures old(isDragging) ==> stored == Snapshot()
      ensures !old(isDragging) ==> stored == old(stored)
    {
      if isDragging && dragItem != null {
        Save();
      }
      isDragging := false;
      dragItem := null;
    }

    /** `onTextFocus`: from now on a mouse-down starts no drag. */
    method OnTextFocus()
      requires Valid()
      modifies this`isTextEditing
      ensures Valid() && isTextEditing
    {
      isTextEditing := true;
    }

    /** `onTextBlur`: ends text editing and saves. */
    method OnTextBlur()
      requires Valid()
      modifies this`isTextEditing, this`stored
      ensures Valid() && !isTextEditing && stored == Snapshot()
    {
      isTextEditing := false;
      Save();
    }

    /** `onTextChange`: copies the edited text into `item` and saves. */
    method OnTextChange(textContent: Option<string>, item: MoodBoardItem)
      requires Valid()
      modifies item, this`stored
      ensures Valid() && items == old(items)
      ensures item.Data() == old(item.Data()).(content := TextOrEmpty(textContent))
      ensures forall j :: 0 <= j < |items| ==>
        Snapshot()[j] == if items[j] == item then item.Data() else old(Snapshot())[j]
      ensures stored == Snapshot()
    {
      item.content := TextOrEmpty(textContent);
      Save();
    }

    /** `onTextInput`: copies the edited text into `item` without saving. */
    method OnTextInput(textContent: Option<string>, item: MoodBoardItem)
      requires Valid()
      modifies item
      ensures Valid() && items == old(items) && stored == old(stored)
      ensures item.Data() == old(item.Data()).(content := TextOrEmpty(textContent))
      ensures forall j :: 0 <= j < |items| ==>
        Snapshot()[j] == if items[j] == item then item.Data() else old(Snapshot())[j]
    {
      item.content := TextOrEmpty(textContent);
    }
  }
}
