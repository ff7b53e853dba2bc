# MoodBoardify board and toolbar, modelled in Dafny

MoodBoardify is a browser mood-board editor written with Angular. This
project models its two stateful components:

- **`MoodboardComponent`** owns an ordered list of `MoodBoardItem` objects
  (images, text blocks and stickers). Three creators append an item, `deleteItem`
  removes one by id, and three update calls change one item in place. One
  `clearBoard` call empties the list. After each of these calls that changes
  the list, the whole list is written to the `moodboard-items` slot of local
  storage; a `deleteItem` whose id is not on the board writes nothing. The same objects are the targets
  of a small interaction state machine: selection, a mouse drag that keeps
  the item on the board, and a text-editing flag that blocks dragging.
- **`ToolbarComponent`** holds the text box, the colour picker and the
  sticker picker. It emits add-text, add-sticker and background-colour events.

Files:

- `optional.dfy` (`Optional`): the `Option` type for optional properties and null DOM values.
- `board_items.dfy` (`BoardItems`): the item record as a value, and the pure operations on it:
  - per-kind defaults and random placement of a new item;
  - `findIndex` by id and the `splice` done by `deleteItem`;
  - `Object.assign`.
  - Lemmas about deletion and z-order.
- `geometry.dfy` (`Geometry`): the board rectangle, the `width || 100` fallback and the drag clamp.
- `moodboard.dfy` (`Moodboard`): the classes `MoodBoardItem` (mutable item objects) and `MoodboardComponent`.
- `js_text.dfy` (`JsText`): `String.prototype.trim` over the ECMAScript whitespace and line-terminator characters.
- `toolbar.dfy` (`Toolbar`): the class `ToolbarComponent`.
- `scenarios.dfy` (`Scenarios`): client sessions whose outcomes follow from the components' contracts.

How the environment is represented:

- Items are objects, as in the source. `selectedItem` and `dragItem` refer to
  the same objects as the list, so a drag writes through to the list element.
  A dragged item that was deleted mid-drag is still moved, but it is no
  longer in the list.
- `MoodboardComponent.Snapshot()` is the list's value: a sequence of `Item` records.
- Local storage is the field `stored`. The constructor takes whatever the
  slot already holds. Every call that writes storage ensures
  `stored == Snapshot()`. Every call that does not write it leaves `stored` unchanged.
- These come in as method parameters:
  - the id from `generateId()`;
  - the two `Math.random()` draws, each required to lie in [0, 1);
  - the pointer position and the board's `getBoundingClientRect()`;
  - the edited element's `textContent` (`None` for null);
  - the sticker's rendered data URL (`None` when the canvas has no 2D context).
- Each `EventEmitter` is an append-only sequence of what it emitted.
- Numbers are `real`.

Behaviour of the code that the model follows, and that a reader might not expect:

- `deleteItem` clears the selection whenever it removes something, even
  when a different item was selected. It matches on the id of the object it is given.
  The id need not be unique, so only the first match goes (`DeleteRemovesOnlyFirst`).
- Deleting twice is a no-op the second time when the deleted id occurs
  at most once on the board (`DeleteTwiceIsDeleteOnce`, with that assumption
  stated); unique ids are one way to meet it.
- The creators give a new item zIndex = current length. After deletions this
  is neither unique nor increasing, and a new item can get a lower zIndex than an
  older one (`NewItemCanStackBelowOlder`, `Scenarios.StackingAfterDeletes`).
- In the drag clamp, `Math.max(0, …)` is applied last. On a board narrower
  than the item, the item is pinned at 0 rather than at `width - size`.
- `updateItemPosition`, `updateItemSize`, `updateTextProperties` and
  `onTextChange` write to the object they are given, whether or not it is in
  the list, and then save the list; `onTextInput` writes without saving.

## Model

| member | source | states |
|---|---|---|
| `BoardItems.Spawn` | src/app/components/moodboard/moodboard.component.ts:60-61 | `Math.random() * 200` for a draw in [0,1) lies in [0,200) |
| `BoardItems.NewItem` | src/app/components/moodboard/moodboard.component.ts:56-95 | a new record keeps the given id, payload and zIndex and lies in [0,200)²; images are 200×200, stickers 100×100, text has no size, colour `#000000`, font size 24, Arial; only text has styling |
| `BoardItems.AppendKeepsZIndexIsPosition` | src/app/components/moodboard/moodboard.component.ts:64 | appending with zIndex = old length keeps every item's zIndex equal to its position |
| `BoardItems.AppendKeepsUniqueIds` | src/app/components/moodboard/moodboard.component.ts:57 | appending an item whose id is not yet on the board keeps the ids unique |
| `BoardItems.FindIndex` | src/app/components/moodboard/moodboard.component.ts:106 | the result is -1 exactly when no item has the id; otherwise it is the first position holding the id |
| `BoardItems.RemoveAtSpec` | src/app/components/moodboard/moodboard.component.ts:108 | `splice(k, 1)` shortens the list by one, keeps the elements before k, shifts those after it down by one, and removes exactly one copy of the k-th element from the multiset |
| `BoardItems.DeletedSpec` | src/app/components/moodboard/moodboard.component.ts:105-112 | deleting a present id removes exactly the first matching item and keeps the others in order; deleting an absent id leaves the list as it was |
| `BoardItems.DeletedKeepsUniqueIds` | src/app/components/moodboard/moodboard.component.ts:105-112 | deletion keeps the ids of a list pairwise distinct |
| `BoardItems.DeleteTwiceIsDeleteOnce` | src/app/components/moodboard/moodboard.component.ts:105-112 | when the id occurs at most once, it is gone after one deletion and a second deletion changes nothing |
| `BoardItems.DeleteRemovesOnlyFirst` | src/app/components/moodboard/moodboard.component.ts:106-108 | when two items share an id, the later one survives the deletion unchanged |
| `BoardItems.NewItemCanStackBelowOlder` | src/app/components/moodboard/moodboard.component.ts:55-112 | after deleting the first two items of a board built by creation alone, a new item's zIndex is lower than that of the newest item still on the board |
| `BoardItems.AssignedComposes` | src/app/components/moodboard/moodboard.component.ts:126-129 | two successive property updates equal one update with the merged patch; repeating an update changes nothing more |
| `Geometry.Clamp` | src/app/components/moodboard/moodboard.component.ts:182-183 | the clamped coordinate is never negative and never beyond a non-negative bound; it is 0 when the bound is negative; a value already in range is kept, a value above a non-negative bound becomes the bound, a negative value becomes 0; together these fix the result as `max(0, min(v, hi))` |
| `Moodboard.MoodBoardItem.constructor` | src/app/components/moodboard/moodboard.component.ts:3-15 | an item object holds exactly the record it was built from |
| `Moodboard.MoodBoardItem.Assign` | src/app/components/moodboard/moodboard.component.ts:127 | after `Object.assign` with a full record the object holds that record |
| `Moodboard.RecordsOfAppend` | src/app/components/moodboard/moodboard.component.ts:66-67 | pushing an object onto the list appends its record to the list's records |
| `Moodboard.RecordsOfRemoveAt` | src/app/components/moodboard/moodboard.component.ts:108 | splicing the list of objects splices its records the same way |
| `Moodboard.OnlyPositionChanges` | src/app/components/moodboard/moodboard.component.ts:114-129 | when the objects are distinct and only the object at position k may have changed, the new records are the old ones with position k replaced |
| `Moodboard.RemoveAtKeepsDistinct` | src/app/components/moodboard/moodboard.component.ts:108 | splicing never makes one object appear twice |
| `Moodboard.MoodboardComponent.constructor` | src/app/components/moodboard/moodboard.component.ts:25-36 | empty list, nothing selected, no drag, zero offset, not editing, background `#f8f9fa`, storage as found |
| `Moodboard.MoodboardComponent.Save` | src/app/components/moodboard/moodboard.component.ts:243-245 | the storage slot holds the list's records |
| `Moodboard.MoodboardComponent.PushAndSave` | src/app/components/moodboard/moodboard.component.ts:66-67 | one fresh object is appended, the earlier elements and their records are unchanged, and the new list is saved |
| `Moodboard.MoodboardComponent.AddImage` | src/app/components/moodboard/moodboard.component.ts:55-68 | the list grows by exactly one fresh object at the end, whose record is the image record with zIndex = old length; earlier objects and their records are unchanged; storage equals the list |
| `Moodboard.MoodboardComponent.AddText` | src/app/components/moodboard/moodboard.component.ts:70-84 | as AddImage, for a text record whose content defaults to `Add your text here` |
| `Moodboard.MoodboardComponent.AddSticker` | src/app/components/moodboard/moodboard.component.ts:86-99 | as AddImage, for a 100×100 sticker record |
| `Moodboard.MoodboardComponent.SelectItem` | src/app/components/moodboard/moodboard.component.ts:101-103 | the given object becomes the selection; nothing else changes |
| `Moodboard.MoodboardComponent.DeleteItem` | src/app/components/moodboard/moodboard.component.ts:105-112 | the list's records become `Deleted(old records, id)`; if the id was present, the first matching object is spliced out, the selection is cleared and storage equals the list; otherwise list, selection and storage are unchanged |
| `Moodboard.MoodboardComponent.SpliceAndSave` | src/app/components/moodboard/moodboard.component.ts:108-110 | the element at the index is spliced out of the list and out of its records, the selection is cleared and storage equals the list |
| `Moodboard.MoodboardComponent.UpdateItemPosition` | src/app/components/moodboard/moodboard.component.ts:114-118 | the object gets the new x and y and nothing else of it changes; every other list element is unchanged; when the object is at position k of the list, the saved records are the old ones with only position k replaced; storage equals the list |
| `Moodboard.MoodboardComponent.UpdateItemSize` | src/app/components/moodboard/moodboard.component.ts:120-124 | the object gets the new width and height; every other list element is unchanged; when the object is at position k of the list, the saved records are the old ones with only position k replaced; storage equals the list |
| `Moodboard.MoodboardComponent.UpdateTextProperties` | src/app/components/moodboard/moodboard.component.ts:126-129 | the object becomes `Object.assign` of itself with the patch; every other list element is unchanged; when the object is at position k of the list, the saved records are the old ones with only position k replaced; storage equals the list |
| `Moodboard.MoodboardComponent.ChangeBackgroundColor` | src/app/components/moodboard/moodboard.component.ts:135-137 | the background colour is set; storage is not written |
| `Moodboard.MoodboardComponent.ClearBoard` | src/app/components/moodboard/moodboard.component.ts:139-143 | the list is empty, nothing is selected, storage holds the empty list |
| `Moodboard.MoodboardComponent.OnMouseDown` | src/app/components/moodboard/moodboard.component.ts:150-167 | while editing text nothing changes; otherwise a drag of the item starts, the item is selected and the offset is pointer − board origin − item position on each axis |
| `Moodboard.MoodboardComponent.OnMouseMove` | src/app/components/moodboard/moodboard.component.ts:169-184 | without a drag nothing changes; during one the dragged item's x and y become the clamped pointer − origin − offset, so x, y ≥ 0 and x, y ≤ board size − effective size whenever that bound is ≥ 0; no other list element changes, so when the item is at position k the records are the old ones with only position k replaced; the effective size is the item's size, or 100 when it is absent or 0 (`width || 100`); storage is not written |
| `Moodboard.MoodboardComponent.OnMouseUp` | src/app/components/moodboard/moodboard.component.ts:186-193 | the drag is over and no item is dragged; storage is written, and then equals the list, exactly when a drag was active; otherwise it is untouched |
| `Moodboard.MoodboardComponent.OnTextFocus` | src/app/components/moodboard/moodboard.component.ts:195-197 | the text-editing flag is set |
| `Moodboard.MoodboardComponent.OnTextBlur` | src/app/components/moodboard/moodboard.component.ts:199-203 | the text-editing flag is cleared and storage equals the list |
| `Moodboard.MoodboardComponent.OnTextChange` | src/app/components/moodboard/moodboard.component.ts:205-209 | the item's content becomes the element's text (empty for null); other list elements are unchanged; storage equals the list |
| `Moodboard.MoodboardComponent.OnTextInput` | src/app/components/moodboard/moodboard.component.ts:211-214 | as OnTextChange, but storage is not written |
| `JsText.FirstKept` | src/app/components/toolbar/toolbar.component.ts:52 | the first kept index: everything before it is whitespace, the character at it is not |
| `JsText.EndKept` | src/app/components/toolbar/toolbar.component.ts:52 | the end of the kept part: everything from it on is whitespace, and when it lies above the lower bound the character before it is not |
| `JsText.Trim` | src/app/components/toolbar/toolbar.component.ts:52-53 | the trimmed text is empty exactly when the input is all whitespace; a non-empty result neither starts nor ends with whitespace |
| `JsText.TrimHasCut` | src/app/components/toolbar/toolbar.component.ts:52-53 | `trim` cuts off a whitespace prefix and a whitespace suffix, leaving a middle with non-whitespace ends |
| `JsText.TrimIsTheCut` | src/app/components/toolbar/toolbar.component.ts:52-53 | every such cut leaves exactly `trim`'s result, so the cut determines `trim` |
| `JsText.TrimIdempotent` | src/app/components/toolbar/toolbar.component.ts:52-53 | trimming twice is trimming once |
| `Toolbar.ToolbarComponent.constructor` | src/app/components/toolbar/toolbar.component.ts:14-17 | colour `#f8f9fa`, empty text box, both pickers closed, nothing emitted, so at most one picker is open |
| `Toolbar.ToolbarComponent.OnAddText` | src/app/components/toolbar/toolbar.component.ts:51-56 | if the input is not all whitespace, its trimmed text is emitted once and the box is emptied; otherwise nothing is emitted and the box keeps its text; an emitted text is never empty and never starts with whitespace |
| `Toolbar.ToolbarComponent.OnKeyPress` | src/app/components/toolbar/toolbar.component.ts:91-95 | Enter behaves as OnAddText; any other key changes nothing |
| `Toolbar.ToolbarComponent.OnAddSticker` | src/app/components/toolbar/toolbar.component.ts:58-73 | a rendered sticker is emitted once, a failed rendering emits nothing, and the sticker picker is closed either way |
| `Toolbar.ToolbarComponent.OnColorSelect` | src/app/components/toolbar/toolbar.component.ts:75-79 | the colour is recorded and emitted exactly once, and the colour picker is closed |
| `Toolbar.ToolbarComponent.ToggleColorPicker` | src/app/components/toolbar/toolbar.component.ts:81-84 | the colour picker flips and the sticker picker is closed, so at most one is open |
| `Toolbar.ToolbarComponent.ToggleStickerPicker` | src/app/components/toolbar/toolbar.component.ts:86-89 | the sticker picker flips and the colour picker is closed, so at most one is open |
| `Scenarios.TwoImages` | src/app/components/moodboard/moodboard.component.ts:55-68 | two images get zIndex 0 and 1, the first is 200×200, and adding the second leaves the first unchanged |
| `Scenarios.DefaultTextItem` | src/app/components/moodboard/moodboard.component.ts:70-84 | `addText()` with no argument yields a text item with the placeholder content, font size 24 and no width |
| `Scenarios.DragInsideBoard` | src/app/components/moodboard/moodboard.component.ts:150-193 | a 200×200 item on a 500×500 board, grabbed with offset (10,10) and moved to (80,80), lands at (70,70), and releasing it saves that position |
| `Scenarios.DragPastCorner` | src/app/components/moodboard/moodboard.component.ts:169-184 | a drag past the board's edge pins the item at x = 500 − 200 and y = 0 |
| `Scenarios.EditingBlocksDrag` | src/app/components/moodboard/moodboard.component.ts:150-154 | while text is edited, a mouse-down neither starts a drag nor selects, and a move leaves the item in place |
| `Scenarios.DeleteTwice` | src/app/components/moodboard/moodboard.component.ts:105-112 | deleting an item empties a one-item board; deleting it again after selecting it leaves the empty list, the storage slot and that selection as they were |
| `Scenarios.StackingAfterDeletes` | src/app/components/moodboard/moodboard.component.ts:55-112 | after three images and two deletions the remaining image keeps zIndex 2 and a fourth image gets 1, so the new image stacks below the older one |
| `Scenarios.TextEntry` | src/app/components/toolbar/toolbar.component.ts:51-95 | Enter on whitespace-only input emits nothing; Enter on `"  hi "` emits `"hi"` and empties the box; another key does nothing |
| `Scenarios.Pickers` | src/app/components/toolbar/toolbar.component.ts:81-89 | opening the sticker picker after the colour picker leaves only the sticker picker open |

## Left out

- `ngOnInit`, which loads `moodboard-items` with `JSON.parse`, is not modelled. The JSON format is not modelled either: storage holds the list's records directly, and the constructor takes whatever the slot holds.
- `onTextKeyDown` is not modelled: its Enter branch edits the DOM selection (`<br>` insertion), which the model cannot express.
- `generateId` is not modelled: ids come in as parameters. The source does not make them unique, so no contract claims uniqueness. The lemmas that need it take it as an explicit assumption.
- `Math.random` is not modelled: its draws come in as parameters in [0, 1).
- The DOM is not modelled: `getBoundingClientRect`, pointer coordinates and `textContent` are parameters. `preventDefault` is left out.
- Moodboard.MoodboardComponent.Save: a failing `localStorage.setItem` (for example a quota error once several image data URLs are on the board) is not modelled; every save succeeds. In the source the exception comes after the list has already changed (the `push` of the creators, the `splice` and selection clear of `deleteItem`, the writes of the update calls), so that in-memory change would stand while the slot stays stale and the exception propagates.
- Numbers are `real`: there is no floating-point rounding, NaN or infinity. In particular, `width || 100` treats only an absent or zero width as 100; NaN is not modelled.
- `Patch` cannot express a property that is present with its value set to `undefined`; each present property carries a value.
- Strings are sequences of Unicode code points, not UTF-16 code units. This makes no difference to `trim`, because every character it removes is a single code unit.
- `toggleGrid`/`showGrid`, `trackByItemId`, `ngAfterViewInit` and `initializeTextContent` are not modelled: they only affect display or are empty.
- The toolbar's sticker and colour lists are not modelled: they are display constants.
- `ToolbarComponent.onFileSelected` is not modelled: it reads files asynchronously with `FileReader`.
- The canvas drawing in `onAddSticker` is not modelled: only its result reaches the model, as a parameter.
- The export panel (`export-panel.component.ts`) is not part of this model: it delegates to a rasterising library and to the DOM.
- `app.component.ts` and `app.module.ts` are not part of this model: they only forward toolbar events to the board.
