/** The value of a MoodBoardItem record and the pure operations on lists of
    such values: the per-kind defaults of a new item, `findIndex` by id, the
    removal done by `deleteItem`, and the `Object.assign` patch used by
    `updateTextProperties`. */
module BoardItems {
  import opened Optional

  /** The `type` field of a MoodBoardItem. */
  datatype Kind = Image | Text | Sticker

  /** One MoodBoardItem record, as it is written to local storage. The
      optional fields of the TypeScript interface are `Option`s. */
  datatype Item = Item(
    id: string,
    kind: Kind,
    content: string,
    x: real,
    y: real,
    width: Option<real>,
    height: Option<real>,
    color: Option<string>,
    fontSize: Option<real>,
    fontFamily: Option<string>,
    zIndex: int)

  /** The default argument of `addText`. */
  const DefaultText: string := "Add your text here"

  /** New items are placed at `Math.random() * 200` on each axis. */
  const SpawnRange: real := 200.0

  /** Whether a random draw is one `Math.random()` can return. */
  predicate IsDraw(r: real) {
    0.0 <= r < 1.0
  }

  /** `Math.random() * 200` for a draw `r` of `Math.random()`, which lies in [0, 1). */
  function Spawn(r: real): (v: real)
    requires IsDraw(r)
    ensures 0.0 <= v < SpawnRange
  {
    SpawnRange * r
  }

  /** The record `addImage`, `addText` or `addSticker` builds, given the
      generated id, the payload, the two random draws and the list length. */
  function NewItem(kind: Kind, id: string, content: string, rx: real, ry: real, z: int): (it: Item)
    requires IsDraw(rx) && IsDraw(ry)
    ensures it.id == id && it.kind == kind && it.content == content && it.zIndex == z
    ensures 0.0 <= it.x < SpawnRange && 0.0 <= it.y < SpawnRange
    ensures kind == Image ==> it.width == Some(200.0) && it.height == Some(200.0)
    ensures kind == Sticker ==> it.width == Some(100.0) && it.height == Some(100.0)
    ensures kind == Text <==> it.width.None?
    ensures kind == Text <==> it.height.None?
    ensures kind == Text ==> it.color == Some("#000000") && it.fontSize == Some(24.0) && it.fontFamily == Some("Arial")
    ensures kind != Text ==> it.color.None? && it.fontSize.None? && it.fontFamily.None?
  {
    var x, y := Spawn(rx), Spawn(ry);
    match kind
    case Image =>
      Item(id, Image, content, x, y, Some(200.0), Some(200.0), None, None, None, z)
    case Text =>
      Item(id, Text, content, x, y, None, None, Some("#000000"), Some(24.0), Some("Arial"), z)
    case Sticker =>
      Item(id, Sticker, content, x, y, Some(100.0), Some(100.0), None, None, None, z)
  }

  /** Some item of `s` carries the id. */
  predicate HasId(s: seq<Item>, id: string) {
    exists j :: 0 <= j < |s| && s[j].id == id
  }

  /** No two items of `s` share an id. The source does not guarantee this
      (ids are random strings); lemmas that need it say so. */
  predicate UniqueIds(s: seq<Item>) {
    forall i, j :: 0 <= i < j < |s| ==> s[i].id != s[j].id
  }

  /** Every item's zIndex is its position in the list. */
  predicate ZIndexIsPosition(s: seq<Item>) {
    forall i :: 0 <= i < |s| ==> s[i].zIndex == i
  }

  /** Appending an item whose zIndex is the old length, as every creator
      does, keeps zIndex equal to position. */
  lemma AppendKeepsZIndexIsPosition(s: seq<Item>, it: Item)
    requires ZIndexIsPosition(s) && it.zIndex == |s|
    ensures ZIndexIsPosition(s + [it])
  {
  }

  /** Appending an item with a fresh id keeps the ids unique. */
  lemma AppendKeepsUniqueIds(s: seq<Item>, it: Item)
    requires UniqueIds(s) && !HasId(s, it.id)
    ensures UniqueIds(s + [it])
  {
  }

  /** `items.findIndex(i => i.id === id)`: the first position whose item has
      the id, or -1 when there is none. */
  function FindIndex(s: seq<Item>, id: string): (k: int)
    ensures -1 <= k < |s|
    ensures k == -1 <==> !HasId(s, id)
    ensures 0 <= k ==> s[k].id == id && forall j :: 0 <= j < k ==> s[j].id != id
  {
    if s == [] then -1
    else if s[0].id == id then 0
    else
      var k := FindIndex(s[1..], id);
      if k == -1 then -1 else k + 1
  }

  /** `items.splice(k, 1)`. */
  function RemoveAt<T>(s: seq<T>, k: nat): seq<T>
    requires k < |s|
  {
    s[..k] + s[k + 1..]
  }

  /** The list `deleteItem` leaves behind for an item with the given id. */
  function Deleted(s: seq<Item>, id: string): seq<Item> {
    var k := FindIndex(s, id);
    if k < 0 then s else RemoveAt(s, k)
  }

  /** `splice(k, 1)` drops exactly the element at k and keeps the others in order. */
  lemma RemoveAtSpec<T>(s: seq<T>, k: nat)
    requires k < |s|
    ensures |RemoveAt(s, k)| == |s| - 1
    ensures forall j :: 0 <= j < k ==> RemoveAt(s, k)[j] == s[j]
    ensures forall j :: k <= j < |s| - 1 ==> RemoveAt(s, k)[j] == s[j + 1]
    ensures multiset(RemoveAt(s, k)) + multiset{s[k]} == multiset(s)
  {
    assert s == s[..k] + [s[k]] + s[k + 1..];
  }

  /** Deleting an id that is present removes exactly one element, the first
      with that id, and keeps the relative order of the rest; deleting an
      absent id changes nothing. */
  lemma DeletedSpec(s: seq<Item>, id: string)
    ensures !HasId(s, id) ==> Deleted(s, id) == s
    ensures HasId(s, id) ==>
      var k := FindIndex(s, id);
      && |Deleted(s, id)| == |s| - 1
      && (forall j :: 0 <= j < k ==> Deleted(s, id)[j] == s[j])
      && (forall j :: k <= j < |s| - 1 ==> Deleted(s, id)[j] == s[j + 1])
      && multiset(Deleted(s, id)) + multiset{s[k]} == multiset(s)
  {
    if HasId(s, id) {
      RemoveAtSpec(s, FindIndex(s, id));
    }
  }

  /** Deletion never introduces a shared id. */
  lemma DeletedKeepsUniqueIds(s: seq<Item>, id: string)
    requires UniqueIds(s)
    ensures UniqueIds(Deleted(s, id))
  {
  }

  /** At most one item of `s` carries the id (implied by `UniqueIds(s)`). */
  predicate AtMostOnce(s: seq<Item>, id: string) {
    forall i, j :: 0 <= i < j < |s| && s[i].id == id ==> s[j].id != id
  }

  /** When the id occurs at most once, a deletion removes it entirely, so
      deleting it again is a no-op. */
  lemma DeleteTwiceIsDeleteOnce(s: seq<Item>, id: string)
    requires AtMostOnce(s, id)
    ensures !HasId(Deleted(s, id), id)
    ensures Deleted(Deleted(s, id), id) == Deleted(s, id)
  {
  }

  /** Without unique ids only the first match goes: a later item with the
      same id survives one deletion. */
  lemma DeleteRemovesOnlyFirst(s: seq<Item>, id: string, i: nat, j: nat)
    requires i < j < |s| && s[i].id == id && s[j].id == id
    ensures HasId(Deleted(s, id), id)
    ensures Deleted(s, id)[j - 1] == s[j]
  {
  }

  /** The zIndex a creator assigns is the current length, so after two
      deletions from the front of a board built by creation alone, a new item
      gets a lower zIndex than the newest item already on the board. zIndex
      is therefore neither unique nor increasing with creation time. */
  lemma NewItemCanStackBelowOlder(s: seq<Item>, it: Item)
    requires |s| >= 3 && UniqueIds(s) && ZIndexIsPosition(s)
    requires it.zIndex == |Deleted(Deleted(s, s[0].id), s[1].id)|
    ensures var t := Deleted(Deleted(s, s[0].id), s[1].id) + [it];
      |t| == |s| - 1 && t[|t| - 2] == s[|s| - 1] && t[|t| - 1].zIndex < t[|t| - 2].zIndex
  {
  }

  /** `Partial<MoodBoardItem>` for `Object.assign`: each present property
      overwrites the item's. */
  datatype Patch = Patch(
    id: Option<string>,
    kind: Option<Kind>,
    content: Option<string>,
    x: Option<real>,
    y: Option<real>,
    width: Option<real>,
    height: Option<real>,
    color: Option<string>,
    fontSize: Option<real>,
    fontFamily: Option<string>,
    zIndex: Option<int>)

  function Pick<T>(p: Option<T>, current: T): T {
    if p.Some? then p.value else current
  }

  function PickOpt<T>(p: Option<T>, current: Option<T>): Option<T> {
    if p.Some? then p else current
  }

  /** `Object.assign(item, p)`. */
  function Assigned(it: Item, p: Patch): Item {
    Item(
      Pick(p.id, it.id), Pick(p.kind, it.kind), Pick(p.content, it.content),
      Pick(p.x, it.x), Pick(p.y, it.y),
      PickOpt(p.width, it.width), PickOpt(p.height, it.height),
      PickOpt(p.color, it.color), PickOpt(p.fontSize, it.fontSize), PickOpt(p.fontFamily, it.fontFamily),
      Pick(p.zIndex, it.zIndex))
  }

  /** The properties present in `q`, then those of `p` it does not mention:
      the object spread `{...p, ...q}`. */
  function Merged(p: Patch, q: Patch): Patch {
    Patch(
      PickOpt(q.id, p.id), PickOpt(q.kind, p.kind), PickOpt(q.content, p.content),
      PickOpt(q.x, p.x), PickOpt(q.y, p.y),
      PickOpt(q.width, p.width), PickOpt(q.height, p.height),
      PickOpt(q.color, p.color), PickOpt(q.fontSize, p.fontSize), PickOpt(q.fontFamily, p.fontFamily),
      PickOpt(q.zIndex, p.zIndex))
  }

  /** Two successive property updates equal one update with the merged
      patch, and repeating an update changes nothing more. */
  lemma AssignedComposes(it: Item, p: Patch, q: Patch)
    ensures Assigned(Assigned(it, p), q) == Assigned(it, Merged(p, q))
    ensures Assigned(Assigned(it, p), p) == Assigned(it, p)
  {
  }
}
