/**
 * The image-picker panel of examples/app_image_elements/app.tsx: its state updates, the item list
 * of the thumbnail grid, the "disabled" rule of the add button and the `render` callback.
 */
module ImagePicker {
  import opened Results

  /** The record the host stores for a placed image; `rotation` may be `undefined`. */
  datatype AppElementData = AppElementData(imageId: string, width: int, height: int, rotation: Option<int>)

  const InitialState: AppElementData := AppElementData("dog", 400, 400, Some(0))

  /** The URLs the bundler gives the three bundled pictures; their contents are not modelled. */
  datatype ImageAssets = ImageAssets(dog: string, cat: string, rabbit: string)

  datatype ImageEntry = ImageEntry(key: string, title: string, imageSrc: string)

  /** `Object.entries(images)`: the table in declaration order. */
  function Images(assets: ImageAssets): seq<ImageEntry>
  {
    [ImageEntry("dog", "Dog", assets.dog),
     ImageEntry("cat", "Cat", assets.cat),
     ImageEntry("rabbit", "Rabbit", assets.rabbit)]
  }

  /** `images[key]` over the entries `es`: absent when no entry has that key. */
  function FindImage(es: seq<ImageEntry>, key: string): (r: Option<ImageEntry>)
    ensures r.Some? <==> exists i :: 0 <= i < |es| && es[i].key == key
    ensures r.Some? ==> r.value in es && r.value.key == key
  {
    if es == [] then None
    else if es[0].key == key then Some(es[0])
    else FindImage(es[1..], key)
  }

  function Lookup(assets: ImageAssets, key: string): Option<ImageEntry>
  {
    FindImage(Images(assets), key)
  }

  /** An entry of the thumbnail grid. */
  datatype Item = Item(key: string, title: string, imageSrc: string, active: bool)

  /** The `items` of the grid: one per image, active when it is the selected one. */
  function Items(s: AppElementData, assets: ImageAssets): (r: seq<Item>)
    ensures |r| == |Images(assets)|
  {
    var es := Images(assets);
    seq(|es|, i requires 0 <= i < |es| => Item(es[i].key, es[i].title, es[i].imageSrc, s.imageId == es[i].key))
  }

  /** An item's `onClick`: select its image and keep the size and rotation. */
  function SelectImage(s: AppElementData, key: string): (r: AppElementData)
    ensures r.imageId == key
    ensures r.width == s.width && r.height == s.height && r.rotation == s.rotation
  {
    s.(imageId := key)
  }

  /**
   * The grid lists dog, cat and rabbit in that order; an item is active exactly when its key is
   * the selected image, so at most one is; after clicking item `i`, item `i` alone is active and
   * the size and rotation are as before.
   */
  lemma ItemsAndSelection(s: AppElementData, assets: ImageAssets, i: int)
    requires 0 <= i < 3
    ensures var items := Items(s, assets);
      |items| == 3 && items[0].key == "dog" && items[1].key == "cat" && items[2].key == "rabbit" &&
      (forall j :: 0 <= j < 3 ==> (items[j].active <==> items[j].key == s.imageId)) &&
      (forall j, k :: 0 <= j < 3 && 0 <= k < 3 && items[j].active && items[k].active ==> j == k)
    ensures var after := SelectImage(s, Items(s, assets)[i].key);
      after.width == s.width && after.height == s.height && after.rotation == s.rotation &&
      forall j :: 0 <= j < 3 ==> (Items(after, assets)[j].active <==> j == i)
  {
    var items := Items(s, assets);
    assert items[0].key == "dog" && items[1].key == "cat" && items[2].key == "rabbit";
    assert "dog" != "cat" && "dog" != "rabbit" && "cat" != "rabbit" by {
      assert "dog"[0] != "cat"[0] && "dog"[0] != "rabbit"[0] && "cat"[0] != "rabbit"[0];
    }
  }

  /** `Number(value || 0)`: an absent input becomes 0; a zero input is falsy and becomes 0 as well. */
  function NumberOrZero(value: Option<int>): int
  {
    match value
    case None => 0
    case Some(v) => v
  }

  /** The width input's updater. */
  function SetWidth(s: AppElementData, value: Option<int>): (r: AppElementData)
    ensures r.width == (if value.Some? then value.value else 0)
    ensures r.imageId == s.imageId && r.height == s.height && r.rotation == s.rotation
  {
    s.(width := NumberOrZero(value))
  }

  /** The height input's updater. */
  function SetHeight(s: AppElementData, value: Option<int>): (r: AppElementData)
    ensures r.height == (if value.Some? then value.value else 0)
    ensures r.imageId == s.imageId && r.width == s.width && r.rotation == s.rotation
  {
    s.(height := NumberOrZero(value))
  }

  /** The rotation input's updater; afterwards the rotation is always defined. */
  function SetRotation(s: AppElementData, value: Option<int>): (r: AppElementData)
    ensures r.rotation == Some(if value.Some? then value.value else 0)
    ensures r.imageId == s.imageId && r.width == s.width && r.height == s.height
  {
    s.(rotation := Some(NumberOrZero(value)))
  }

  /** The updaters touch different fields, so their order does not matter; a later one wins. */
  lemma UpdatersCommute(s: AppElementData, a: Option<int>, b: Option<int>, c: Option<int>)
    ensures SetWidth(SetHeight(SetRotation(s, c), b), a) == SetRotation(SetHeight(SetWidth(s, a), b), c)
    ensures SetWidth(SetWidth(s, b), a) == SetWidth(s, a)
    ensures SetHeight(SetHeight(s, b), a) == SetHeight(s, a)
    ensures SetRotation(SetRotation(s, b), a) == SetRotation(s, a)
  {
  }

  /** The element-change handler: the stored data, or the initial state when no element is given. */
  function OnElementChange(element: Option<AppElementData>): (r: AppElementData)
    ensures element.Some? ==> r == element.value
    ensures element.None? ==> r.imageId == "dog" && r.width == 400 && r.height == 400 && r.rotation == Some(0)
  {
    match element
    case Some(d) => d
    case None => InitialState
  }

  // ---------------------------------------------------------------------------------------------
  // `String.prototype.trim` and the `disabled` rule.

  /** The characters `trim` removes: ECMAScript white space and line terminators. */
  predicate IsWhiteSpace(c: char)
  {
    // white space: tab, vertical tab, form feed, space, no-break space, byte-order mark, and the
    // other space separators of Unicode
    c == '\U{0009}' || c == '\U{000B}' || c == '\U{000C}' || c == '\U{0020}' || c == '\U{00A0}' ||
    c == '\U{FEFF}' || c == '\U{1680}' || ('\U{2000}' <= c <= '\U{200A}') || c == '\U{202F}' ||
    c == '\U{205F}' || c == '\U{3000}' ||
    // line terminators: line feed, carriage return, line and paragraph separators
    c == '\U{000A}' || c == '\U{000D}' || c == '\U{2028}' || c == '\U{2029}'
  }

  function TrimStart(s: string): string
  {
    if s != [] && IsWhiteSpace(s[0]) then TrimStart(s[1..]) else s
  }

  function TrimEnd(s: string): string
  {
    if s != [] && IsWhiteSpace(s[|s| - 1]) then TrimEnd(s[..|s| - 1]) else s
  }

  function Trim(s: string): string
  {
    TrimEnd(TrimStart(s))
  }

  lemma {:induction false} TrimStartEmpty(s: string)
    ensures TrimStart(s) == [] <==> forall i :: 0 <= i < |s| ==> IsWhiteSpace(s[i])
  {
    if s != [] && IsWhiteSpace(s[0]) {
      TrimStartEmpty(s[1..]);
      assert forall i :: 1 <= i < |s| ==> s[i] == s[1..][i - 1];
    }
  }

  lemma {:induction false} TrimEndEmpty(s: string)
    ensures TrimEnd(s) == [] <==> forall i :: 0 <= i < |s| ==> IsWhiteSpace(s[i])
  {
    if s != [] && IsWhiteSpace(s[|s| - 1]) {
      TrimEndEmpty(s[..|s| - 1]);
      assert forall i :: 0 <= i < |s| - 1 ==> s[i] == s[..|s| - 1][i];
    }
  }

  lemma {:induction false} TrimStartStopsAtText(s: string)
    ensures TrimStart(s) != [] ==> !IsWhiteSpace(TrimStart(s)[0])
  {
    if s != [] && IsWhiteSpace(s[0]) {
      TrimStartStopsAtText(s[1..]);
    }
  }

  /** `trim()` leaves nothing exactly when every character is white space. */
  lemma TrimEmptyIffAllWhiteSpace(s: string)
    ensures |Trim(s)| == 0 <==> forall i :: 0 <= i < |s| ==> IsWhiteSpace(s[i])
  {
    TrimStartEmpty(s);
    TrimStartStopsAtText(s);
    TrimEndEmpty(TrimStart(s));
  }

  /** `!imageId || imageId.trim().length < 1`. */
  function Disabled(s: AppElementData): bool
  {
    s.imageId == "" || |Trim(s.imageId)| < 1
  }

  /** The add button is disabled exactly when the selected image id is empty or all white space. */
  lemma DisabledIffBlank(s: AppElementData)
    ensures Disabled(s) <==> forall i :: 0 <= i < |s.imageId| ==> IsWhiteSpace(s.imageId[i])
  {
    TrimEmptyIffAllWhiteSpace(s.imageId);
  }

  // ---------------------------------------------------------------------------------------------
  // The `render` callback.

  /** `{ type: "IMAGE", top: 0, left: 0, dataUrl, ...data }`. */
  datatype Primitive = ImagePrimitive(
    top: int, left: int, dataUrl: string,
    imageId: string, width: int, height: int, rotation: Option<int>)

  /**
   * `render`: one image at the element's origin, showing the selected picture with the stored
   * size and rotation; an image id outside the table throws.
   */
  function Render(assets: ImageAssets, data: AppElementData): (r: Result<seq<Primitive>>)
    ensures r.Ok? <==> data.imageId in {"dog", "cat", "rabbit"}
    ensures r.Err? ==> r.error == UnknownImage(data.imageId)
    ensures r.Ok? ==>
      |r.value| == 1 && r.value[0].top == 0 && r.value[0].left == 0 &&
      r.value[0].width == data.width && r.value[0].height == data.height && r.value[0].rotation == data.rotation &&
      r.value[0].dataUrl == (if data.imageId == "dog" then assets.dog
                             else if data.imageId == "cat" then assets.cat else assets.rabbit)
  {
    var es := Images(assets);
    assert es[0].key == "dog" && es[1].key == "cat" && es[2].key == "rabbit";
    match Lookup(assets, data.imageId)
    case None => Err(UnknownImage(data.imageId))
    case Some(image) =>
      Ok([ImagePrimitive(0, 0, image.imageSrc, data.imageId, data.width, data.height, data.rotation)])
  }
}
