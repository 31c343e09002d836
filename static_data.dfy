/**
 * The static page's data converter: the bookmark tree becomes a dictionary
 * of top-level categories, each a dictionary from category names to the
 * link records below them. Nested folders are named "parent - child".
 */
module StaticData {
  import opened Bookmarks
  import opened Seqs
  import opened Dicts

  /** `{"type": "link", "title": ..., "url": ..., "icon": ...}`; the constant
    * `type` is left implicit. A missing title or url stays missing (`None`). */
  datatype LinkRecord = LinkRecord(title: Option<string>, url: Option<string>, icon: string)

  /** `item.get("icon") or "🔗"`: a missing or empty icon becomes the link emoji. */
  function RecordOf(link: Node): (r: LinkRecord)
    requires link.Link?
    ensures r.title == link.title && r.url == link.url
    ensures Truthy(link.icon) ==> r.icon == link.icon.value
    ensures !Truthy(link.icon) ==> r.icon == "🔗"
  {
    LinkRecord(link.title, link.url, if Truthy(link.icon) then link.icon.value else "🔗")
  }

  /** The key a link is filed under: the current prefix, or "默认分类" at the top. */
  function CategoryFor(prefix: string): (k: string)
    ensures prefix != "" ==> k == prefix
    ensures prefix == "" ==> k == "默认分类"
  {
    if prefix != "" then prefix else "默认分类"
  }

  /** The prefix inside a folder: its title (default "未命名文件夹"),
    * after the current prefix and " - " when there is one. */
  function SubCategoryName(prefix: string, title: Option<string>): (name: string)
    ensures prefix == "" ==> name == title.GetOr("未命名文件夹")
    ensures prefix != "" ==> name == prefix + " - " + title.GetOr("未命名文件夹")
  {
    var folderTitle := title.GetOr("未命名文件夹");
    if prefix == "" then folderTitle else prefix + " - " + folderTitle
  }

  // ---------------------------------------------------------------------------
  // process_items, as functions over the tree
  // ---------------------------------------------------------------------------

  function Processed(d: Dict<string, seq<LinkRecord>>, items: seq<Node>, prefix: string): (r: Dict<string, seq<LinkRecord>>)
    requires Valid(d)
    ensures Valid(r)
    decreases ForestSize(items), 1
  {
    if items == [] then d
    else ProcessedItem(Processed(d, items[..|items| - 1], prefix), items[|items| - 1], prefix)
  }

  function ProcessedItem(d: Dict<string, seq<LinkRecord>>, item: Node, prefix: string): (r: Dict<string, seq<LinkRecord>>)
    requires Valid(d)
    ensures Valid(r)
    decreases Size(item), 0
  {
    match item
    case Link(_, _, _, _) => Append(d, CategoryFor(prefix), RecordOf(item))
    case Folder(title, _, _) => Processed(d, KidsOf(item), SubCategoryName(prefix, title))
    case Other(_, _) => d
  }

  /** Every link below `items` adds one record: the count `process_items`
    * returns is the number of reachable links. */
  lemma {:induction false} ProcessedCount(d: Dict<string, seq<LinkRecord>>, items: seq<Node>, prefix: string)
    requires Valid(d)
    ensures TotalLen(Processed(d, items, prefix)) == TotalLen(d) + |LinksIn(items)|
    decreases ForestSize(items), 1
  {
    if items != [] {
      var init, last := items[..|items| - 1], items[|items| - 1];
      ProcessedCount(d, init, prefix);
      SizeOfMember(items, |items| - 1);
      ProcessedItemCount(Processed(d, init, prefix), last, prefix);
    }
  }

  lemma {:induction false} ProcessedItemCount(d: Dict<string, seq<LinkRecord>>, item: Node, prefix: string)
    requires Valid(d)
    ensures TotalLen(ProcessedItem(d, item, prefix)) == TotalLen(d) + |NodeLinks(item)|
    decreases Size(item), 0
  {
    match item
    case Link(_, _, _, _) => AppendTotal(d, CategoryFor(prefix), RecordOf(item));
    case Folder(title, _, k) =>
      ProcessedCount(d, KidsOf(item), SubCategoryName(prefix, title));
      if k.Absent? {
        assert KidsOf(item) == [];
      }
    case Other(_, _) =>
  }

  /** A key is only created when a link is filed: items with no link
    * anywhere below leave the dictionary as it was. */
  lemma {:induction false} ProcessedNoLinks(d: Dict<string, seq<LinkRecord>>, items: seq<Node>, prefix: string)
    requires Valid(d) && LinksIn(items) == []
    ensures Processed(d, items, prefix) == d
    decreases ForestSize(items), 1
  {
    if items != [] {
      var init, last := items[..|items| - 1], items[|items| - 1];
      assert LinksIn(init) == [] && NodeLinks(last) == [];
      ProcessedNoLinks(d, init, prefix);
      SizeOfMember(items, |items| - 1);
      ProcessedItemNoLinks(d, last, prefix);
    }
  }

  lemma {:induction false} ProcessedItemNoLinks(d: Dict<string, seq<LinkRecord>>, item: Node, prefix: string)
    requires Valid(d) && NodeLinks(item) == []
    ensures ProcessedItem(d, item, prefix) == d
    decreases Size(item), 0
  {
    match item
    case Folder(title, _, k) =>
      if k.Present? {
        ProcessedNoLinks(d, KidsOf(item), SubCategoryName(prefix, title));
      }
    case Other(_, _) =>
  }

  /** Links side by side are filed, in order, at the end of one list. */
  lemma {:induction false} ProcessedLinks(d: Dict<string, seq<LinkRecord>>, items: seq<Node>, prefix: string)
    requires Valid(d) && forall i | 0 <= i < |items| :: items[i].Link?
    ensures var r := Processed(d, items, prefix);
            Get(r, CategoryFor(prefix), []) == Get(d, CategoryFor(prefix), []) + Map(items, RecordOf)
  {
    if items != [] {
      var n := |items| - 1;
      var init, last, k := items[..n], items[n], CategoryFor(prefix);
      assert forall i | 0 <= i < |init| :: init[i].Link? by {
        forall i | 0 <= i < |init| ensures init[i].Link? { assert init[i] == items[i]; }
      }
      ProcessedLinks(d, init, prefix);
      var mid := Processed(d, init, prefix);
      assert Processed(d, items, prefix) == Append(mid, k, RecordOf(last));
      assert Map(items, RecordOf) == Map(init, RecordOf) + [RecordOf(last)] by {
        MapStep(items, n, RecordOf);
        assert items[..n + 1] == items;
      }
      ConcatAssoc(Get(d, k, []), Map(init, RecordOf), [RecordOf(last)]);
    }
  }

  // ---------------------------------------------------------------------------
  // process_items, as the script writes it
  // ---------------------------------------------------------------------------

  /** A dictionary of lists that `process_items` fills in place. */
  class TargetDict {
    var content: Dict<string, seq<LinkRecord>>

    constructor()
      ensures content == Empty()
    {
      content := Empty();
    }
  }

  lemma ProcessedStep(d: Dict<string, seq<LinkRecord>>, items: seq<Node>, i: int, prefix: string)
    requires Valid(d) && 0 <= i < |items|
    ensures Processed(d, items[..i + 1], prefix) == ProcessedItem(Processed(d, items[..i], prefix), items[i], prefix)
  {
    assert items[..i + 1][..i] == items[..i];
  }

  /** `process_items(items, target_dict, category_prefix)`: files every
    * reachable link and returns how many it filed. The loop body is
    * `ProcessItem`. */
  method ProcessItems(items: seq<Node>, target: TargetDict, prefix: string) returns (linkCount: nat)
    requires Valid(target.content)
    modifies target
    ensures target.content == Processed(old(target.content), items, prefix)
    ensures TotalLen(target.content) == TotalLen(old(target.content)) + linkCount
    ensures linkCount == |LinksIn(items)|
    decreases ForestSize(items), 1
  {
    linkCount := 0;
    var i := 0;
    while i < |items|
      invariant 0 <= i <= |items|
      invariant target.content == Processed(old(target.content), items[..i], prefix)
      invariant linkCount == |LinksIn(items[..i])|
    {
      SizeOfMember(items, i);
      var sub := ProcessItem(items[i], target, prefix);
      linkCount := linkCount + sub;
      assert target.content == Processed(old(target.content), items[..i + 1], prefix) by {
        ProcessedStep(old(target.content), items, i, prefix);
      }
      assert linkCount == |LinksIn(items[..i + 1])| by {
        LinksInStep(items, i);
      }
      i := i + 1;
    }
    assert items[..i] == items;
    ProcessedCount(old(target.content), items, prefix);
  }

  /** One item of the loop: a link is filed under the current category, a
    * folder is processed under its own sub-category. */
  method ProcessItem(item: Node, target: TargetDict, prefix: string) returns (linkCount: nat)
    requires Valid(target.content)
    modifies target
    ensures target.content == ProcessedItem(old(target.content), item, prefix)
    ensures linkCount == |NodeLinks(item)|
    decreases Size(item), 0
  {
    linkCount := 0;
    if item.Link? {
      target.content := Append(target.content, CategoryFor(prefix), RecordOf(item));
      linkCount := 1;
    } else if item.Folder? {
      var folderTitle := item.title.GetOr("未命名文件夹");
      var children := KidsOf(item);
      var newCategory := if prefix == "" then folderTitle else prefix + " - " + folderTitle;
      assert ForestSize(children) < Size(item);
      linkCount := ProcessItems(children, target, newCategory);
    }
  }

  // ---------------------------------------------------------------------------
  // convert_json_format
  // ---------------------------------------------------------------------------

  /** Every inner dictionary is well formed, and so is the outer one. */
  predicate NavValid(nav: Dict<string, Dict<string, seq<LinkRecord>>>) {
    Valid(nav) && forall k | k in nav.values :: Valid(nav.values[k])
  }

  /** `item.get('title', '')` is 'Other bookmarks' or '其他书签' for a folder. */
  predicate IsOtherBookmarks(n: Node) {
    n.Folder? && (n.title.GetOr("") == "Other bookmarks" || n.title.GetOr("") == "其他书签")
  }

  function FindOtherBookmarks(data: seq<Node>): (r: Option<nat>)
    ensures r.Some? ==> r.value < |data| && IsOtherBookmarks(data[r.value])
                        && forall j | 0 <= j < r.value :: !IsOtherBookmarks(data[j])
    ensures r.None? ==> forall j | 0 <= j < |data| :: !IsOtherBookmarks(data[j])
    decreases |data|
  {
    if data == [] then None
    else if IsOtherBookmarks(data[0]) then Some(0)
    else match FindOtherBookmarks(data[1..])
      case None => None
      case Some(i) => Some(i + 1)
  }

  /** A folder's own category dictionary, built with an empty prefix. */
  function CategoryOf(folder: Node): (r: Dict<string, seq<LinkRecord>>)
    ensures Valid(r)
  {
    Processed(Empty(), KidsOf(folder), "")
  }

  /** The children of the unwrapped folder: a folder becomes a top-level
    * key, a link joins the list "默认分类" of the key "默认分类". */
  function Unwrapped(nav: Dict<string, Dict<string, seq<LinkRecord>>>, children: seq<Node>): (r: Dict<string, Dict<string, seq<LinkRecord>>>)
    requires NavValid(nav)
    ensures NavValid(r)
  {
    if children == [] then nav
    else UnwrapOne(Unwrapped(nav, children[..|children| - 1]), children[|children| - 1])
  }

  function UnwrapOne(nav: Dict<string, Dict<string, seq<LinkRecord>>>, child: Node): (r: Dict<string, Dict<string, seq<LinkRecord>>>)
    requires NavValid(nav)
    ensures NavValid(r)
  {
    if child.Folder? then Put(nav, FolderName(child), CategoryOf(child))
    else if child.Link? then
      var inner := Get(nav, "默认分类", Empty());
      Put(nav, "默认分类", Append(inner, "默认分类", RecordOf(child)))
    else nav
  }

  /** Without the wrapper, every top-level folder becomes a key. */
  function ByFolders(nav: Dict<string, Dict<string, seq<LinkRecord>>>, data: seq<Node>): (r: Dict<string, Dict<string, seq<LinkRecord>>>)
    requires NavValid(nav)
    ensures NavValid(r)
  {
    if data == [] then nav
    else
      var item := data[|data| - 1];
      var before := ByFolders(nav, data[..|data| - 1]);
      if item.Folder? then Put(before, FolderName(item), CategoryOf(item)) else before
  }

  /** `convert_json_format(pintree_data)`. */
  function Converted(data: seq<Node>): (r: Dict<string, Dict<string, seq<LinkRecord>>>)
    ensures NavValid(r)
  {
    match FindOtherBookmarks(data)
    case Some(i) => Unwrapped(Empty(), KidsOf(data[i]))
    case None => ByFolders(Empty(), data)
  }

  /** Without the wrapper, the keys are the names of the top-level folders,
    * and a name's dictionary is built from the last folder of that name. */
  lemma {:induction false} ByFoldersLastWins(nav: Dict<string, Dict<string, seq<LinkRecord>>>, data: seq<Node>, i: int)
    requires NavValid(nav) && 0 <= i < |data| && data[i].Folder?
    requires forall j | i < j < |data| :: !(data[j].Folder? && FolderName(data[j]) == FolderName(data[i]))
    ensures FolderName(data[i]) in ByFolders(nav, data).values
    ensures ByFolders(nav, data).values[FolderName(data[i])] == CategoryOf(data[i])
  {
    var init := data[..|data| - 1];
    if i < |data| - 1 {
      ByFoldersLastWins(nav, init, i);
    }
  }

  /** Only the names of top-level folders become keys. */
  lemma {:induction false} ByFoldersKeys(nav: Dict<string, Dict<string, seq<LinkRecord>>>, data: seq<Node>, k: string)
    requires NavValid(nav) && k in ByFolders(nav, data).values && k !in nav.values
    ensures exists i | 0 <= i < |data| :: data[i].Folder? && FolderName(data[i]) == k
  {
    var init, item := data[..|data| - 1], data[|data| - 1];
    if item.Folder? && FolderName(item) == k {
      assert data[|data| - 1].Folder? && FolderName(data[|data| - 1]) == k;
    } else {
      ByFoldersKeys(nav, init, k);
      var i :| 0 <= i < |init| && init[i].Folder? && FolderName(init[i]) == k;
      assert data[i] == init[i];
    }
  }

  /** The key a child of the unwrapped folder writes, if any. */
  function Writes(child: Node): Option<string> {
    if child.Folder? then Some(FolderName(child)) else if child.Link? then Some("默认分类") else None
  }

  /** Inside the wrapper, a folder child becomes a key whose dictionary is
    * built from it, unless a later child writes the same key. */
  lemma {:induction false} UnwrappedLastWins(nav: Dict<string, Dict<string, seq<LinkRecord>>>, children: seq<Node>, i: int)
    requires NavValid(nav) && 0 <= i < |children| && children[i].Folder?
    requires forall j | i < j < |children| :: Writes(children[j]) != Some(FolderName(children[i]))
    ensures FolderName(children[i]) in Unwrapped(nav, children).values
    ensures Unwrapped(nav, children).values[FolderName(children[i])] == CategoryOf(children[i])
  {
    var init, last := children[..|children| - 1], children[|children| - 1];
    if i < |children| - 1 {
      UnwrappedLastWins(nav, init, i);
      assert Writes(last) != Some(FolderName(children[i]));
    }
  }

  /** A direct link of the wrapper extends the list "默认分类" under "默认分类". */
  lemma UnwrapLink(nav: Dict<string, Dict<string, seq<LinkRecord>>>, link: Node)
    requires NavValid(nav) && link.Link?
    ensures Get(Get(UnwrapOne(nav, link), "默认分类", Empty()), "默认分类", [])
            == Get(Get(nav, "默认分类", Empty()), "默认分类", []) + [RecordOf(link)]
  {
    var inner := Get(nav, "默认分类", Empty());
    var appended := Append(inner, "默认分类", RecordOf(link));
    assert UnwrapOne(nav, link) == Put(nav, "默认分类", appended);
    assert Get(UnwrapOne(nav, link), "默认分类", Empty()) == appended;
  }

  /** Inside the wrapper, direct links after the last folder named "默认分类"
    * are appended, in order, to the list "默认分类" under the key "默认分类". */
  lemma {:induction false} UnwrappedDefaultLinks(nav: Dict<string, Dict<string, seq<LinkRecord>>>, children: seq<Node>)
    requires NavValid(nav) && forall j | 0 <= j < |children| :: children[j].Link?
    ensures var before := Get(Get(nav, "默认分类", Empty()), "默认分类", []);
            var after := Get(Get(Unwrapped(nav, children), "默认分类", Empty()), "默认分类", []);
            after == before + Map(children, RecordOf)
  {
    if children != [] {
      var init, last := children[..|children| - 1], children[|children| - 1];
      assert init + [last] == children;
      UnwrappedDefaultLinks(nav, init);
      var before := Get(Get(nav, "默认分类", Empty()), "默认分类", []);
      var mid := Get(Get(Unwrapped(nav, init), "默认分类", Empty()), "默认分类", []);
      assert mid == before + Map(init, RecordOf);
      assert Unwrapped(nav, children) == UnwrapOne(Unwrapped(nav, init), last);
      UnwrapLink(Unwrapped(nav, init), last);
      MapAppend(init, [last], RecordOf);
      MapSingleton(last, RecordOf);
      assert Map(children, RecordOf) == Map(init, RecordOf) + [RecordOf(last)];
      ConcatAssoc(before, Map(init, RecordOf), [RecordOf(last)]);
    }
  }

  // ---------------------------------------------------------------------------
  // convert_json_format, as the script writes it
  // ---------------------------------------------------------------------------

  /** The search for the wrapper, stopping at the first one. */
  method FindOtherBookmarksFolder(data: seq<Node>) returns (found: Option<nat>)
    ensures found == FindOtherBookmarks(data)
  {
    found := None;
    var i := 0;
    while i < |data|
      invariant 0 <= i <= |data|
      invariant forall j | 0 <= j < i :: !IsOtherBookmarks(data[j])
    {
      if IsOtherBookmarks(data[i]) {
        found := Some(i);
        break;
      }
      i := i + 1;
    }
    FirstIsUnique(data, found);
  }

  lemma FirstIsUnique(data: seq<Node>, found: Option<nat>)
    requires found.Some? ==> found.value < |data| && IsOtherBookmarks(data[found.value])
                             && forall j | 0 <= j < found.value :: !IsOtherBookmarks(data[j])
    requires found.None? ==> forall j | 0 <= j < |data| :: !IsOtherBookmarks(data[j])
    ensures found == FindOtherBookmarks(data)
  {
  }

  /** A folder's dictionary, filled in place by `process_items`. */
  method BuildCategory(folder: Node) returns (category: Dict<string, seq<LinkRecord>>)
    ensures category == CategoryOf(folder)
  {
    var target := new TargetDict();
    var _ := ProcessItems(KidsOf(folder), target, "");
    category := target.content;
  }

  /** `convert_json_format(pintree_data)`. */
  method ConvertJsonFormat(data: seq<Node>) returns (navigationData: Dict<string, Dict<string, seq<LinkRecord>>>)
    ensures navigationData == Converted(data)
  {
    var other := FindOtherBookmarksFolder(data);
    if other.Some? {
      navigationData := UnwrapChildren(KidsOf(data[other.value]));
    } else {
      navigationData := ConvertTopFolders(data);
    }
  }

  /** The loop over the children of "Other bookmarks". */
  method UnwrapChildren(children: seq<Node>) returns (navigationData: Dict<string, Dict<string, seq<LinkRecord>>>)
    ensures navigationData == Unwrapped(Empty(), children)
  {
    navigationData := Empty();
    var i := 0;
    while i < |children|
      invariant 0 <= i <= |children|
      invariant navigationData == Unwrapped(Empty(), children[..i])
    {
      assert children[..i + 1][..i] == children[..i];
      var child := children[i];
      if child.Folder? {
        var category := BuildCategory(child);
        navigationData := Put(navigationData, FolderName(child), category);
      } else if child.Link? {
        var inner := Get(navigationData, "默认分类", Empty());
        navigationData := Put(navigationData, "默认分类", Append(inner, "默认分类", RecordOf(child)));
      }
      i := i + 1;
    }
    assert children[..i] == children;
  }

  /** The loop over the top-level folders, without the wrapper. */
  method ConvertTopFolders(data: seq<Node>) returns (navigationData: Dict<string, Dict<string, seq<LinkRecord>>>)
    ensures navigationData == ByFolders(Empty(), data)
  {
    navigationData := Empty();
    var i := 0;
    while i < |data|
      invariant 0 <= i <= |data|
      invariant navigationData == ByFolders(Empty(), data[..i])
    {
      assert data[..i + 1][..i] == data[..i];
      var item := data[i];
      if item.Folder? {
        var category := BuildCategory(item);
        navigationData := Put(navigationData, FolderName(item), category);
      }
      i := i + 1;
    }
    assert data[..i] == data;
  }
}
