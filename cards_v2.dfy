/**
 * Card page v2.0: the links below the "Bookmarks bar" become resource cards
 * with a category, tags and a description, newest first; the page filters
 * them by a query and a category tab and shows them twelve at a time.
 */
module CardsV2 {
  import opened Bookmarks
  import opened Text
  import opened Seqs

  /** A resource card's data; the random `id` is not modelled. */
  datatype Resource = Resource(title: Option<string>, url: Option<string>, icon: Option<string>,
                               category: string, tags: seq<string>, description: string,
                               timestamp: Option<int>)

  // ---------------------------------------------------------------------------
  // Lookups
  // ---------------------------------------------------------------------------

  /** `getCategoryFromFolder`: three folder names are known, every other
    * name (or none) is 'resources'. */
  function GetCategoryFromFolder(folderName: Option<string>): (r: string)
    ensures r == "tools" <==> folderName == Some("ToGo")
    ensures r == "study" <==> folderName == Some("ToStudy") || folderName == Some("写作")
    ensures r == "resources" <==> !(folderName in {Some("ToGo"), Some("ToStudy"), Some("写作")})
  {
    match folderName
    case Some("ToGo") => "tools"
    case Some("ToStudy") => "study"
    case Some("写作") => "study"
    case _ => "resources"
  }

  /** The result is never the empty string, so `subCategory || category`
    * always takes the sub-folder's category. */
  lemma CategoryNeverFalsy(folderName: Option<string>)
    ensures GetCategoryFromFolder(folderName) != ""
  {
  }

  /** `generateDescription(title, category)`: one sentence per known category. */
  function GenerateDescription(category: string): (r: string)
    ensures category !in {"tools", "study", "entertainment", "resources"} ==> r == "精选实用资源，值得收藏"
  {
    match category
    case "tools" => "实用的在线工具，提升工作效率"
    case "study" => "学习资源，助力知识积累"
    case "entertainment" => "娱乐资源，丰富休闲时光"
    case "resources" => "精选资源，发现更多可能"
    case _ => "精选实用资源，值得收藏"
  }

  /** `getCategoryName(category)`: the tab label of a category. */
  function GetCategoryName(category: string): (r: string)
    ensures category !in {"tools", "study", "entertainment", "resources"} ==> r == "其他"
  {
    match category
    case "tools" => "工具"
    case "study" => "学习"
    case "entertainment" => "娱乐"
    case "resources" => "资源"
    case _ => "其他"
  }

  /** Every category the folder names map to has its own description and label. */
  lemma FolderCategoriesKnown(folderName: Option<string>)
    ensures GenerateDescription(GetCategoryFromFolder(folderName)) != "精选实用资源，值得收藏"
    ensures GetCategoryName(GetCategoryFromFolder(folderName)) != "其他"
  {
  }

  // ---------------------------------------------------------------------------
  // extractTags
  // ---------------------------------------------------------------------------

  /** The tags `extractTags` can emit, in the order it tests them. */
  const TagOrder: seq<string> := ["AI", "免费", "在线工具", "下载", "视频", "音乐", "图片", "学习", "开发", "设计"]

  /** The title fragments that earn each tag. */
  function Keywords(tag: string): seq<string> {
    match tag
    case "AI" => ["ai", "人工智能"]
    case "免费" => ["免费"]
    case "在线工具" => ["在线"]
    case "下载" => ["下载"]
    case "视频" => ["视频"]
    case "音乐" => ["音乐"]
    case "图片" => ["图片", "图像"]
    case "学习" => ["学习", "教育"]
    case "开发" => ["开发", "编程"]
    case "设计" => ["设计"]
    case _ => []
  }

  predicate ContainsAny(s: string, fragments: seq<string>) {
    exists i | 0 <= i < |fragments| :: Contains(s, fragments[i])
  }

  predicate Earns(lowerTitle: string, tag: string) {
    ContainsAny(lowerTitle, Keywords(tag))
  }

  lemma TagOrderDistinct()
    ensures Distinct(TagOrder)
  {
  }

  /** The tags earned by a lower-cased title, in the fixed order. */
  function Earned(lowerTitle: string): (r: seq<string>)
    ensures forall t | t in r :: t in TagOrder && Earns(lowerTitle, t)
    ensures forall t | t in TagOrder && Earns(lowerTitle, t) :: t in r
  {
    var earns := t => Earns(lowerTitle, t);
    FilterMembers(TagOrder, earns);
    Filter(TagOrder, earns)
  }

  /** `extractTags(title)`: the earned tags, or '实用工具' when there are none. */
  function ExtractTags(title: string): (tags: seq<string>)
    ensures |tags| >= 1
  {
    var earned := Earned(Lower(title));
    if |earned| > 0 then earned else ["实用工具"]
  }

  /** Each tag of the fixed order is emitted exactly when one of its
    * fragments occurs in the lower-cased title. */
  lemma ExtractTagsEarned(title: string, t: string)
    requires t in TagOrder
    ensures t in ExtractTags(title) <==> Earns(Lower(title), t)
  {
    assert "实用工具" != t;
  }

  /** '实用工具' stands alone exactly when no tag is earned. */
  lemma ExtractTagsFallback(title: string)
    ensures ExtractTags(title) == ["实用工具"] <==> forall t | t in TagOrder :: !Earns(Lower(title), t)
  {
    var earned := Earned(Lower(title));
    if |earned| > 0 {
      assert earned[0] in earned;
      assert earned[0] != "实用工具";
    }
  }

  /** No tag is emitted twice. */
  lemma ExtractTagsDistinct(title: string)
    ensures Distinct(ExtractTags(title))
  {
    TagOrderDistinct();
    FilterDistinct(TagOrder, t => Earns(Lower(title), t));
  }

  // ---------------------------------------------------------------------------
  // parseBookmarksData
  // ---------------------------------------------------------------------------

  function ResourceOf(link: Node, category: string): (r: Resource)
    requires link.Link?
  {
    var title := link.title.GetOr("");
    Resource(link.title, link.url, link.icon, category, ExtractTags(title), GenerateDescription(category), link.addDate)
  }

  /** The links among `items`, under `category`; folders are not entered. */
  function LinkResources(items: seq<Node>, category: string): seq<Resource> {
    if items == [] then []
    else
      var last := items[|items| - 1];
      LinkResources(items[..|items| - 1], category) + (if last.Link? then [ResourceOf(last, category)] else [])
  }

  /** One child of a folder of the bar: a link is categorised by the folder,
    * a folder with `children` contributes its own links, categorised by its
    * own title. */
  function ChildResources(child: Node, category: string): seq<Resource> {
    if child.Link? then [ResourceOf(child, category)]
    else if child.Folder? && child.children.Present? then
      LinkResources(child.children.items, GetCategoryFromFolder(child.title))
    else []
  }

  function FolderResources(children: seq<Node>, category: string): seq<Resource> {
    if children == [] then []
    else FolderResources(children[..|children| - 1], category) + ChildResources(children[|children| - 1], category)
  }

  /** The children of the bar: only those with `children` are read. */
  function BarResources(folders: seq<Node>): seq<Resource> {
    if folders == [] then []
    else
      var f := folders[|folders| - 1];
      BarResources(folders[..|folders| - 1])
      + (if ChildrenKey(f).Present? then FolderResources(KidsOf(f), GetCategoryFromFolder(f.title)) else [])
  }

  /** Every root titled "Bookmarks bar" with `children` is read, in order. */
  function Collected(data: seq<Node>): seq<Resource> {
    if data == [] then []
    else
      var item := data[|data| - 1];
      Collected(data[..|data| - 1])
      + (if item.title == Some("Bookmarks bar") && ChildrenKey(item).Present? then BarResources(KidsOf(item)) else [])
  }

  // ---------------------------------------------------------------------------
  // The sort: newest first, a missing timestamp counting as 0
  // ---------------------------------------------------------------------------

  function Key(r: Resource): int {
    r.timestamp.GetOr(0)
  }

  predicate SortedDesc(s: seq<Resource>) {
    forall i, j | 0 <= i < j < |s| :: Key(s[i]) >= Key(s[j])
  }

  function Insert(r: Resource, s: seq<Resource>): seq<Resource> {
    if s == [] then [r]
    else if Key(r) >= Key(s[0]) then [r] + s
    else [s[0]] + Insert(r, s[1..])
  }

  /** `Array.prototype.sort` with the comparator `(b.timestamp || 0) - (a.timestamp || 0)`. */
  function SortByTimestamp(s: seq<Resource>): seq<Resource> {
    if s == [] then [] else Insert(s[0], SortByTimestamp(s[1..]))
  }

  lemma {:induction false} InsertPermutes(r: Resource, s: seq<Resource>)
    ensures multiset(Insert(r, s)) == multiset(s) + multiset{r}
  {
    if s != [] && Key(r) < Key(s[0]) {
      InsertPermutes(r, s[1..]);
      assert s == [s[0]] + s[1..];
    }
  }

  /** Inserting keeps every key at most `b` when all were before. */
  lemma InsertBounded(r: Resource, s: seq<Resource>, b: int)
    requires Key(r) <= b && forall i | 0 <= i < |s| :: Key(s[i]) <= b
    ensures forall i | 0 <= i < |Insert(r, s)| :: Key(Insert(r, s)[i]) <= b
  {
    InsertPermutes(r, s);
    forall i | 0 <= i < |Insert(r, s)| ensures Key(Insert(r, s)[i]) <= b {
      var x := Insert(r, s)[i];
      assert x in multiset(Insert(r, s));
      if x != r {
        assert x in multiset(s);
        var k :| 0 <= k < |s| && s[k] == x;
      }
    }
  }

  lemma ConsSorted(x: Resource, rest: seq<Resource>)
    requires SortedDesc(rest) && forall i | 0 <= i < |rest| :: Key(rest[i]) <= Key(x)
    ensures SortedDesc([x] + rest)
  {
    var out := [x] + rest;
    forall i, j | 0 <= i < j < |out| ensures Key(out[i]) >= Key(out[j]) {
      assert out[j] == rest[j - 1];
      if i > 0 {
        assert out[i] == rest[i - 1];
      }
    }
  }

  lemma {:induction false} InsertSorted(r: Resource, s: seq<Resource>)
    requires SortedDesc(s)
    ensures SortedDesc(Insert(r, s))
  {
    if s == [] {
    } else if Key(r) >= Key(s[0]) {
      ConsSorted(r, s);
    } else {
      var tail := s[1..];
      assert SortedDesc(tail);
      InsertSorted(r, tail);
      InsertBounded(r, tail, Key(s[0]));
      ConsSorted(s[0], Insert(r, tail));
    }
  }

  /** The sort orders by timestamp, newest first, and loses or adds nothing. */
  lemma {:induction false} SortByTimestampCorrect(s: seq<Resource>)
    ensures SortedDesc(SortByTimestamp(s))
    ensures multiset(SortByTimestamp(s)) == multiset(s)
  {
    if s != [] {
      SortByTimestampCorrect(s[1..]);
      InsertSorted(s[0], SortByTimestamp(s[1..]));
      InsertPermutes(s[0], SortByTimestamp(s[1..]));
      assert s == [s[0]] + s[1..];
    }
  }

  /** The resources whose timestamp key is `k`. */
  function KeyIs(k: int): Resource -> bool {
    (r: Resource) => Key(r) == k
  }

  /** Inserting puts `r` ahead of every resource of the same key. */
  /** For a predicate that holds within one timestamp key only, inserting
    * puts `r` ahead of every resource the predicate keeps. */
  lemma {:induction false} InsertKeepsTies(r: Resource, s: seq<Resource>, p: Resource -> bool)
    requires forall x, y | p(x) && p(y) :: Key(x) == Key(y)
    ensures Filter(Insert(r, s), p) == (if p(r) then [r] else []) + Filter(s, p)
  {
    if s == [] || Key(r) >= Key(s[0]) {
      assert Insert(r, s) == [r] + s;
      FilterCons(r, s, p);
    } else {
      var head, tail := s[0], s[1..];
      assert s == [head] + tail;
      assert Insert(r, s) == [head] + Insert(r, tail);
      InsertKeepsTies(r, tail, p);
      FilterCons(head, Insert(r, tail), p);
      FilterCons(head, tail, p);
    }
  }

  /** The sort is stable, as `Array.prototype.sort` is required to be: the
    * resources of any one timestamp key keep their input order. With
    * `SortByTimestampCorrect` this fixes the output completely. */
  lemma {:induction false} SortByTimestampStable(s: seq<Resource>, k: int)
    ensures Filter(SortByTimestamp(s), KeyIs(k)) == Filter(s, KeyIs(k))
  {
    if s != [] {
      SortByTimestampStable(s[1..], k);
      InsertKeepsTies(s[0], SortByTimestamp(s[1..]), KeyIs(k));
      FilterCons(s[0], s[1..], KeyIs(k));
      assert s == [s[0]] + s[1..];
    }
  }

  /** `parseBookmarksData(data)`. */
  function Parsed(data: seq<Node>): seq<Resource> {
    SortByTimestamp(Collected(data))
  }

  // ---------------------------------------------------------------------------
  // What the resources carry
  // ---------------------------------------------------------------------------

  predicate WellLabelled(r: Resource) {
    r.category in {"tools", "study", "resources"}
    && r.description == GenerateDescription(r.category)
    && |r.tags| >= 1
  }

  lemma {:induction false} LinkResourcesLabelled(items: seq<Node>, category: string)
    requires category in {"tools", "study", "resources"}
    ensures forall r | r in LinkResources(items, category) :: WellLabelled(r) && r.category == category
  {
    if items != [] {
      LinkResourcesLabelled(items[..|items| - 1], category);
    }
  }

  lemma {:induction false} FolderResourcesLabelled(children: seq<Node>, category: string)
    requires category in {"tools", "study", "resources"}
    ensures forall r | r in FolderResources(children, category) :: WellLabelled(r)
  {
    if children != [] {
      var child := children[|children| - 1];
      FolderResourcesLabelled(children[..|children| - 1], category);
      if child.Folder? && child.children.Present? {
        LinkResourcesLabelled(child.children.items, GetCategoryFromFolder(child.title));
      }
    }
  }

  lemma {:induction false} BarResourcesLabelled(folders: seq<Node>)
    ensures forall r | r in BarResources(folders) :: WellLabelled(r)
  {
    if folders != [] {
      var f := folders[|folders| - 1];
      BarResourcesLabelled(folders[..|folders| - 1]);
      FolderResourcesLabelled(KidsOf(f), GetCategoryFromFolder(f.title));
    }
  }

  lemma {:induction false} CollectedLabelled(data: seq<Node>)
    ensures forall r | r in Collected(data) :: WellLabelled(r)
  {
    if data != [] {
      var item := data[|data| - 1];
      CollectedLabelled(data[..|data| - 1]);
      BarResourcesLabelled(KidsOf(item));
    }
  }

  /** The parsed resources are the collected ones, newest first; every one
    * has a known category, that category's description and a tag. */
  lemma ParsedCorrect(data: seq<Node>)
    ensures SortedDesc(Parsed(data))
    ensures multiset(Parsed(data)) == multiset(Collected(data))
    ensures forall r | r in Parsed(data) :: WellLabelled(r)
  {
    SortByTimestampCorrect(Collected(data));
    CollectedLabelled(data);
    forall r | r in Parsed(data) ensures WellLabelled(r) {
      assert r in multiset(Parsed(data));
    }
  }

  /** A sub-folder contributes only the links directly inside it: with no
    * link among its children it contributes nothing, whatever lies deeper. */
  lemma DeeperFoldersDropped(child: Node, category: string)
    requires child.Folder? && child.children.Present?
    requires forall i | 0 <= i < |child.children.items| :: !child.children.items[i].Link?
    ensures ChildResources(child, category) == []
  {
    NoLinksNoResources(child.children.items, GetCategoryFromFolder(child.title));
  }

  lemma {:induction false} NoLinksNoResources(items: seq<Node>, category: string)
    requires forall i | 0 <= i < |items| :: !items[i].Link?
    ensures LinkResources(items, category) == []
  {
    if items != [] {
      NoLinksNoResources(items[..|items| - 1], category);
    }
  }

  // ---------------------------------------------------------------------------
  // The accumulating traversal the script writes
  // ---------------------------------------------------------------------------

  method PushLinks(items: seq<Node>, category: string, acc: seq<Resource>) returns (out: seq<Resource>)
    ensures out == acc + LinkResources(items, category)
  {
    out := acc;
    var i := 0;
    while i < |items|
      invariant 0 <= i <= |items|
      invariant out == acc + LinkResources(items[..i], category)
    {
      assert items[..i + 1][..i] == items[..i];
      ghost var done := LinkResources(items[..i], category);
      if items[i].Link? {
        out := out + [ResourceOf(items[i], category)];
        ConcatAssoc(acc, done, [ResourceOf(items[i], category)]);
      }
      i := i + 1;
    }
    assert items[..i] == items;
  }

  lemma FolderResourcesStep(children: seq<Node>, i: int, category: string)
    requires 0 <= i < |children|
    ensures FolderResources(children[..i + 1], category)
            == FolderResources(children[..i], category) + ChildResources(children[i], category)
  {
    assert children[..i + 1][..i] == children[..i];
  }

  /** One turn of the loop over a folder's children keeps its invariant. */
  lemma PushFolderStep(children: seq<Node>, i: int, category: string, acc: seq<Resource>, before: seq<Resource>, after: seq<Resource>)
    requires 0 <= i < |children|
    requires before == acc + FolderResources(children[..i], category)
    requires after == before + ChildResources(children[i], category)
    ensures after == acc + FolderResources(children[..i + 1], category)
  {
    FolderResourcesStep(children, i, category);
    ConcatAssoc(acc, FolderResources(children[..i], category), ChildResources(children[i], category));
  }

  /** The `forEach` callback over a folder's children: a link is pushed
    * under the folder's category, a sub-folder's links under its own. */
  method PushChild(child: Node, category: string, acc: seq<Resource>) returns (out: seq<Resource>)
    ensures out == acc + ChildResources(child, category)
  {
    if child.Link? {
      out := acc + [ResourceOf(child, category)];
    } else if child.Folder? && child.children.Present? {
      var subCategory := GetCategoryFromFolder(child.title);
      out := PushLinks(child.children.items, subCategory, acc);
    } else {
      out := acc;
    }
  }

  method PushFolder(children: seq<Node>, category: string, acc: seq<Resource>) returns (out: seq<Resource>)
    ensures out == acc + FolderResources(children, category)
  {
    out := acc;
    var i := 0;
    while i < |children|
      invariant 0 <= i <= |children|
      invariant out == acc + FolderResources(children[..i], category)
    {
      ghost var prev := out;
      out := PushChild(children[i], category, out);
      PushFolderStep(children, i, category, acc, prev, out);
      i := i + 1;
    }
    assert children[..i] == children;
  }

  method PushBar(folders: seq<Node>, acc: seq<Resource>) returns (out: seq<Resource>)
    ensures out == acc + BarResources(folders)
  {
    out := acc;
    var i := 0;
    while i < |folders|
      invariant 0 <= i <= |folders|
      invariant out == acc + BarResources(folders[..i])
    {
      assert folders[..i + 1][..i] == folders[..i];
      ghost var done := BarResources(folders[..i]);
      var folder := folders[i];
      if ChildrenKey(folder).Present? {
        var category := GetCategoryFromFolder(folder.title);
        out := PushFolder(KidsOf(folder), category, out);
        ConcatAssoc(acc, done, FolderResources(KidsOf(folder), category));
      }
      i := i + 1;
    }
    assert folders[..i] == folders;
  }

  /** `parseBookmarksData(data)`: collect, then sort. */
  method ParseBookmarksData(data: seq<Node>) returns (resources: seq<Resource>)
    ensures resources == Parsed(data)
    ensures SortedDesc(resources) && multiset(resources) == multiset(Collected(data))
  {
    resources := [];
    var i := 0;
    while i < |data|
      invariant 0 <= i <= |data|
      invariant resources == Collected(data[..i])
    {
      assert data[..i + 1][..i] == data[..i];
      var item := data[i];
      if item.title == Some("Bookmarks bar") && ChildrenKey(item).Present? {
        resources := PushBar(KidsOf(item), resources);
      }
      i := i + 1;
    }
    assert data[..i] == data;
    resources := SortByTimestamp(resources);
    ParsedCorrect(data);
  }

  // ---------------------------------------------------------------------------
  // filterResources
  // ---------------------------------------------------------------------------

  predicate AnyTagContains(tags: seq<string>, query: string) {
    exists i | 0 <= i < |tags| :: Contains(Lower(tags[i]), query)
  }

  /** The search half of the condition; an empty query matches everything. */
  predicate MatchesSearch(query: string, r: Resource) {
    query == ""
    || Contains(Lower(r.title.GetOr("")), query)
    || Contains(Lower(r.description), query)
    || AnyTagContains(r.tags, query)
  }

  predicate MatchesCategory(category: string, r: Resource) {
    category == "all" || r.category == category
  }

  predicate Keep(query: string, category: string, r: Resource) {
    MatchesSearch(query, r) && MatchesCategory(category, r)
  }

  /** `filterResources(query)` under the current tab: a copy of everything
    * for no query and the 'all' tab, else the matching resources in order. */
  function Filtered(all: seq<Resource>, query: string, category: string): (r: seq<Resource>)
    ensures forall x | x in r :: x in all && Keep(query, category, x)
    ensures forall x | x in all && Keep(query, category, x) :: x in r
  {
    var keep := x => Keep(query, category, x);
    FilterMembers(all, keep);
    if query == "" && category == "all" then all else Filter(all, keep)
  }

  /** The copy taken for no query and the 'all' tab is what filtering would keep anyway. */
  lemma FilteredIsFilter(all: seq<Resource>, query: string, category: string)
    ensures Filtered(all, query, category) == Filter(all, x => Keep(query, category, x))
  {
    if query == "" && category == "all" {
      FilterAll(all, x => Keep(query, category, x));
    }
  }

  /** Filtering keeps the newest-first order. */
  lemma {:induction false} FilterKeepsSorted(s: seq<Resource>, p: Resource -> bool)
    requires SortedDesc(s)
    ensures SortedDesc(Filter(s, p))
  {
    if s != [] {
      var init := s[..|s| - 1];
      FilterKeepsSorted(init, p);
      FilterMembers(init, p);
      forall x | x in Filter(init, p) ensures Key(x) >= Key(s[|s| - 1]) {
        var k :| 0 <= k < |init| && init[k] == x;
      }
    }
  }

  // ---------------------------------------------------------------------------
  // renderResources: a finding and its correction
  // ---------------------------------------------------------------------------

  const ItemsPerPage: nat := 12

  /** A child of the grid element. */
  datatype Cell = Card(resource: Resource) | NoResultsMessage

  function Cards(s: seq<Resource>): (cells: seq<Cell>)
    ensures |cells| == |s| && forall i | 0 <= i < |s| :: cells[i] == Card(s[i])
  {
    Map(s, r => Card(r))
  }

  function Min(a: int, b: int): int { if a <= b then a else b }

  /** `filteredResources.slice(0, currentPage * itemsPerPage)`. */
  function Shown(filtered: seq<Resource>, page: nat): seq<Resource> {
    filtered[..Min(page * ItemsPerPage, |filtered|)]
  }

  /** The grid after `renderResources` as written: the grid is emptied on
    * the first page only, yet every page appends the cards from the first. */
  function RenderedAsWritten(grid: seq<Cell>, filtered: seq<Resource>, page: nat): seq<Cell> {
    var shown := Shown(filtered, page);
    var base := if page == 1 then [] else grid;
    if shown == [] then [NoResultsMessage] else base + Cards(shown)
  }

  /** Loading a second page after the first shows the first twelve cards twice. */
  lemma LoadMoreDuplicatesFirstPage(filtered: seq<Resource>)
    requires |filtered| >= 13
    ensures var page1 := RenderedAsWritten([], filtered, 1);
            var page2 := RenderedAsWritten(page1, filtered, 2);
            |page2| == 12 + Min(24, |filtered|)
            && page2[0] == Card(filtered[0]) && page2[12] == Card(filtered[0])
  {
  }

  /** The grid `renderResources` is evidently meant to leave: the first
    * `page * 12` filtered cards, each once, or the message when there are none. */
  function Rendered(filtered: seq<Resource>, page: nat): (cells: seq<Cell>)
    ensures filtered == [] || page == 0 ==> cells == [NoResultsMessage]
    ensures filtered != [] && page >= 1 ==>
              |cells| == Min(page * ItemsPerPage, |filtered|)
              && forall i | 0 <= i < |cells| :: cells[i] == Card(filtered[i])
  {
    var shown := Shown(filtered, page);
    if shown == [] then [NoResultsMessage] else Cards(shown)
  }

  /** On the first page the script and the correction agree. */
  lemma FirstPageAgrees(grid: seq<Cell>, filtered: seq<Resource>)
    ensures RenderedAsWritten(grid, filtered, 1) == Rendered(filtered, 1)
  {
  }

  // ---------------------------------------------------------------------------
  // The page state
  // ---------------------------------------------------------------------------

  /** The script's globals and the part of the page the data decides. */
  class Page {
    var allResources: seq<Resource>
    var filteredResources: seq<Resource>
    var currentPage: nat
    var currentCategory: string
    var grid: seq<Cell>
    var loadMoreVisible: bool
    /** The figure `updateStats` shows. */
    var totalCount: nat

    constructor()
      ensures allResources == [] && filteredResources == [] && currentPage == 1 && currentCategory == "all"
      ensures grid == [] && !loadMoreVisible && totalCount == 0
    {
      allResources := [];
      filteredResources := [];
      currentPage := 1;
      currentCategory := "all";
      grid := [];
      loadMoreVisible := false;
      totalCount := 0;
    }

    /** The "load more" button after a render: shown exactly when resources
      * remain beyond the current page, and left as it was (`before`) when
      * the render shows nothing. */
    ghost predicate LoadMoreShown(before: bool)
      reads this
    {
      if Shown(filteredResources, currentPage) != [] then
        loadMoreVisible == (currentPage * ItemsPerPage < |filteredResources|)
      else loadMoreVisible == before
    }

    /** `loadResources` once the JSON is parsed. */
    method LoadResources(data: seq<Node>)
      modifies this
      ensures allResources == Parsed(data) && filteredResources == Parsed(data)
      ensures currentPage == old(currentPage) && currentCategory == old(currentCategory)
      ensures grid == old(grid) && loadMoreVisible == old(loadMoreVisible) && totalCount == old(totalCount)
    {
      allResources := ParseBookmarksData(data);
      filteredResources := allResources;
    }

    /** `renderResources`, corrected to rebuild the grid on every page. The
      * load-more button is left alone when nothing is shown. */
    method RenderResources()
      modifies this
      ensures grid == Rendered(filteredResources, currentPage)
      ensures LoadMoreShown(old(loadMoreVisible))
      ensures allResources == old(allResources) && filteredResources == old(filteredResources)
      ensures currentPage == old(currentPage) && currentCategory == old(currentCategory)
      ensures totalCount == old(totalCount)
    {
      var endIndex := currentPage * ItemsPerPage;
      var resourcesToShow := filteredResources[..Min(endIndex, |filteredResources|)];
      if resourcesToShow == [] {
        grid := [NoResultsMessage];
        return;
      }
      grid := Cards(resourcesToShow);
      loadMoreVisible := endIndex < |filteredResources|;
    }

    /** `updateStats`: the number of filtered resources. */
    method UpdateStats()
      modifies this
      ensures totalCount == |filteredResources|
      ensures allResources == old(allResources) && filteredResources == old(filteredResources)
      ensures currentPage == old(currentPage) && currentCategory == old(currentCategory)
      ensures grid == old(grid) && loadMoreVisible == old(loadMoreVisible)
    {
      totalCount := |filteredResources|;
    }

    /** `filterResources(query)`. */
    method FilterResources(query: string)
      modifies this
      ensures filteredResources == Filtered(allResources, query, currentCategory)
      ensures grid == Rendered(filteredResources, currentPage) && totalCount == |filteredResources|
      ensures LoadMoreShown(old(loadMoreVisible))
      ensures allResources == old(allResources) && currentPage == old(currentPage)
      ensures currentCategory == old(currentCategory)
    {
      if query == "" && currentCategory == "all" {
        filteredResources := allResources;
      } else {
        var category := currentCategory;
        filteredResources := Filter(allResources, x => Keep(query, category, x));
      }
      RenderResources();
      UpdateStats();
    }

    /** `performSearch` on the input's value: back to the first page. */
    method PerformSearch(input: string)
      modifies this
      ensures currentPage == 1 && currentCategory == old(currentCategory)
      ensures filteredResources == Filtered(allResources, Strip(Js, Lower(input)), currentCategory)
      ensures grid == Rendered(filteredResources, 1) && totalCount == |filteredResources|
      ensures LoadMoreShown(old(loadMoreVisible))
      ensures allResources == old(allResources)
    {
      var query := Strip(Js, Lower(input));
      currentPage := 1;
      FilterResources(query);
    }

    /** A click on a category tab: back to the first page, and the query is
      * not passed on, so the tab alone decides. */
    method SelectTab(category: string)
      modifies this
      ensures currentPage == 1 && currentCategory == category
      ensures filteredResources == Filtered(allResources, "", category)
      ensures grid == Rendered(filteredResources, 1) && totalCount == |filteredResources|
      ensures LoadMoreShown(old(loadMoreVisible))
      ensures allResources == old(allResources)
    {
      currentCategory := category;
      currentPage := 1;
      FilterResources("");
    }

    /** `loadMore`: one more page of the same filtered resources. */
    method LoadMore()
      modifies this
      ensures currentPage == old(currentPage) + 1
      ensures grid == Rendered(filteredResources, currentPage)
      ensures LoadMoreShown(old(loadMoreVisible)) && totalCount == old(totalCount)
      ensures filteredResources == old(filteredResources) && allResources == old(allResources)
      ensures currentCategory == old(currentCategory)
    {
      currentPage := currentPage + 1;
      RenderResources();
    }

    /** `initializeApp` once the JSON is parsed. */
    method InitializeApp(data: seq<Node>)
      requires currentPage == 1
      modifies this
      ensures allResources == Parsed(data) && filteredResources == Parsed(data)
      ensures grid == Rendered(Parsed(data), 1) && totalCount == |Parsed(data)|
      ensures currentPage == 1 && LoadMoreShown(old(loadMoreVisible))
      ensures currentCategory == old(currentCategory)
    {
      LoadResources(data);
      RenderResources();
      UpdateStats();
    }
  }
}
