/**
 * The older navigation extractor: three levels of open folders below the
 * top of the tree become a category, a sub-category and the list of that
 * sub-category's own links; everything else is dropped. Any exception
 * while walking the data gives an empty result.
 */
module ExtractJson {
  import opened Bookmarks
  import opened Seqs
  import opened Dicts

  /** `simplified_link`; its `type` is always "link", so it is not kept. */
  datatype SimpleLink = SimpleLink(title: string, icon: string, url: string)

  /** Sub-category title to its links; a title may be missing (`None`). */
  type Category = Dict<Option<string>, seq<SimpleLink>>

  /** Category title to its sub-categories. */
  type Navigation = Dict<Option<string>, Category>

  /** `link_item.get(k, default)`: the default is used only when the key is
    * missing, so a present empty string is kept. */
  function Simplified(link: Node): (r: SimpleLink)
    requires link.Link?
    ensures link.title.Some? ==> r.title == link.title.value
    ensures link.title.None? ==> r.title == "无标题"
    ensures link.icon.Some? ==> r.icon == link.icon.value
    ensures link.icon.None? ==> r.icon == "🔗"
    ensures link.url.Some? ==> r.url == link.url.value
    ensures link.url.None? ==> r.url == "#"
  {
    SimpleLink(link.title.GetOr("无标题"), link.icon.GetOr("🔗"), link.url.GetOr("#"))
  }

  /** The direct link children of a third-level folder, simplified, in order. */
  function LinksOf(items: seq<Node>): (r: seq<SimpleLink>)
    ensures |r| == |Filter(items, IsLinkNode)|
    ensures forall i | 0 <= i < |r| ::
              var link := Filter(items, IsLinkNode)[i]; link.Link? && r[i] == Simplified(link)
  {
    FilterMembers(items, IsLinkNode);
    Map(Filter(items, IsLinkNode), Simplified)
  }

  /** For each folder that has a `children` key, in order, `d[title] =
    * value(folder)`; other items are skipped. */
  function PutEach<V>(d: Dict<Option<string>, V>, items: seq<Node>, value: Node -> V): (r: Dict<Option<string>, V>)
    requires Valid(d)
    ensures Valid(r)
  {
    if items == [] then d
    else
      var r := PutEach(d, items[..|items| - 1], value);
      var c := items[|items| - 1];
      if IsOpenFolder(c) then Put(r, c.title, value(c)) else r
  }

  /** A key is present afterwards exactly when it was before or is the
    * title of one of the folders. */
  lemma {:induction false} PutEachKeys<V>(d: Dict<Option<string>, V>, items: seq<Node>, value: Node -> V, k: Option<string>)
    requires Valid(d)
    ensures k in PutEach(d, items, value).values
            <==> k in d.values || exists j | 0 <= j < |items| :: IsOpenFolder(items[j]) && items[j].title == k
  {
    if items != [] {
      var init := items[..|items| - 1];
      PutEachKeys(d, init, value, k);
      if exists j | 0 <= j < |init| :: IsOpenFolder(init[j]) && init[j].title == k {
        var j :| 0 <= j < |init| && IsOpenFolder(init[j]) && init[j].title == k;
        assert items[j] == init[j];
      }
      if exists j | 0 <= j < |items| :: IsOpenFolder(items[j]) && items[j].title == k {
        var j :| 0 <= j < |items| && IsOpenFolder(items[j]) && items[j].title == k;
        if j < |init| {
          assert init[j] == items[j];
        }
      }
    }
  }

  /** A title seen again replaces the earlier value: the last folder with a
    * title decides it. */
  lemma {:induction false} PutEachLastWins<V>(d: Dict<Option<string>, V>, items: seq<Node>, value: Node -> V, i: int)
    requires Valid(d) && 0 <= i < |items| && IsOpenFolder(items[i])
    requires forall j | i < j < |items| :: !(IsOpenFolder(items[j]) && items[j].title == items[i].title)
    ensures items[i].title in PutEach(d, items, value).values
    ensures PutEach(d, items, value).values[items[i].title] == value(items[i])
  {
    var init := items[..|items| - 1];
    if i < |items| - 1 {
      assert forall j | i < j < |init| :: init[j] == items[j];
      PutEachLastWins(d, init, value, i);
    }
  }

  /** Running over two lists is running over the first, then the second. */
  lemma {:induction false} PutEachAppend<V>(d: Dict<Option<string>, V>, a: seq<Node>, b: seq<Node>, value: Node -> V)
    requires Valid(d)
    ensures PutEach(d, a + b, value) == PutEach(PutEach(d, a, value), b, value)
  {
    if b == [] {
      assert a + b == a;
    } else {
      var ab := a + b;
      assert ab[..|ab| - 1] == a + b[..|b| - 1];
      assert ab[|ab| - 1] == b[|b| - 1];
      PutEachAppend(d, a, b[..|b| - 1], value);
    }
  }

  /** The value of a third-level folder: its own links. */
  function LinksUnder(subcategory: Node): seq<SimpleLink> {
    LinksOf(KidsOf(subcategory))
  }

  /** The value of a second-level folder: its open folders, each with its links. */
  function CategoryOf(category: Node): (r: Category)
    ensures Valid(r)
  {
    PutEach(Empty(), KidsOf(category), LinksUnder)
  }

  /** The first loop: each open top-level folder adds its open folders as
    * categories. */
  function TopLevel(nav: Navigation, items: seq<Node>): (r: Navigation)
    requires Valid(nav)
    ensures Valid(r)
  {
    if items == [] then nav
    else
      var r := TopLevel(nav, items[..|items| - 1]);
      var item := items[|items| - 1];
      if IsOpenFolder(item) then PutEach(r, KidsOf(item), CategoryOf) else r
  }

  /** `extract_navigation_data()` on the parsed file: a list whose members
    * are all objects is walked; anything else raises, and gives `{}`. */
  function Extracted(data: Data): (r: Navigation)
    ensures Valid(r)
    ensures data.Single? ==> r == Empty()
    ensures data.List? && (exists i | 0 <= i < |data.entries| :: data.entries[i].NonObject?) ==> r == Empty()
  {
    match data
    case Single(_) => Empty()
    case List(entries) =>
      if AllObjects(entries) then TopLevel(Empty(), ObjectsOf(entries))
      else Empty()
  }

  // ---------------------------------------------------------------------------
  // What the extraction keeps
  // ---------------------------------------------------------------------------

  /** The second-level folders the first loop reaches: the children of every
    * open top-level folder, in order. */
  function SecondLevel(items: seq<Node>): seq<Node> {
    if items == [] then []
    else
      var item := items[|items| - 1];
      SecondLevel(items[..|items| - 1]) + (if IsOpenFolder(item) then KidsOf(item) else [])
  }

  /** Walking the top level is one walk over all the second-level folders. */
  lemma {:induction false} TopLevelFlat(nav: Navigation, items: seq<Node>)
    requires Valid(nav)
    ensures TopLevel(nav, items) == PutEach(nav, SecondLevel(items), CategoryOf)
  {
    if items != [] {
      var init, item := items[..|items| - 1], items[|items| - 1];
      TopLevelFlat(nav, init);
      if IsOpenFolder(item) {
        PutEachAppend(nav, SecondLevel(init), KidsOf(item), CategoryOf);
      } else {
        assert SecondLevel(items) == SecondLevel(init) + [];
        assert SecondLevel(items) == SecondLevel(init);
      }
    }
  }

  /** A node reached at the second level is a child of an open top-level folder. */
  lemma {:induction false} SecondLevelMember(items: seq<Node>, x: Node)
    ensures x in SecondLevel(items)
            <==> exists i | 0 <= i < |items| :: IsOpenFolder(items[i]) && x in KidsOf(items[i])
  {
    if items != [] {
      var init, item := items[..|items| - 1], items[|items| - 1];
      SecondLevelMember(init, x);
      if exists i | 0 <= i < |items| :: IsOpenFolder(items[i]) && x in KidsOf(items[i]) {
        var i :| 0 <= i < |items| && IsOpenFolder(items[i]) && x in KidsOf(items[i]);
        if i < |init| {
          assert init[i] == items[i];
        }
      }
      if exists i | 0 <= i < |init| :: IsOpenFolder(init[i]) && x in KidsOf(init[i]) {
        var i :| 0 <= i < |init| && IsOpenFolder(init[i]) && x in KidsOf(init[i]);
        assert items[i] == init[i];
      }
    }
  }

  /** An open folder directly inside an open top-level folder. */
  predicate IsCategoryFolder(items: seq<Node>, c: Node) {
    exists i | 0 <= i < |items| :: IsOpenFolder(items[i]) && c in KidsOf(items[i]) && IsOpenFolder(c)
  }

  /** The categories are exactly the titles of the open folders directly
    * inside open top-level folders. */
  lemma ExtractedCategories(items: seq<Node>, k: Option<string>)
    ensures k in TopLevel(Empty(), items).values <==> exists c | IsCategoryFolder(items, c) :: c.title == k
  {
    if k in TopLevel(Empty(), items).values {
      CategoryFound(items, k);
    }
    if exists c | IsCategoryFolder(items, c) :: c.title == k {
      var c :| IsCategoryFolder(items, c) && c.title == k;
      CategoryKept(items, c);
    }
  }

  lemma CategoryFound(items: seq<Node>, k: Option<string>)
    requires k in TopLevel(Empty(), items).values
    ensures exists c | IsCategoryFolder(items, c) :: c.title == k
  {
    var subs := SecondLevel(items);
    TopLevelFlat(Empty(), items);
    PutEachKeys(Empty(), subs, CategoryOf, k);
    var j :| 0 <= j < |subs| && IsOpenFolder(subs[j]) && subs[j].title == k;
    SecondLevelMember(items, subs[j]);
    assert IsCategoryFolder(items, subs[j]);
  }

  lemma CategoryKept(items: seq<Node>, c: Node)
    requires IsCategoryFolder(items, c)
    ensures c.title in TopLevel(Empty(), items).values
  {
    var subs := SecondLevel(items);
    TopLevelFlat(Empty(), items);
    SecondLevelMember(items, c);
    var j :| 0 <= j < |subs| && subs[j] == c;
    PutEachKeys(Empty(), subs, CategoryOf, c.title);
  }

  /** The last second-level folder with a title decides its category: its
    * open folders, each mapped to its own links, the last of a title winning. */
  lemma ExtractedCategoryLastWins(items: seq<Node>, j: int)
    requires 0 <= j < |SecondLevel(items)| && IsOpenFolder(SecondLevel(items)[j])
    requires forall l | j < l < |SecondLevel(items)| ::
               !(IsOpenFolder(SecondLevel(items)[l]) && SecondLevel(items)[l].title == SecondLevel(items)[j].title)
    ensures var c := SecondLevel(items)[j];
            c.title in TopLevel(Empty(), items).values
            && TopLevel(Empty(), items).values[c.title] == CategoryOf(c)
  {
    TopLevelFlat(Empty(), items);
    PutEachLastWins(Empty(), SecondLevel(items), CategoryOf, j);
  }

  /** Inside a category, the last open folder with a title decides its links. */
  lemma SubcategoryLastWins(category: Node, i: int)
    requires 0 <= i < |KidsOf(category)| && IsOpenFolder(KidsOf(category)[i])
    requires forall j | i < j < |KidsOf(category)| ::
               !(IsOpenFolder(KidsOf(category)[j]) && KidsOf(category)[j].title == KidsOf(category)[i].title)
    ensures var s := KidsOf(category)[i];
            s.title in CategoryOf(category).values
            && CategoryOf(category).values[s.title] == LinksOf(KidsOf(s))
  {
    PutEachLastWins(Empty(), KidsOf(category), LinksUnder, i);
  }

  // ---------------------------------------------------------------------------
  // extract_navigation_data, loop by loop
  // ---------------------------------------------------------------------------

  /** The innermost loop: the simplified direct links, in order. */
  method CollectLinks(items: seq<Node>) returns (links: seq<SimpleLink>)
    ensures links == LinksOf(items)
  {
    links := [];
    var i := 0;
    while i < |items|
      invariant 0 <= i <= |items|
      invariant links == LinksOf(items[..i])
    {
      var linkItem := items[i];
      assert items[..i + 1][..i] == items[..i];
      if linkItem.Link? {
        MapAppend(Filter(items[..i], IsLinkNode), [linkItem], Simplified);
        MapSingleton(linkItem, Simplified);
        links := links + [Simplified(linkItem)];
      }
      i := i + 1;
    }
    assert items[..i] == items;
  }

  /** The third loop: each open folder of a category becomes a sub-category
    * holding its links (`navigation_data[c][s] = []`, then the appends). */
  method ScanCategory(children: seq<Node>) returns (category: Category)
    ensures category == PutEach(Empty(), children, LinksUnder)
  {
    category := Empty();
    var i := 0;
    while i < |children|
      invariant 0 <= i <= |children|
      invariant category == PutEach(Empty(), children[..i], LinksUnder)
    {
      var childItem := children[i];
      assert children[..i + 1][..i] == children[..i];
      if IsOpenFolder(childItem) {
        var links := CollectLinks(KidsOf(childItem));
        category := Put(category, childItem.title, links);
      }
      i := i + 1;
    }
    assert children[..i] == children;
  }

  /** The second loop: each open folder of a top-level folder becomes a
    * category, replacing one of the same title (`navigation_data[c] = {}`). */
  method ScanSubfolders(nav: Navigation, subfolders: seq<Node>) returns (r: Navigation)
    requires Valid(nav)
    ensures r == PutEach(nav, subfolders, CategoryOf)
  {
    r := nav;
    var i := 0;
    while i < |subfolders|
      invariant 0 <= i <= |subfolders|
      invariant r == PutEach(nav, subfolders[..i], CategoryOf)
    {
      var subfolder := subfolders[i];
      assert subfolders[..i + 1][..i] == subfolders[..i];
      if IsOpenFolder(subfolder) {
        var category := ScanCategory(KidsOf(subfolder));
        r := Put(r, subfolder.title, category);
      }
      i := i + 1;
    }
    assert subfolders[..i] == subfolders;
  }

  lemma TopLevelStep(nav: Navigation, items: seq<Node>, item: Node)
    requires Valid(nav)
    ensures TopLevel(nav, items + [item])
            == if IsOpenFolder(item) then PutEach(TopLevel(nav, items), KidsOf(item), CategoryOf) else TopLevel(nav, items)
  {
    assert (items + [item])[..|items|] == items;
  }

  /** Every member of the list is an object. */
  predicate AllObjects(entries: seq<Entry>) {
    forall i | 0 <= i < |entries| :: entries[i].Object?
  }

  lemma ObjectStep(entries: seq<Entry>, i: int)
    requires 0 <= i < |entries| && AllObjects(entries[..i]) && entries[i].Object?
    ensures AllObjects(entries[..i + 1])
    ensures ObjectsOf(entries[..i + 1]) == ObjectsOf(entries[..i]) + [entries[i].node]
  {
    var prefix := entries[..i + 1];
    assert prefix[..|prefix| - 1] == entries[..i] && prefix[|prefix| - 1] == entries[i];
  }

  /** `extract_navigation_data()` once the file is parsed. Iterating a
    * single object yields its keys, which are strings, and `.get` on a
    * string raises; so does `.get` on any member of the list that is not an
    * object. The handler returns `{}`. */
  method ExtractNavigationData(data: Data) returns (navigationData: Navigation)
    ensures navigationData == Extracted(data)
  {
    if data.Single? {
      return Empty();
    }
    var entries := data.entries;
    navigationData := Empty();
    var i := 0;
    while i < |entries|
      invariant 0 <= i <= |entries|
      invariant AllObjects(entries[..i])
      invariant navigationData == TopLevel(Empty(), ObjectsOf(entries[..i]))
    {
      if entries[i].NonObject? {
        return Empty();
      }
      var item := entries[i].node;
      ObjectStep(entries, i);
      TopLevelStep(Empty(), ObjectsOf(entries[..i]), item);
      if IsOpenFolder(item) {
        navigationData := ScanSubfolders(navigationData, KidsOf(item));
      }
      i := i + 1;
    }
    assert entries[..i] == entries;
  }
}
