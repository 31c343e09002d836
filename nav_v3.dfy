/**
 * Navigation page v3.0: the folders of the "Bookmarks bar" become primary
 * categories, their folders subcategories, and only the links directly
 * inside either are kept as bookmarks, each labelled with its category and
 * subcategory title.
 */
module NavigationV3 {
  import opened Bookmarks
  import opened Text
  import opened Seqs

  /** A bookmark card's data; `subcategory` is null (`None`) for a link
    * directly inside a primary folder. The random `id` is not modelled. */
  datatype Bookmark = Bookmark(title: Option<string>, url: Option<string>, icon: Option<string>,
                               timestamp: Option<int>, category: Option<string>, subcategory: Option<string>)

  datatype SubCategory = SubCategory(title: Option<string>, parent: Option<string>, bookmarks: seq<Bookmark>)

  datatype PrimaryCategory = PrimaryCategory(title: Option<string>, children: seq<SubCategory>, bookmarks: seq<Bookmark>)

  // ---------------------------------------------------------------------------
  // parseBookmarksStructure, as functions over the tree
  // ---------------------------------------------------------------------------

  function BookmarkOf(link: Node, category: Option<string>, subcategory: Option<string>): Bookmark
    requires link.Link?
  {
    Bookmark(link.title, link.url, link.icon, link.addDate, category, subcategory)
  }

  /** The bookmarks made from the links among `items` (folders are skipped). */
  function DirectBookmarks(items: seq<Node>, category: Option<string>, subcategory: Option<string>): seq<Bookmark> {
    if items == [] then []
    else
      var last := items[|items| - 1];
      DirectBookmarks(items[..|items| - 1], category, subcategory)
      + (if last.Link? then [BookmarkOf(last, category, subcategory)] else [])
  }

  /** A folder below a primary folder: its own links only. */
  function SubCategoryOf(folder: Node, parent: Option<string>): SubCategory {
    SubCategory(folder.title, parent, DirectBookmarks(KidsOf(folder), parent, folder.title))
  }

  function SubCategories(items: seq<Node>, parent: Option<string>): seq<SubCategory> {
    if items == [] then []
    else
      var last := items[|items| - 1];
      SubCategories(items[..|items| - 1], parent) + (if last.Folder? then [SubCategoryOf(last, parent)] else [])
  }

  /** A primary folder: its folders as subcategories, its links as its own bookmarks. */
  function PrimaryOf(folder: Node): PrimaryCategory {
    PrimaryCategory(folder.title, SubCategories(KidsOf(folder), folder.title),
                    DirectBookmarks(KidsOf(folder), folder.title, None))
  }

  function Primaries(items: seq<Node>): seq<PrimaryCategory> {
    if items == [] then []
    else
      var last := items[|items| - 1];
      Primaries(items[..|items| - 1]) + (if last.Folder? then [PrimaryOf(last)] else [])
  }

  /** The structure: empty unless the first root titled "Bookmarks bar" has `children`. */
  function Parsed(data: seq<Node>): seq<PrimaryCategory> {
    match FindTitle(data, Some("Bookmarks bar"))
    case None => []
    case Some(i) => if ChildrenKey(data[i]).Present? then Primaries(KidsOf(data[i])) else []
  }

  // ---------------------------------------------------------------------------
  // What the structure holds
  // ---------------------------------------------------------------------------

  /** One primary category per folder child, in order; other children are ignored. */
  lemma {:induction false} PrimariesOfFolders(items: seq<Node>)
    ensures Primaries(items) == Map(Filter(items, IsFolderNode), PrimaryOf)
  {
    if items != [] {
      var init, last := items[..|items| - 1], items[|items| - 1];
      PrimariesOfFolders(init);
      var tail := if last.Folder? then [last] else [];
      MapAppend(Filter(init, IsFolderNode), tail, PrimaryOf);
    }
  }

  /** One subcategory per folder child, in order. */
  lemma {:induction false} SubCategoriesOfFolders(items: seq<Node>, parent: Option<string>)
    ensures SubCategories(items, parent) == Map(Filter(items, IsFolderNode), f => SubCategoryOf(f, parent))
  {
    if items != [] {
      var init, last := items[..|items| - 1], items[|items| - 1];
      SubCategoriesOfFolders(init, parent);
      var tail := if last.Folder? then [last] else [];
      MapAppend(Filter(init, IsFolderNode), tail, f => SubCategoryOf(f, parent));
    }
  }

  /** The bookmarks of the link children, by mapping over them. */
  function LinkBookmarks(items: seq<Node>, category: Option<string>, subcategory: Option<string>): seq<Bookmark> {
    FilterMembers(items, IsLinkNode);
    Map(Filter(items, IsLinkNode), (l: Node) requires l.Link? => BookmarkOf(l, category, subcategory))
  }

  /** One bookmark per link child, in order, copying the link's fields. */
  lemma {:induction false} DirectBookmarksOfLinks(items: seq<Node>, category: Option<string>, subcategory: Option<string>)
    ensures DirectBookmarks(items, category, subcategory) == LinkBookmarks(items, category, subcategory)
  {
    if items != [] {
      var init, last := items[..|items| - 1], items[|items| - 1];
      DirectBookmarksOfLinks(init, category, subcategory);
      FilterMembers(init, IsLinkNode);
      FilterMembers(items, IsLinkNode);
      var tail := if last.Link? then [last] else [];
      MapAppend(Filter(init, IsLinkNode), tail, (l: Node) requires l.Link? => BookmarkOf(l, category, subcategory));
    }
  }

  /** Every bookmark made from `items` carries the given labels. */
  lemma {:induction false} DirectBookmarksLabels(items: seq<Node>, category: Option<string>, subcategory: Option<string>)
    ensures forall b | b in DirectBookmarks(items, category, subcategory) ::
              b.category == category && b.subcategory == subcategory
  {
    if items != [] {
      DirectBookmarksLabels(items[..|items| - 1], category, subcategory);
    }
  }

  /** Every subcategory names its parent, and its bookmarks carry the
    * parent as category and the subcategory's own title as subcategory. */
  lemma {:induction false} SubCategoriesLabels(items: seq<Node>, parent: Option<string>)
    ensures forall s | s in SubCategories(items, parent) ::
              s.parent == parent
              && forall b | b in s.bookmarks :: b.category == parent && b.subcategory == s.title
  {
    if items != [] {
      var last := items[|items| - 1];
      SubCategoriesLabels(items[..|items| - 1], parent);
      DirectBookmarksLabels(KidsOf(last), parent, last.title);
    }
  }

  /** The labels of every bookmark of the structure: the primary's title as
    * category, and null or the subcategory's title as subcategory. */
  lemma ParsedLabels(data: seq<Node>)
    ensures forall c | c in Parsed(data) ::
              (forall b | b in c.bookmarks :: b.category == c.title && b.subcategory.None?)
              && forall s | s in c.children ::
                   s.parent == c.title && forall b | b in s.bookmarks :: b.category == c.title && b.subcategory == s.title
  {
    match FindTitle(data, Some("Bookmarks bar"))
    case None =>
    case Some(i) =>
      if ChildrenKey(data[i]).Present? {
        PrimariesLabels(KidsOf(data[i]));
      }
  }

  lemma {:induction false} PrimariesLabels(items: seq<Node>)
    ensures forall c | c in Primaries(items) ::
              (forall b | b in c.bookmarks :: b.category == c.title && b.subcategory.None?)
              && forall s | s in c.children ::
                   s.parent == c.title && forall b | b in s.bookmarks :: b.category == c.title && b.subcategory == s.title
  {
    if items != [] {
      var last := items[|items| - 1];
      PrimariesLabels(items[..|items| - 1]);
      DirectBookmarksLabels(KidsOf(last), last.title, None);
      SubCategoriesLabels(KidsOf(last), last.title);
    }
  }

  /** Without a "Bookmarks bar" root that has `children` there is nothing to show. */
  lemma ParsedWithoutBar(data: seq<Node>)
    ensures (forall i | 0 <= i < |data| :: data[i].title != Some("Bookmarks bar")) ==> Parsed(data) == []
    ensures (forall i | 0 <= i < |data| :: data[i].title == Some("Bookmarks bar") ==> ChildrenKey(data[i]).Absent?)
            ==> Parsed(data) == []
  {
  }

  // ---------------------------------------------------------------------------
  // parseBookmarksStructure, as the script builds it
  // ---------------------------------------------------------------------------

  /** The innermost loop: the links of one folder below a primary folder. */
  method ParseSubFolder(subItem: Node, parentTitle: Option<string>) returns (sub: SubCategory)
    ensures sub == SubCategoryOf(subItem, parentTitle)
  {
    var bookmarks := [];
    var items := KidsOf(subItem);
    var i := 0;
    while i < |items|
      invariant 0 <= i <= |items|
      invariant bookmarks == DirectBookmarks(items[..i], parentTitle, subItem.title)
    {
      assert items[..i + 1][..i] == items[..i];
      var bookmark := items[i];
      if bookmark.Link? {
        bookmarks := bookmarks + [BookmarkOf(bookmark, parentTitle, subItem.title)];
      }
      i := i + 1;
    }
    assert items[..i] == items;
    sub := SubCategory(subItem.title, parentTitle, bookmarks);
  }

  /** The middle loop: one primary folder's subcategories and own links. */
  method ParsePrimaryFolder(primaryFolder: Node) returns (primary: PrimaryCategory)
    ensures primary == PrimaryOf(primaryFolder)
  {
    var children := [];
    var bookmarks := [];
    var items := KidsOf(primaryFolder);
    var i := 0;
    while i < |items|
      invariant 0 <= i <= |items|
      invariant children == SubCategories(items[..i], primaryFolder.title)
      invariant bookmarks == DirectBookmarks(items[..i], primaryFolder.title, None)
    {
      assert items[..i + 1][..i] == items[..i];
      var subItem := items[i];
      if subItem.Folder? {
        var sub := ParseSubFolder(subItem, primaryFolder.title);
        children := children + [sub];
      } else if subItem.Link? {
        bookmarks := bookmarks + [BookmarkOf(subItem, primaryFolder.title, None)];
      }
      i := i + 1;
    }
    assert items[..i] == items;
    primary := PrimaryCategory(primaryFolder.title, children, bookmarks);
  }

  /** `parseBookmarksStructure(data)`. */
  method ParseBookmarksStructure(data: seq<Node>) returns (structure: seq<PrimaryCategory>)
    ensures structure == Parsed(data)
  {
    structure := [];
    var found := FindTitle(data, Some("Bookmarks bar"));
    if found.Some? && ChildrenKey(data[found.value]).Present? {
      var items := KidsOf(data[found.value]);
      var i := 0;
      while i < |items|
        invariant 0 <= i <= |items|
        invariant structure == Primaries(items[..i])
      {
        assert items[..i + 1][..i] == items[..i];
        if items[i].Folder? {
          var primary := ParsePrimaryFolder(items[i]);
          structure := structure + [primary];
        }
        i := i + 1;
      }
      assert items[..i] == items;
    }
  }

  // ---------------------------------------------------------------------------
  // Which bookmarks a view shows, and the search list
  // ---------------------------------------------------------------------------

  /** The bookmarks of all subcategories, in order. */
  function SubBookmarks(subs: seq<SubCategory>): seq<Bookmark> {
    if subs == [] then [] else SubBookmarks(subs[..|subs| - 1]) + subs[|subs| - 1].bookmarks
  }

  /** "All" of a primary category: its own bookmarks, then each subcategory's. */
  function CategoryBookmarks(c: PrimaryCategory): seq<Bookmark> {
    c.bookmarks + SubBookmarks(c.children)
  }

  /** `find(c => c.title === t)` (`Array.prototype.find`): the first element
    * with the title, none only when no element has it. */
  function FindFirst<T>(s: seq<T>, title: T -> Option<string>, t: Option<string>): (r: Option<T>)
    ensures r.Some? ==>
              exists i | 0 <= i < |s| :: s[i] == r.value && title(s[i]) == t && forall j | 0 <= j < i :: title(s[j]) != t
    ensures r.None? ==> forall c | c in s :: title(c) != t
    decreases |s|
  {
    if s == [] then None
    else if title(s[0]) == t then Some(s[0])
    else
      var r := FindFirst(s[1..], title, t);
      assert r.Some? ==>
               exists i | 0 <= i < |s| :: s[i] == r.value && title(s[i]) == t && forall j | 0 <= j < i :: title(s[j]) != t
      by {
        if r.Some? {
          var k :| 0 <= k < |s[1..]| && s[1..][k] == r.value && title(s[1..][k]) == t
                   && forall j | 0 <= j < k :: title(s[1..][j]) != t;
          assert forall j | 0 <= j < k + 1 :: title(s[j]) != t by {
            forall j | 0 <= j < k + 1 ensures title(s[j]) != t {
              if j > 0 { assert s[j] == s[1..][j - 1]; }
            }
          }
        }
      }
      r
  }

  function FindCategory(s: seq<PrimaryCategory>, t: Option<string>): Option<PrimaryCategory> {
    FindFirst(s, (c: PrimaryCategory) => c.title, t)
  }

  function FindSub(s: seq<SubCategory>, t: Option<string>): Option<SubCategory> {
    FindFirst(s, (c: SubCategory) => c.title, t)
  }

  /** `structure[i]` is the first primary category titled `t`, the one `find` returns. */
  predicate FirstCategoryAt(structure: seq<PrimaryCategory>, i: int, t: Option<string>) {
    0 <= i < |structure| && structure[i].title == t && forall j | 0 <= j < i :: structure[j].title != t
  }

  /** `subs[k]` is the first sub-category titled `t`. */
  predicate FirstSubAt(subs: seq<SubCategory>, k: int, t: Option<string>) {
    0 <= k < |subs| && subs[k].title == t && forall j | 0 <= j < k :: subs[j].title != t
  }

  /** The bookmarks `renderContent(primary, secondary)` shows; `None` when
    * there is no such primary category and nothing is rendered. The first
    * category of that title is shown: its whole list without a secondary,
    * else its first sub-category of that title, or nothing when it has none. */
  function Shown(structure: seq<PrimaryCategory>, primary: Option<string>, secondary: Option<string>)
    : (r: Option<seq<Bookmark>>)
    ensures r.None? <==> forall c | c in structure :: c.title != primary
    ensures r.Some? && !Truthy(secondary) ==>
              exists c | c in structure && c.title == primary :: r.value == CategoryBookmarks(c)
    ensures r.Some? && Truthy(secondary) ==>
              r.value == [] || exists c, sub | c in structure && sub in c.children ::
                                 c.title == primary && sub.title == secondary && r.value == sub.bookmarks
    ensures r.Some? && !Truthy(secondary) ==>
              exists i :: FirstCategoryAt(structure, i, primary) && r.value == CategoryBookmarks(structure[i])
    ensures r.Some? && Truthy(secondary) ==>
              exists i :: FirstCategoryAt(structure, i, primary)
                && ((exists k :: FirstSubAt(structure[i].children, k, secondary)
                               && r.value == structure[i].children[k].bookmarks)
                    || ((forall sub | sub in structure[i].children :: sub.title != secondary) && r.value == []))
  {
    match FindCategory(structure, primary)
    case None => None
    case Some(c) =>
      if Truthy(secondary) then
        match FindSub(c.children, secondary)
        case None => Some([])
        case Some(sub) => Some(sub.bookmarks)
      else Some(CategoryBookmarks(c))
  }

  /** The list the search filters: every category's "all" list, in order. */
  function AllBookmarks(structure: seq<PrimaryCategory>): seq<Bookmark> {
    if structure == [] then []
    else AllBookmarks(structure[..|structure| - 1]) + CategoryBookmarks(structure[|structure| - 1])
  }

  lemma SubBookmarksStep(subs: seq<SubCategory>, j: int)
    requires 0 <= j < |subs|
    ensures SubBookmarks(subs[..j + 1]) == SubBookmarks(subs[..j]) + subs[j].bookmarks
  {
    assert subs[..j + 1][..j] == subs[..j];
  }

  lemma AllBookmarksStep(structure: seq<PrimaryCategory>, i: int)
    requires 0 <= i < |structure|
    ensures AllBookmarks(structure[..i + 1]) == AllBookmarks(structure[..i]) + CategoryBookmarks(structure[i])
  {
    assert structure[..i + 1][..i] == structure[..i];
  }

  /** Every bookmark the "all" view of a listed category shows is among
    * the bookmarks the search goes through. */
  lemma {:induction false} AllBookmarksCover(structure: seq<PrimaryCategory>)
    ensures forall i, b | 0 <= i < |structure| && b in CategoryBookmarks(structure[i]) :: b in AllBookmarks(structure)
  {
    if structure != [] {
      AllBookmarksCover(structure[..|structure| - 1]);
    }
  }

  /** The length of the search list is the sum the statistics add up. */
  function Total(structure: seq<PrimaryCategory>): nat {
    if structure == [] then 0
    else
      var c := structure[|structure| - 1];
      Total(structure[..|structure| - 1]) + |c.bookmarks| + SubTotal(c.children)
  }

  function SubTotal(subs: seq<SubCategory>): nat {
    if subs == [] then 0 else SubTotal(subs[..|subs| - 1]) + |subs[|subs| - 1].bookmarks|
  }

  lemma {:induction false} SubTotalLength(subs: seq<SubCategory>)
    ensures SubTotal(subs) == |SubBookmarks(subs)|
  {
    if subs != [] {
      SubTotalLength(subs[..|subs| - 1]);
    }
  }

  /** The total `updateTotalStats` shows is the number of bookmarks the search goes through. */
  lemma {:induction false} TotalIsSearchListLength(structure: seq<PrimaryCategory>)
    ensures Total(structure) == |AllBookmarks(structure)|
  {
    if structure != [] {
      TotalIsSearchListLength(structure[..|structure| - 1]);
      SubTotalLength(structure[|structure| - 1].children);
    }
  }

  /** `performSearch`'s condition on a bookmark, for a lower-cased query. */
  predicate Matches(query: string, b: Bookmark) {
    Contains(Lower(b.title.GetOr("")), query)
    || Contains(Lower(b.url.GetOr("")), query)
    || Contains(Lower(b.category.GetOr("")), query)
    || (Truthy(b.subcategory) && Contains(Lower(b.subcategory.value), query))
  }

  function SearchResults(all: seq<Bookmark>, query: string): (r: seq<Bookmark>)
    ensures forall b | b in r :: b in all && Matches(query, b)
    ensures forall b | b in all && Matches(query, b) :: b in r
  {
    var matches := b => Matches(query, b);
    FilterMembers(all, matches);
    Filter(all, matches)
  }

  /** `generateDescription`: titles longer than 50 characters are cut to 50 and marked. */
  function GenerateDescription(title: string): (r: string)
    ensures |title| <= 50 ==> r == title
    ensures |title| > 50 ==> |r| == 53 && r[..50] == title[..50] && r[50..] == "..."
  {
    if |title| > 50 then Take(title, 50) + "..." else title
  }

  /** What the content area shows. */
  datatype View =
    | Blank
    | Listing(primary: Option<string>, secondary: Option<string>, bookmarks: seq<Bookmark>)
    | SearchView(query: string, results: seq<Bookmark>)

  /** The script's module-level state. */
  class Page {
    var bookmarksData: seq<PrimaryCategory>
    var currentPrimaryCategory: Option<string>
    var currentSecondaryCategory: Option<string>
    var view: View

    constructor()
      ensures bookmarksData == [] && currentPrimaryCategory.None? && currentSecondaryCategory.None?
      ensures view == Blank
    {
      bookmarksData := [];
      currentPrimaryCategory := None;
      currentSecondaryCategory := None;
      view := Blank;
    }

    /** `loadBookmarksData` once the JSON is parsed. */
    method LoadBookmarksData(data: seq<Node>)
      modifies this
      ensures bookmarksData == Parsed(data)
      ensures currentPrimaryCategory == old(currentPrimaryCategory)
      ensures currentSecondaryCategory == old(currentSecondaryCategory) && view == old(view)
    {
      bookmarksData := ParseBookmarksStructure(data);
    }

    /** The bookmark selection of `renderContent`, with its concatenation loop. */
    method CollectCategory(c: PrimaryCategory) returns (bookmarks: seq<Bookmark>)
      ensures bookmarks == CategoryBookmarks(c)
    {
      bookmarks := c.bookmarks;
      var j := 0;
      while j < |c.children|
        invariant 0 <= j <= |c.children|
        invariant bookmarks == c.bookmarks + SubBookmarks(c.children[..j])
      {
        SubBookmarksStep(c.children, j);
        bookmarks := bookmarks + c.children[j].bookmarks;
        j := j + 1;
      }
      assert c.children[..j] == c.children;
    }

    /** `renderContent(primaryCategory, secondaryCategory)`: nothing happens
      * when no category has the title. */
    method RenderContent(primaryCategory: Option<string>, secondaryCategory: Option<string>)
      modifies this
      ensures Shown(bookmarksData, primaryCategory, secondaryCategory).None? ==> view == old(view)
      ensures Shown(bookmarksData, primaryCategory, secondaryCategory).Some? ==>
                view == Listing(primaryCategory, secondaryCategory,
                                Shown(bookmarksData, primaryCategory, secondaryCategory).value)
      ensures bookmarksData == old(bookmarksData) && currentPrimaryCategory == old(currentPrimaryCategory)
      ensures currentSecondaryCategory == old(currentSecondaryCategory)
    {
      var category := FindCategory(bookmarksData, primaryCategory);
      if category.None? {
        return;
      }
      var bookmarks := [];
      if Truthy(secondaryCategory) {
        var subCategory := FindSub(category.value.children, secondaryCategory);
        if subCategory.Some? {
          bookmarks := subCategory.value.bookmarks;
        }
      } else {
        bookmarks := CollectCategory(category.value);
      }
      view := Listing(primaryCategory, secondaryCategory, bookmarks);
    }

    /** `renderPrimaryNavigation`: the first category is selected. */
    method RenderPrimaryNavigation()
      modifies this
      ensures bookmarksData != [] ==>
                currentPrimaryCategory == bookmarksData[0].title
                && view == Listing(bookmarksData[0].title, None, CategoryBookmarks(bookmarksData[0]))
      ensures bookmarksData == [] ==> unchanged(this)
      ensures bookmarksData == old(bookmarksData) && currentSecondaryCategory == old(currentSecondaryCategory)
    {
      if bookmarksData != [] {
        currentPrimaryCategory := bookmarksData[0].title;
        RenderContent(bookmarksData[0].title, None);
      }
    }

    /** `handlePrimaryCategoryClick`: selects the category and clears the subcategory. */
    method HandlePrimaryCategoryClick(categoryTitle: Option<string>)
      modifies this
      ensures currentPrimaryCategory == categoryTitle && currentSecondaryCategory.None?
      ensures Shown(bookmarksData, categoryTitle, None).Some? ==>
                view == Listing(categoryTitle, None, Shown(bookmarksData, categoryTitle, None).value)
      ensures Shown(bookmarksData, categoryTitle, None).None? ==> view == old(view)
      ensures bookmarksData == old(bookmarksData)
    {
      currentPrimaryCategory := categoryTitle;
      currentSecondaryCategory := None;
      RenderContent(categoryTitle, None);
    }

    /** `handleSecondaryCategoryClick`: null selects "all". */
    method HandleSecondaryCategoryClick(subcategoryTitle: Option<string>)
      modifies this
      ensures currentPrimaryCategory == old(currentPrimaryCategory) && currentSecondaryCategory == subcategoryTitle
      ensures Shown(bookmarksData, currentPrimaryCategory, subcategoryTitle).Some? ==>
                view == Listing(currentPrimaryCategory, subcategoryTitle,
                                Shown(bookmarksData, currentPrimaryCategory, subcategoryTitle).value)
      ensures Shown(bookmarksData, currentPrimaryCategory, subcategoryTitle).None? ==> view == old(view)
      ensures bookmarksData == old(bookmarksData)
    {
      currentSecondaryCategory := subcategoryTitle;
      RenderContent(currentPrimaryCategory, subcategoryTitle);
    }

    /** The nested loops of `performSearch` that gather every bookmark. */
    method CollectAll() returns (allBookmarks: seq<Bookmark>)
      ensures allBookmarks == AllBookmarks(bookmarksData)
    {
      allBookmarks := [];
      var i := 0;
      while i < |bookmarksData|
        invariant 0 <= i <= |bookmarksData|
        invariant allBookmarks == AllBookmarks(bookmarksData[..i])
      {
        AllBookmarksStep(bookmarksData, i);
        var category := bookmarksData[i];
        var mine := CollectCategory(category);
        allBookmarks := allBookmarks + mine;
        i := i + 1;
      }
      assert bookmarksData[..i] == bookmarksData;
    }

    /** `performSearch` on the input's value: an empty query renders the
      * current selection again, any other lists the matching bookmarks. */
    method PerformSearch(input: string)
      modifies this
      ensures var query := Strip(Js, Lower(input));
              query != "" ==> view == SearchView(query, SearchResults(AllBookmarks(bookmarksData), query))
      ensures var query := Strip(Js, Lower(input));
              query == "" && Shown(bookmarksData, currentPrimaryCategory, currentSecondaryCategory).Some? ==>
                view == Listing(currentPrimaryCategory, currentSecondaryCategory,
                                Shown(bookmarksData, currentPrimaryCategory, currentSecondaryCategory).value)
      ensures var query := Strip(Js, Lower(input));
              query == "" && Shown(bookmarksData, currentPrimaryCategory, currentSecondaryCategory).None? ==>
                view == old(view)
      ensures bookmarksData == old(bookmarksData) && currentPrimaryCategory == old(currentPrimaryCategory)
      ensures currentSecondaryCategory == old(currentSecondaryCategory)
    {
      var query := Strip(Js, Lower(input));
      if query == "" {
        RenderContent(currentPrimaryCategory, currentSecondaryCategory);
        return;
      }
      var allBookmarks := CollectAll();
      var filtered := SearchResults(allBookmarks, query);
      view := SearchView(query, filtered);
    }

    /** `updateTotalStats`: the number of bookmarks, counted category by category. */
    method UpdateTotalStats() returns (totalBookmarks: nat)
      ensures totalBookmarks == |AllBookmarks(bookmarksData)|
    {
      totalBookmarks := 0;
      var i := 0;
      while i < |bookmarksData|
        invariant 0 <= i <= |bookmarksData|
        invariant totalBookmarks == Total(bookmarksData[..i])
      {
        assert bookmarksData[..i + 1][..i] == bookmarksData[..i];
        var category := bookmarksData[i];
        totalBookmarks := totalBookmarks + |category.bookmarks|;
        var j := 0;
        while j < |category.children|
          invariant 0 <= j <= |category.children|
          invariant totalBookmarks == Total(bookmarksData[..i]) + |category.bookmarks| + SubTotal(category.children[..j])
        {
          assert category.children[..j + 1][..j] == category.children[..j];
          totalBookmarks := totalBookmarks + |category.children[j].bookmarks|;
          j := j + 1;
        }
        assert category.children[..j] == category.children;
        i := i + 1;
      }
      assert bookmarksData[..i] == bookmarksData;
      TotalIsSearchListLength(bookmarksData);
    }

    /** `initializeApp` once the JSON is parsed. */
    method InitializeApp(data: seq<Node>) returns (totalBookmarks: nat)
      modifies this
      ensures bookmarksData == Parsed(data)
      ensures totalBookmarks == |AllBookmarks(Parsed(data))|
      ensures Parsed(data) != [] ==>
                currentPrimaryCategory == Parsed(data)[0].title
                && view == Listing(Parsed(data)[0].title, None, CategoryBookmarks(Parsed(data)[0]))
      ensures Parsed(data) == [] ==> currentPrimaryCategory == old(currentPrimaryCategory) && view == old(view)
      ensures currentSecondaryCategory == old(currentSecondaryCategory)
    {
      LoadBookmarksData(data);
      RenderPrimaryNavigation();
      totalBookmarks := UpdateTotalStats();
    }
  }
}
