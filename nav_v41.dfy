/**
 * Navigation page v4.1: as v4.0, but a selected folder lists its links
 * themselves (`getAllLinks`), the term is lower-cased and trimmed again
 * before searching, and a search count replaces the resource figure only.
 */
module NavigationV41 {
  import opened Bookmarks
  import opened Text
  import opened LinkIndex
  import opened Seqs

  /** What the content grid shows. */
  datatype View =
    | Blank
    | LinksView(title: Option<string>, links: seq<Node>)
    | SearchView(term: string, results: seq<Record>)

  /** The nested `traverse` of `getAllLinks`: pushes every reachable link. */
  method CollectLinks(items: seq<Node>, acc: seq<Node>) returns (links: seq<Node>)
    ensures links == acc + LinksIn(items)
    decreases ForestSize(items)
  {
    links := acc;
    var i := 0;
    while i < |items|
      invariant 0 <= i <= |items|
      invariant links == acc + LinksIn(items[..i])
    {
      var item := items[i];
      ghost var prev := links;
      if item.Link? {
        links := links + [item];
        assert NodeLinks(item) == [item];
      } else if item.Folder? && item.children.Present? {
        assert ForestSize(item.children.items) < ForestSize(items) by {
          KidsSmaller(items, i);
        }
        links := CollectLinks(item.children.items, links);
        assert NodeLinks(item) == LinksIn(item.children.items);
      } else {
        assert NodeLinks(item) == [];
      }
      CollectStep(acc, items, i, prev, links);
      i := i + 1;
    }
    assert items[..i] == items;
  }

  /** One pass of the `traverse` loop appends the links of the next item. */
  lemma CollectStep(acc: seq<Node>, items: seq<Node>, i: int, prev: seq<Node>, links: seq<Node>)
    requires 0 <= i < |items|
    requires prev == acc + LinksIn(items[..i])
    requires links == prev + NodeLinks(items[i])
    ensures links == acc + LinksIn(items[..i + 1])
  {
    LinksInStep(items, i);
    ConcatAssoc(acc, LinksIn(items[..i]), NodeLinks(items[i]));
  }

  /** The links v4.1 lists for a category are the links of the records
    * v4.0 lists for it, in the same order. */
  lemma SameLinksAsV40(category: Node)
    ensures LinksOf(ResourcesOf(category)) == LinksIn(KidsOf(category))
  {
    if ChildrenKey(category).Present? {
      IndexedLinks(KidsOf(category), [category.title]);
    }
  }

  class NavigationApp {
    var data: seq<Node>
    var currentPrimary: Option<Node>
    var currentSecondary: Option<Node>
    var currentTertiary: Option<Node>
    var searchTerm: string
    var allResources: seq<Record>
    var view: View
    /** The two figures of the statistics bar. */
    var categoryCount: nat
    var resourceCount: nat

    ghost predicate Valid()
      reads this
    {
      Addressed(data) && allResources == Indexed(data, [])
    }

    constructor()
      ensures Valid()
      ensures data == [] && allResources == [] && searchTerm == "" && view == Blank
      ensures currentPrimary.None? && currentSecondary.None? && currentTertiary.None?
    {
      data := [];
      currentPrimary := None;
      currentSecondary := None;
      currentTertiary := None;
      searchTerm := "";
      allResources := [];
      view := Blank;
      categoryCount := 0;
      resourceCount := 0;
    }

    /** `flattenResources`: resets the index and traverses every root on its own. */
    method FlattenResources()
      modifies this
      ensures allResources == Indexed(data, [])
      ensures data == old(data) && currentPrimary == old(currentPrimary)
      ensures currentSecondary == old(currentSecondary) && currentTertiary == old(currentTertiary)
      ensures searchTerm == old(searchTerm) && view == old(view)
      ensures categoryCount == old(categoryCount) && resourceCount == old(resourceCount)
    {
      allResources := [];
      var i := 0;
      while i < |data|
        invariant 0 <= i <= |data|
        invariant allResources == IndexedRoots(data[..i])
        invariant data == old(data) && currentPrimary == old(currentPrimary)
        invariant currentSecondary == old(currentSecondary) && currentTertiary == old(currentTertiary)
        invariant searchTerm == old(searchTerm) && view == old(view)
        invariant categoryCount == old(categoryCount) && resourceCount == old(resourceCount)
      {
        assert data[..i + 1][..i] == data[..i];
        allResources := Traverse([data[i]], [], allResources);
        i := i + 1;
      }
      assert data[..i] == data;
      IndexedRootsWhole(data);
    }

    /** `loadData` once the JSON is parsed. */
    method LoadData(json: seq<Node>)
      requires Addressed(json)
      modifies this
      ensures Valid() && data == json
      ensures currentPrimary == old(currentPrimary) && currentSecondary == old(currentSecondary)
      ensures currentTertiary == old(currentTertiary) && view == old(view)
      ensures searchTerm == old(searchTerm)
      ensures categoryCount == old(categoryCount) && resourceCount == old(resourceCount)
    {
      data := json;
      FlattenResources();
    }

    /** `getAllLinks`: every link of the category's subtree, unchanged and
      * in pre-order; none when the category has no `children`. */
    method GetAllLinks(category: Node) returns (links: seq<Node>)
      ensures links == LinksIn(KidsOf(category))
      ensures ChildrenKey(category).Absent? ==> links == []
      ensures forall l | l in links :: l.Link?
    {
      links := [];
      if ChildrenKey(category).Present? {
        links := CollectLinks(KidsOf(category), []);
      }
      LinksInAreLinks(KidsOf(category));
    }

    /** `updateStats(searchResultCount)`: a search count sets the resource
      * figure only; otherwise both figures follow the primary folder and
      * are 0 without one or when it has no `children`. */
    method UpdateStats(searchResultCount: Option<nat>)
      modifies this
      ensures searchResultCount.Some? ==>
                resourceCount == searchResultCount.value && categoryCount == old(categoryCount)
      ensures searchResultCount.None? ==>
                categoryCount == (if currentPrimary.Some? then FolderChildCount(currentPrimary.value) else 0)
                && resourceCount == (if currentPrimary.Some? then |LinksIn(KidsOf(currentPrimary.value))| else 0)
      ensures data == old(data) && allResources == old(allResources) && searchTerm == old(searchTerm)
      ensures currentPrimary == old(currentPrimary) && currentSecondary == old(currentSecondary)
      ensures currentTertiary == old(currentTertiary) && view == old(view)
    {
      if searchResultCount.Some? {
        resourceCount := searchResultCount.value;
        return;
      }
      var categoryCountNum := 0;
      var resourceCountNum := 0;
      if currentPrimary.Some? {
        if ChildrenKey(currentPrimary.value).Present? {
          categoryCountNum := FolderChildCount(currentPrimary.value);
          var links := GetAllLinks(currentPrimary.value);
          resourceCountNum := |links|;
        }
      }
      categoryCount := categoryCountNum;
      resourceCount := resourceCountNum;
    }

    /** `renderContent`: lists the links below the category. */
    method RenderContent(category: Node)
      modifies this
      ensures view == LinksView(category.title, LinksIn(KidsOf(category)))
      ensures data == old(data) && allResources == old(allResources) && searchTerm == old(searchTerm)
      ensures currentPrimary == old(currentPrimary) && currentSecondary == old(currentSecondary)
      ensures currentTertiary == old(currentTertiary)
      ensures categoryCount == old(categoryCount) && resourceCount == old(resourceCount)
    {
      var resources := GetAllLinks(category);
      view := LinksView(category.title, resources);
    }

    /** The state `selectPrimaryCategory(category)` leaves: the category is
      * primary, the lower levels are cleared, and its links are shown and
      * counted. */
    ghost predicate PrimaryShown(category: Node)
      reads this
    {
      currentPrimary == Some(category) && currentSecondary.None? && currentTertiary.None?
      && view == LinksView(category.title, LinksIn(KidsOf(category)))
      && categoryCount == FolderChildCount(category) && resourceCount == |LinksIn(KidsOf(category))|
    }

    /** `selectPrimaryCategory`: clears the secondary and tertiary selection. */
    method SelectPrimaryCategory(category: Node)
      modifies this
      ensures PrimaryShown(category)
      ensures data == old(data) && allResources == old(allResources) && searchTerm == old(searchTerm)
    {
      currentPrimary := Some(category);
      currentSecondary := None;
      currentTertiary := None;
      RenderContent(category);
      UpdateStats(None);
    }

    /** `selectSecondaryCategory`: keeps the primary, clears the tertiary. */
    method SelectSecondaryCategory(category: Node)
      modifies this
      ensures currentPrimary == old(currentPrimary)
      ensures currentSecondary == Some(category) && currentTertiary.None?
      ensures view == LinksView(category.title, LinksIn(KidsOf(category)))
      ensures categoryCount == (if currentPrimary.Some? then FolderChildCount(currentPrimary.value) else 0)
      ensures resourceCount == (if currentPrimary.Some? then |LinksIn(KidsOf(currentPrimary.value))| else 0)
      ensures data == old(data) && allResources == old(allResources) && searchTerm == old(searchTerm)
    {
      currentSecondary := Some(category);
      currentTertiary := None;
      RenderContent(category);
      UpdateStats(None);
    }

    /** `selectTertiaryCategory`: changes the tertiary selection only. */
    method SelectTertiaryCategory(category: Node)
      modifies this
      ensures currentPrimary == old(currentPrimary) && currentSecondary == old(currentSecondary)
      ensures currentTertiary == Some(category)
      ensures view == LinksView(category.title, LinksIn(KidsOf(category)))
      ensures categoryCount == (if currentPrimary.Some? then FolderChildCount(currentPrimary.value) else 0)
      ensures resourceCount == (if currentPrimary.Some? then |LinksIn(KidsOf(currentPrimary.value))| else 0)
      ensures data == old(data) && allResources == old(allResources) && searchTerm == old(searchTerm)
    {
      currentTertiary := Some(category);
      RenderContent(category);
      UpdateStats(None);
    }

    /** `setDefaultCategory`: selects the first top-level folder, if any. */
    method SetDefaultCategory()
      modifies this
      ensures FirstFolder(old(data)).None? ==> unchanged(this)
      ensures FirstFolder(old(data)).Some? ==> PrimaryShown(old(data)[FirstFolder(old(data)).value])
      ensures data == old(data) && allResources == old(allResources) && searchTerm == old(searchTerm)
    {
      var first := FirstFolder(data);
      if first.Some? {
        SelectPrimaryCategory(data[first.value]);
      }
    }

    /** `init` after `loadData`: selects the default category. */
    method Init(json: seq<Node>)
      requires Addressed(json)
      modifies this
      ensures Valid() && data == json && searchTerm == old(searchTerm)
      ensures FirstFolder(json).Some? ==> PrimaryShown(json[FirstFolder(json).value])
      ensures FirstFolder(json).None? ==>
                currentPrimary == old(currentPrimary) && currentSecondary == old(currentSecondary)
                && currentTertiary == old(currentTertiary) && view == old(view)
                && categoryCount == old(categoryCount) && resourceCount == old(resourceCount)
    {
      LoadData(json);
      SetDefaultCategory();
    }

    /** The view and figures `handleSearch` leaves for the current term and
      * selection, given the view and figures before it: the matches of the
      * lower-cased, trimmed term with the resource figure set to their
      * number, else the most specific selected folder's links with the
      * figures kept, else nothing new. */
    ghost predicate ShowsSearch(before: View, beforeCategories: nat, beforeResources: nat)
      reads this
    {
      var term := Strip(Js, Lower(searchTerm));
      if term != "" then
        view == SearchView(term, Search(allResources, term))
        && resourceCount == |Search(allResources, term)| && categoryCount == beforeCategories
      else
        categoryCount == beforeCategories && resourceCount == beforeResources
        && view == (if currentTertiary.Some? then
                      LinksView(currentTertiary.value.title, LinksIn(KidsOf(currentTertiary.value)))
                    else if currentSecondary.Some? then
                      LinksView(currentSecondary.value.title, LinksIn(KidsOf(currentSecondary.value)))
                    else if currentPrimary.Some? then
                      LinksView(currentPrimary.value.title, LinksIn(KidsOf(currentPrimary.value)))
                    else before)
    }

    /** The input handler: the trimmed value becomes the search term. */
    method OnSearchInput(value: string)
      requires Valid()
      modifies this
      ensures Valid() && searchTerm == Strip(Js, value)
      ensures currentPrimary == old(currentPrimary) && currentSecondary == old(currentSecondary)
      ensures currentTertiary == old(currentTertiary)
      ensures data == old(data) && allResources == old(allResources)
      ensures ShowsSearch(old(view), old(categoryCount), old(resourceCount))
    {
      searchTerm := Strip(Js, value);
      HandleSearch();
    }

    /** `handleSearch`: the lower-cased, trimmed term; empty restores the
      * most specific selection, anything else shows the matching records. */
    method HandleSearch()
      requires Valid()
      modifies this
      ensures Valid()
      ensures currentPrimary == old(currentPrimary) && currentSecondary == old(currentSecondary)
      ensures currentTertiary == old(currentTertiary) && searchTerm == old(searchTerm)
      ensures data == old(data) && allResources == old(allResources)
      ensures ShowsSearch(old(view), old(categoryCount), old(resourceCount))
    {
      var term := Strip(Js, Lower(searchTerm));
      if term == "" {
        if currentTertiary.Some? {
          RenderContent(currentTertiary.value);
        } else if currentSecondary.Some? {
          RenderContent(currentSecondary.value);
        } else if currentPrimary.Some? {
          RenderContent(currentPrimary.value);
        }
        return;
      }
      var results := Search(allResources, term);
      view := SearchView(term, results);
      UpdateStats(Some(|results|));
    }
  }
}
