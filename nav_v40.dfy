/**
 * Navigation page v4.0: the tree is shown as it is exported; the page
 * keeps the selected primary, secondary and tertiary folder, lists the
 * indexed links below the selected folder, and searches the whole index.
 */
module NavigationV40 {
  import opened Bookmarks
  import opened Text
  import opened LinkIndex

  /** What the content grid shows. */
  datatype View =
    | Blank
    | CategoryView(title: Option<string>, resources: seq<Record>)
    | SearchView(term: string, results: seq<Record>)

  class NavigationApp {
    var data: seq<Node>
    var currentPrimary: Option<Node>
    var currentSecondary: Option<Node>
    var currentTertiary: Option<Node>
    var searchTerm: string
    var allResources: seq<Record>
    var view: View
    /** The two figures of the statistics bar. */
    var categoryCount: nat
    var resourceCount: nat

    /** The index is the one of the loaded tree, whose links all carry a
      * title and a url (the search lower-cases both). */
    ghost predicate Valid()
      reads this
    {
      Addressed(data) && allResources == Indexed(data, [])
    }

    constructor()
      ensures Valid()
      ensures data == [] && allResources == [] && searchTerm == "" && view == Blank
      ensures currentPrimary.None? && currentSecondary.None? && currentTertiary.None?
    {
      data := [];
      currentPrimary := None;
      currentSecondary := None;
      currentTertiary := None;
      searchTerm := "";
      allResources := [];
      view := Blank;
      categoryCount := 0;
      resourceCount := 0;
    }

    /** `flattenResources`: resets the index and traverses every root on its own. */
    method FlattenResources()
      modifies this
      ensures allResources == Indexed(data, [])
      ensures data == old(data) && currentPrimary == old(currentPrimary)
      ensures currentSecondary == old(currentSecondary) && currentTertiary == old(currentTertiary)
      ensures searchTerm == old(searchTerm) && view == old(view)
      ensures categoryCount == old(categoryCount) && resourceCount == old(resourceCount)
    {
      allResources := [];
      var i := 0;
      while i < |data|
        invariant 0 <= i <= |data|
        invariant allResources == IndexedRoots(data[..i])
        invariant data == old(data) && currentPrimary == old(currentPrimary)
        invariant currentSecondary == old(currentSecondary) && currentTertiary == old(currentTertiary)
        invariant searchTerm == old(searchTerm) && view == old(view)
        invariant categoryCount == old(categoryCount) && resourceCount == old(resourceCount)
      {
        assert data[..i + 1][..i] == data[..i];
        allResources := Traverse([data[i]], [], allResources);
        i := i + 1;
      }
      assert data[..i] == data;
      IndexedRootsWhole(data);
    }

    /** `loadData` once the JSON is parsed. */
    method LoadData(json: seq<Node>)
      requires Addressed(json)
      modifies this
      ensures Valid() && data == json
      ensures currentPrimary == old(currentPrimary) && currentSecondary == old(currentSecondary)
      ensures currentTertiary == old(currentTertiary) && view == old(view)
      ensures searchTerm == old(searchTerm)
      ensures categoryCount == old(categoryCount) && resourceCount == old(resourceCount)
    {
      data := json;
      FlattenResources();
    }

    /** `extractResources`: the records below a category, collected with
      * the category's title as the first path entry. */
    method ExtractResources(category: Node) returns (resources: seq<Record>)
      ensures resources == ResourcesOf(category)
      ensures ChildrenKey(category).Absent? ==> resources == []
      ensures forall r | r in resources :: FiledUnder(r, KidsOf(category), [category.title])
    {
      resources := [];
      if ChildrenKey(category).Present? {
        resources := Traverse(KidsOf(category), [category.title], []);
      }
      ResourcesOfFolder(category);
    }

    /** `updateStats(resourceCount)`: the category count follows the
      * primary folder; the resource count is the override when given. */
    method UpdateStats(countOverride: Option<nat>)
      modifies this
      ensures currentPrimary.Some? ==> categoryCount == FolderChildCount(currentPrimary.value)
      ensures currentPrimary.None? ==> categoryCount == old(categoryCount)
      ensures countOverride.Some? ==> resourceCount == countOverride.value
      ensures countOverride.None? && currentPrimary.Some? ==> resourceCount == |ResourcesOf(currentPrimary.value)|
      ensures countOverride.None? && currentPrimary.None? ==> resourceCount == old(resourceCount)
      ensures data == old(data) && allResources == old(allResources) && searchTerm == old(searchTerm)
      ensures currentPrimary == old(currentPrimary) && currentSecondary == old(currentSecondary)
      ensures currentTertiary == old(currentTertiary) && view == old(view)
    {
      if currentPrimary.Some? {
        categoryCount := FolderChildCount(currentPrimary.value);
      }
      if countOverride.Some? {
        resourceCount := countOverride.value;
      } else if currentPrimary.Some? {
        var resources := ExtractResources(currentPrimary.value);
        resourceCount := |resources|;
      }
    }

    /** `renderContent`: lists the records below the category, then refreshes the statistics. */
    method RenderContent(category: Node)
      modifies this
      ensures view == CategoryView(category.title, ResourcesOf(category))
      ensures currentPrimary.Some? ==>
                (categoryCount == FolderChildCount(currentPrimary.value)
                 && resourceCount == |ResourcesOf(currentPrimary.value)|)
      ensures currentPrimary.None? ==> categoryCount == old(categoryCount) && resourceCount == old(resourceCount)
      ensures data == old(data) && allResources == old(allResources) && searchTerm == old(searchTerm)
      ensures currentPrimary == old(currentPrimary) && currentSecondary == old(currentSecondary)
      ensures currentTertiary == old(currentTertiary)
    {
      var resources := ExtractResources(category);
      view := CategoryView(category.title, resources);
      UpdateStats(None);
    }

    /** The state `selectPrimaryCategory(category)` leaves: the category is
      * primary, the lower levels are cleared, and its records are shown and
      * counted. */
    ghost predicate PrimaryShown(category: Node)
      reads this
    {
      currentPrimary == Some(category) && currentSecondary.None? && currentTertiary.None?
      && view == CategoryView(category.title, ResourcesOf(category))
      && categoryCount == FolderChildCount(category) && resourceCount == |ResourcesOf(category)|
    }

    /** `selectPrimaryCategory`: clears the secondary and tertiary selection. */
    method SelectPrimaryCategory(category: Node)
      modifies this
      ensures PrimaryShown(category)
      ensures data == old(data) && allResources == old(allResources) && searchTerm == old(searchTerm)
    {
      currentPrimary := Some(category);
      currentSecondary := None;
      currentTertiary := None;
      RenderContent(category);
      UpdateStats(None);
    }

    /** `selectSecondaryCategory`: keeps the primary, clears the tertiary. */
    method SelectSecondaryCategory(category: Node)
      modifies this
      ensures currentPrimary == old(currentPrimary)
      ensures currentSecondary == Some(category) && currentTertiary.None?
      ensures view == CategoryView(category.title, ResourcesOf(category))
      ensures currentPrimary.Some? ==>
                categoryCount == FolderChildCount(currentPrimary.value)
                && resourceCount == |ResourcesOf(currentPrimary.value)|
      ensures currentPrimary.None? ==> categoryCount == old(categoryCount) && resourceCount == old(resourceCount)
      ensures data == old(data) && allResources == old(allResources) && searchTerm == old(searchTerm)
    {
      currentSecondary := Some(category);
      currentTertiary := None;
      RenderContent(category);
      UpdateStats(None);
    }

    /** `selectTertiaryCategory`: changes the tertiary selection only. */
    method SelectTertiaryCategory(category: Node)
      modifies this
      ensures currentPrimary == old(currentPrimary) && currentSecondary == old(currentSecondary)
      ensures currentTertiary == Some(category)
      ensures view == CategoryView(category.title, ResourcesOf(category))
      ensures currentPrimary.Some? ==>
                categoryCount == FolderChildCount(currentPrimary.value)
                && resourceCount == |ResourcesOf(currentPrimary.value)|
      ensures currentPrimary.None? ==> categoryCount == old(categoryCount) && resourceCount == old(resourceCount)
      ensures data == old(data) && allResources == old(allResources) && searchTerm == old(searchTerm)
    {
      currentTertiary := Some(category);
      RenderContent(category);
      UpdateStats(None);
    }

    /** `setDefaultCategory`: selects the first top-level folder, if any. */
    method SetDefaultCategory()
      modifies this
      ensures FirstFolder(old(data)).None? ==> unchanged(this)
      ensures FirstFolder(old(data)).Some? ==> PrimaryShown(old(data)[FirstFolder(old(data)).value])
      ensures data == old(data) && allResources == old(allResources) && searchTerm == old(searchTerm)
    {
      var first := FirstFolder(data);
      if first.Some? {
        SelectPrimaryCategory(data[first.value]);
      }
    }

    /** `init` after `loadData`: selects the default category. */
    method Init(json: seq<Node>)
      requires Addressed(json)
      modifies this
      ensures Valid() && data == json && searchTerm == old(searchTerm)
      ensures FirstFolder(json).Some? ==> PrimaryShown(json[FirstFolder(json).value])
      ensures FirstFolder(json).None? ==>
                currentPrimary == old(currentPrimary) && currentSecondary == old(currentSecondary)
                && currentTertiary == old(currentTertiary) && view == old(view)
                && categoryCount == old(categoryCount) && resourceCount == old(resourceCount)
    {
      LoadData(json);
      SetDefaultCategory();
    }

    /** `searchResources`: the records of the index matching the term. */
    function SearchResources(term: string): (results: seq<Record>)
      reads this
      ensures forall r | r in results :: r in allResources && Matches(Lower(term), r)
      ensures forall r | r in allResources && Matches(Lower(term), r) :: r in results
    {
      Search(allResources, Lower(term))
    }

    /** The figures `updateStats()` leaves: those of the primary folder, or
      * the previous ones without a primary. */
    ghost predicate PrimaryFigures(beforeCategories: nat, beforeResources: nat)
      reads this
    {
      if currentPrimary.Some? then
        categoryCount == FolderChildCount(currentPrimary.value)
        && resourceCount == |ResourcesOf(currentPrimary.value)|
      else categoryCount == beforeCategories && resourceCount == beforeResources
    }

    /** The view and figures `handleSearch` leaves for the current term and
      * selection, given the view and figures before it: the matches for a
      * non-empty term, else the most specific selected folder, else nothing new. */
    ghost predicate ShowsSearch(before: View, beforeCategories: nat, beforeResources: nat)
      reads this
    {
      if searchTerm != "" then
        view == SearchView(searchTerm, Search(allResources, Lower(searchTerm)))
        && resourceCount == |Search(allResources, Lower(searchTerm))|
        && categoryCount == (if currentPrimary.Some? then FolderChildCount(currentPrimary.value) else beforeCategories)
      else if currentTertiary.Some? then
        view == CategoryView(currentTertiary.value.title, ResourcesOf(currentTertiary.value))
        && PrimaryFigures(beforeCategories, beforeResources)
      else if currentSecondary.Some? then
        view == CategoryView(currentSecondary.value.title, ResourcesOf(currentSecondary.value))
        && PrimaryFigures(beforeCategories, beforeResources)
      else if currentPrimary.Some? then
        view == CategoryView(currentPrimary.value.title, ResourcesOf(currentPrimary.value))
        && PrimaryFigures(beforeCategories, beforeResources)
      else
        view == before && categoryCount == beforeCategories && resourceCount == beforeResources
    }

    /** The input handler: the trimmed value becomes the search term. */
    method OnSearchInput(value: string)
      requires Valid()
      modifies this
      ensures Valid() && searchTerm == Strip(Js, value)
      ensures currentPrimary == old(currentPrimary) && currentSecondary == old(currentSecondary)
      ensures currentTertiary == old(currentTertiary)
      ensures data == old(data) && allResources == old(allResources)
      ensures ShowsSearch(old(view), old(categoryCount), old(resourceCount))
    {
      searchTerm := Strip(Js, value);
      HandleSearch();
    }

    /** `handleSearch`: an empty term shows the most specific selection
      * again; any other term shows the matching records. */
    method HandleSearch()
      requires Valid()
      modifies this
      ensures Valid()
      ensures currentPrimary == old(currentPrimary) && currentSecondary == old(currentSecondary)
      ensures currentTertiary == old(currentTertiary) && searchTerm == old(searchTerm)
      ensures data == old(data) && allResources == old(allResources)
      ensures ShowsSearch(old(view), old(categoryCount), old(resourceCount))
      ensures searchTerm == "" && currentTertiary.None? && currentSecondary.None? && currentPrimary.None? ==>
                unchanged(this)
    {
      if searchTerm == "" {
        if currentTertiary.Some? {
          RenderContent(currentTertiary.value);
        } else if currentSecondary.Some? {
          RenderContent(currentSecondary.value);
        } else if currentPrimary.Some? {
          RenderContent(currentPrimary.value);
        }
        return;
      }
      var results := SearchResources(searchTerm);
      view := SearchView(searchTerm, results);
      UpdateStats(Some(|results|));
    }

    /** `navigateToBreadcrumbLevel`: level 0 selects the default category,
      * level 1 re-selects the secondary folder when there is one. */
    method NavigateToBreadcrumbLevel(level: int)
      modifies this
      ensures level == 0 && FirstFolder(old(data)).Some? ==> PrimaryShown(old(data)[FirstFolder(old(data)).value])
      ensures level == 1 && old(currentSecondary).Some? ==>
                currentSecondary == old(currentSecondary) && currentPrimary == old(currentPrimary)
                && currentTertiary.None?
                && view == CategoryView(old(currentSecondary).value.title, ResourcesOf(old(currentSecondary).value))
                && PrimaryFigures(old(categoryCount), old(resourceCount))
      ensures level == 0 && FirstFolder(old(data)).None? ==> unchanged(this)
      ensures level != 0 && (level != 1 || old(currentSecondary).None?) ==> unchanged(this)
      ensures data == old(data) && allResources == old(allResources) && searchTerm == old(searchTerm)
    {
      if level == 0 {
        SetDefaultCategory();
      } else if level == 1 && currentSecondary.Some? {
        SelectSecondaryCategory(currentSecondary.value);
      }
    }
  }
}
