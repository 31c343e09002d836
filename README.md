# Bookmark navigation: a verified model of the tree reshaping

The navigation site publishes a browser bookmark export, `pintree.json`:
a tree of folders and links. Five successive front-end versions and four
Python scripts reshape that tree before anything is shown. This project
models that reshaping in Dafny and proves what each step keeps, drops and
counts.

| module | file | models |
|---|---|---|
| `Bookmarks` | `bookmarks.dfy` | The parsed tree: `Node` is a folder, a link or another node. `Kids` is a missing or present `children` key, and `Data`/`Entry` are a parsed document as the Python scripts see it. It also defines sizes, the links below a forest (`LinksIn`), and `find` by title or by type. |
| `Seqs`, `Text`, `Dicts` | `seqs.dfy`, `text.dfy`, `dicts.dfy` | The primitives the scripts lean on: `filter`/`map`/concatenation, ASCII lower-casing, `includes`, `trim`/`strip`, `split`/`join`, and a Python dictionary with its key insertion order. |
| `NavigationV5` | `nav_v5.dfy` | `arch/script_v5.0.js`: demoting the first level, the search index with primary/secondary/tertiary categories, the category search, the selection state machine and `extractDescription`. |
| `LinkIndex` | `link_index.dfy` | The path-carrying index shared by v4.0 and v4.1 (`flattenResources`, `extractResources`) and their title/url/category-path search. |
| `NavigationV40`, `NavigationV41` | `nav_v40.dfy`, `nav_v41.dfy` | The two v4 apps: their selection fields, the search and the statistics figures. |
| `NavigationV3` | `nav_v3.dfy` | `arch/script_v3.0.js`: the "Bookmarks bar" categories and sub-categories, content selection, search, the total and `generateDescription`. |
| `CardsV2` | `cards_v2.dfy` | `arch/script_v2.0.js`: the resource cards, categories and tags, the newest-first sort, filtering and pagination. |
| `StaticData` | `static_data.dfy` | `convert_json_format` of `update_static_data.py`, including the "Other bookmarks" unwrapping and the recursive `process_items`. |
| `StaticPage` | `static_page.dfy` | `arch/update_static_page.py`: the emoji lookup, `process_folder_content`/`process_folder_recursive`, extraction and the re-indentation in `generate_js_data`. |
| `BookmarkAnalysis` | `analyze.dfy` | `arch/analyze_bookmarks.py`: the printed structure, the folder/link/depth statistics and `get_root_folder`. |
| `ExtractJson` | `extract_json.dfy` | The three nested loops of `arch/extract_json.py`. |

Code that changes state step by step keeps that form:
- Each app is a `class` whose fields are the script's fields or globals. Its methods update those fields under `modifies`.
- Each loop that pushes into an array, or fills a dictionary, is a `method`.
- Each such method is proved equal to a recursive specification function (`Transformed`, `Collected`, `Indexed`, `Parsed`, `Processed`, `FolderContent`, `Structure`, …). The lemmas state that function's properties: which links survive and in what order, how they are labelled, how many records are produced, and which key wins when titles repeat.

Pure code (lookups, `extractDescription`, the filters, `get_root_folder`) is modelled as functions.

## Model

| member | source | states |
|---|---|---|
| NavigationV5.NavigationApp.TransformDataStructure | arch/script_v5.0.js:72-114 | the loop builds exactly `Transformed(originalData)`, the first level dropped and the second-level folders promoted |
| NavigationV5.NavigationApp.PromoteChildren | arch/script_v5.0.js:79-108 | the loop over one root folder's children appends a new primary category for each child folder, and only for folders |
| NavigationV5.NavigationApp.KeepGrandchildren | arch/script_v5.0.js:90-104 | each grandchild folder is copied with absent children read as `[]`, each link is kept as is, and anything else is dropped |
| NavigationV5.KeptGrandchildrenShape | arch/script_v5.0.js:91-103 | every kept grandchild is a folder with a children list or a link |
| NavigationV5.PromotedChildrenShape | arch/script_v5.0.js:79-108 | every promoted category is a folder whose children are open folders or links |
| NavigationV5.TransformedShape | arch/script_v5.0.js:72-114 | the whole transformed tree has the two-level shape the navigation expects |
| NavigationV5.KeptGrandchildrenLinks | arch/script_v5.0.js:90-104 | keeping the grandchildren loses and reorders no link |
| NavigationV5.PromotedChildrenLinks | arch/script_v5.0.js:79-108 | promotion keeps every link below the child folders, in order, and drops the links lying directly under a root folder |
| NavigationV5.TransformedLinks | arch/script_v5.0.js:72-114 | the links of the transformed tree are exactly the links at depth two or more of the original, in document order |
| NavigationV5.KeptGrandchildrenTitled | arch/script_v5.0.js:91-103 | link titles present before the copy stay present |
| NavigationV5.PromotedChildrenTitled | arch/script_v5.0.js:79-108 | promotion keeps every link title present |
| NavigationV5.TransformedTitled | arch/script_v5.0.js:72-114 | an input whose links are titled gives an output whose links are titled, which search needs |
| NavigationV5.NavigationApp.Traverse | arch/script_v5.0.js:124-138 | the recursive walk appends `Collected(items, …)` to what was collected before |
| NavigationV5.NavigationApp.FlattenResources | arch/script_v5.0.js:121-147 | the returned index is `Flattened(data)` |
| NavigationV5.CollectedLinks | arch/script_v5.0.js:124-138 | the walk indexes every link below `items` exactly once, in document order |
| NavigationV5.CollectedCategories | arch/script_v5.0.js:126-136 | every entry is a link carrying the caller's primary and secondary category, and as tertiary either the caller's or the title of a folder it passed through, '' for an untitled one |
| NavigationV5.FlattenedLinks | arch/script_v5.0.js:140-144 | over folders, the index holds exactly the links below them |
| NavigationV5.IndexedLinks | arch/script_v5.0.js:54-58 | the index of a loaded page holds exactly the deep links of the raw data, in order |
| NavigationV5.ResourceCount | arch/script_v5.0.js:54-58 | the resource total counts exactly the deep links of the raw data |
| NavigationV5.FlattenedCategories | arch/script_v5.0.js:140-144 | every entry is a link with an empty secondary category, filed under the title of one of the primary categories, '' for an untitled one |
| NavigationV5.CollectedTitled | arch/script_v5.0.js:124-138 | over items whose links are titled every entry has the title the search reads; its categories are always strings |
| NavigationV5.FlattenedTitled | arch/script_v5.0.js:140-144 | over primary folders whose links are titled every index entry is searchable |
| NavigationV5.CollectedTertiary | arch/script_v5.0.js:132-135 | an entry's tertiary category is the title of the innermost folder around its link ('' when that folder is untitled), or the caller's when the link lies directly in `items` |
| NavigationV5.SearchResults | arch/script_v5.0.js:424-429 | an entry is in the result if and only if it is in the index and the lower-cased query occurs in its title or one of its three categories |
| NavigationV5.CategoryPathOfTopLink | arch/script_v5.0.js:467-469 | a link lying directly in a primary category is labelled with that category alone |
| NavigationV5.ContainsChar | arch/script_v5.0.js:620-631 | a one-character `includes` is membership |
| NavigationV5.ExtractDescriptionSlice | arch/script_v5.0.js:620-631 | with a '-' the description is the trimmed text after the LAST '-'; else with a '：' the trimmed text after the last '：'; else the title; it is always a slice of the title, dash-free when the title has a dash |
| NavigationV5.NavigationApp.constructor | arch/script_v5.0.js:7-16 | a fresh app has no data, no index and no current categories |
| NavigationV5.NavigationApp.LoadData | arch/script_v5.0.js:40-65 | the stored tree is the transformed data, the index is rebuilt from it, and the selection is unchanged |
| NavigationV5.NavigationApp.Init | arch/script_v5.0.js:21-35 | after loading, the page is exactly what selecting the first primary category leaves (`PrimarySelected`); with no category the selection and content are kept; the search box is untouched |
| NavigationV5.NavigationApp.SelectPrimaryCategory | arch/script_v5.0.js:221-289 | the whole new view is `PrimarySelected`: the category is selected under the title it was given, which may be undefined; an unknown or empty category shows the empty state; else the first sub-folder becomes secondary and is rendered, or with none the category's own items are shown |
| NavigationV5.NavigationApp.SelectSecondaryCategory | arch/script_v5.0.js:294-313 | the secondary category is selected under the title it was given (possibly undefined), the tertiary one is cleared, and the content changes only when the folder is found with children |
| NavigationV5.NavigationApp.SelectTertiaryCategory | arch/script_v5.0.js:389-406 | the tertiary category is selected under the title it was given (possibly undefined) and its items are shown when the whole path is found |
| NavigationV5.NavigationApp.Restore | arch/script_v5.0.js:505-511 | the whole new view is `Restored(old view)`: the secondary category is re-selected and re-rendered when set; else the primary one is re-selected, auto-selected secondary and content included; else nothing changes |
| NavigationV5.RestoreIdempotent | arch/script_v5.0.js:505-511 | restoring a restored view changes nothing, so a second blank search or clear leaves the page as the first did |
| NavigationV5.NavigationApp.HandleSearch | arch/script_v5.0.js:412-432 | a non-blank query shows exactly `SearchResults` or the no-results state and keeps the selection; a blank query leaves exactly `Restored(old view)` in all three cases |
| NavigationV5.NavigationApp.ClearSearch | arch/script_v5.0.js:499-511 | the search box is emptied and the view becomes exactly `Restored(old view)` |
| NavigationV5.NavigationApp.GoHome | arch/script_v5.0.js:561-576 | the search box is cleared; with data the view is exactly `PrimarySelected` for the first primary category, secondary and content included; without data no category is selected and the content is kept |
| NavigationV5.NavigationApp.Statistics | arch/script_v5.0.js:581-614 | the first figure counts the primary categories; every indexed entry is a link |
| LinkIndex.LinksOf | arch/script_v4.0.js:59-80 | one link per index record |
| LinkIndex.LinksOfAppend | arch/script_v4.0.js:59-80 | the links of concatenated indexes are the two indexes' links, in order |
| LinkIndex.IndexedAppend | arch/script_v4.0.js:62-76 | indexing a concatenation is concatenating the indexes, so `forEach` over the items is sound |
| LinkIndex.IndexedSingleton | arch/script_v4.0.js:62-76 | `traverse([item], path)` is the index of that one item |
| LinkIndex.IndexedRootsWhole | arch/script_v4.0.js:78-80 | calling `traverse([rootItem], [])` per root equals one traversal of the whole data |
| LinkIndex.IndexedLinks | arch/script_v4.0.js:62-76 | the index holds every link reachable through folders that have children, exactly once, in document order |
| LinkIndex.IndexedShape | arch/script_v4.0.js:62-76 | every record is a link whose path is the caller's path, then the titles of the chain of folders with children leading down to it from the items (`ChainTo`), then its own title; its category path joins all but the last entry with " > " |
| LinkIndex.RootLinkRecord | arch/script_v4.0.js:66-71 | a link at the top level is recorded with path `[title]` and an empty category path |
| LinkIndex.ResourcesOfFolder | arch/script_v4.0.js:350-374 | `extractResources` of a folder gives that folder's part of the page index, nothing without children, and every record filed under the folder's title and the folders below it |
| LinkIndex.Traverse | arch/script_v4.0.js:62-76 | the recursive walk appends `Indexed(items, path)` to what was pushed before |
| LinkIndex.Search | arch/script_v4.0.js:439-449 | a record is in the result if and only if it is in the index and the lower-cased term occurs in its lower-cased title, url or category path |
| LinkIndex.SearchEmptyTerm | arch/script_v4.0.js:439-449 | the empty term selects the whole index |
| LinkIndex.SearchIdempotent | arch/script_v4.0.js:439-449 | searching the results again with the same term changes nothing |
| NavigationV40.NavigationApp.constructor | arch/script_v4.0.js:8-17 | a fresh app has no data, an empty index, an empty term and no selection |
| NavigationV40.NavigationApp.FlattenResources | arch/script_v4.0.js:59-81 | the index becomes `Indexed(data, [])` and nothing else changes |
| NavigationV40.NavigationApp.LoadData | arch/script_v4.0.js:38-54 | the data is stored, the index is rebuilt from it, and the selection, view, search term and figures are kept |
| NavigationV40.NavigationApp.ExtractResources | arch/script_v4.0.js:350-374 | the result is the category's records, empty without children, each filed under the category's title and the titles of the folders leading to its link |
| NavigationV40.NavigationApp.UpdateStats | arch/script_v4.0.js:526-544 | the category figure counts the primary category's sub-folders; the resource figure is the override when given, else the primary category's record count; with no primary category the figures stay |
| NavigationV40.NavigationApp.RenderContent | arch/script_v4.0.js:311-345 | the grid shows the category's records; the figures describe the primary category, or stay without one |
| NavigationV40.NavigationApp.SelectPrimaryCategory | arch/script_v4.0.js:154-177 | the category becomes primary, the lower levels are cleared, its records are shown and counted |
| NavigationV40.NavigationApp.SelectSecondaryCategory | arch/script_v4.0.js:256-284 | the category becomes secondary, the tertiary one is cleared, its records are shown, and the figures describe the primary category (kept without one) |
| NavigationV40.NavigationApp.SelectTertiaryCategory | arch/script_v4.0.js:289-306 | the category becomes tertiary, its records are shown, and the figures describe the primary category (kept without one) |
| NavigationV40.NavigationApp.SetDefaultCategory | arch/script_v4.0.js:143-149 | the first top-level folder is shown as `SelectPrimaryCategory` shows it (`PrimaryShown`: selection, view and both figures); with none nothing changes |
| NavigationV40.NavigationApp.Init | arch/script_v4.0.js:22-33 | after loading, the first top-level folder is shown as `PrimaryShown` describes; with none the selection, view and figures are those from before |
| NavigationV40.NavigationApp.SearchResources | arch/script_v4.0.js:439-449 | a record is returned if and only if it is indexed and matches the lower-cased term |
| NavigationV40.NavigationApp.OnSearchInput | arch/script_v4.0.js:91-94 | the stored term is the trimmed input, the selection is kept, and the view and figures are those `handleSearch` leaves (`ShowsSearch`) |
| NavigationV40.NavigationApp.HandleSearch | arch/script_v4.0.js:419-434 | `ShowsSearch`: a non-empty term shows and counts exactly the matching records; an empty one re-shows the deepest selected category with the primary's figures, or changes nothing |
| NavigationV40.NavigationApp.NavigateToBreadcrumbLevel | arch/script_v4.0.js:513-521 | level 0 shows the first top-level folder (`PrimaryShown`) or, with none, changes nothing; level 1 with a secondary category keeps the selection, clears the tertiary one and shows that category's records with the figures left alone; any other level changes nothing |
| NavigationV41.CollectLinks | arch/script_v4.1.js:368-377 | the recursive walk appends every reachable link, in document order |
| NavigationV41.SameLinksAsV40 | arch/script_v4.1.js:365-383 | `getAllLinks` lists exactly the links of the records v4.0's `extractResources` builds |
| NavigationV41.NavigationApp.constructor | arch/script_v4.1.js:8-17 | a fresh app has no data, an empty index, an empty term and no selection |
| NavigationV41.NavigationApp.FlattenResources | arch/script_v4.1.js:68-92 | the index becomes `Indexed(data, [])` and nothing else changes |
| NavigationV41.NavigationApp.LoadData | arch/script_v4.1.js:38-63 | the data is stored, the index is rebuilt from it, and the selection, view, search term and figures are kept |
| NavigationV41.NavigationApp.GetAllLinks | arch/script_v4.1.js:365-383 | the result is every link below the category, empty without children |
| NavigationV41.NavigationApp.UpdateStats | arch/script_v4.1.js:488-510 | a search count replaces the resource figure only; otherwise both figures describe the primary category, or are 0 without one |
| NavigationV41.NavigationApp.RenderContent | arch/script_v4.1.js:326-360 | the grid shows the category's links |
| NavigationV41.NavigationApp.SelectPrimaryCategory | arch/script_v4.1.js:171-194 | the category becomes primary, the lower levels are cleared, its links are shown and counted |
| NavigationV41.NavigationApp.SelectSecondaryCategory | arch/script_v4.1.js:277-297 | the category becomes secondary, the tertiary one is cleared, its links are shown, and the figures are the primary's sub-folders and links, 0 without a primary |
| NavigationV41.NavigationApp.SelectTertiaryCategory | arch/script_v4.1.js:302-321 | the category becomes tertiary, its links are shown, and the figures are the primary's sub-folders and links, 0 without a primary |
| NavigationV41.NavigationApp.SetDefaultCategory | arch/script_v4.1.js:158-166 | the first top-level folder is shown as `SelectPrimaryCategory` shows it (`PrimaryShown`: selection, view and both figures); with none nothing changes |
| NavigationV41.NavigationApp.Init | arch/script_v4.1.js:22-33 | after loading, the first top-level folder is shown as `PrimaryShown` describes; with none the selection, view and figures are those from before |
| NavigationV41.NavigationApp.OnSearchInput | arch/script_v4.1.js:102-105 | the stored term is the trimmed input, the selection is kept, and the view and figures are those `handleSearch` leaves (`ShowsSearch`) |
| NavigationV41.NavigationApp.HandleSearch | arch/script_v4.1.js:413-441 | `ShowsSearch`: a term non-blank after lower-casing and trimming shows exactly the matching records and sets only the resource figure to their number; a blank one re-shows the deepest selected category's links and keeps the figures |
| NavigationV3.PrimariesOfFolders | arch/script_v3.0.js:59-118 | one primary category per folder under the bookmarks bar, in order; links and other entries there are skipped |
| NavigationV3.SubCategoriesOfFolders | arch/script_v3.0.js:70-97 | one sub-category per sub-folder of a primary folder, in order |
| NavigationV3.DirectBookmarksOfLinks | arch/script_v3.0.js:97-108 | the bookmarks lying directly in a primary folder are exactly its links, in order |
| NavigationV3.DirectBookmarksLabels | arch/script_v3.0.js:97-108 | each direct bookmark carries the primary category and no sub-category |
| NavigationV3.SubCategoriesLabels | arch/script_v3.0.js:72-94 | each sub-category names its parent, and each of its bookmarks carries the parent and the sub-category |
| NavigationV3.ParsedLabels | arch/script_v3.0.js:53-118 | across the parsed structure every bookmark is labelled with the category and sub-category it is filed under |
| NavigationV3.PrimariesLabels | arch/script_v3.0.js:59-118 | the labelling holds for each primary category built from a list of folders |
| NavigationV3.ParsedWithoutBar | arch/script_v3.0.js:56-58 | without a "Bookmarks bar" entry, or with one lacking children, the structure is empty |
| NavigationV3.ParseSubFolder | arch/script_v3.0.js:70-94 | the loop over a sub-folder builds exactly `SubCategoryOf(subItem, parent)` |
| NavigationV3.ParsePrimaryFolder | arch/script_v3.0.js:60-114 | the loop over a primary folder builds exactly `PrimaryOf(folder)` |
| NavigationV3.ParseBookmarksStructure | arch/script_v3.0.js:53-118 | the loops build exactly `Parsed(data)` |
| NavigationV3.FindFirst | arch/script_v3.0.js:212-232 | `find` by title returns the FIRST element with that title (every earlier one has another title), and none only when no element has it |
| NavigationV3.Shown | arch/script_v3.0.js:211-241 | nothing is rendered exactly when no category has the title; otherwise the FIRST category of that title is used (`find`): without a sub-category its own bookmarks and its sub-categories', with one its first sub-category of that title's bookmarks, or none when it has no such sub-category |
| NavigationV3.AllBookmarksCover | arch/script_v3.0.js:374-380 | every bookmark shown for any category is in the search list |
| NavigationV3.SubTotalLength | arch/script_v3.0.js:429-438 | the per-sub-category sum of bookmark counts is the length of their concatenation |
| NavigationV3.TotalIsSearchListLength | arch/script_v3.0.js:429-438 | the total shown is the length of the list the search scans |
| NavigationV3.SearchResults | arch/script_v3.0.js:382-387 | a bookmark is found if and only if it is in the list and the query occurs in its lower-cased title, url, category or sub-category |
| NavigationV3.GenerateDescription | arch/script_v3.0.js:464-469 | a title of at most 50 characters is kept; a longer one becomes its first 50 characters followed by "..." |
| NavigationV3.Page.constructor | arch/script_v3.0.js:7-10 | the page starts with no data, no selection and a blank view |
| NavigationV3.Page.LoadBookmarksData | arch/script_v3.0.js:37-46 | the stored structure is `Parsed(data)` and the selection is kept |
| NavigationV3.Page.CollectCategory | arch/script_v3.0.js:238-241 | a category shows its direct bookmarks followed by every sub-category's, in order |
| NavigationV3.Page.RenderContent | arch/script_v3.0.js:211-261 | an unknown category leaves the view; otherwise the view lists the chosen sub-category's bookmarks, or the whole category's |
| NavigationV3.Page.RenderPrimaryNavigation | arch/script_v3.0.js:124-153 | the first category is selected and listed; with no category nothing changes |
| NavigationV3.Page.HandlePrimaryCategoryClick | arch/script_v3.0.js:299-316 | the category is selected, the sub-category cleared and its bookmarks listed; an unknown category leaves the view |
| NavigationV3.Page.HandleSecondaryCategoryClick | arch/script_v3.0.js:322-340 | the sub-category is selected under the same primary category and its bookmarks listed; an unknown primary category leaves the view |
| NavigationV3.Page.CollectAll | arch/script_v3.0.js:374-380 | the search list is every category's bookmarks, in order |
| NavigationV3.Page.PerformSearch | arch/script_v3.0.js:365-393 | a non-blank query shows exactly the matching bookmarks; a blank one re-shows the current category, or leaves the view as it was when that category is not found; the data and selection are kept |
| NavigationV3.Page.UpdateTotalStats | arch/script_v3.0.js:429-438 | the total is the number of bookmarks the search scans |
| NavigationV3.Page.InitializeApp | arch/script_v3.0.js:20-31 | the structure is parsed and the total counts its bookmarks; the first category becomes primary and its listing is shown with no secondary category, whose variable is left as it was; with no category the selection and view are kept |
| CardsV2.GetCategoryFromFolder | arch/script_v2.0.js:107-116 | "ToGo" and only it maps to "tools"; "ToStudy" and "写作", and only they, map to "study"; every other name, a missing one included, maps to "resources" |
| CardsV2.CategoryNeverFalsy | arch/script_v2.0.js:80-89 | a folder's category is never empty, so the fallback to the parent category never applies and a sub-folder keeps the sub-folder's own category |
| CardsV2.GenerateDescription | arch/script_v2.0.js:146-155 | a category outside the four known ones gets the fallback description |
| CardsV2.GetCategoryName | arch/script_v2.0.js:240-249 | a category outside the four known ones is named "其他" |
| CardsV2.FolderCategoriesKnown | arch/script_v2.0.js:107-155 | a category derived from a folder name always has its own description and name, never the fallbacks |
| CardsV2.TagOrderDistinct | arch/script_v2.0.js:122-141 | the ten tags are distinct |
| CardsV2.Earned | arch/script_v2.0.js:126-135 | a tag is earned if and only if it is one of the ten and its keywords occur in the lower-cased title |
| CardsV2.ExtractTags | arch/script_v2.0.js:122-141 | a title always gets at least one tag |
| CardsV2.ExtractTagsEarned | arch/script_v2.0.js:126-135 | each of the ten tags is present exactly when one of its keywords occurs in the lower-cased title |
| CardsV2.ExtractTagsFallback | arch/script_v2.0.js:140 | the result is ["实用工具"] if and only if no keyword occurs |
| CardsV2.ExtractTagsDistinct | arch/script_v2.0.js:122-141 | no tag is listed twice |
| CardsV2.InsertPermutes | arch/script_v2.0.js:99 | inserting into the sorted list adds exactly the one resource |
| CardsV2.InsertSorted | arch/script_v2.0.js:99 | inserting keeps the list in descending timestamp order |
| CardsV2.SortByTimestampCorrect | arch/script_v2.0.js:99 | the sort returns a permutation of its input in descending order of timestamp, a missing timestamp counting as 0 |
| CardsV2.InsertKeepsTies | arch/script_v2.0.js:99 | for any selection of resources that share one timestamp, inserting puts the new resource (when selected) ahead of the selected ones and keeps their order |
| CardsV2.SortByTimestampStable | arch/script_v2.0.js:99 | the sort is stable: the resources of any one timestamp come out in their input order |
| CardsV2.LinkResourcesLabelled | arch/script_v2.0.js:62-74 | each link of a folder becomes a resource labelled with that folder's category, with tags and a description |
| CardsV2.FolderResourcesLabelled | arch/script_v2.0.js:59-100 | every resource built from a top folder is well labelled |
| CardsV2.BarResourcesLabelled | arch/script_v2.0.js:58-101 | every resource built from the bookmarks bar is well labelled |
| CardsV2.CollectedLabelled | arch/script_v2.0.js:57-102 | every resource collected from the data is well labelled |
| CardsV2.ParsedCorrect | arch/script_v2.0.js:55-105 | the parsed list is sorted newest first, is a permutation of the collected resources, and every entry is well labelled |
| CardsV2.DeeperFoldersDropped | arch/script_v2.0.js:75-90 | a sub-folder contributes only its own links; folders nested deeper are ignored |
| CardsV2.NoLinksNoResources | arch/script_v2.0.js:62-74 | a list without links gives no resources |
| CardsV2.PushLinks | arch/script_v2.0.js:76-89 | the loop over a sub-folder appends exactly its links' resources |
| CardsV2.PushChild | arch/script_v2.0.js:63-91 | one child of a top folder appends one resource under the folder's category if it is a link, the links of a sub-folder with children under the sub-folder's category, and nothing otherwise |
| CardsV2.PushFolder | arch/script_v2.0.js:61-90 | the loop over a top folder appends exactly `FolderResources(children, category)` |
| CardsV2.PushBar | arch/script_v2.0.js:59-92 | the loop over the bookmarks bar appends exactly `BarResources(folders)` |
| CardsV2.ParseBookmarksData | arch/script_v2.0.js:55-105 | the result is `Parsed(data)`: sorted newest first and a permutation of the collected resources |
| CardsV2.Filtered | arch/script_v2.0.js:312-326 | a resource is kept if and only if it is in the list, matches the query in its title, description or a tag, and is in the current category ("all" keeps any) |
| CardsV2.FilteredIsFilter | arch/script_v2.0.js:313-315 | the "no query and all categories" shortcut gives the same list as the general filter |
| CardsV2.FilterKeepsSorted | arch/script_v2.0.js:312-326 | filtering keeps the newest-first order |
| CardsV2.Cards | arch/script_v2.0.js:175-178 | one card per shown resource, in order |
| CardsV2.LoadMoreDuplicatesFirstPage | arch/script_v2.0.js:160-178 | as written, loading the second page after the first repeats the first twelve cards |
| CardsV2.Rendered | arch/script_v2.0.js:160-178 | the grid holds the first `page * 12` filtered resources, each once, or the no-results message when there are none |
| CardsV2.FirstPageAgrees | arch/script_v2.0.js:160-178 | on the first page the as-written rendering and the corrected one agree |
| CardsV2.Page.constructor | arch/script_v2.0.js:7-11 | the page starts empty, on page 1, in category "all" |
| CardsV2.Page.LoadResources | arch/script_v2.0.js:39-48 | both lists become the parsed resources and nothing else changes |
| CardsV2.Page.RenderResources | arch/script_v2.0.js:160-187 | the grid is the corrected rendering; "load more" is shown exactly when more filtered resources remain, and kept when nothing is shown (`LoadMoreShown`) |
| CardsV2.Page.UpdateStats | arch/script_v2.0.js:343-346 | the figure is the number of filtered resources |
| CardsV2.Page.FilterResources | arch/script_v2.0.js:312-330 | the filtered list is `Filtered(all, query, category)`; it is rendered, counted, and "load more" follows `LoadMoreShown` |
| CardsV2.Page.PerformSearch | arch/script_v2.0.js:302-306 | the page is reset to 1 and the lower-cased, trimmed query is applied; grid, count and "load more" as after the filter |
| CardsV2.Page.SelectTab | arch/script_v2.0.js:285-291 | the tab's category becomes current, the page is reset to 1 and the filter runs with an empty query; grid, count and "load more" as after the filter |
| CardsV2.Page.LoadMore | arch/script_v2.0.js:335-338 | the page number grows by one, the grid shows that many pages of results (the corrected rendering, see "## Findings"), "load more" follows `LoadMoreShown` and the count is kept |
| CardsV2.Page.InitializeApp | arch/script_v2.0.js:21-33 | after loading, the grid shows the first page of the parsed resources, "load more" follows `LoadMoreShown`, the figure counts them all, and the selected category is left as it was |
| StaticData.RecordOf | update_static_data.py:52-57 | a link record keeps the title and url as read, and the icon when it is truthy, else "🔗" |
| StaticData.CategoryFor | update_static_data.py:47 | a link goes to the current prefix, or to "默认分类" at the top |
| StaticData.SubCategoryName | update_static_data.py:60-64 | a folder's category is its title (default "未命名文件夹"), joined to a non-empty prefix by " - " |
| StaticData.Processed | update_static_data.py:31-73 | processing keeps the dictionary well formed |
| StaticData.ProcessedCount | update_static_data.py:43-73 | processing adds exactly one record per link below the items |
| StaticData.ProcessedItemCount | update_static_data.py:45-67 | one item adds exactly one record per link in its subtree |
| StaticData.ProcessedNoLinks | update_static_data.py:43-73 | items with no link below them leave the dictionary unchanged; empty folders create no category |
| StaticData.ProcessedItemNoLinks | update_static_data.py:59-67 | a subtree without links leaves the dictionary unchanged |
| StaticData.ProcessedLinks | update_static_data.py:45-58 | a run of links is appended, in order, to the prefix's category |
| StaticData.TargetDict.constructor | update_static_data.py:101-125 | a fresh target dictionary is empty |
| StaticData.ProcessItems | update_static_data.py:31-73 | the loop updates the target to `Processed(old, items, prefix)` and returns the number of links below the items, which is also how many records were added |
| StaticData.ProcessItem | update_static_data.py:45-67 | one item updates the target to `ProcessedItem(old, item, prefix)` and counts the links of its subtree |
| StaticData.FindOtherBookmarks | update_static_data.py:76-85 | the search returns the first top-level folder titled "Other bookmarks" or "其他书签", and none only when there is no such folder |
| StaticData.CategoryOf | update_static_data.py:101-126 | a top-level category's dictionary is well formed |
| StaticData.Converted | update_static_data.py:16-133 | the conversion gives a well-formed two-level dictionary |
| StaticData.ByFoldersLastWins | update_static_data.py:122-126 | in the fallback, a folder name used twice keeps the later folder's links |
| StaticData.ByFoldersKeys | update_static_data.py:122-126 | in the fallback, every new top-level key is the name of a top-level folder |
| StaticData.UnwrappedLastWins | update_static_data.py:94-104 | under "Other bookmarks", a sub-folder's category holds its own links unless a later entry rewrites that key |
| StaticData.UnwrapLink | update_static_data.py:105-118 | a link lying directly under "Other bookmarks" is appended to "默认分类"/"默认分类" |
| StaticData.UnwrappedDefaultLinks | update_static_data.py:105-118 | a run of such links is appended to "默认分类"/"默认分类" in order |
| StaticData.FindOtherBookmarksFolder | update_static_data.py:76-85 | the loop with `break` finds exactly `FindOtherBookmarks(data)` |
| StaticData.BuildCategory | update_static_data.py:101-104 | one top-level category is exactly `CategoryOf(folder)` |
| StaticData.ConvertJsonFormat | update_static_data.py:16-133 | the conversion is exactly `Converted(data)` |
| StaticData.UnwrapChildren | update_static_data.py:88-118 | the loop over the children of "Other bookmarks" builds exactly `Unwrapped(Empty(), children)` |
| StaticData.ConvertTopFolders | update_static_data.py:119-126 | the fallback loop builds exactly `ByFolders(Empty(), data)` |
| StaticPage.FirstKeyword | arch/update_static_page.py:187-189 | the first keyword, in table order, that the URL contains; none only when it contains none |
| StaticPage.FirstGroup | arch/update_static_page.py:192-207 | the first fallback group with a word the URL contains; none only when no group matches |
| StaticPage.EmojiChoice | arch/update_static_page.py:184-209 | the emoji is the first matching keyword's; with no keyword, the first matching group's; with neither, "🔗" |
| StaticPage.LightningIsJavascriptOnly | arch/update_static_page.py:169-170 | only the "javascript" entry maps to "⚡", and it comes right after "java" |
| StaticPage.NoLightningFallback | arch/update_static_page.py:192-207 | no fallback group gives "⚡" |
| StaticPage.JavascriptShadowed | arch/update_static_page.py:169-189 | no URL gets "⚡": every URL containing "javascript" also contains "java", which is tried first |
| StaticPage.JavascriptGetsCoffee | arch/update_static_page.py:169-189 | a URL containing "javascript" and none of the earlier keywords gets "☕" |
| StaticPage.TablesNonEmpty | arch/update_static_page.py:143-207 | no keyword or fallback word is empty |
| StaticPage.EmptyUrlGetsLink | arch/update_static_page.py:73 | a link without a url gets "🔗" |
| StaticPage.LinkDefaults | arch/update_static_page.py:69-74 | a record keeps the title and url when present, else "未命名链接" and "#"; its icon is the url's emoji, "🔗" without a url |
| StaticPage.NodeLinksIncluded | arch/update_static_page.py:118-130 | the links of one child are among the links of the list it belongs to |
| StaticPage.LinkArray.constructor | arch/update_static_page.py:84 | a new subfolder list starts empty |
| StaticPage.ItemRecords | arch/update_static_page.py:119-130 | a link adds its own record, a folder every record of its subtree, anything else nothing |
| StaticPage.ProcessFolderRecursive | arch/update_static_page.py:107-130 | the target list is extended by the records of every link in the folder's subtree, in pre-order, and by nothing without children |
| StaticPage.WithSubfolders | arch/update_static_page.py:81-85 | filling the subfolder keys keeps the dictionary well formed |
| StaticPage.FolderContent | arch/update_static_page.py:50-105 | a folder without children leaves the dictionary unchanged |
| StaticPage.WithSubfoldersLastWins | arch/update_static_page.py:81-85 | a subfolder's key holds its whole subtree's records unless a later subfolder has the same name |
| StaticPage.SubfolderHoldsItsLinks | arch/update_static_page.py:81-105 | after the whole step, a subfolder's key still holds its subtree's records when no later subfolder and no direct-link key reuse its name |
| StaticPage.FolderContentOtherKey | arch/update_static_page.py:88-105 | filing the direct links touches only their own key |
| StaticPage.DirectLinksPlacement | arch/update_static_page.py:88-105 | without direct links only the subfolders are filed; otherwise they extend "主要链接" for the three named folders, replace the folder's own name when it has no subfolder, and extend "其他链接" otherwise |
| StaticPage.FolderContentFrom | arch/update_static_page.py:50-105 | every record filed under any key comes from a link in the folder's subtree |
| StaticPage.CategoryDict.constructor | arch/update_static_page.py:39 | a new category dictionary is empty |
| StaticPage.CollectChildren | arch/update_static_page.py:63-78 | the first loop collects exactly the subfolders and the direct links' records, each in order |
| StaticPage.FillSubfolders | arch/update_static_page.py:81-85 | the second loop updates the dictionary to `WithSubfolders(old, subfolders)` |
| StaticPage.ProcessFolderContent | arch/update_static_page.py:50-105 | the target becomes `FolderContent(old, folder)` |
| StaticPage.TopFolders | arch/update_static_page.py:36-42 | filling the top-level keys keeps the dictionary well formed |
| StaticPage.Extracted | arch/update_static_page.py:11-48 | a single object, a list of any other length, or a one-element list whose element is not an object with children gives `{}` |
| StaticPage.TopFoldersKeys | arch/update_static_page.py:36-39 | a key is present if and only if it was before or names a top-level folder |
| StaticPage.TopFoldersLastWins | arch/update_static_page.py:37-42 | a folder name used twice keeps the later folder's content |
| StaticPage.ExtractedCategories | arch/update_static_page.py:30-42 | the categories are exactly the names of the folder children of the single root |
| StaticPage.ExtractNavigationData | arch/update_static_page.py:11-48 | the loop builds exactly `Extracted(data)` |
| StaticPage.ReindentShape | arch/update_static_page.py:231-233 | a line with n leading whitespace characters gets exactly 2*(n//4) spaces and keeps the rest |
| StaticPage.ReindentNoBreak | arch/update_static_page.py:231-233 | re-indenting a line adds no line break |
| StaticPage.JsDataShape | arch/update_static_page.py:222-236 | the output starts with the declaration and ends with ";", and between them has one line per line of the dumped JSON, each re-indented |
| StaticPage.GenerateJsData | arch/update_static_page.py:222-238 | the loop builds exactly `JsData(jsonStr)` |
| BookmarkAnalysis.Depth | arch/analyze_bookmarks.py:28-66 | the reported depth is never below the starting indent |
| BookmarkAnalysis.DepthIsNesting | arch/analyze_bookmarks.py:28-66 | the reported depth is the indent plus two per level of non-empty folder nesting |
| BookmarkAnalysis.NodeDepthIsNesting | arch/analyze_bookmarks.py:59-66 | the same for one folder and its subtree |
| BookmarkAnalysis.LevelFolders | arch/analyze_bookmarks.py:41-64 | the folder count is the folders of this level plus those counted below each of them |
| BookmarkAnalysis.LevelLinks | arch/analyze_bookmarks.py:49-65 | the link count is the links of this level plus those counted below each folder |
| BookmarkAnalysis.FolderCount | arch/analyze_bookmarks.py:42-64 | a folder counts itself plus every folder below it |
| BookmarkAnalysis.LevelDepth | arch/analyze_bookmarks.py:28-66 | the depth is the maximum over this level's folders, starting from the indent |
| BookmarkAnalysis.DecimalString | arch/analyze_bookmarks.py:72 | the rendered count is a non-empty string of decimal digits |
| BookmarkAnalysis.DecimalRoundTrip | arch/analyze_bookmarks.py:72 | reading the rendered count back gives the count |
| BookmarkAnalysis.FolderSectionFiltered | arch/analyze_bookmarks.py:44-56 | printing the collected folders is printing the level with its non-folders skipped |
| BookmarkAnalysis.PaddedLine | arch/analyze_bookmarks.py:57-78 | stripping the indentation from a printed line gives back its text |
| BookmarkAnalysis.CountFolderLinesAppend | arch/analyze_bookmarks.py:57-63 | the folder lines of joined output are the two parts' folder lines |
| BookmarkAnalysis.LinkLineMarked | arch/analyze_bookmarks.py:72-78 | a line starting with the link mark is a link line and not a folder line |
| BookmarkAnalysis.FolderLineMarked | arch/analyze_bookmarks.py:57 | a folder's line carries the folder mark |
| BookmarkAnalysis.LinkSectionMarked | arch/analyze_bookmarks.py:69-78 | every line of a level's link section is a link line and none is a folder line |
| BookmarkAnalysis.LinkSectionSize | arch/analyze_bookmarks.py:69-78 | with links shown, the section is one summary line for more than five links, else one line per link; without, one line when there are links below a level other than the top, else none |
| BookmarkAnalysis.StructureFolderLines | arch/analyze_bookmarks.py:11-80 | the printed structure has exactly one folder line per counted folder |
| BookmarkAnalysis.FolderSectionFolderLines | arch/analyze_bookmarks.py:56-66 | the folders part of a level has one folder line per folder in it and below it |
| BookmarkAnalysis.FolderBlockLines | arch/analyze_bookmarks.py:57-63 | one folder's block has one folder line per folder of its subtree |
| BookmarkAnalysis.ScanLevel | arch/analyze_bookmarks.py:35-53 | the first loop collects exactly this level's folders and, when links are shown, its link titles in order, and counts this level's links |
| BookmarkAnalysis.ParseLevel | arch/analyze_bookmarks.py:24-80 | the recursive parse returns `Structure(items, …)` and counts all folders and links below, with the depth of `Depth` |
| BookmarkAnalysis.ParseFolders | arch/analyze_bookmarks.py:56-66 | the second loop prints exactly the folders part and sums the children's counts and maximum depth |
| BookmarkAnalysis.ParseFolder | arch/analyze_bookmarks.py:57-66 | one folder prints its line followed by its children's structure when it has children, and reports the children's counts |
| BookmarkAnalysis.LinkLines | arch/analyze_bookmarks.py:69-78 | the link section printed after the folders is exactly `LinkSection` |
| BookmarkAnalysis.ParseBookmarkStructure | arch/analyze_bookmarks.py:11-80 | a single object is treated as a one-item list; the output is the structure, the folder and link totals below, and the indent plus two per nesting level |
| BookmarkAnalysis.GetRootFolder | arch/analyze_bookmarks.py:83-103 | anything other than a one-object list with `children` is returned unchanged, titled "根文件夹" |
| BookmarkAnalysis.ObjectsOfObjects | arch/analyze_bookmarks.py:94 | the children handed on are exactly the root's children |
| BookmarkAnalysis.RootUnwrapAccounts | arch/analyze_bookmarks.py:89-123 | unwrapping a single root folder drops only the root from the folder count and keeps every link |
| ExtractJson.Simplified | arch/extract_json.py:33-38 | a link keeps its title, icon and url, each missing one replaced by "无标题", "🔗" and "#" |
| ExtractJson.LinksOf | arch/extract_json.py:30-39 | one simplified link per link of the folder, in order; folders and other entries are skipped |
| ExtractJson.PutEach | arch/extract_json.py:18-27 | filling the dictionary keeps it well formed |
| ExtractJson.PutEachKeys | arch/extract_json.py:19-27 | a key is present afterwards if and only if it was present before or is the title of an open folder in the list |
| ExtractJson.PutEachLastWins | arch/extract_json.py:19-27 | when several open folders share a title, the last one's value is kept |
| ExtractJson.PutEachAppend | arch/extract_json.py:15-18 | filling from two lists in turn is filling from their concatenation |
| ExtractJson.Extracted | arch/extract_json.py:5-44 | a file holding one object, or a list with a non-object member, gives `{}`, as the exception handler does |
| ExtractJson.TopLevelFlat | arch/extract_json.py:15-21 | walking the top-level folders is one walk over all their child folders |
| ExtractJson.SecondLevelMember | arch/extract_json.py:15-19 | a node is visited as a second-level entry if and only if it is a child of an open top-level folder |
| ExtractJson.ExtractedCategories | arch/extract_json.py:15-21 | the categories of the result are exactly the titles of the open second-level folders |
| ExtractJson.CategoryFound | arch/extract_json.py:15-21 | every category key is the title of an open second-level folder |
| ExtractJson.CategoryKept | arch/extract_json.py:15-21 | every open second-level folder's title is a category key |
| ExtractJson.ExtractedCategoryLastWins | arch/extract_json.py:20-21 | a category title used twice keeps the later folder's contents |
| ExtractJson.SubcategoryLastWins | arch/extract_json.py:26-27 | a sub-category title used twice keeps the later folder's links |
| ExtractJson.CollectLinks | arch/extract_json.py:30-39 | the innermost loop builds exactly `LinksOf(items)` |
| ExtractJson.ScanCategory | arch/extract_json.py:24-39 | the loop over a category's children builds exactly its sub-category dictionary |
| ExtractJson.ScanSubfolders | arch/extract_json.py:18-39 | the loop over a top folder's children adds exactly their categories |
| ExtractJson.ExtractNavigationData | arch/extract_json.py:5-44 | the loops build exactly `Extracted(data)` |
| Bookmarks.ObjectsOf | arch/extract_json.py:15-16 | the objects of a parsed list are exactly its object members, in order |
| Bookmarks.FolderName | update_static_data.py:60 | a folder's name is its title, or "未命名文件夹" without one |
| Bookmarks.FindTitle | arch/script_v5.0.js:302-304 | `find` by title returns the first item with that title, and none only when no item has it |
| Bookmarks.FirstFolder | arch/script_v4.0.js:144 | `find` of a folder returns the first folder, and none only when there is no folder |
| Bookmarks.LinksInAppend | arch/script_v4.1.js:368-377 | the links below two lists are the first's followed by the second's |
| Bookmarks.LinksInAreLinks | arch/script_v4.1.js:370-371 | everything collected as a link is a link |
| Text.LowerChar | arch/script_v4.0.js:440 | ASCII lower-casing: a capital letter moves down by 32 and any other character is kept |
| Text.Lower | arch/script_v5.0.js:427 | `toLowerCase` keeps the length and leaves no upper-case letter |
| Text.LowerIdempotent | arch/script_v4.1.js:414 | lower-casing twice is lower-casing once |
| Text.ContainsIffOccurs | arch/script_v4.0.js:444-446 | `includes` holds if and only if the substring occurs at some position |
| Text.StripSlice | arch/script_v5.0.js:416 | `trim` returns one contiguous slice of its input, starting and ending with non-space characters |
| Text.StripEmptyIff | arch/script_v5.0.js:416 | a query trims to nothing if and only if it is all whitespace |
| Text.StripIdempotent | arch/script_v4.1.js:414 | trimming an already trimmed term changes nothing |
| Text.LeadingSpaces | arch/update_static_page.py:231 | `len(line) - len(line.lstrip())` counts exactly the leading whitespace |
| Text.JoinSplit | arch/update_static_page.py:228-235 | joining the split lines with the separator gives back the text |
| Text.SplitJoin | arch/update_static_page.py:228-235 | splitting a join of separator-free pieces gives back the pieces |
| Text.SplitCount | arch/update_static_page.py:228 | a text splits into one more piece than it has separators |
| Text.LastPieceSuffix | arch/script_v5.0.js:622-623 | `parts[parts.length - 1]` is the separator-free suffix after the last separator, or the whole text without one |
| Text.Split | arch/script_v5.0.js:622-623 | `split` always yields at least one piece, so `parts[parts.length - 1]` exists |
| Text.Take | arch/script_v3.0.js:466 | `substring(0, n)` is the prefix of length at most n |
| Dicts.Put | update_static_data.py:101 | assigning a key sets its value, keeps an existing key's position and appends a new key |
| Dicts.Append | update_static_data.py:48-57 | appending to a key's list creates the list when missing and adds the element at its end |
| Dicts.AppendTotal | update_static_data.py:52-58 | one append adds exactly one record to the dictionary's lists |

## Left out

- Loading and writing: `fetch`, `response.json()`, `open`/`json.load`, `update_html_file`, `update_static_html`, `update_version_info`, `main` and `analyze_json_file` (arch/analyze_bookmarks.py:106-157). The model starts from the parsed tree (`Node`, or `Data` where the script inspects the document's type). The printing in `analyze_json_file` is not modelled.
- `json.dumps`: `StaticPage.GenerateJsData` takes the dumped text as its argument, because JSON serialisation is a foreign library.
- Regex patching of the HTML file and the icon rewriting in `generate_js_data` of arch/extract_json.py:47-143 and update_static_data.py:197-287. They depend on the `re` module's semantics.
- DOM rendering and event plumbing: HTML strings, class toggling, breadcrumbs, the back-to-top button, `debounce` and `setTimeout`. Each view is an abstract value (`View`, `Content`, `Cell`) naming what is shown. Events are method calls.
- The whole of arch/script_v1.0.js: its search walks DOM elements.
- `formatDate`, which reads the clock and uses floating-point division. `new URL(...).hostname`, used by the icon fallbacks and by the v4.0 and v4.1 `extractDescription`, which is a foreign URL parser. `generateId`, which is `Math.random`.
- The code after `return` in update_static_data.py:135-194. It is unreachable and calls an undefined `process_folder`.
- Lower-casing is ASCII only. Full Unicode case mapping is not modelled, and non-ASCII text, such as the Chinese titles and keywords, is left unchanged by `Lower`.
- CardsV2.SortByTimestampCorrect: `Array.prototype.sort` is modelled by an insertion sort. It is proved to give descending order, a permutation and stability (`SortByTimestampStable`), so it agrees with any engine that sorts stably, as the language has required since ES2019. Timestamps are unbounded integers, not JavaScript numbers.
- JSON `null`: a key holding `null` is read as a missing key. The Python `.get(k, default)` would return `None` for such a key instead of the default.
- Non-object members of a `children` list cannot be represented. Only the top-level list (`Data`/`Entry`) may hold them. A script that would raise on such a member deeper in the tree is therefore not modelled there.
- NavigationV5.NavigationApp.LoadData: requires every link to have a title. The script loads an untitled link, but a later search calls `toLowerCase` on its title and throws a `TypeError`; that error path is not modelled. The same holds for `NavigationV5.NavigationApp.Init`. Untitled folders are accepted: their title reaches `traverse` as `undefined`, which the default parameter turns into ''.
- NavigationV40.NavigationApp.LoadData: requires every link to have a title and a url, for the same reason (the v4.0 search lower-cases both). The same holds for `NavigationV40.NavigationApp.Init`, `NavigationV41.NavigationApp.LoadData` and `NavigationV41.NavigationApp.Init`. Untitled folders are accepted; `path.join(' > ')` renders their title as ''.
- NavigationV5.NavigationApp: `null` and `undefined` are both modelled as `None`. The script resets the current categories to `null`, which no untitled folder's `undefined` title equals. In the model, a lookup with no current category would find an untitled folder. This cannot happen with data loaded: `goHome` and `init` then select the first primary category straight away.
- NavigationV3.SearchResults: a missing title, url or category is searched as the empty string, where the script would throw.
- CardsV2.ParseBookmarksData: a link without a title is tagged as if its title were empty, where the script would throw in `toLowerCase`. `CardsV2.Filtered` likewise searches a missing title as the empty string.
- NavigationV5.NavigationApp.Statistics: states only the number of primary categories and that every index entry is a link. The resource figure is the index size, whose meaning `ResourceCount` states separately.
- The per-folder loop that `updateStatistics` runs in arch/script_v5.0.js:588-600 computes a figure it never shows, so it is not modelled.
- Debug `console.log` and `print` output.
- CardsV2.GetCategoryFromFolder: the lookup in `folderCategoryMap` is an own-key lookup. Keys that a plain JavaScript object inherits from `Object.prototype`, such as "constructor", "toString", "valueOf" or "__proto__", are not modelled. The script would return the inherited member for such a folder name instead of the default category.
- CardsV2.GenerateDescription: the same own-key lookup in `descriptions`; an inherited key is not modelled.
- CardsV2.GetCategoryName: the same own-key lookup in `categoryNames`; an inherited key is not modelled.
- CardsV2.FolderCategoriesKnown: holds for the own keys of `folderCategoryMap` only, for the same reason.
- NavigationV3.GenerateDescription: lengths are counted in characters (code points). JavaScript's `length` and `substring` count UTF-16 code units, so a title with characters outside the Basic Multilingual Plane, such as an emoji followed by 49 ASCII characters, is cut by the script and kept whole by the model.
- Text.Take: counts characters (code points), not UTF-16 code units, for the same reason.

## Findings

| source | as written | input that shows it | evidently intended | confidence | as-written member | corrected member |
|---|---|---|---|---|---|---|
| arch/script_v2.0.js:160-178 | `renderResources` empties the grid only on page 1, yet on every page it appends `filteredResources.slice(0, currentPage * 12)`, starting from index 0 | 13 filtered resources, then one "load more": the grid holds 12 + 13 cards, and the first twelve appear twice | a grid holding the first `currentPage * 12` filtered resources, each once (append only `slice((currentPage - 1) * 12, currentPage * 12)`, or clear the grid each time) | high (not executed) | CardsV2.LoadMoreDuplicatesFirstPage | CardsV2.Rendered |
