/**
 * Navigation page v5.0: the exported tree is demoted by one level (the
 * top-level folders vanish and their sub-folders become the primary
 * categories), every link is indexed with the categories above it for the
 * search box, and the page keeps the selected primary, secondary and
 * tertiary category.
 */
module NavigationV5 {
  import opened Bookmarks
  import opened Text
  import opened Seqs
  import LinkIndex

  // ---------------------------------------------------------------------------
  // transformDataStructure: the demoted tree.
  // ---------------------------------------------------------------------------

  /** A third-level node as it is kept: a folder loses everything but its
    * type, date, title and children (`children || []`); a link is kept
    * whole; any other node is dropped. */
  function KeptGrandchild(g: Node): seq<Node> {
    if g.Folder? then [Folder(g.title, g.addDate, Present(KidsOf(g)))]
    else if g.Link? then [g]
    else []
  }

  function KeptGrandchildren(gs: seq<Node>): seq<Node> {
    if gs == [] then [] else KeptGrandchildren(gs[..|gs| - 1]) + KeptGrandchild(gs[|gs| - 1])
  }

  /** A second-level folder promoted to a primary category. */
  function Promoted(child: Node): Node
    requires child.Folder?
  {
    Folder(child.title, child.addDate, Present(KeptGrandchildren(KidsOf(child))))
  }

  /** The promoted folders among the children of one top-level folder. */
  function PromotedChildren(children: seq<Node>): seq<Node> {
    if children == [] then []
    else
      var last := children[|children| - 1];
      PromotedChildren(children[..|children| - 1]) + (if last.Folder? then [Promoted(last)] else [])
  }

  /** The whole demoted tree: only top-level folders with `children` contribute. */
  function Transformed(data: seq<Node>): seq<Node> {
    if data == [] then []
    else
      var root := data[|data| - 1];
      Transformed(data[..|data| - 1]) + (if IsOpenFolder(root) then PromotedChildren(root.children.items) else [])
  }

  /** A primary category as the page expects it: an open folder whose
    * children are open folders and links only. */
  predicate PrimaryShape(n: Node) {
    IsOpenFolder(n)
    && forall i | 0 <= i < |n.children.items| ::
         IsOpenFolder(n.children.items[i]) || n.children.items[i].Link?
  }

  lemma {:induction false} KeptGrandchildrenShape(gs: seq<Node>)
    ensures forall i | 0 <= i < |KeptGrandchildren(gs)| ::
              IsOpenFolder(KeptGrandchildren(gs)[i]) || KeptGrandchildren(gs)[i].Link?
  {
    if gs != [] {
      KeptGrandchildrenShape(gs[..|gs| - 1]);
    }
  }

  lemma {:induction false} PromotedChildrenShape(children: seq<Node>)
    ensures forall i | 0 <= i < |PromotedChildren(children)| :: PrimaryShape(PromotedChildren(children)[i])
  {
    if children != [] {
      PromotedChildrenShape(children[..|children| - 1]);
      var last := children[|children| - 1];
      if last.Folder? {
        KeptGrandchildrenShape(KidsOf(last));
      }
    }
  }

  /** Every primary category of the demoted tree is an open folder holding
    * only open folders and links. */
  lemma {:induction false} TransformedShape(data: seq<Node>)
    ensures forall i | 0 <= i < |Transformed(data)| :: PrimaryShape(Transformed(data)[i])
  {
    if data != [] {
      TransformedShape(data[..|data| - 1]);
      var root := data[|data| - 1];
      if IsOpenFolder(root) {
        PromotedChildrenShape(root.children.items);
      }
    }
  }

  /** Dropping the non-folder, non-link third-level nodes loses no link. */
  lemma {:induction false} KeptGrandchildrenLinks(gs: seq<Node>)
    ensures LinksIn(KeptGrandchildren(gs)) == LinksIn(gs)
  {
    if gs != [] {
      var init, last := gs[..|gs| - 1], gs[|gs| - 1];
      KeptGrandchildrenLinks(init);
      LinksInAppend(KeptGrandchildren(init), KeptGrandchild(last));
      if last.Folder? || last.Link? {
        LinksInSingleton(KeptGrandchild(last)[0]);
        assert LinksIn(KeptGrandchild(last)) == NodeLinks(last);
      } else {
        assert LinksIn(KeptGrandchild(last)) == [] == NodeLinks(last);
      }
    }
  }

  /** The links inside the second-level folders of the top-level open
    * folders: the links v5 can show, defined on the original tree. */
  function DeepLinks(data: seq<Node>): seq<Node> {
    if data == [] then []
    else
      var root := data[|data| - 1];
      DeepLinks(data[..|data| - 1])
      + (if IsOpenFolder(root) then LinksIn(Filter(root.children.items, IsFolderNode)) else [])
  }

  lemma {:induction false} PromotedChildrenLinks(children: seq<Node>)
    ensures LinksIn(PromotedChildren(children)) == LinksIn(Filter(children, IsFolderNode))
  {
    if children != [] {
      var init, last := children[..|children| - 1], children[|children| - 1];
      PromotedChildrenLinks(init);
      if last.Folder? {
        LinksInAppend(PromotedChildren(init), [Promoted(last)]);
        LinksInAppend(Filter(init, IsFolderNode), [last]);
        LinksInSingleton(Promoted(last));
        LinksInSingleton(last);
        KeptGrandchildrenLinks(KidsOf(last));
        assert NodeLinks(Promoted(last)) == NodeLinks(last);
      } else {
        assert PromotedChildren(children) == PromotedChildren(init);
        assert Filter(children, IsFolderNode) == Filter(init, IsFolderNode);
      }
    }
  }

  /** Demotion keeps, in order, exactly the links found below the
    * second-level folders; links lying loose at the top two levels are
    * the ones dropped. */
  lemma {:induction false} TransformedLinks(data: seq<Node>)
    ensures LinksIn(Transformed(data)) == DeepLinks(data)
  {
    if data != [] {
      var init, root := data[..|data| - 1], data[|data| - 1];
      TransformedLinks(init);
      if IsOpenFolder(root) {
        LinksInAppend(Transformed(init), PromotedChildren(root.children.items));
        PromotedChildrenLinks(root.children.items);
      } else {
        assert Transformed(data) == Transformed(init);
        assert DeepLinks(data) == DeepLinks(init);
      }
    }
  }

  lemma {:induction false} KeptGrandchildrenTitled(gs: seq<Node>)
    requires Titled(gs)
    ensures Titled(KeptGrandchildren(gs))
  {
    if gs != [] {
      var init, last := gs[..|gs| - 1], gs[|gs| - 1];
      WellFormedSplitLast(gs, false);
      KeptGrandchildrenTitled(init);
      WellFormedConcat(KeptGrandchildren(init), KeptGrandchild(last), false);
    }
  }

  lemma {:induction false} PromotedChildrenTitled(children: seq<Node>)
    requires Titled(children)
    ensures Titled(PromotedChildren(children))
  {
    if children != [] {
      var init, last := children[..|children| - 1], children[|children| - 1];
      WellFormedSplitLast(children, false);
      PromotedChildrenTitled(init);
      if last.Folder? {
        KeptGrandchildrenTitled(KidsOf(last));
        WellFormedConcat(PromotedChildren(init), [Promoted(last)], false);
      }
    }
  }

  /** Demotion keeps every folder and link titled. */
  lemma {:induction false} TransformedTitled(data: seq<Node>)
    requires Titled(data)
    ensures Titled(Transformed(data))
  {
    if data != [] {
      var init, root := data[..|data| - 1], data[|data| - 1];
      WellFormedSplitLast(data, false);
      TransformedTitled(init);
      if IsOpenFolder(root) {
        PromotedChildrenTitled(root.children.items);
        WellFormedConcat(Transformed(init), PromotedChildren(root.children.items), false);
      }
    }
  }

  // ---------------------------------------------------------------------------
  // flattenResources: every link with the categories it was found under.
  // ---------------------------------------------------------------------------

  /** `{...item, primaryCategory, secondaryCategory, tertiaryCategory}`. */
  datatype Resource = Resource(link: Node, primary: string, secondary: string, tertiary: string)

  /** `traverse(items, primary, secondary, tertiary)`: links are recorded
    * under the current categories; a folder with `children` is entered
    * with its own title as the tertiary category. An untitled folder passes
    * `undefined`, which the parameter's default turns into ''. */
  function Collected(items: seq<Node>, p: string, s: string, t: string): seq<Resource>
    decreases ForestSize(items), 1
  {
    if items == [] then []
    else Collected(items[..|items| - 1], p, s, t) + CollectedFrom(items[|items| - 1], p, s, t)
  }

  function CollectedFrom(item: Node, p: string, s: string, t: string): seq<Resource>
    decreases Size(item), 0
  {
    match item
    case Link(_, _, _, _) => [Resource(item, p, s, t)]
    case Folder(title, _, Present(ch)) => Collected(ch, p, s, title.GetOr(""))
    case _ => []
  }

  /** The search index of a demoted tree: each entry with `children` is
    * traversed with its title as primary category. */
  function Flattened(data: seq<Node>): seq<Resource> {
    if data == [] then []
    else
      var entry := data[|data| - 1];
      Flattened(data[..|data| - 1])
      + (if ChildrenKey(entry).Present? then Collected(KidsOf(entry), entry.title.GetOr(""), "", "") else [])
  }

  /** The links an index records, in order. */
  function LinksOf(rs: seq<Resource>): seq<Node> {
    Map(rs, (r: Resource) => r.link)
  }

  /** The index records exactly the links of the traversed items, in order. */
  lemma {:induction false} CollectedLinks(items: seq<Node>, p: string, s: string, t: string)
    ensures LinksOf(Collected(items, p, s, t)) == LinksIn(items)
    decreases ForestSize(items)
  {
    if items != [] {
      var init, last := items[..|items| - 1], items[|items| - 1];
      CollectedLinks(init, p, s, t);
      MapAppend(Collected(init, p, s, t), CollectedFrom(last, p, s, t), (r: Resource) => r.link);
      match last
      case Link(_, _, _, _) =>
        assert LinksOf([Resource(last, p, s, t)]) == [last];
      case Folder(title, _, Present(ch)) =>
        KidsSmaller(items, |items| - 1);
        CollectedLinks(ch, p, s, title.GetOr(""));
      case _ =>
    }
  }

  /** Every record keeps the primary and secondary category it was
    * collected under; its tertiary category is the one given or the title
    * of a folder of the traversed subtree. */
  lemma {:induction false} CollectedCategories(items: seq<Node>, p: string, s: string, t: string)
    ensures forall r | r in Collected(items, p, s, t) ::
              r.link.Link? && r.primary == p && r.secondary == s && (r.tertiary == t || r.tertiary in FolderTitles(items))
    decreases ForestSize(items)
  {
    if items != [] {
      var init, last := items[..|items| - 1], items[|items| - 1];
      CollectedCategories(init, p, s, t);
      match last
      case Folder(title, _, Present(ch)) =>
        KidsSmaller(items, |items| - 1);
        CollectedCategories(ch, p, s, title.GetOr(""));
      case _ =>
    }
  }

  /** The titles of the folders with `children` anywhere in a forest, an
    * untitled one as ''. */
  function FolderTitles(items: seq<Node>): set<string>
    decreases ForestSize(items), 1
  {
    if items == [] then {} else FolderTitles(items[..|items| - 1]) + NodeFolderTitles(items[|items| - 1])
  }

  function NodeFolderTitles(n: Node): set<string>
    decreases Size(n), 0
  {
    match n
    case Folder(title, _, Present(ch)) => {title.GetOr("")} + FolderTitles(ch)
    case _ => {}
  }

  lemma CollectedStep(items: seq<Node>, i: int, p: string, s: string, t: string)
    requires 0 <= i < |items|
    ensures Collected(items[..i + 1], p, s, t) == Collected(items[..i], p, s, t) + CollectedFrom(items[i], p, s, t)
  {
    assert items[..i + 1][..i] == items[..i];
  }

  /** Over a demoted tree, the index holds exactly its links, in order. */
  lemma {:induction false} FlattenedLinks(data: seq<Node>)
    requires forall i | 0 <= i < |data| :: data[i].Folder?
    ensures LinksOf(Flattened(data)) == LinksIn(data)
  {
    if data != [] {
      var init, entry := data[..|data| - 1], data[|data| - 1];
      FlattenedLinks(init);
      var part := if ChildrenKey(entry).Present? then Collected(KidsOf(entry), entry.title.GetOr(""), "", "") else [];
      MapAppend(Flattened(init), part, (r: Resource) => r.link);
      CollectedLinks(KidsOf(entry), entry.title.GetOr(""), "", "");
    }
  }

  /** The v5 search index of an exported tree lists exactly the links below
    * its second-level folders. */
  lemma IndexedLinks(data: seq<Node>)
    ensures LinksOf(Flattened(Transformed(data))) == DeepLinks(data)
  {
    TransformedShape(data);
    FlattenedLinks(Transformed(data));
    TransformedLinks(data);
  }

  /** Every record of the index is a link whose primary category is the
    * title of a primary category and whose secondary category is empty. */
  lemma {:induction false} FlattenedCategories(data: seq<Node>)
    ensures forall r | r in Flattened(data) ::
              r.link.Link? && r.secondary == "" && exists i | 0 <= i < |data| :: r.primary == data[i].title.GetOr("")
  {
    if data != [] {
      var init, entry := data[..|data| - 1], data[|data| - 1];
      FlattenedCategories(init);
      CollectedCategories(KidsOf(entry), entry.title.GetOr(""), "", "");
      forall r | r in Flattened(data)
        ensures r.link.Link? && r.secondary == "" && exists i | 0 <= i < |data| :: r.primary == data[i].title.GetOr("")
      {
        if r in Flattened(init) {
          var i :| 0 <= i < |init| && r.primary == init[i].title.GetOr("");
          assert data[i] == init[i];
        } else {
          assert r.primary == data[|data| - 1].title.GetOr("");
        }
      }
    }
  }

  /** With every link titled, every record has the title the search reads. */
  lemma {:induction false} CollectedTitled(items: seq<Node>, p: string, s: string, t: string)
    requires Titled(items)
    ensures forall r | r in Collected(items, p, s, t) :: Searchable(r)
    decreases ForestSize(items)
  {
    if items != [] {
      var init, last := items[..|items| - 1], items[|items| - 1];
      WellFormedSplitLast(items, false);
      CollectedTitled(init, p, s, t);
      match last
      case Folder(title, _, Present(ch)) =>
        KidsSmaller(items, |items| - 1);
        CollectedTitled(ch, p, s, title.GetOr(""));
      case _ =>
    }
  }

  /** Over a tree of folders whose links are titled, every record of the
    * index is searchable. */
  lemma {:induction false} FlattenedTitled(data: seq<Node>)
    requires Titled(data)
    requires forall i | 0 <= i < |data| :: data[i].Folder?
    ensures forall r | r in Flattened(data) :: Searchable(r)
  {
    if data != [] {
      var init, entry := data[..|data| - 1], data[|data| - 1];
      WellFormedSplitLast(data, false);
      FlattenedTitled(init);
      CollectedTitled(KidsOf(entry), entry.title.GetOr(""), "", "");
    }
  }

  /** The title of the innermost folder between a link and the first
    * `depth` entries of its path (the link's own title is last), or `t`
    * when the link lies directly below them. */
  function Nearest(path: seq<Option<string>>, depth: nat, t: string): string {
    if |path| >= depth + 2 then path[|path| - 2].GetOr("") else t
  }

  /** v5 records and v4 records of the same items correspond one to one. */
  predicate Corresponds(cs: seq<Resource>, rs: seq<LinkIndex.Record>, depth: nat, t: string) {
    |cs| == |rs|
    && forall k | 0 <= k < |cs| :: cs[k].link == rs[k].link && cs[k].tertiary == Nearest(rs[k].path, depth, t)
  }

  lemma CorrespondsAppend(c1: seq<Resource>, r1: seq<LinkIndex.Record>, c2: seq<Resource>, r2: seq<LinkIndex.Record>,
                          depth: nat, t: string)
    requires Corresponds(c1, r1, depth, t) && Corresponds(c2, r2, depth, t)
    ensures Corresponds(c1 + c2, r1 + r2, depth, t)
  {
    forall k | 0 <= k < |c1 + c2|
      ensures (c1 + c2)[k].link == (r1 + r2)[k].link && (c1 + c2)[k].tertiary == Nearest((r1 + r2)[k].path, depth, t)
    {
      if k < |c1| {
        assert (c1 + c2)[k] == c1[k] && (r1 + r2)[k] == r1[k];
      } else {
        assert (c1 + c2)[k] == c2[k - |c1|] && (r1 + r2)[k] == r2[k - |c1|];
      }
    }
  }

  /** Inside a folder titled `title` entered below `path`, "nearest below
    * the folder, else the folder" is "nearest below `path`". */
  lemma CorrespondsShift(cs: seq<Resource>, rs: seq<LinkIndex.Record>, path: seq<Option<string>>,
                         title: Option<string>, t: string)
    requires Corresponds(cs, rs, |path| + 1, title.GetOr(""))
    requires forall r | r in rs :: LinkIndex.RecordBelow(r, path + [title])
    ensures Corresponds(cs, rs, |path|, t)
  {
    forall k | 0 <= k < |cs| ensures cs[k].tertiary == Nearest(rs[k].path, |path|, t) {
      var P := rs[k].path;
      assert rs[k] in rs;
      assert P[..|path| + 1] == path + [title];
      assert P[|path|] == (path + [title])[|path|] == title;
    }
  }

  /** The tertiary category of a v5 record is the title of the innermost
    * folder above its link below the starting point, or the starting
    * tertiary category for a link lying directly there; the records come
    * in the same order as the v4 index of the same items. */
  lemma {:induction false} CollectedTertiary(items: seq<Node>, p: string, s: string, t: string,
                                             path: seq<Option<string>>)
    ensures Corresponds(Collected(items, p, s, t), LinkIndex.Indexed(items, path), |path|, t)
    decreases ForestSize(items)
  {
    if items != [] {
      var init, last := items[..|items| - 1], items[|items| - 1];
      CollectedTertiary(init, p, s, t, path);
      match last
      case Link(title, _, _, _) =>
        assert Corresponds(CollectedFrom(last, p, s, t), LinkIndex.IndexedFrom(last, path), |path|, t) by {
          assert |path + [title]| == |path| + 1;
        }
        CorrespondsAppend(Collected(init, p, s, t), LinkIndex.Indexed(init, path),
                          CollectedFrom(last, p, s, t), LinkIndex.IndexedFrom(last, path), |path|, t);
      case Folder(title, _, Present(ch)) =>
        KidsSmaller(items, |items| - 1);
        CollectedTertiary(ch, p, s, title.GetOr(""), path + [title]);
        LinkIndex.IndexedShape(ch, path + [title]);
        CorrespondsShift(Collected(ch, p, s, title.GetOr("")), LinkIndex.Indexed(ch, path + [title]), path, title, t);
        CorrespondsAppend(Collected(init, p, s, t), LinkIndex.Indexed(init, path),
                          CollectedFrom(last, p, s, t), LinkIndex.IndexedFrom(last, path), |path|, t);
      case _ =>
        CorrespondsAppend(Collected(init, p, s, t), LinkIndex.Indexed(init, path),
                          CollectedFrom(last, p, s, t), LinkIndex.IndexedFrom(last, path), |path|, t);
    }
  }

  // ---------------------------------------------------------------------------
  // handleSearch: the filter over the index.
  // ---------------------------------------------------------------------------

  /** A record whose title is a string (its categories always are). */
  predicate Searchable(r: Resource) {
    r.link.title.Some?
  }

  /** Case-insensitive substring match of the query against the title and
    * the three categories (the url is not consulted). */
  predicate Matches(q: string, r: Resource) {
    var lq := Lower(q);
    Contains(Lower(r.link.title.GetOr("")), lq)
    || Contains(Lower(r.primary), lq)
    || Contains(Lower(r.secondary), lq)
    || Contains(Lower(r.tertiary), lq)
  }

  function SearchResults(index: seq<Resource>, q: string): (r: seq<Resource>)
    ensures forall x | x in r :: x in index && Matches(q, x)
    ensures forall x | x in index && Matches(q, x) :: x in r
  {
    var matches := x => Matches(q, x);
    FilterMembers(index, matches);
    Filter(index, matches)
  }

  /** The label under a result: the non-empty categories joined by " > ". */
  function CategoryPath(r: Resource): string {
    var parts := [r.primary, r.secondary, r.tertiary];
    Join(Filter(parts, (c: string) => c != ""), " > ")
  }

  /** A link lying directly in a primary category is labelled with that
    * category alone. */
  lemma CategoryPathOfTopLink(r: Resource)
    requires r.primary != "" && r.secondary == "" && r.tertiary == ""
    ensures CategoryPath(r) == r.primary
  {
    var nonEmpty := (c: string) => c != "";
    var parts := [r.primary, "", ""];
    assert parts[..2] == [r.primary, ""];
    assert parts[..2][..1] == [r.primary];
    assert [r.primary][..0] == [];
    assert Filter([r.primary], nonEmpty) == [r.primary];
    assert Filter([r.primary, ""], nonEmpty) == [r.primary];
    assert Filter(parts, nonEmpty) == [r.primary];
  }

  // ---------------------------------------------------------------------------
  // extractDescription.
  // ---------------------------------------------------------------------------

  /** The text after the last '-' (else after the last full-width colon),
    * trimmed; the title itself when it has neither. */
  function ExtractDescription(title: string): string {
    if Contains(title, "-") then Strip(Js, LastPiece(title, '-'))
    else if Contains(title, "：") then Strip(Js, LastPiece(title, '：'))
    else title
  }

  lemma ContainsChar(s: string, c: char)
    ensures Contains(s, [c]) <==> c in s
  {
    ContainsIffOccurs(s, [c]);
    if c in s {
      var i :| 0 <= i < |s| && s[i] == c;
      assert OccursAt(s, [c], i);
    }
    if exists i :: OccursAt(s, [c], i) {
      var i :| OccursAt(s, [c], i);
      assert s[i] == c;
    }
  }

  /** Trimming the piece after the last `c` gives a `c`-free slice of the title. */
  lemma DescriptionSlice(title: string, c: char)
    ensures c !in Strip(Js, LastPiece(title, c))
    ensures exists a, b | 0 <= a <= b <= |title| :: Strip(Js, LastPiece(title, c)) == title[a..b]
  {
    var lp := LastPiece(title, c);
    var d := Strip(Js, lp);
    assert c !in lp && lp == title[|title| - |lp|..] by {
      LastPieceSuffix(title, c);
    }
    var a, b :| 0 <= a <= b <= |lp| && d == lp[a..b] by {
      StripSlice(Js, lp);
    }
    SliceOfSuffix(title, |title| - |lp|, a, b, c);
  }

  /** A slice of a suffix is a slice of the whole, and free of what the
    * suffix is free of. */
  lemma SliceOfSuffix(s: string, off: int, a: int, b: int, c: char)
    requires 0 <= off <= |s| && 0 <= a <= b <= |s| - off
    ensures s[off..][a..b] == s[off + a..off + b]
    ensures c !in s[off..] ==> c !in s[off..][a..b]
  {
    assert forall x | x in s[off..][a..b] :: x in s[off..];
  }

  /** `k` is the last position of `c` in `s`. */
  predicate LastAt(s: string, c: char, k: int) {
    0 <= k < |s| && s[k] == c && c !in s[k + 1..]
  }

  /** The piece after the last `c` starts right after its last occurrence. */
  lemma LastSeparator(s: string, c: char)
    requires c in s
    ensures exists k :: LastAt(s, c, k) && LastPiece(s, c) == s[k + 1..]
  {
    LastPieceSuffix(s, c);
    var k := |s| - |LastPiece(s, c)| - 1;
    assert s[k + 1..] == LastPiece(s, c);
    assert LastAt(s, c, k);
  }

  /** `extractDescription`: with a dash, the trimmed text after the last
    * dash; else, with a full-width colon, the trimmed text after the last
    * colon; else the title itself. The description is a slice of the
    * title, and a dash-free one when the title has a dash. */
  lemma ExtractDescriptionSlice(title: string)
    ensures '-' in title ==>
              exists k :: LastAt(title, '-', k) && ExtractDescription(title) == Strip(Js, title[k + 1..])
    ensures '-' !in title && '：' in title ==>
              exists k :: LastAt(title, '：', k) && ExtractDescription(title) == Strip(Js, title[k + 1..])
    ensures '-' !in title && '：' !in title ==> ExtractDescription(title) == title
    ensures '-' in title ==> '-' !in ExtractDescription(title)
    ensures exists a, b | 0 <= a <= b <= |title| :: ExtractDescription(title) == title[a..b]
  {
    ContainsChar(title, '-');
    ContainsChar(title, '：');
    if '-' in title {
      DescriptionSlice(title, '-');
      LastSeparator(title, '-');
    } else if '：' in title {
      DescriptionSlice(title, '：');
      LastSeparator(title, '：');
    } else {
      assert title == title[0..|title|];
    }
  }

  // ---------------------------------------------------------------------------
  // The page state.
  // ---------------------------------------------------------------------------

  /** What the content area shows. */
  datatype Content =
    | Blank
    | EmptyState
    | Listing(folders: seq<Node>, links: seq<Node>)
    | Results(query: string, results: seq<Resource>)
    | NoResults(query: string)

  /** `renderContent(items)`: folders first, then links; other nodes are not shown. */
  function ContentFor(items: seq<Node>): Content {
    if items == [] then EmptyState else Listing(Filter(items, IsFolderNode), Filter(items, (n: Node) => n.Link?))
  }

  /** The node found by title, when one is. */
  function Lookup(s: seq<Node>, t: Option<string>): Option<Node> {
    match FindTitle(s, t)
    case None => None
    case Some(i) => Some(s[i])
  }

  /** The items a selection would render: the node reached by the chain of
    * titles must exist and have `children` at every step. */
  function ChildrenByTitle(s: seq<Node>, t: Option<string>): Option<seq<Node>> {
    match Lookup(s, t)
    case Some(n) => if ChildrenKey(n).Present? then Some(KidsOf(n)) else None
    case None => None
  }

  function SecondaryItems(data: seq<Node>, p: Option<string>, s: Option<string>): Option<seq<Node>> {
    match ChildrenByTitle(data, p)
    case Some(kids) => ChildrenByTitle(kids, s)
    case None => None
  }

  function TertiaryItems(data: seq<Node>, p: Option<string>, s: Option<string>, t: Option<string>): Option<seq<Node>> {
    match SecondaryItems(data, p, s)
    case Some(kids) => ChildrenByTitle(kids, t)
    case None => None
  }

  /** The content after a render that happens only when items were found. */
  function RenderIfFound(found: Option<seq<Node>>, before: Content): Content {
    if found.Some? then ContentFor(found.value) else before
  }

  /** The selected categories together with what the content area shows. */
  datatype Selection = Selection(
    primary: Option<string>, secondary: Option<string>, tertiary: Option<string>, content: Content)

  /** What `selectPrimaryCategory(p)` leaves, `renderSecondaryNavigation`
    * included: the empty state when the category is missing or has no
    * children; its items when none of them is a folder; otherwise the
    * first folder becomes the secondary selection and is rendered when
    * it has `children` (the content stays `before` when it has none). */
  function PrimarySelected(data: seq<Node>, p: Option<string>, before: Content): Selection {
    var kids := ChildrenByTitle(data, p);
    if kids.None? || kids.value == [] then Selection(p, None, None, EmptyState)
    else if FirstFolder(kids.value).None? then Selection(p, None, None, ContentFor(kids.value))
    else
      var first := kids.value[FirstFolder(kids.value).value];
      Selection(p, first.title, None, RenderIfFound(SecondaryItems(data, p, first.title), before))
  }

  /** The view `handleSearch` and `clearSearch` restore: the secondary
    * category is re-selected when one is set, else the primary one, else
    * nothing changes. */
  function Restored(data: seq<Node>, v: Selection): Selection {
    if Truthy(v.secondary) then
      Selection(v.primary, v.secondary, None, RenderIfFound(SecondaryItems(data, v.primary, v.secondary), v.content))
    else if Truthy(v.primary) then PrimarySelected(data, v.primary, v.content)
    else v
  }

  /** Restoring a restored view changes nothing: a second blank search or
    * clear leaves the page as the first one did. */
  lemma RestoreIdempotent(data: seq<Node>, v: Selection)
    ensures Restored(data, Restored(data, v)) == Restored(data, v)
  {
    if !Truthy(v.secondary) && Truthy(v.primary) {
      var kids := ChildrenByTitle(data, v.primary);
      if kids.Some? && kids.value != [] && FirstFolder(kids.value).Some? {
        var first := kids.value[FirstFolder(kids.value).value];
        var found := SecondaryItems(data, v.primary, first.title);
        assert RenderIfFound(found, RenderIfFound(found, v.content)) == RenderIfFound(found, v.content);
      }
    }
  }

  class NavigationApp {
    var jsonData: seq<Node>
    var flattenedResources: seq<Resource>
    var currentPrimaryCategory: Option<string>
    var currentSecondaryCategory: Option<string>
    var currentTertiaryCategory: Option<string>
    var content: Content
    var searchInput: string

    /** The index is the one built from the demoted tree, and every link of
      * it is titled. */
    ghost predicate Valid()
      reads this
    {
      Titled(jsonData)
      && (forall i | 0 <= i < |jsonData| :: PrimaryShape(jsonData[i]))
      && flattenedResources == Flattened(jsonData)
    }

    /** The selection and the content area as one value. */
    function View(): Selection
      reads this
    {
      Selection(currentPrimaryCategory, currentSecondaryCategory, currentTertiaryCategory, content)
    }

    constructor()
      ensures Valid()
      ensures jsonData == [] && flattenedResources == []
      ensures currentPrimaryCategory.None? && currentSecondaryCategory.None? && currentTertiaryCategory.None?
      ensures content == Blank && searchInput == ""
    {
      jsonData := [];
      flattenedResources := [];
      currentPrimaryCategory := None;
      currentSecondaryCategory := None;
      currentTertiaryCategory := None;
      content := Blank;
      searchInput := "";
    }

    /** Builds the demoted tree with three nested loops; the two inner
      * loops are `PromoteChildren` and `KeepGrandchildren`. */
    method TransformDataStructure(originalData: seq<Node>) returns (transformedData: seq<Node>)
      ensures transformedData == Transformed(originalData)
    {
      transformedData := [];
      var i := 0;
      while i < |originalData|
        invariant 0 <= i <= |originalData|
        invariant transformedData == Transformed(originalData[..i])
      {
        var rootItem := originalData[i];
        assert originalData[..i + 1][..i] == originalData[..i];
        if rootItem.Folder? && rootItem.children.Present? {
          transformedData := PromoteChildren(rootItem.children.items, transformedData);
        }
        i := i + 1;
      }
      assert originalData[..i] == originalData;
    }

    /** The middle loop: appends the promoted second-level folders to `acc`. */
    method PromoteChildren(children: seq<Node>, acc: seq<Node>) returns (transformedData: seq<Node>)
      ensures transformedData == acc + PromotedChildren(children)
    {
      transformedData := acc;
      var j := 0;
      while j < |children|
        invariant 0 <= j <= |children|
        invariant transformedData == acc + PromotedChildren(children[..j])
      {
        var childItem := children[j];
        ghost var prev := transformedData;
        if childItem.Folder? {
          var kept: seq<Node> := [];
          if childItem.children.Present? {
            kept := KeepGrandchildren(childItem.children.items);
          }
          transformedData := transformedData + [Folder(childItem.title, childItem.addDate, Present(kept))];
          assert transformedData == prev + [Promoted(childItem)];
        }
        assert transformedData == acc + PromotedChildren(children[..j + 1]) by {
          assert children[..j + 1][..j] == children[..j];
          ConcatAssoc(acc, PromotedChildren(children[..j]), if childItem.Folder? then [Promoted(childItem)] else []);
        }
        j := j + 1;
      }
      assert children[..j] == children;
    }

    /** The innermost loop: the kept third-level nodes. */
    method KeepGrandchildren(grandchildren: seq<Node>) returns (kept: seq<Node>)
      ensures kept == KeptGrandchildren(grandchildren)
    {
      kept := [];
      var k := 0;
      while k < |grandchildren|
        invariant 0 <= k <= |grandchildren|
        invariant kept == KeptGrandchildren(grandchildren[..k])
      {
        var g := grandchildren[k];
        assert grandchildren[..k + 1][..k] == grandchildren[..k];
        if g.Folder? {
          kept := kept + [Folder(g.title, g.addDate, Present(KidsOf(g)))];
        } else if g.Link? {
          kept := kept + [g];
        }
        k := k + 1;
      }
      assert grandchildren[..k] == grandchildren;
    }

    /** `traverse`: appends the records of `items` to `acc`. */
    method Traverse(items: seq<Node>, p: string, s: string, t: string, acc: seq<Resource>)
      returns (resources: seq<Resource>)
      ensures resources == acc + Collected(items, p, s, t)
      decreases ForestSize(items)
    {
      resources := acc;
      var i := 0;
      while i < |items|
        invariant 0 <= i <= |items|
        invariant resources == acc + Collected(items[..i], p, s, t)
      {
        var item := items[i];
        ghost var prev := resources;
        if item.Link? {
          resources := resources + [Resource(item, p, s, t)];
          assert CollectedFrom(item, p, s, t) == [Resource(item, p, s, t)];
        } else if item.Folder? && item.children.Present? {
          assert ForestSize(item.children.items) < ForestSize(items) by {
            KidsSmaller(items, i);
          }
          resources := Traverse(item.children.items, p, s, item.title.GetOr(""), resources);
          assert CollectedFrom(item, p, s, t) == Collected(item.children.items, p, s, item.title.GetOr(""));
        } else {
          assert CollectedFrom(item, p, s, t) == [];
        }
        assert resources == prev + CollectedFrom(item, p, s, t);
        assert resources == acc + Collected(items[..i + 1], p, s, t) by {
          CollectedStep(items, i, p, s, t);
          ConcatAssoc(acc, Collected(items[..i], p, s, t), CollectedFrom(item, p, s, t));
        }
        i := i + 1;
      }
      assert items[..i] == items;
    }

    method FlattenResources(data: seq<Node>) returns (resources: seq<Resource>)
      ensures resources == Flattened(data)
    {
      resources := [];
      var i := 0;
      while i < |data|
        invariant 0 <= i <= |data|
        invariant resources == Flattened(data[..i])
      {
        var primaryItem := data[i];
        assert data[..i + 1][..i] == data[..i];
        if ChildrenKey(primaryItem).Present? {
          resources := Traverse(KidsOf(primaryItem), primaryItem.title.GetOr(""), "", "", resources);
        }
        i := i + 1;
      }
      assert data[..i] == data;
    }

    /** `loadData` once the JSON is parsed. */
    method LoadData(data: seq<Node>)
      requires Titled(data)
      modifies this
      ensures Valid()
      ensures jsonData == Transformed(data)
      ensures unchanged(this`currentPrimaryCategory, this`currentSecondaryCategory, this`currentTertiaryCategory)
      ensures content == old(content) && searchInput == old(searchInput)
    {
      var transformed := TransformDataStructure(data);
      jsonData := transformed;
      TransformedTitled(data);
      TransformedShape(data);
      var resources := FlattenResources(jsonData);
      flattenedResources := resources;
    }

    /** `init`: load, then select the first primary category. */
    method Init(data: seq<Node>)
      requires Titled(data)
      modifies this
      ensures Valid() && jsonData == Transformed(data) && searchInput == old(searchInput)
      ensures |jsonData| > 0 ==> View() == PrimarySelected(jsonData, jsonData[0].title, old(content))
      ensures |jsonData| == 0 ==> View() == old(View())
    {
      LoadData(data);
      if |jsonData| > 0 {
        SelectPrimaryCategory(jsonData[0].title);
      }
    }

    /** `selectPrimaryCategory` together with `renderSecondaryNavigation`,
      * which selects the first folder of the category when there is one. */
    method SelectPrimaryCategory(categoryTitle: Option<string>)
      requires Valid()
      modifies this
      ensures Valid()
      ensures unchanged(this`jsonData, this`flattenedResources, this`searchInput)
      ensures View() == PrimarySelected(jsonData, categoryTitle, old(content))
    {
      currentPrimaryCategory := categoryTitle;
      currentSecondaryCategory := None;
      currentTertiaryCategory := None;
      var kids := ChildrenByTitle(jsonData, categoryTitle);
      if kids.None? || kids.value == [] {
        content := EmptyState;
        return;
      }
      var f := FirstFolder(kids.value);
      if f.Some? {
        var first := kids.value[f.value];
        SelectSecondaryCategory(first.title);
      } else {
        content := ContentFor(kids.value);
      }
    }

    /** `selectSecondaryCategory`: renders the folder found under the
      * current primary category, if it has `children`. */
    method SelectSecondaryCategory(categoryTitle: Option<string>)
      requires Valid()
      modifies this
      ensures Valid()
      ensures unchanged(this`jsonData, this`flattenedResources, this`searchInput, this`currentPrimaryCategory)
      ensures currentSecondaryCategory == categoryTitle && currentTertiaryCategory.None?
      ensures content == RenderIfFound(SecondaryItems(jsonData, currentPrimaryCategory, categoryTitle), old(content))
    {
      currentSecondaryCategory := categoryTitle;
      currentTertiaryCategory := None;
      content := RenderIfFound(SecondaryItems(jsonData, currentPrimaryCategory, categoryTitle), content);
    }

    /** `selectTertiaryCategory`: one level further down. */
    method SelectTertiaryCategory(categoryTitle: Option<string>)
      requires Valid()
      modifies this
      ensures Valid()
      ensures unchanged(this`jsonData, this`flattenedResources, this`searchInput)
      ensures unchanged(this`currentPrimaryCategory, this`currentSecondaryCategory)
      ensures currentTertiaryCategory == categoryTitle
      ensures content == RenderIfFound(
                TertiaryItems(jsonData, currentPrimaryCategory, currentSecondaryCategory, categoryTitle),
                old(content))
    {
      currentTertiaryCategory := categoryTitle;
      content := RenderIfFound(
        TertiaryItems(jsonData, currentPrimaryCategory, currentSecondaryCategory, categoryTitle), content);
    }

    /** Re-selects the secondary category if one is chosen, else the primary. */
    method Restore()
      requires Valid()
      modifies this
      ensures Valid()
      ensures unchanged(this`jsonData, this`flattenedResources, this`searchInput)
      ensures View() == Restored(jsonData, old(View()))
    {
      if Truthy(currentSecondaryCategory) {
        SelectSecondaryCategory(currentSecondaryCategory);
      } else if Truthy(currentPrimaryCategory) {
        SelectPrimaryCategory(currentPrimaryCategory);
      }
    }

    /** `handleSearch`: a blank query restores the category view, any other
      * query shows the matching records of the index. */
    method HandleSearch(query: string)
      requires Valid()
      modifies this
      ensures Valid()
      ensures unchanged(this`jsonData, this`flattenedResources, this`searchInput)
      ensures Strip(Js, query) != "" ==>
                unchanged(this`currentPrimaryCategory, this`currentSecondaryCategory, this`currentTertiaryCategory)
                && var found := SearchResults(flattenedResources, query);
                   content == if found == [] then NoResults(query) else Results(query, found)
      ensures Strip(Js, query) == "" ==> View() == Restored(jsonData, old(View()))
    {
      if Strip(Js, query) == "" {
        Restore();
        return;
      }
      var found := SearchResults(flattenedResources, query);
      content := if found == [] then NoResults(query) else Results(query, found);
    }

    /** `clearSearch`: empties the search box and restores the category view. */
    method ClearSearch()
      requires Valid()
      modifies this
      ensures Valid()
      ensures searchInput == ""
      ensures unchanged(this`jsonData, this`flattenedResources)
      ensures View() == Restored(jsonData, old(View()))
    {
      searchInput := "";
      Restore();
    }

    /** `goHome`: clears the selection and the search box, then selects the
      * first primary category. */
    method GoHome()
      requires Valid()
      modifies this
      ensures Valid()
      ensures searchInput == ""
      ensures unchanged(this`jsonData, this`flattenedResources)
      ensures |jsonData| > 0 ==> View() == PrimarySelected(jsonData, jsonData[0].title, old(content))
      ensures |jsonData| == 0 ==> View() == Selection(None, None, None, old(content))
    {
      currentPrimaryCategory := None;
      currentSecondaryCategory := None;
      currentTertiaryCategory := None;
      searchInput := "";
      if |jsonData| > 0 {
        SelectPrimaryCategory(jsonData[0].title);
      }
    }

    /** The two figures `updateStatistics` displays: the number of primary
      * categories and the size of the index. */
    function Statistics(): (r: (nat, nat))
      reads this
      requires Valid()
      ensures r.0 == |jsonData|
      ensures forall x | x in flattenedResources :: x.link.Link?
    {
      FlattenedCategories(jsonData);
      (|jsonData|, |flattenedResources|)
    }
  }

  /** The index of a page loaded from `data` counts exactly the links below
    * the second-level folders of `data`. */
  lemma ResourceCount(data: seq<Node>)
    ensures |Flattened(Transformed(data))| == |DeepLinks(data)|
  {
    IndexedLinks(data);
  }
}
