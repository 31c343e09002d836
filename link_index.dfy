/**
 * The search index of navigation pages v4.0 and v4.1: every link reachable
 * through folders that have `children`, in depth-first pre-order, with the
 * titles of the folders above it (`path`) and those titles joined by " > "
 * (`categoryPath`).
 */
module LinkIndex {
  import opened Bookmarks
  import opened Text
  import opened Seqs

  /** `{...item, path: currentPath, categoryPath: path.join(' > ')}`. */
  datatype Record = Record(link: Node, path: seq<Option<string>>, categoryPath: string)

  /** `path.join(' > ')`: a missing title joins as the empty string. */
  function JoinPath(path: seq<Option<string>>): string {
    Join(seq(|path|, i requires 0 <= i < |path| => path[i].GetOr("")), " > ")
  }

  /** `traverse(items, path)`: a link is recorded under `path`; a folder
    * with `children` is entered with its title appended to `path`. */
  function Indexed(items: seq<Node>, path: seq<Option<string>>): seq<Record>
    decreases ForestSize(items), 1
  {
    if items == [] then []
    else Indexed(items[..|items| - 1], path) + IndexedFrom(items[|items| - 1], path)
  }

  function IndexedFrom(item: Node, path: seq<Option<string>>): seq<Record>
    decreases Size(item), 0
  {
    match item
    case Link(title, _, _, _) => [Record(item, path + [title], JoinPath(path))]
    case Folder(title, _, Present(ch)) => Indexed(ch, path + [title])
    case _ => []
  }

  /** `data.forEach(rootItem => traverse([rootItem], []))`. */
  function IndexedRoots(data: seq<Node>): seq<Record> {
    if data == [] then [] else IndexedRoots(data[..|data| - 1]) + Indexed([data[|data| - 1]], [])
  }

  function LinksOf(rs: seq<Record>): (links: seq<Node>)
    ensures |links| == |rs|
  {
    if rs == [] then [] else LinksOf(rs[..|rs| - 1]) + [rs[|rs| - 1].link]
  }

  lemma {:induction false} LinksOfAppend(a: seq<Record>, b: seq<Record>)
    ensures LinksOf(a + b) == LinksOf(a) + LinksOf(b)
  {
    if b == [] {
      assert a + b == a;
    } else {
      assert (a + b)[..|a + b| - 1] == a + b[..|b| - 1];
      LinksOfAppend(a, b[..|b| - 1]);
    }
  }

  lemma {:induction false} IndexedAppend(a: seq<Node>, b: seq<Node>, path: seq<Option<string>>)
    ensures Indexed(a + b, path) == Indexed(a, path) + Indexed(b, path)
  {
    if b == [] {
      assert a + b == a;
    } else {
      assert (a + b)[..|a + b| - 1] == a + b[..|b| - 1];
      IndexedAppend(a, b[..|b| - 1], path);
    }
  }

  lemma IndexedSingleton(n: Node, path: seq<Option<string>>)
    ensures Indexed([n], path) == IndexedFrom(n, path)
  {
    assert [n][..0] == [];
  }

  /** Indexing root by root is indexing the whole sequence at once. */
  lemma {:induction false} IndexedRootsWhole(data: seq<Node>)
    ensures IndexedRoots(data) == Indexed(data, [])
  {
    if data != [] {
      var init := data[..|data| - 1];
      IndexedRootsWhole(init);
      IndexedAppend(init, [data[|data| - 1]], []);
      assert init + [data[|data| - 1]] == data;
    }
  }

  /** One record per reachable link, in pre-order. */
  lemma {:induction false} IndexedLinks(items: seq<Node>, path: seq<Option<string>>)
    ensures LinksOf(Indexed(items, path)) == LinksIn(items)
    decreases ForestSize(items)
  {
    if items != [] {
      var init, last := items[..|items| - 1], items[|items| - 1];
      IndexedLinks(init, path);
      LinksOfAppend(Indexed(init, path), IndexedFrom(last, path));
      match last
      case Link(title, _, _, _) =>
        assert LinksOf([Record(last, path + [title], JoinPath(path))]) == [last];
      case Folder(title, _, Present(ch)) =>
        KidsSmaller(items, |items| - 1);
        IndexedLinks(ch, path + [title]);
      case _ =>
    }
  }

  /** The shape of a record found below `path`: its path extends `path` and
    * ends with the link's own title, and its category path joins the
    * titles before that. */
  predicate RecordBelow(r: Record, path: seq<Option<string>>) {
    r.link.Link?
    && |r.path| > |path| && r.path[..|path|] == path
    && r.path[|r.path| - 1] == r.link.title
    && r.categoryPath == JoinPath(r.path[..|r.path| - 1])
  }

  /** `titles` are the titles of a chain of folders with `children`, the
    * first one among `items` and each among the children of the one
    * before, and `link` lies in the last one (in `items` for no titles). */
  predicate ChainTo(items: seq<Node>, titles: seq<Option<string>>, link: Node)
    decreases |titles|
  {
    if titles == [] then link in items
    else exists f | f in items ::
           f.Folder? && f.children.Present? && f.title == titles[0] && ChainTo(f.children.items, titles[1..], link)
  }

  /** A record found by traversing `items` below `path`: its path is
    * `path`, then the titles of the folders leading down to the link,
    * then the link's own title. */
  predicate FiledUnder(r: Record, items: seq<Node>, path: seq<Option<string>>) {
    RecordBelow(r, path) && ChainTo(items, r.path[|path|..|r.path| - 1], r.link)
  }

  /** A chain found in some items is found in any items that include them. */
  lemma ChainToMono(a: seq<Node>, b: seq<Node>, titles: seq<Option<string>>, link: Node)
    requires forall x | x in a :: x in b
    requires ChainTo(a, titles, link)
    ensures ChainTo(b, titles, link)
  {
    if titles != [] {
      var f :| f in a && f.Folder? && f.children.Present? && f.title == titles[0]
               && ChainTo(f.children.items, titles[1..], link);
      assert f in b;
    }
  }

  /** A record filed below a folder of `items`, under the folder's title,
    * is filed below `items`. */
  lemma FiledInFolder(items: seq<Node>, f: Node, path: seq<Option<string>>, r: Record)
    requires f in items && f.Folder? && f.children.Present?
    requires FiledUnder(r, f.children.items, path + [f.title])
    ensures FiledUnder(r, items, path)
  {
    var n := |r.path|;
    assert n > |path| + 1;
    assert r.path[..|path|] == r.path[..|path| + 1][..|path|];
    assert r.path[|path|] == (path + [f.title])[|path|];
    var titles := r.path[|path|..n - 1];
    assert titles[1..] == r.path[|path| + 1..n - 1];
    assert ChainTo(f.children.items, titles[1..], r.link);
  }

  /** A link of `items` is filed directly below `path`. */
  lemma FiledLink(items: seq<Node>, l: Node, path: seq<Option<string>>)
    requires l in items && l.Link?
    ensures FiledUnder(Record(l, path + [l.title], JoinPath(path)), items, path)
  {
    var r := Record(l, path + [l.title], JoinPath(path));
    assert r.path[..|path|] == path && r.path[..|r.path| - 1] == path;
    assert r.path[|path|..|r.path| - 1] == [];
  }

  /** Every record of the traversal is filed under the titles of the
    * folders above its link. */
  lemma {:induction false} IndexedShape(items: seq<Node>, path: seq<Option<string>>)
    ensures forall r | r in Indexed(items, path) :: FiledUnder(r, items, path)
    decreases ForestSize(items)
  {
    if items != [] {
      var init, last := items[..|items| - 1], items[|items| - 1];
      IndexedShape(init, path);
      forall r | r in Indexed(init, path) ensures FiledUnder(r, items, path) {
        ChainToMono(init, items, r.path[|path|..|r.path| - 1], r.link);
      }
      match last
      case Link(title, _, _, _) =>
        FiledLink(items, last, path);
      case Folder(title, _, Present(ch)) =>
        KidsSmaller(items, |items| - 1);
        IndexedShape(ch, path + [title]);
        forall r | r in Indexed(ch, path + [title]) ensures FiledUnder(r, items, path) {
          FiledInFolder(items, last, path, r);
        }
      case _ =>
    }
  }

  /** A link at the top level is recorded with its title alone and an empty category path. */
  lemma RootLinkRecord(l: Node)
    requires l.Link?
    ensures Indexed([l], []) == [Record(l, [l.title], "")]
  {
    IndexedSingleton(l, []);
    assert seq(0, i requires 0 <= i < 0 => "") == [];
    assert JoinPath([]) == "";
    assert [] + [l.title] == [l.title];
  }

  /** `extractResources(category)`: the records below the category, each
    * path starting with the category's title. */
  function ResourcesOf(category: Node): seq<Record> {
    if ChildrenKey(category).Present? then Indexed(KidsOf(category), [category.title]) else []
  }

  /** The records of a category are the ones the whole-page index holds for
    * it, and every one of them lies below the category's title. */
  lemma ResourcesOfFolder(category: Node)
    ensures category.Folder? ==> ResourcesOf(category) == Indexed([category], [])
    ensures ChildrenKey(category).Absent? ==> ResourcesOf(category) == []
    ensures forall r | r in ResourcesOf(category) :: FiledUnder(r, KidsOf(category), [category.title])
  {
    IndexedSingleton(category, []);
    IndexedShape(KidsOf(category), [category.title]);
    assert [] + [category.title] == [category.title];
  }

  /** The traversal as the scripts write it: a loop that pushes into an
    * accumulator and recurses into folders. */
  method Traverse(items: seq<Node>, path: seq<Option<string>>, acc: seq<Record>) returns (out: seq<Record>)
    ensures out == acc + Indexed(items, path)
    decreases ForestSize(items)
  {
    out := acc;
    var i := 0;
    while i < |items|
      invariant 0 <= i <= |items|
      invariant out == acc + Indexed(items[..i], path)
    {
      var item := items[i];
      IndexedStep(items, i, path);
      ghost var done := Indexed(items[..i], path);
      ghost var step := IndexedFrom(item, path);
      var currentPath := path + [item.title];
      if item.Link? {
        out := out + [Record(item, currentPath, JoinPath(path))];
        assert step == [Record(item, currentPath, JoinPath(path))];
      } else if item.Folder? && item.children.Present? {
        KidsSmaller(items, i);
        out := Traverse(item.children.items, currentPath, out);
        assert step == Indexed(item.children.items, currentPath);
      } else {
        assert step == [];
      }
      ConcatAssoc(acc, done, step);
      i := i + 1;
    }
    assert items[..i] == items;
  }

  lemma IndexedStep(items: seq<Node>, i: int, path: seq<Option<string>>)
    requires 0 <= i < |items|
    ensures Indexed(items[..i + 1], path) == Indexed(items[..i], path) + IndexedFrom(items[i], path)
  {
    assert items[..i + 1][..i] == items[..i];
  }

  /** The search: lower-cased title, url or category path contains the
    * lower-cased term. */
  predicate Matches(lowerTerm: string, r: Record) {
    var url := if r.link.Link? then r.link.url.GetOr("") else "";
    Contains(Lower(r.link.title.GetOr("")), lowerTerm)
    || Contains(Lower(url), lowerTerm)
    || Contains(Lower(r.categoryPath), lowerTerm)
  }

  function Search(index: seq<Record>, lowerTerm: string): (results: seq<Record>)
    ensures forall r | r in results :: r in index && Matches(lowerTerm, r)
    ensures forall r | r in index && Matches(lowerTerm, r) :: r in results
  {
    var matches := r => Matches(lowerTerm, r);
    FilterMembers(index, matches);
    Filter(index, matches)
  }

  /** Every record matches the empty term, so it selects the whole index. */
  lemma SearchEmptyTerm(index: seq<Record>)
    ensures Search(index, "") == index
  {
    forall i | 0 <= i < |index| ensures Matches("", index[i]) {
      ContainsEmpty(Lower(index[i].link.title.GetOr("")));
    }
    FilterAll(index, r => Matches("", r));
  }

  /** Searching the results again with the same term changes nothing. */
  lemma SearchIdempotent(index: seq<Record>, lowerTerm: string)
    ensures Search(Search(index, lowerTerm), lowerTerm) == Search(index, lowerTerm)
  {
    FilterIdempotent(index, r => Matches(lowerTerm, r));
  }
}
