/**
 * The bookmark tree exported to pintree.json, as every script of the
 * repository receives it once the JSON text has been parsed: an array of
 * nodes, each a folder, a link, or a node whose `type` is something else.
 *
 * A JSON key that is missing is `None`; the Python scripts distinguish a
 * missing key (`item.get(k, default)`) from a present one, so every string
 * field is optional here.
 */
module Bookmarks {

  datatype Option<+T> = None | Some(value: T) {
    /** The wrapped value, or `default` when there is none. */
    function GetOr(default: T): T {
      if Some? then value else default
    }
  }

  /** JavaScript truthiness of a value that is a string, null or undefined. */
  predicate Truthy(c: Option<string>) {
    c.Some? && c.value != ""
  }

  /** The `children` key of a JSON node: missing, or an array of nodes. */
  datatype Kids = Absent | Present(items: seq<Node>)

  datatype Node =
    | Folder(title: Option<string>, addDate: Option<int>, children: Kids)
    | Link(title: Option<string>, url: Option<string>, icon: Option<string>, addDate: Option<int>)
    | Other(title: Option<string>, children: Kids)

  /** A member of a JSON list: an object, which is a node, or anything else. */
  datatype Entry = Object(node: Node) | NonObject

  /** A parsed JSON document as the Python scripts receive it: a list, or a
    * single object. */
  datatype Data = List(entries: seq<Entry>) | Single(node: Node)

  /** The objects of a list, in order; other members are skipped. */
  function ObjectsOf(entries: seq<Entry>): (r: seq<Node>)
    ensures |r| <= |entries|
    ensures forall n | n in r :: Object(n) in entries
    ensures forall i | 0 <= i < |entries| && entries[i].Object? :: entries[i].node in r
  {
    if entries == [] then []
    else
      var last := entries[|entries| - 1];
      ObjectsOf(entries[..|entries| - 1]) + (if last.Object? then [last.node] else [])
  }

  /** The `children` key of any node (a link carries none). */
  function ChildrenKey(n: Node): Kids {
    if n.Link? then Absent else n.children
  }

  /** `node.children || []` in the scripts: the children, or none. */
  function KidsOf(n: Node): seq<Node> {
    match ChildrenKey(n)
    case Absent => []
    case Present(ch) => ch
  }

  /** A folder whose `children` key is present. */
  predicate IsOpenFolder(n: Node) {
    n.Folder? && n.children.Present?
  }

  /** `type == "folder"`. */
  predicate IsFolderNode(n: Node) {
    n.Folder?
  }

  /** `type == "link"`. */
  predicate IsLinkNode(n: Node) {
    n.Link?
  }

  /** A folder's key in the Python converters: its title, or "未命名文件夹". */
  function FolderName(n: Node): (name: string)
    ensures n.title.Some? ==> name == n.title.value
    ensures n.title.None? ==> name == "未命名文件夹"
  {
    n.title.GetOr("未命名文件夹")
  }

  // ---------------------------------------------------------------------------
  // Well-formedness assumed by the browser scripts: they call string methods
  // on a link's `title` (and some on its `url`), which throws when the key is
  // missing. A folder's title is only compared, joined or interpolated, so an
  // untitled folder is accepted.
  // ---------------------------------------------------------------------------

  /** Every link has a title and, when `withUrls`, a url. */
  predicate WellFormed(n: Node, withUrls: bool) {
    match n
    case Folder(_, _, k) => WellFormedKids(k, withUrls)
    case Link(t, u, _, _) => t.Some? && (withUrls ==> u.Some?)
    case Other(_, k) => WellFormedKids(k, withUrls)
  }

  predicate WellFormedKids(k: Kids, withUrls: bool) {
    match k
    case Absent => true
    case Present(ch) => WellFormedForest(ch, withUrls)
  }

  predicate WellFormedForest(s: seq<Node>, withUrls: bool) {
    forall i | 0 <= i < |s| :: WellFormed(s[i], withUrls)
  }

  /** Every link carries a title. */
  predicate Titled(s: seq<Node>) {
    WellFormedForest(s, false)
  }

  /** Every link carries a title and a url. */
  predicate Addressed(s: seq<Node>) {
    WellFormedForest(s, true)
  }

  lemma AddressedIsTitled(s: seq<Node>)
    requires Addressed(s)
    ensures Titled(s)
  {
    forall i | 0 <= i < |s| ensures WellFormed(s[i], false) {
      AddressedNodeIsTitled(s[i]);
    }
  }

  lemma AddressedNodeIsTitled(n: Node)
    requires WellFormed(n, true)
    ensures WellFormed(n, false)
  {
    match n
    case Folder(_, _, Present(ch)) => AddressedIsTitled(ch);
    case Other(_, Present(ch)) => AddressedIsTitled(ch);
    case _ =>
  }

  // ---------------------------------------------------------------------------
  // Size: the termination measure of the recursive methods.
  // ---------------------------------------------------------------------------

  function Size(n: Node): (r: nat)
    ensures r >= 1
  {
    match n
    case Folder(_, _, Present(ch)) => 1 + ForestSize(ch)
    case Other(_, Present(ch)) => 1 + ForestSize(ch)
    case _ => 1
  }

  function ForestSize(s: seq<Node>): (r: nat)
    ensures s != [] ==> ForestSize(s[..|s| - 1]) < r
  {
    if s == [] then 0 else ForestSize(s[..|s| - 1]) + Size(s[|s| - 1])
  }

  lemma {:induction false} SizeOfMember(s: seq<Node>, i: int)
    requires 0 <= i < |s|
    ensures Size(s[i]) <= ForestSize(s)
  {
    if i < |s| - 1 {
      SizeOfMember(s[..|s| - 1], i);
    }
  }

  /** The children of a member are smaller than the whole sequence. */
  lemma KidsSmaller(s: seq<Node>, i: int)
    requires 0 <= i < |s|
    ensures ForestSize(KidsOf(s[i])) < ForestSize(s)
  {
    SizeOfMember(s, i);
  }

  // ---------------------------------------------------------------------------
  // The links reachable from a sequence of nodes, in depth-first pre-order,
  // descending only into nodes of type folder whose `children` key is present.
  // ---------------------------------------------------------------------------

  function NodeLinks(n: Node): seq<Node> {
    match n
    case Link(_, _, _, _) => [n]
    case Folder(_, _, Present(ch)) => LinksIn(ch)
    case _ => []
  }

  function LinksIn(s: seq<Node>): seq<Node> {
    if s == [] then [] else LinksIn(s[..|s| - 1]) + NodeLinks(s[|s| - 1])
  }

  lemma {:induction false} LinksInAreLinks(s: seq<Node>)
    ensures forall l | l in LinksIn(s) :: l.Link?
    decreases ForestSize(s)
  {
    if s != [] {
      LinksInAreLinks(s[..|s| - 1]);
      match s[|s| - 1]
      case Folder(_, _, Present(ch)) =>
        KidsSmaller(s, |s| - 1);
        LinksInAreLinks(ch);
      case _ =>
    }
  }

  lemma {:induction false} LinksInAppend(a: seq<Node>, b: seq<Node>)
    ensures LinksIn(a + b) == LinksIn(a) + LinksIn(b)
  {
    if b == [] {
      assert a + b == a;
    } else {
      assert (a + b)[..|a + b| - 1] == a + b[..|b| - 1];
      LinksInAppend(a, b[..|b| - 1]);
    }
  }

  lemma LinksInStep(s: seq<Node>, i: int)
    requires 0 <= i < |s|
    ensures LinksIn(s[..i + 1]) == LinksIn(s[..i]) + NodeLinks(s[i])
  {
    assert s[..i + 1][..i] == s[..i];
  }

  /** Links of a one-element sequence are the links of that element. */
  lemma LinksInSingleton(n: Node)
    ensures LinksIn([n]) == NodeLinks(n)
  {
    assert [n][..0] == [];
  }

  lemma {:induction false} LinksInWellFormed(s: seq<Node>, withUrls: bool)
    requires WellFormedForest(s, withUrls)
    ensures WellFormedForest(LinksIn(s), withUrls)
    decreases ForestSize(s), 1
  {
    if s != [] {
      var init, last := s[..|s| - 1], s[|s| - 1];
      assert WellFormedForest(init, withUrls) by {
        forall i | 0 <= i < |init| ensures WellFormed(init[i], withUrls) {
          assert init[i] == s[i];
        }
      }
      LinksInWellFormed(init, withUrls);
      SizeOfMember(s, |s| - 1);
      NodeLinksWellFormed(last, withUrls);
      WellFormedConcat(LinksIn(init), NodeLinks(last), withUrls);
    }
  }

  lemma {:induction false} NodeLinksWellFormed(n: Node, withUrls: bool)
    requires WellFormed(n, withUrls)
    ensures WellFormedForest(NodeLinks(n), withUrls)
    decreases Size(n), 0
  {
    match n
    case Folder(_, _, Present(ch)) => LinksInWellFormed(ch, withUrls);
    case Link(_, _, _, _) =>
    case _ =>
  }

  lemma WellFormedConcat(a: seq<Node>, b: seq<Node>, withUrls: bool)
    requires WellFormedForest(a, withUrls) && WellFormedForest(b, withUrls)
    ensures WellFormedForest(a + b, withUrls)
  {
    forall i | 0 <= i < |a + b| ensures WellFormed((a + b)[i], withUrls) {
      if i < |a| { assert (a + b)[i] == a[i]; } else { assert (a + b)[i] == b[i - |a|]; }
    }
  }

  /** The children of a well-formed node are well-formed. */
  lemma WellFormedKidsOf(n: Node, withUrls: bool)
    requires WellFormed(n, withUrls)
    ensures WellFormedForest(KidsOf(n), withUrls)
  {
  }

  /** Both parts of a well-formed sequence split before its last member are well-formed. */
  lemma WellFormedSplitLast(s: seq<Node>, withUrls: bool)
    requires WellFormedForest(s, withUrls) && s != []
    ensures WellFormedForest(s[..|s| - 1], withUrls)
    ensures WellFormed(s[|s| - 1], withUrls)
    ensures WellFormedForest(KidsOf(s[|s| - 1]), withUrls)
  {
    var init := s[..|s| - 1];
    forall i | 0 <= i < |init| ensures WellFormed(init[i], withUrls) {
      assert init[i] == s[i];
    }
    WellFormedKidsOf(s[|s| - 1], withUrls);
  }

  /** The first position whose title equals `t` (`Array.prototype.find`). */
  function FindTitle(s: seq<Node>, t: Option<string>): (r: Option<nat>)
    ensures r.Some? ==> r.value < |s| && s[r.value].title == t
                        && forall j | 0 <= j < r.value :: s[j].title != t
    ensures r.None? ==> forall j | 0 <= j < |s| :: s[j].title != t
    decreases |s|
  {
    if s == [] then None
    else if s[0].title == t then Some(0)
    else match FindTitle(s[1..], t)
      case None => None
      case Some(i) => Some(i + 1)
  }

  /** The first folder of a sequence. */
  function FirstFolder(s: seq<Node>): (r: Option<nat>)
    ensures r.Some? ==> r.value < |s| && s[r.value].Folder?
                        && forall j | 0 <= j < r.value :: !s[j].Folder?
    ensures r.None? ==> forall j | 0 <= j < |s| :: !s[j].Folder?
    decreases |s|
  {
    if s == [] then None
    else if s[0].Folder? then Some(0)
    else match FirstFolder(s[1..])
      case None => None
      case Some(i) => Some(i + 1)
  }

  /** The number of folder children of a node (0 without `children`). */
  function FolderChildCount(n: Node): nat {
    CountFolders(KidsOf(n))
  }

  function CountFolders(s: seq<Node>): nat {
    if s == [] then 0 else CountFolders(s[..|s| - 1]) + (if s[|s| - 1].Folder? then 1 else 0)
  }
}
