/**
 * The bookmark analyser: an indented outline of the tree (folders of a
 * level first, then that level's links or a note about them) and the
 * totals of folders, links and the deepest indentation reached.
 */
module BookmarkAnalysis {
  import opened Bookmarks
  import opened Text
  import opened Seqs

  /** A single object is read as a one-element list. */
  function LevelItems(data: Data): seq<Node> {
    match data
    case List(entries) => ObjectsOf(entries)
    case Single(node) => [node]
  }

  /** The `stats` dictionary. */
  datatype Stats = Stats(folders: nat, links: nat, totalDepth: int)

  function Max(a: int, b: int): int {
    if a < b then b else a
  }

  // ---------------------------------------------------------------------------
  // What the statistics should count, defined on the whole tree
  // ---------------------------------------------------------------------------

  /** The number of folders reachable through folders. */
  function FoldersIn(s: seq<Node>): nat
    decreases ForestSize(s), 1
  {
    if s == [] then 0 else FoldersIn(s[..|s| - 1]) + NodeFolders(s[|s| - 1])
  }

  function NodeFolders(n: Node): nat
    decreases Size(n), 0
  {
    match n
    case Folder(_, _, Present(ch)) => 1 + FoldersIn(ch)
    case Folder(_, _, Absent) => 1
    case _ => 0
  }

  /** The number of levels of non-empty folders below `s`. */
  function Nesting(s: seq<Node>): nat
    decreases ForestSize(s), 1
  {
    if s == [] then 0 else Max(Nesting(s[..|s| - 1]), NodeNesting(s[|s| - 1]))
  }

  function NodeNesting(n: Node): nat
    decreases Size(n), 0
  {
    if n.Folder? && KidsOf(n) != [] then 1 + Nesting(KidsOf(n)) else 0
  }

  /** The deepest indentation the parser reaches from `indent`. */
  function Depth(s: seq<Node>, indent: int): (d: int)
    ensures d >= indent
    decreases ForestSize(s), 1
  {
    if s == [] then indent else Max(Depth(s[..|s| - 1], indent), NodeDepth(s[|s| - 1], indent))
  }

  function NodeDepth(n: Node, indent: int): (d: int)
    ensures d >= indent
    decreases Size(n), 0
  {
    if n.Folder? && KidsOf(n) != [] then Depth(KidsOf(n), indent + 2) else indent
  }

  /** The depth is the starting indentation plus two per nested level. */
  lemma {:induction false} DepthIsNesting(s: seq<Node>, indent: int)
    ensures Depth(s, indent) == indent + 2 * Nesting(s)
    decreases ForestSize(s), 1
  {
    if s != [] {
      DepthIsNesting(s[..|s| - 1], indent);
      SizeOfMember(s, |s| - 1);
      NodeDepthIsNesting(s[|s| - 1], indent);
    }
  }

  lemma {:induction false} NodeDepthIsNesting(n: Node, indent: int)
    ensures NodeDepth(n, indent) == indent + 2 * NodeNesting(n)
    decreases Size(n), 0
  {
    if n.Folder? && KidsOf(n) != [] {
      DepthIsNesting(KidsOf(n), indent + 2);
    }
  }

  // ---------------------------------------------------------------------------
  // The same figures, level by level as the parser gathers them
  // ---------------------------------------------------------------------------

  /** The folders below the given folders. */
  function SumKidsFolders(fs: seq<Node>): nat {
    if fs == [] then 0 else SumKidsFolders(fs[..|fs| - 1]) + FoldersIn(KidsOf(fs[|fs| - 1]))
  }

  /** The links below the given folders. */
  function SumKidsLinks(fs: seq<Node>): nat {
    if fs == [] then 0 else SumKidsLinks(fs[..|fs| - 1]) + |LinksIn(KidsOf(fs[|fs| - 1]))|
  }

  /** The deepest indentation below the given folders. */
  function MaxKidsDepth(fs: seq<Node>, indent: int): int {
    if fs == [] then indent
    else
      var f := fs[|fs| - 1];
      Max(MaxKidsDepth(fs[..|fs| - 1], indent), if KidsOf(f) != [] then Depth(KidsOf(f), indent + 2) else indent)
  }

  lemma FilterStep(s: seq<Node>, p: Node -> bool)
    requires s != []
    ensures Filter(s, p) == Filter(s[..|s| - 1], p) + (if p(s[|s| - 1]) then [s[|s| - 1]] else [])
  {
  }

  lemma SnocInit(a: seq<Node>, x: Node)
    ensures (a + [x])[..|a|] == a && (a + [x])[|a|] == x
  {
  }

  /** Folders: those of this level plus those below them. */
  lemma {:induction false} LevelFolders(s: seq<Node>)
    ensures FoldersIn(s) == |Filter(s, IsFolderNode)| + SumKidsFolders(Filter(s, IsFolderNode))
  {
    if s != [] {
      var init, last := s[..|s| - 1], s[|s| - 1];
      var before := Filter(init, IsFolderNode);
      LevelFolders(init);
      FilterStep(s, IsFolderNode);
      assert FoldersIn(s) == FoldersIn(init) + NodeFolders(last);
      if last.Folder? {
        SnocInit(before, last);
        assert NodeFolders(last) == 1 + FoldersIn(KidsOf(last));
        assert SumKidsFolders(before + [last]) == SumKidsFolders(before) + FoldersIn(KidsOf(last));
      } else {
        assert Filter(s, IsFolderNode) == before;
      }
    }
  }

  /** Links: those of this level plus those below its folders. */
  lemma {:induction false} LevelLinks(s: seq<Node>)
    ensures |LinksIn(s)| == |Filter(s, IsLinkNode)| + SumKidsLinks(Filter(s, IsFolderNode))
  {
    if s != [] {
      var init, last := s[..|s| - 1], s[|s| - 1];
      var before := Filter(init, IsFolderNode);
      LevelLinks(init);
      FilterStep(s, IsFolderNode);
      FilterStep(s, IsLinkNode);
      assert LinksIn(s) == LinksIn(init) + NodeLinks(last);
      if last.Folder? {
        SnocInit(before, last);
        assert |NodeLinks(last)| == |LinksIn(KidsOf(last))|;
        assert SumKidsLinks(before + [last]) == SumKidsLinks(before) + |LinksIn(KidsOf(last))|;
        assert Filter(s, IsLinkNode) == Filter(init, IsLinkNode);
      } else if last.Link? {
        assert Filter(s, IsFolderNode) == before;
        assert |NodeLinks(last)| == 1;
      } else {
        assert Filter(s, IsFolderNode) == before;
        assert Filter(s, IsLinkNode) == Filter(init, IsLinkNode);
        assert NodeLinks(last) == [];
      }
    }
  }

  /** Depth: the deepest of this level's folders. */
  lemma {:induction false} LevelDepth(s: seq<Node>, indent: int)
    ensures Depth(s, indent) == MaxKidsDepth(Filter(s, IsFolderNode), indent)
  {
    if s != [] {
      var init, last := s[..|s| - 1], s[|s| - 1];
      var before := Filter(init, IsFolderNode);
      LevelDepth(init, indent);
      FilterStep(s, IsFolderNode);
      if last.Folder? {
        SnocInit(before, last);
      } else {
        assert Filter(s, IsFolderNode) == before;
        assert NodeDepth(last, indent) == indent;
      }
    }
  }

  // ---------------------------------------------------------------------------
  // The outline
  // ---------------------------------------------------------------------------

  /** `' ' * indent`. */
  function Pad(indent: nat): string {
    Repeat(" ", indent)
  }

  function FolderLine(indent: nat, folder: Node): string {
    Pad(indent) + "📁 " + FolderName(folder)
  }

  function LinkTitle(link: Node): string {
    link.title.GetOr("未命名链接")
  }

  function LinkLine(indent: nat, title: string): string {
    Pad(indent) + "🔗 " + title
  }

  function Digit(d: nat): char
    requires d < 10
  {
    ('0' as int + d) as char
  }

  /** `str(n)` for a count. */
  function DecimalString(n: nat): (s: string)
    ensures |s| >= 1 && forall i | 0 <= i < |s| :: '0' <= s[i] <= '9'
  {
    if n < 10 then [Digit(n)] else DecimalString(n / 10) + [Digit(n % 10)]
  }

  function DecimalValue(s: string): nat
    requires forall i | 0 <= i < |s| :: '0' <= s[i] <= '9'
  {
    if s == [] then 0 else 10 * DecimalValue(s[..|s| - 1]) + (s[|s| - 1] as int - '0' as int)
  }

  /** The written count reads back as the count. */
  lemma {:induction false} DecimalRoundTrip(n: nat)
    ensures DecimalValue(DecimalString(n)) == n
  {
    if n >= 10 {
      DecimalRoundTrip(n / 10);
      var s := DecimalString(n);
      assert s[..|s| - 1] == DecimalString(n / 10);
    }
  }

  /** The lines after a level's folders: the link titles, a count when
    * there are more than five, or, without titles, a note below the top. */
  function LinkSection(items: seq<Node>, indent: nat, showLinks: bool): seq<string> {
    var titles := Map(Filter(items, IsLinkNode), LinkTitle);
    if showLinks && titles != [] then
      if |titles| > 5 then [Pad(indent) + "🔗 包含 " + DecimalString(|titles|) + " 个链接"]
      else Map(titles, t => LinkLine(indent, t))
    else if !showLinks && |LinksIn(items)| > 0 && indent > 0 then [Pad(indent) + "🔗 包含链接"]
    else []
  }

  lemma {:induction false} FilterSmaller(s: seq<Node>, p: Node -> bool)
    ensures ForestSize(Filter(s, p)) <= ForestSize(s)
  {
    if s != [] {
      var init, last := s[..|s| - 1], s[|s| - 1];
      var before := Filter(init, p);
      FilterSmaller(init, p);
      FilterStep(s, p);
      assert ForestSize(s) == ForestSize(init) + Size(last);
      if p(last) {
        SnocInit(before, last);
        assert ForestSize(before + [last]) == ForestSize(before) + Size(last);
      } else {
        assert Filter(s, p) == before;
      }
    }
  }

  /** The outline of a level: each folder's line followed by its own
    * outline, then the level's link lines. */
  function Structure(items: seq<Node>, indent: nat, showLinks: bool): seq<string>
    decreases ForestSize(items), 1
  {
    FolderSection(items, indent, showLinks) + LinkSection(items, indent, showLinks)
  }

  /** The lines of a level's folders, in order; other items add none. */
  function FolderSection(s: seq<Node>, indent: nat, showLinks: bool): seq<string>
    decreases ForestSize(s), 0
  {
    if s == [] then []
    else
      var f := s[|s| - 1];
      KidsSmaller(s, |s| - 1);
      FolderSection(s[..|s| - 1], indent, showLinks)
      + (if f.Folder? then
           [FolderLine(indent, f)] + (if KidsOf(f) != [] then Structure(KidsOf(f), indent + 2, showLinks) else [])
         else [])
  }

  /** Taking the folders out first, as the script does, changes nothing. */
  lemma {:induction false} FolderSectionFiltered(s: seq<Node>, indent: nat, showLinks: bool)
    ensures FolderSection(Filter(s, IsFolderNode), indent, showLinks) == FolderSection(s, indent, showLinks)
  {
    if s != [] {
      var init, last := s[..|s| - 1], s[|s| - 1];
      var before := Filter(init, IsFolderNode);
      FolderSectionFiltered(init, indent, showLinks);
      FilterStep(s, IsFolderNode);
      if last.Folder? {
        SnocInit(before, last);
      } else {
        assert Filter(s, IsFolderNode) == before;
      }
    }
  }

  /** A line whose text after its indentation starts with the folder mark. */
  predicate IsFolderLine(line: string) {
    var t := StripStart(Py, line);
    t != [] && t[0] == '📁'
  }

  /** A line whose text after its indentation starts with the link mark. */
  predicate IsLinkLine(line: string) {
    var t := StripStart(Py, line);
    t != [] && t[0] == '🔗'
  }

  lemma PaddedLine(indent: nat, rest: string)
    requires rest != [] && !IsSpace(Py, rest[0])
    ensures StripStart(Py, Pad(indent) + rest) == rest
  {
    RepeatUniform(" ", indent, ' ');
    StripStartAfterSpaces(Py, Pad(indent), rest);
  }

  function CountFolderLines(lines: seq<string>): nat {
    if lines == [] then 0
    else CountFolderLines(lines[..|lines| - 1]) + (if IsFolderLine(lines[|lines| - 1]) then 1 else 0)
  }

  lemma {:induction false} CountFolderLinesAppend(a: seq<string>, b: seq<string>)
    ensures CountFolderLines(a + b) == CountFolderLines(a) + CountFolderLines(b)
  {
    if b == [] {
      assert a + b == a;
    } else {
      assert (a + b)[..|a + b| - 1] == a + b[..|b| - 1];
      assert (a + b)[|a + b| - 1] == b[|b| - 1];
      CountFolderLinesAppend(a, b[..|b| - 1]);
    }
  }

  lemma {:induction false} NoFolderLines(lines: seq<string>)
    requires forall i | 0 <= i < |lines| :: !IsFolderLine(lines[i])
    ensures CountFolderLines(lines) == 0
  {
    if lines != [] {
      NoFolderLines(lines[..|lines| - 1]);
    }
  }

  /** A padded line starting with the link mark is a link line. */
  lemma LinkLineMarked(indent: nat, rest: string)
    requires rest != [] && rest[0] == '🔗'
    ensures IsLinkLine(Pad(indent) + rest) && !IsFolderLine(Pad(indent) + rest)
  {
    PaddedLine(indent, rest);
  }

  /** A folder's line is a folder line. */
  lemma FolderLineMarked(indent: nat, folder: Node)
    ensures IsFolderLine(FolderLine(indent, folder))
  {
    var rest := "📁 " + FolderName(folder);
    assert FolderLine(indent, folder) == Pad(indent) + rest;
    PaddedLine(indent, rest);
  }

  lemma OneFolderLine(indent: nat, folder: Node)
    ensures CountFolderLines([FolderLine(indent, folder)]) == 1
  {
    var line := FolderLine(indent, folder);
    FolderLineMarked(indent, folder);
    assert [line][..0] == [];
  }

  /** Every line after a level's folders is a link line. */
  lemma LinkSectionMarked(items: seq<Node>, indent: nat, showLinks: bool)
    ensures forall l | l in LinkSection(items, indent, showLinks) :: IsLinkLine(l) && !IsFolderLine(l)
  {
    var section := LinkSection(items, indent, showLinks);
    var titles := Map(Filter(items, IsLinkNode), LinkTitle);
    if showLinks && titles != [] && |titles| <= 5 {
      TitleLinesMarked(titles, indent);
    } else if showLinks && titles != [] {
      var rest := "🔗 包含 " + DecimalString(|titles|) + " 个链接";
      assert section == [Pad(indent) + "🔗 包含 " + DecimalString(|titles|) + " 个链接"];
      assert section[0] == Pad(indent) + rest;
      LinkLineMarked(indent, rest);
    } else {
      LinkLineMarked(indent, "🔗 包含链接");
    }
  }

  /** One line per title: each is a link line. */
  lemma TitleLinesMarked(titles: seq<string>, indent: nat)
    ensures forall l | l in Map(titles, t => LinkLine(indent, t)) :: IsLinkLine(l) && !IsFolderLine(l)
  {
    var lines := Map(titles, t => LinkLine(indent, t));
    forall l | l in lines ensures IsLinkLine(l) && !IsFolderLine(l) {
      var k :| 0 <= k < |titles| && l == lines[k];
      assert l == Pad(indent) + ("🔗 " + titles[k]);
      LinkLineMarked(indent, "🔗 " + titles[k]);
    }
  }

  /** With titles shown there is one line per direct link of the level, or
    * a single count line past five; without, a single note when links lie
    * anywhere below and the level is not the top one. */
  lemma LinkSectionSize(items: seq<Node>, indent: nat, showLinks: bool)
    ensures var n := |Filter(items, IsLinkNode)|;
            showLinks ==> |LinkSection(items, indent, showLinks)| == (if n > 5 then 1 else n)
    ensures !showLinks ==>
              |LinkSection(items, indent, showLinks)| == (if |LinksIn(items)| > 0 && indent > 0 then 1 else 0)
  {
  }

  /** The outline holds one folder line per folder of the tree. */
  lemma {:induction false} StructureFolderLines(items: seq<Node>, indent: nat, showLinks: bool)
    ensures CountFolderLines(Structure(items, indent, showLinks)) == FoldersIn(items)
    decreases ForestSize(items), 2
  {
    FolderSectionFolderLines(items, indent, showLinks);
    LinkSectionMarked(items, indent, showLinks);
    var section := LinkSection(items, indent, showLinks);
    assert forall i | 0 <= i < |section| :: !IsFolderLine(section[i]) by {
      forall i | 0 <= i < |section| ensures !IsFolderLine(section[i]) {
        assert section[i] in section;
      }
    }
    NoFolderLines(section);
    CountFolderLinesAppend(FolderSection(items, indent, showLinks), section);
  }

  lemma {:induction false} FolderSectionFolderLines(s: seq<Node>, indent: nat, showLinks: bool)
    ensures CountFolderLines(FolderSection(s, indent, showLinks)) == FoldersIn(s)
    decreases ForestSize(s), 1
  {
    if s != [] {
      var init, f := s[..|s| - 1], s[|s| - 1];
      FolderSectionFolderLines(init, indent, showLinks);
      if f.Folder? {
        var block := [FolderLine(indent, f)]
          + (if KidsOf(f) != [] then Structure(KidsOf(f), indent + 2, showLinks) else []);
        assert FolderSection(s, indent, showLinks) == FolderSection(init, indent, showLinks) + block;
        SizeOfMember(s, |s| - 1);
        FolderBlockLines(f, indent, showLinks);
        CountFolderLinesAppend(FolderSection(init, indent, showLinks), block);
      } else {
        assert FolderSection(s, indent, showLinks) == FolderSection(init, indent, showLinks) + [];
        assert FolderSection(s, indent, showLinks) == FolderSection(init, indent, showLinks);
        assert NodeFolders(f) == 0;
      }
    }
  }

  lemma FolderCount(f: Node)
    requires f.Folder?
    ensures NodeFolders(f) == 1 + FoldersIn(KidsOf(f))
  {
  }

  /** A folder's line and its outline hold one folder line per folder. */
  lemma {:induction false} FolderBlockLines(f: Node, indent: nat, showLinks: bool)
    requires f.Folder?
    ensures var block := [FolderLine(indent, f)]
              + (if KidsOf(f) != [] then Structure(KidsOf(f), indent + 2, showLinks) else []);
            CountFolderLines(block) == NodeFolders(f)
    decreases Size(f), 0
  {
    var line := FolderLine(indent, f);
    var below := if KidsOf(f) != [] then Structure(KidsOf(f), indent + 2, showLinks) else [];
    assert CountFolderLines(below) == FoldersIn(KidsOf(f)) by {
      if KidsOf(f) != [] {
        StructureFolderLines(KidsOf(f), indent + 2, showLinks);
      }
    }
    assert CountFolderLines([line] + below) == 1 + CountFolderLines(below) by {
      OneFolderLine(indent, f);
      CountFolderLinesAppend([line], below);
    }
    assert NodeFolders(f) == 1 + FoldersIn(KidsOf(f)) by {
      FolderCount(f);
    }
  }

  // ---------------------------------------------------------------------------
  // parse_bookmark_structure, as the script writes it
  // ---------------------------------------------------------------------------

  /** One more item, as the first loop takes it. */
  lemma ScanStep(items: seq<Node>, i: int)
    requires 0 <= i < |items|
    ensures var item := items[i];
            Filter(items[..i + 1], IsFolderNode) == Filter(items[..i], IsFolderNode) + (if item.Folder? then [item] else [])
    ensures var item := items[i];
            Filter(items[..i + 1], IsLinkNode) == Filter(items[..i], IsLinkNode) + (if item.Link? then [item] else [])
    ensures var item := items[i];
            Map(Filter(items[..i + 1], IsLinkNode), LinkTitle)
            == Map(Filter(items[..i], IsLinkNode), LinkTitle) + (if item.Link? then [LinkTitle(item)] else [])
  {
    var item := items[i];
    assert items[..i + 1][..i] == items[..i];
    FilterStep(items[..i + 1], IsFolderNode);
    FilterStep(items[..i + 1], IsLinkNode);
    if item.Link? {
      MapAppend(Filter(items[..i], IsLinkNode), [item], LinkTitle);
      MapSingleton(item, LinkTitle);
    } else {
      assert Filter(items[..i + 1], IsLinkNode) == Filter(items[..i], IsLinkNode);
    }
  }

  /** The first loop: the level's folders and, when shown, its link titles. */
  method ScanLevel(items: seq<Node>, showLinks: bool)
    returns (folders: nat, links: nat, foldersInThisLevel: seq<Node>, linksInThisLevel: seq<string>)
    ensures foldersInThisLevel == Filter(items, IsFolderNode) && folders == |foldersInThisLevel|
    ensures links == |Filter(items, IsLinkNode)|
    ensures linksInThisLevel == if showLinks then Map(Filter(items, IsLinkNode), LinkTitle) else []
  {
    folders, links := 0, 0;
    foldersInThisLevel, linksInThisLevel := [], [];
    var i := 0;
    while i < |items|
      invariant 0 <= i <= |items|
      invariant foldersInThisLevel == Filter(items[..i], IsFolderNode) && folders == |foldersInThisLevel|
      invariant links == |Filter(items[..i], IsLinkNode)|
      invariant linksInThisLevel == if showLinks then Map(Filter(items[..i], IsLinkNode), LinkTitle) else []
    {
      var item := items[i];
      if item.Folder? {
        folders := folders + 1;
        foldersInThisLevel := foldersInThisLevel + [item];
      } else if item.Link? {
        links := links + 1;
        if showLinks {
          linksInThisLevel := linksInThisLevel + [LinkTitle(item)];
        }
      }
      assert foldersInThisLevel == Filter(items[..i + 1], IsFolderNode)
             && links == |Filter(items[..i + 1], IsLinkNode)|
             && linksInThisLevel == if showLinks then Map(Filter(items[..i + 1], IsLinkNode), LinkTitle) else []
      by {
        ScanStep(items, i);
      }
      i := i + 1;
    }
    assert items[..i] == items;
  }

  /** `parse_bookmark_structure` on a list of objects: the outline and the
    * totals of the whole subtree. */
  method ParseLevel(items: seq<Node>, indent: nat, showLinks: bool) returns (structure: seq<string>, stats: Stats)
    ensures structure == Structure(items, indent, showLinks)
    ensures stats == Stats(FoldersIn(items), |LinksIn(items)|, Depth(items, indent))
    decreases ForestSize(items), 2
  {
    var folders, links, foldersInThisLevel, linksInThisLevel := ScanLevel(items, showLinks);
    assert ForestSize(foldersInThisLevel) <= ForestSize(items) && forall f | f in foldersInThisLevel :: f.Folder? by {
      FilterSmaller(items, IsFolderNode);
      FilterMembers(items, IsFolderNode);
    }
    var folderLines, kidsFolders, kidsLinks, totalDepth := ParseFolders(foldersInThisLevel, indent, showLinks);
    assert folderLines == FolderSection(items, indent, showLinks) by {
      FolderSectionFiltered(items, indent, showLinks);
    }
    folders, links := folders + kidsFolders, links + kidsLinks;
    assert folders == FoldersIn(items) && links == |LinksIn(items)| && totalDepth == Depth(items, indent) by {
      LevelFolders(items);
      LevelLinks(items);
      LevelDepth(items, indent);
    }
    var linkLines := LinkLines(items, linksInThisLevel, links, indent, showLinks);
    structure := folderLines + linkLines;
    stats := Stats(folders, links, totalDepth);
  }

  /** The second loop: each folder's line, then the outline of its
    * children one level deeper, adding their totals to the level's. */
  method ParseFolders(fs: seq<Node>, indent: nat, showLinks: bool)
    returns (structure: seq<string>, folders: nat, links: nat, totalDepth: int)
    requires forall f | f in fs :: f.Folder?
    ensures structure == FolderSection(fs, indent, showLinks)
    ensures folders == SumKidsFolders(fs) && links == SumKidsLinks(fs)
    ensures totalDepth == MaxKidsDepth(fs, indent)
    decreases ForestSize(fs), 1
  {
    structure, folders, links, totalDepth := [], 0, 0, indent;
    var j := 0;
    while j < |fs|
      invariant 0 <= j <= |fs|
      invariant structure == FolderSection(fs[..j], indent, showLinks)
      invariant folders == SumKidsFolders(fs[..j]) && links == SumKidsLinks(fs[..j])
      invariant totalDepth == MaxKidsDepth(fs[..j], indent)
    {
      var folder := fs[j];
      assert folder.Folder? by {
        assert folder in fs;
      }
      SizeOfMember(fs, j);
      var lines, childStats := ParseFolder(folder, indent, showLinks);
      ParseFoldersStep(fs, j, indent, showLinks, structure, folders, links, totalDepth, lines, childStats);
      structure := structure + lines;
      folders := folders + childStats.folders;
      links := links + childStats.links;
      totalDepth := Max(totalDepth, childStats.totalDepth);
      j := j + 1;
    }
    assert fs[..j] == fs;
  }

  /** One folder of the second loop: its line and its children's outline,
    * with the children's totals (a folder without children adds none and
    * keeps the depth at `indent`). */
  method ParseFolder(folder: Node, indent: nat, showLinks: bool) returns (lines: seq<string>, childStats: Stats)
    requires folder.Folder?
    ensures var children := KidsOf(folder);
            lines == [FolderLine(indent, folder)] + (if children != [] then Structure(children, indent + 2, showLinks) else [])
    ensures var children := KidsOf(folder);
            childStats == Stats(FoldersIn(children), |LinksIn(children)|,
                                if children != [] then Depth(children, indent + 2) else indent)
    decreases Size(folder), 0
  {
    var children := KidsOf(folder);
    var childStructure := [];
    childStats := Stats(0, 0, indent);
    if children != [] {
      childStructure, childStats := ParseLevel(children, indent + 2, showLinks);
    }
    lines := [FolderLine(indent, folder)] + childStructure;
  }

  /** One turn of the second loop keeps its invariants. */
  lemma ParseFoldersStep(fs: seq<Node>, j: int, indent: nat, showLinks: bool,
                         structure: seq<string>, folders: int, links: int, totalDepth: int,
                         lines: seq<string>, childStats: Stats)
    requires 0 <= j < |fs| && fs[j].Folder?
    requires structure == FolderSection(fs[..j], indent, showLinks)
    requires folders == SumKidsFolders(fs[..j]) && links == SumKidsLinks(fs[..j])
    requires totalDepth == MaxKidsDepth(fs[..j], indent)
    requires var children := KidsOf(fs[j]);
             lines == [FolderLine(indent, fs[j])] + (if children != [] then Structure(children, indent + 2, showLinks) else [])
    requires var children := KidsOf(fs[j]);
             childStats == Stats(FoldersIn(children), |LinksIn(children)|,
                                 if children != [] then Depth(children, indent + 2) else indent)
    ensures structure + lines == FolderSection(fs[..j + 1], indent, showLinks)
    ensures folders + childStats.folders == SumKidsFolders(fs[..j + 1])
    ensures links + childStats.links == SumKidsLinks(fs[..j + 1])
    ensures Max(totalDepth, childStats.totalDepth) == MaxKidsDepth(fs[..j + 1], indent)
  {
    var f := fs[j];
    var kids := if KidsOf(f) != [] then Structure(KidsOf(f), indent + 2, showLinks) else [];
    ConcatAssoc(structure, [FolderLine(indent, f)], kids);
    FolderSectionStep(fs, j, indent, showLinks);
    FolderTotalsStep(fs, j, indent);
  }

  /** One more folder's lines, as the second loop adds them. */
  lemma FolderSectionStep(fs: seq<Node>, j: int, indent: nat, showLinks: bool)
    requires 0 <= j < |fs| && fs[j].Folder?
    ensures var f := fs[j];
            FolderSection(fs[..j + 1], indent, showLinks)
            == FolderSection(fs[..j], indent, showLinks) + [FolderLine(indent, f)]
               + (if KidsOf(f) != [] then Structure(KidsOf(f), indent + 2, showLinks) else [])
  {
    var prefix := fs[..j + 1];
    assert prefix[..|prefix| - 1] == fs[..j] && prefix[|prefix| - 1] == fs[j];
  }

  /** One more folder's totals, as the second loop adds them. */
  lemma FolderTotalsStep(fs: seq<Node>, j: int, indent: nat)
    requires 0 <= j < |fs|
    ensures SumKidsFolders(fs[..j + 1]) == SumKidsFolders(fs[..j]) + FoldersIn(KidsOf(fs[j]))
    ensures SumKidsLinks(fs[..j + 1]) == SumKidsLinks(fs[..j]) + |LinksIn(KidsOf(fs[j]))|
    ensures MaxKidsDepth(fs[..j + 1], indent)
            == Max(MaxKidsDepth(fs[..j], indent),
                   if KidsOf(fs[j]) != [] then Depth(KidsOf(fs[j]), indent + 2) else indent)
  {
    var prefix := fs[..j + 1];
    assert prefix[..|prefix| - 1] == fs[..j] && prefix[|prefix| - 1] == fs[j];
  }

  /** The lines after the folders: the link titles gathered by the first
    * loop, a count of them, or a note that links lie below. */
  method LinkLines(ghost items: seq<Node>, linksInThisLevel: seq<string>, links: nat, indent: nat, showLinks: bool)
    returns (lines: seq<string>)
    requires linksInThisLevel == if showLinks then Map(Filter(items, IsLinkNode), LinkTitle) else []
    requires links == |LinksIn(items)|
    ensures lines == LinkSection(items, indent, showLinks)
  {
    lines := [];
    if showLinks && linksInThisLevel != [] {
      if |linksInThisLevel| > 5 {
        lines := [Pad(indent) + "🔗 包含 " + DecimalString(|linksInThisLevel|) + " 个链接"];
      } else {
        var t := 0;
        while t < |linksInThisLevel|
          invariant 0 <= t <= |linksInThisLevel|
          invariant lines == Map(linksInThisLevel[..t], s => LinkLine(indent, s))
        {
          assert linksInThisLevel[..t + 1] == linksInThisLevel[..t] + [linksInThisLevel[t]];
          MapAppend(linksInThisLevel[..t], [linksInThisLevel[t]], s => LinkLine(indent, s));
          lines := lines + [LinkLine(indent, linksInThisLevel[t])];
          t := t + 1;
        }
        assert linksInThisLevel[..t] == linksInThisLevel;
      }
    } else if !showLinks && links > 0 && indent > 0 {
      lines := [Pad(indent) + "🔗 包含链接"];
    }
  }

  /** `parse_bookmark_structure(bookmarks_data, indent, show_links)`. */
  method ParseBookmarkStructure(data: Data, indent: nat, showLinks: bool) returns (structure: seq<string>, stats: Stats)
    ensures structure == Structure(LevelItems(data), indent, showLinks)
    ensures stats.folders == FoldersIn(LevelItems(data)) && stats.links == |LinksIn(LevelItems(data))|
    ensures stats.totalDepth == indent + 2 * Nesting(LevelItems(data))
  {
    structure, stats := ParseLevel(LevelItems(data), indent, showLinks);
    DepthIsNesting(LevelItems(data), indent);
  }

  // ---------------------------------------------------------------------------
  // get_root_folder
  // ---------------------------------------------------------------------------

  /** A list of exactly one object, which has a `children` key. */
  predicate IsSingleRoot(data: Data) {
    data.List? && |data.entries| == 1 && data.entries[0].Object?
    && ChildrenKey(data.entries[0].node).Present?
  }

  /** `get_root_folder(bookmarks_data)`: the sole object's title (default
    * "根文件夹") and children when the list has one object with `children`;
    * otherwise "根文件夹" and the data itself. */
  function GetRootFolder(data: Data): (r: (string, Data))
    ensures !IsSingleRoot(data) ==> r == ("根文件夹", data)
  {
    if IsSingleRoot(data) then
      var root := data.entries[0].node;
      (root.title.GetOr("根文件夹"), List(ObjectsAsEntries(KidsOf(root))))
    else ("根文件夹", data)
  }

  function ObjectsAsEntries(s: seq<Node>): (r: seq<Entry>)
    ensures |r| == |s| && forall i | 0 <= i < |s| :: r[i] == Object(s[i])
  {
    seq(|s|, i requires 0 <= i < |s| => Object(s[i]))
  }

  lemma {:induction false} ObjectsOfObjects(s: seq<Node>)
    ensures ObjectsOf(ObjectsAsEntries(s)) == s
  {
    if s != [] {
      ObjectsOfObjects(s[..|s| - 1]);
      assert ObjectsAsEntries(s)[..|s| - 1] == ObjectsAsEntries(s[..|s| - 1]);
    }
  }

  /** Unwrapping a single root folder loses only the root itself: the
    * analysis of its children counts one folder fewer and every link. */
  lemma RootUnwrapAccounts(data: Data)
    requires data.List? && |data.entries| == 1 && data.entries[0].Object?
    requires data.entries[0].node.Folder? && data.entries[0].node.children.Present?
    ensures var children := LevelItems(GetRootFolder(data).1);
            FoldersIn(children) + 1 == FoldersIn(LevelItems(data))
            && LinksIn(children) == LinksIn(LevelItems(data))
  {
    var root := data.entries[0].node;
    ObjectsOfObjects(KidsOf(root));
    assert data.entries[..0] == [];
    assert LevelItems(data) == [root];
    assert [root][..0] == [];
  }
}
