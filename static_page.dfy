/**
 * The static page updater: the single root folder's folder children become
 * top-level categories; inside each, a subfolder becomes a list of every
 * link below it, and the direct links go to "主要链接", to the folder's own
 * title or to "其他链接". Each link gets an emoji chosen from its URL, and
 * the dumped JSON is re-indented from four to two spaces per level.
 */
module StaticPage {
  import opened Bookmarks
  import opened Text
  import opened Seqs
  import opened Dicts

  /** `{"type": "link", "title": ..., "url": ..., "icon": ...}`; the constant
    * `type` is left implicit. */
  datatype LinkData = LinkData(title: string, url: string, icon: string)

  // ---------------------------------------------------------------------------
  // get_emoji_for_url
  // ---------------------------------------------------------------------------

  /** The keyword table, in the order the dictionary literal lists it. */
  const KeywordEmojis: seq<(string, string)> := [
    ("github", "💻"), ("youtube", "🎬"), ("bilibili", "📺"), ("baidu", "🔍"),
    ("google", "🔍"), ("microsoft", "🪟"), ("apple", "🍎"), ("amazon", "🛒"),
    ("scholar", "🎓"), ("arxiv", "📄"), ("cnki", "📚"), ("ieee", "📝"),
    ("pdf", "📄"), ("image", "\U{1F5BC}\U{FE0F}"), ("photo", "📸"), ("music", "🎵"),
    ("video", "🎬"), ("python", "🐍"), ("java", "☕"), ("javascript", "⚡"),
    ("html", "🌐"), ("word", "📝"), ("excel", "📊"), ("ppt", "📑"),
    ("office", "\U{1F58B}\U{FE0F}")
  ]

  /** The generic groups tried after the keywords, in order. */
  const FallbackEmojis: seq<(seq<string>, string)> := [
    (["mail", "email", "@"], "📧"),
    (["news", "article", "blog"], "📰"),
    (["book", "read", "novel"], "📚"),
    (["map", "location", "place"], "\U{1F5FA}\U{FE0F}"),
    (["weather", "forecast"], "\U{1F324}\U{FE0F}"),
    (["game", "play", "fun"], "🎮"),
    (["ai", "chat", "bot", "智能"], "🤖"),
    (["cloud", "drive", "storage"], "\U{2601}\U{FE0F}")
  ]

  /** Keyword `i` is the first, in table order, that `u` contains. */
  predicate FirstKeywordAt(u: string, i: int) {
    0 <= i < |KeywordEmojis| && Contains(u, KeywordEmojis[i].0)
    && forall j | 0 <= j < i :: !Contains(u, KeywordEmojis[j].0)
  }

  predicate NoKeyword(u: string) {
    forall j | 0 <= j < |KeywordEmojis| :: !Contains(u, KeywordEmojis[j].0)
  }

  /** `any(x in u for x in words)`. */
  predicate AnyIn(u: string, words: seq<string>) {
    exists w | w in words :: Contains(u, w)
  }

  /** Group `g` is the first fallback group one of whose words `u` contains. */
  predicate FirstGroupAt(u: string, g: int) {
    0 <= g < |FallbackEmojis| && AnyIn(u, FallbackEmojis[g].0)
    && forall h | 0 <= h < g :: !AnyIn(u, FallbackEmojis[h].0)
  }

  predicate NoGroup(u: string) {
    forall h | 0 <= h < |FallbackEmojis| :: !AnyIn(u, FallbackEmojis[h].0)
  }

  /** The first entry of `table` whose keyword `u` contains. */
  function FirstKeyword(u: string, table: seq<(string, string)>): (r: Option<nat>)
    ensures r.Some? ==> r.value < |table| && Contains(u, table[r.value].0)
                        && forall j | 0 <= j < r.value :: !Contains(u, table[j].0)
    ensures r.None? ==> forall j | 0 <= j < |table| :: !Contains(u, table[j].0)
  {
    if table == [] then None
    else if Contains(u, table[0].0) then Some(0)
    else match FirstKeyword(u, table[1..])
      case None => None
      case Some(i) => Some(i + 1)
  }

  /** The first group of `groups` one of whose words `u` contains. */
  function FirstGroup(u: string, groups: seq<(seq<string>, string)>): (r: Option<nat>)
    ensures r.Some? ==> r.value < |groups| && AnyIn(u, groups[r.value].0)
                        && forall h | 0 <= h < r.value :: !AnyIn(u, groups[h].0)
    ensures r.None? ==> forall h | 0 <= h < |groups| :: !AnyIn(u, groups[h].0)
  {
    if groups == [] then None
    else if AnyIn(u, groups[0].0) then Some(0)
    else match FirstGroup(u, groups[1..])
      case None => None
      case Some(i) => Some(i + 1)
  }

  /** `get_emoji_for_url(url)`: the emoji of the first keyword the
    * lower-cased URL contains; failing that, of the first matching group;
    * failing that, "🔗". */
  function GetEmojiForUrl(url: string): string {
    var u := Lower(url);
    match FirstKeyword(u, KeywordEmojis)
    case Some(i) => KeywordEmojis[i].1
    case None =>
      match FirstGroup(u, FallbackEmojis)
      case Some(g) => FallbackEmojis[g].1
      case None => "🔗"
  }

  /** The emoji is that of the first keyword the lower-cased URL contains;
    * with none, that of the first group with a contained word; with
    * neither, "🔗". */
  lemma EmojiChoice(url: string)
    ensures forall i | FirstKeywordAt(Lower(url), i) :: GetEmojiForUrl(url) == KeywordEmojis[i].1
    ensures NoKeyword(Lower(url)) ==>
              forall g | FirstGroupAt(Lower(url), g) :: GetEmojiForUrl(url) == FallbackEmojis[g].1
    ensures NoKeyword(Lower(url)) && NoGroup(Lower(url)) ==> GetEmojiForUrl(url) == "🔗"
  {
    var u := Lower(url);
    forall i | FirstKeywordAt(u, i) ensures GetEmojiForUrl(url) == KeywordEmojis[i].1 {
      FirstKeywordUnique(u, KeywordEmojis, i);
    }
    if NoKeyword(u) {
      assert FirstKeyword(u, KeywordEmojis).None?;
      forall g | FirstGroupAt(u, g) ensures GetEmojiForUrl(url) == FallbackEmojis[g].1 {
        FirstGroupUnique(u, FallbackEmojis, g);
      }
    }
  }

  /** The first match is the only index that can be the first match. */
  lemma FirstKeywordUnique(u: string, table: seq<(string, string)>, i: int)
    requires 0 <= i < |table| && Contains(u, table[i].0)
    requires forall j | 0 <= j < i :: !Contains(u, table[j].0)
    ensures FirstKeyword(u, table) == Some(i)
  {
    var r := FirstKeyword(u, table);
    assert r.Some?;
    assert !(r.value < i);
  }

  lemma FirstGroupUnique(u: string, groups: seq<(seq<string>, string)>, g: int)
    requires 0 <= g < |groups| && AnyIn(u, groups[g].0)
    requires forall h | 0 <= h < g :: !AnyIn(u, groups[h].0)
    ensures FirstGroup(u, groups) == Some(g)
  {
    var r := FirstGroup(u, groups);
    assert r.Some?;
    assert !(r.value < g);
  }

  /** Of the keywords, only "javascript" carries "⚡". */
  lemma LightningIsJavascriptOnly(i: int)
    requires 0 <= i < |KeywordEmojis| && KeywordEmojis[i].1 == "⚡"
    ensures i == 19
  {
    assert i == 0 || i == 1 || i == 2 || i == 3 || i == 4 || i == 5 || i == 6 || i == 7
        || i == 8 || i == 9 || i == 10 || i == 11 || i == 12 || i == 13 || i == 14 || i == 15
        || i == 16 || i == 17 || i == 18 || i == 19 || i == 20 || i == 21 || i == 22 || i == 23
        || i == 24;
  }

  /** No fallback group carries "⚡". */
  lemma NoLightningFallback(g: int)
    requires 0 <= g < |FallbackEmojis|
    ensures FallbackEmojis[g].1 != "⚡"
  {
    assert g == 0 || g == 1 || g == 2 || g == 3 || g == 4 || g == 5 || g == 6 || g == 7;
  }

  /** "java" precedes "javascript" in the table and is a prefix of it, so the
    * "⚡" entry can never be chosen: a JavaScript URL gets "☕" or an
    * earlier keyword's emoji. */
  lemma JavascriptShadowed(url: string)
    ensures GetEmojiForUrl(url) != "⚡"
  {
    var u := Lower(url);
    var r := FirstKeyword(u, KeywordEmojis);
    if r.Some? {
      if KeywordEmojis[r.value].1 == "⚡" {
        LightningIsJavascriptOnly(r.value);
        assert KeywordEmojis[19].0[..4] == KeywordEmojis[18].0;
        ContainsPrefixOf(u, KeywordEmojis[19].0, 4);
        assert false;
      }
    } else {
      var g := FirstGroup(u, FallbackEmojis);
      if g.Some? {
        NoLightningFallback(g.value);
      }
    }
  }

  /** A URL whose lower-cased form contains "javascript" but no keyword
    * listed before "java" gets "☕". */
  lemma JavascriptGetsCoffee(url: string)
    requires Contains(Lower(url), "javascript")
    requires forall j | 0 <= j < 18 :: !Contains(Lower(url), KeywordEmojis[j].0)
    ensures GetEmojiForUrl(url) == "☕"
  {
    assert "javascript"[..4] == "java";
    ContainsPrefixOf(Lower(url), "javascript", 4);
    assert FirstKeywordAt(Lower(url), 18);
    EmojiChoice(url);
  }

  /** Every keyword and every fallback word is non-empty. */
  lemma TablesNonEmpty()
    ensures forall j | 0 <= j < |KeywordEmojis| :: KeywordEmojis[j].0 != ""
    ensures forall h, w | 0 <= h < |FallbackEmojis| && w in FallbackEmojis[h].0 :: w != ""
  {
    forall j | 0 <= j < |KeywordEmojis| ensures KeywordEmojis[j].0 != "" {
      assert j == 0 || j == 1 || j == 2 || j == 3 || j == 4 || j == 5 || j == 6 || j == 7
          || j == 8 || j == 9 || j == 10 || j == 11 || j == 12 || j == 13 || j == 14 || j == 15
          || j == 16 || j == 17 || j == 18 || j == 19 || j == 20 || j == 21 || j == 22 || j == 23
          || j == 24;
    }
    forall h, w | 0 <= h < |FallbackEmojis| && w in FallbackEmojis[h].0 ensures w != "" {
      assert h == 0 || h == 1 || h == 2 || h == 3 || h == 4 || h == 5 || h == 6 || h == 7;
    }
  }

  /** An empty URL matches nothing and gets "🔗". */
  lemma EmptyUrlGetsLink()
    ensures GetEmojiForUrl("") == "🔗"
  {
    TablesNonEmpty();
    EmojiChoice("");
    assert Lower("") == "";
    forall j | 0 <= j < |KeywordEmojis| ensures !Contains("", KeywordEmojis[j].0) {
      NothingInEmpty(KeywordEmojis[j].0);
    }
    forall h | 0 <= h < |FallbackEmojis| ensures !AnyIn("", FallbackEmojis[h].0) {
      forall w | w in FallbackEmojis[h].0 ensures !Contains("", w) {
        NothingInEmpty(w);
      }
    }
  }

  // ---------------------------------------------------------------------------
  // Link records
  // ---------------------------------------------------------------------------

  /** The item's `url` key; only links carry one. */
  function UrlOf(item: Node): Option<string> {
    if item.Link? then item.url else None
  }

  /** The record built for a link item: `item.get('title', '未命名链接')`,
    * `item.get('url', '#')`, and the emoji of `item.get('url', '')`. */
  function LinkDataOf(item: Node): LinkData {
    LinkData(item.title.GetOr("未命名链接"), UrlOf(item).GetOr("#"), GetEmojiForUrl(UrlOf(item).GetOr("")))
  }

  /** A link without a title or url gets the defaults, and one without a
    * url also gets "🔗"; present values are kept. */
  lemma LinkDefaults(item: Node)
    requires item.Link?
    ensures item.title.None? ==> LinkDataOf(item).title == "未命名链接"
    ensures item.title.Some? ==> LinkDataOf(item).title == item.title.value
    ensures item.url.None? ==> LinkDataOf(item).url == "#" && LinkDataOf(item).icon == "🔗"
    ensures item.url.Some? ==> LinkDataOf(item).url == item.url.value
                               && LinkDataOf(item).icon == GetEmojiForUrl(item.url.value)
  {
    if item.url.None? {
      EmptyUrlGetsLink();
    }
  }

  /** The records of every link below `items`, in pre-order. */
  function SubtreeRecords(items: seq<Node>): seq<LinkData> {
    Map(LinksIn(items), LinkDataOf)
  }

  /** A member's links lie among the links of the sequence. */
  lemma {:induction false} NodeLinksIncluded(s: seq<Node>, i: int)
    requires 0 <= i < |s|
    ensures forall l | l in NodeLinks(s[i]) :: l in LinksIn(s)
  {
    var init, last := s[..|s| - 1], s[|s| - 1];
    if i < |s| - 1 {
      assert init[i] == s[i];
      NodeLinksIncluded(init, i);
    }
  }

  // ---------------------------------------------------------------------------
  // process_folder_recursive
  // ---------------------------------------------------------------------------

  /** The list a subfolder's links are appended to, in place. */
  class LinkArray {
    var links: seq<LinkData>

    constructor()
      ensures links == []
    {
      links := [];
    }
  }

  /** What one child adds to its parent's records. */
  function ItemRecords(item: Node): (r: seq<LinkData>)
    ensures item.Link? ==> r == [LinkDataOf(item)]
    ensures item.Folder? ==> r == SubtreeRecords(KidsOf(item))
    ensures item.Other? ==> r == []
  {
    NodeLinksOfKind(item);
    if item.Link? then [LinkDataOf(item)]
    else if item.Folder? then SubtreeRecords(KidsOf(item))
    else []
  }

  lemma SubtreeRecordsStep(s: seq<Node>, i: int)
    requires 0 <= i < |s|
    ensures SubtreeRecords(s[..i + 1]) == SubtreeRecords(s[..i]) + ItemRecords(s[i])
  {
    LinksInStep(s, i);
    MapAppend(LinksIn(s[..i]), NodeLinks(s[i]), LinkDataOf);
    NodeLinksOfKind(s[i]);
    if s[i].Link? {
      MapSingleton(s[i], LinkDataOf);
    }
  }

  /** `process_folder_recursive(folder, target_array)`: appends the record
    * of every link below the folder, in pre-order; nothing when the folder
    * has no `children`. */
  method ProcessFolderRecursive(folder: Node, target: LinkArray)
    modifies target
    ensures target.links == old(target.links) + SubtreeRecords(KidsOf(folder))
    decreases ForestSize(KidsOf(folder))
  {
    if ChildrenKey(folder).Absent? {
      return;
    }
    var children := KidsOf(folder);
    var i := 0;
    while i < |children|
      invariant 0 <= i <= |children|
      invariant target.links == old(target.links) + SubtreeRecords(children[..i])
    {
      var item := children[i];
      ghost var done := SubtreeRecords(children[..i]);
      ghost var step := ItemRecords(item);
      ghost var before := target.links;
      SubtreeRecordsStep(children, i);
      if item.Link? {
        target.links := target.links + [LinkDataOf(item)];
      } else if item.Folder? {
        KidsSmaller(children, i);
        ProcessFolderRecursive(item, target);
      }
      assert target.links == before + step;
      ConcatAssoc(old(target.links), done, step);
      i := i + 1;
    }
    assert children[..i] == children;
  }

  // ---------------------------------------------------------------------------
  // process_folder_content
  // ---------------------------------------------------------------------------

  /** The records of the direct links, in order. */
  function DirectRecords(items: seq<Node>): seq<LinkData> {
    Map(Filter(items, IsLinkNode), LinkDataOf)
  }

  /** The top-level folders whose direct links go to "主要链接". */
  predicate IsMainLinkFolder(title: string) {
    title == "云服务" || title == "效率工具" || title == "JustFun"
  }

  /** Each subfolder in turn: its name is (re)set to all its subtree's records. */
  function WithSubfolders(d: Dict<string, seq<LinkData>>, subfolders: seq<Node>): (r: Dict<string, seq<LinkData>>)
    requires Valid(d)
    ensures Valid(r)
  {
    if subfolders == [] then d
    else
      var last := subfolders[|subfolders| - 1];
      Put(WithSubfolders(d, subfolders[..|subfolders| - 1]), FolderName(last), SubtreeRecords(KidsOf(last)))
  }

  /** The key the direct links are filed under: "主要链接" for the three
    * named folders, the folder's own name when it has no subfolder, and
    * "其他链接" otherwise. */
  function DirectLinksKey(folder: Node, hasSubfolders: bool): string {
    if IsMainLinkFolder(FolderName(folder)) then "主要链接"
    else if !hasSubfolders then FolderName(folder)
    else "其他链接"
  }

  /** `process_folder_content(folder, target_dict)`. The own-name key is
    * replaced; the two shared keys are extended. */
  function FolderContent(d: Dict<string, seq<LinkData>>, folder: Node): (r: Dict<string, seq<LinkData>>)
    requires Valid(d)
    ensures Valid(r)
    ensures ChildrenKey(folder).Absent? ==> r == d
  {
    if ChildrenKey(folder).Absent? then d
    else
      var children := KidsOf(folder);
      var links := DirectRecords(children);
      var subfolders := Filter(children, IsFolderNode);
      var withSubs := WithSubfolders(d, subfolders);
      if links == [] then withSubs
      else if IsMainLinkFolder(FolderName(folder)) then Put(withSubs, "主要链接", Get(withSubs, "主要链接", []) + links)
      else if subfolders == [] then Put(withSubs, FolderName(folder), links)
      else Put(withSubs, "其他链接", Get(withSubs, "其他链接", []) + links)
  }

  /** A subfolder's name holds the records of all links below it, in
    * pre-order, unless a later subfolder has the same name. */
  lemma {:induction false} WithSubfoldersLastWins(d: Dict<string, seq<LinkData>>, subfolders: seq<Node>, i: int)
    requires Valid(d) && 0 <= i < |subfolders|
    requires forall j | i < j < |subfolders| :: FolderName(subfolders[j]) != FolderName(subfolders[i])
    ensures Get(WithSubfolders(d, subfolders), FolderName(subfolders[i]), []) == SubtreeRecords(KidsOf(subfolders[i]))
  {
    if i < |subfolders| - 1 {
      WithSubfoldersLastWins(d, subfolders[..|subfolders| - 1], i);
    }
  }

  /** In a folder's content, a subfolder's name holds all links below the
    * subfolder, unless a later subfolder has the same name or the direct
    * links are filed under that name. */
  lemma SubfolderHoldsItsLinks(d: Dict<string, seq<LinkData>>, folder: Node, i: int)
    requires Valid(d) && ChildrenKey(folder).Present?
    requires var subs := Filter(KidsOf(folder), IsFolderNode);
             0 <= i < |subs| && (forall j | i < j < |subs| :: FolderName(subs[j]) != FolderName(subs[i]))
             && (DirectRecords(KidsOf(folder)) != [] ==> DirectLinksKey(folder, true) != FolderName(subs[i]))
    ensures var subs := Filter(KidsOf(folder), IsFolderNode);
            Get(FolderContent(d, folder), FolderName(subs[i]), []) == SubtreeRecords(KidsOf(subs[i]))
  {
    var subs := Filter(KidsOf(folder), IsFolderNode);
    WithSubfoldersLastWins(d, subs, i);
    FolderContentOtherKey(d, folder, FolderName(subs[i]));
  }

  /** A key other than the one the direct links go to holds what the
    * subfolders left there. */
  lemma FolderContentOtherKey(d: Dict<string, seq<LinkData>>, folder: Node, key: string)
    requires Valid(d) && ChildrenKey(folder).Present?
    requires var subs := Filter(KidsOf(folder), IsFolderNode);
             DirectRecords(KidsOf(folder)) != [] ==> key != DirectLinksKey(folder, subs != [])
    ensures Get(FolderContent(d, folder), key, []) == Get(WithSubfolders(d, Filter(KidsOf(folder), IsFolderNode)), key, [])
  {
    var subs := Filter(KidsOf(folder), IsFolderNode);
    var before := WithSubfolders(d, subs);
    var links := DirectRecords(KidsOf(folder));
    var r := FolderContent(d, folder);
    if links == [] {
      assert r == before;
    } else {
      var k := DirectLinksKey(folder, subs != []);
      assert r.values == before.values[k := r.values[k]];
    }
  }

  /** Where the direct links go: "主要链接" (extended) for the three named
    * folders, else the folder's own name (replaced) when it has no
    * subfolder, else "其他链接" (extended). */
  lemma DirectLinksPlacement(d: Dict<string, seq<LinkData>>, folder: Node)
    requires Valid(d) && ChildrenKey(folder).Present?
    ensures var children := KidsOf(folder);
            var subs := Filter(children, IsFolderNode);
            var links := DirectRecords(children);
            var before := WithSubfolders(d, subs);
            var r := FolderContent(d, folder);
            (links == [] ==> r == before)
            && (links != [] && IsMainLinkFolder(FolderName(folder)) ==>
                  Get(r, "主要链接", []) == Get(before, "主要链接", []) + links)
            && (links != [] && !IsMainLinkFolder(FolderName(folder)) && subs == [] ==>
                  r == Put(d, FolderName(folder), links))
            && (links != [] && !IsMainLinkFolder(FolderName(folder)) && subs != [] ==>
                  Get(r, "其他链接", []) == Get(before, "其他链接", []) + links)
  {
  }

  /** Every record `d` holds is in `pool`. */
  predicate RecordsFrom(d: Dict<string, seq<LinkData>>, pool: seq<LinkData>) {
    forall k, x | k in d.values && x in d.values[k] :: x in pool
  }

  /** Every record below each of the folders is in `pool`. */
  predicate SubtreesFrom(folders: seq<Node>, pool: seq<LinkData>) {
    forall i | 0 <= i < |folders| :: forall x | x in SubtreeRecords(KidsOf(folders[i])) :: x in pool
  }

  lemma {:induction false} WithSubfoldersFrom(d: Dict<string, seq<LinkData>>, subfolders: seq<Node>, pool: seq<LinkData>)
    requires Valid(d) && RecordsFrom(d, pool)
    requires SubtreesFrom(subfolders, pool)
    ensures RecordsFrom(WithSubfolders(d, subfolders), pool)
  {
    if subfolders != [] {
      WithSubfoldersFrom(d, subfolders[..|subfolders| - 1], pool);
      PutFrom(WithSubfolders(d, subfolders[..|subfolders| - 1]), FolderName(subfolders[|subfolders| - 1]),
              SubtreeRecords(KidsOf(subfolders[|subfolders| - 1])), pool);
    }
  }

  /** What a folder or a link contributes to the links of its parent. */
  lemma NodeLinksOfKind(n: Node)
    ensures n.Folder? ==> NodeLinks(n) == LinksIn(KidsOf(n))
    ensures n.Link? ==> NodeLinks(n) == [n]
  {
  }

  /** Nothing is invented: starting from records of the folder's links,
    * every record in the content is the record of a link below the folder. */
  lemma FolderContentFrom(d: Dict<string, seq<LinkData>>, folder: Node)
    requires Valid(d) && RecordsFrom(d, SubtreeRecords(KidsOf(folder)))
    ensures RecordsFrom(FolderContent(d, folder), SubtreeRecords(KidsOf(folder)))
  {
    var children := KidsOf(folder);
    var pool := SubtreeRecords(children);
    if ChildrenKey(folder).Present? {
      var subs := Filter(children, IsFolderNode);
      var withSubs := WithSubfolders(d, subs);
      assert RecordsFrom(withSubs, pool) by {
        SubfoldersFromPool(children);
        WithSubfoldersFrom(d, subs, pool);
      }
      var links := DirectRecords(children);
      if links != [] {
        var key := DirectLinksKey(folder, subs != []);
        var value := if !IsMainLinkFolder(FolderName(folder)) && subs == [] then links
                     else Get(withSubs, key, []) + links;
        assert FolderContent(d, folder) == Put(withSubs, key, value);
        assert forall x | x in value :: x in pool by {
          DirectRecordsFromPool(children);
          GetFrom(withSubs, key, pool);
        }
        PutFrom(withSubs, key, value, pool);
      }
    }
  }

  /** A stored list, or the empty default, draws only on the pool. */
  lemma GetFrom(d: Dict<string, seq<LinkData>>, k: string, pool: seq<LinkData>)
    requires RecordsFrom(d, pool)
    ensures forall x | x in Get(d, k, []) :: x in pool
  {
  }

  /** The records below each subfolder are records of the parent's links. */
  lemma SubfoldersFromPool(children: seq<Node>)
    ensures SubtreesFrom(Filter(children, IsFolderNode), SubtreeRecords(children))
  {
    var subs := Filter(children, IsFolderNode);
    forall i | 0 <= i < |subs| ensures forall x | x in SubtreeRecords(KidsOf(subs[i])) :: x in SubtreeRecords(children) {
      assert subs[i] in children && subs[i].Folder? by { assert subs[i] in subs; FilterMembers(children, IsFolderNode); }
      var k :| 0 <= k < |children| && children[k] == subs[i];
      NodeLinksOfKind(children[k]);
      NodeLinksIncluded(children, k);
      MapIncluded(LinksIn(KidsOf(subs[i])), LinksIn(children), LinkDataOf);
    }
  }

  /** The records of the direct links are records of the parent's links. */
  lemma DirectRecordsFromPool(children: seq<Node>)
    ensures forall x | x in DirectRecords(children) :: x in SubtreeRecords(children)
  {
    var direct := Filter(children, IsLinkNode);
    forall l | l in direct ensures l in LinksIn(children) {
      assert l in children && l.Link? by { FilterMembers(children, IsLinkNode); }
      var k :| 0 <= k < |children| && children[k] == l;
      NodeLinksOfKind(children[k]);
      NodeLinksIncluded(children, k);
    }
    MapIncluded(direct, LinksIn(children), LinkDataOf);
  }

  /** Storing a list drawn from the pool keeps every record in the pool. */
  lemma PutFrom(d: Dict<string, seq<LinkData>>, k: string, v: seq<LinkData>, pool: seq<LinkData>)
    requires Valid(d) && RecordsFrom(d, pool) && forall x | x in v :: x in pool
    ensures RecordsFrom(Put(d, k, v), pool)
  {
  }

  /** One more child extends the subfolders or the direct records. */
  lemma CollectStep(s: seq<Node>, i: int)
    requires 0 <= i < |s|
    ensures Filter(s[..i + 1], IsFolderNode) == Filter(s[..i], IsFolderNode) + (if s[i].Folder? then [s[i]] else [])
    ensures DirectRecords(s[..i + 1]) == DirectRecords(s[..i]) + (if s[i].Link? then [LinkDataOf(s[i])] else [])
  {
    var item := s[i];
    assert s[..i + 1] == s[..i] + [item];
    FilterAppend(s[..i], [item], IsFolderNode);
    FilterAppend(s[..i], [item], IsLinkNode);
    FilterSingleton(item, IsFolderNode);
    FilterSingleton(item, IsLinkNode);
    MapAppend(Filter(s[..i], IsLinkNode), Filter([item], IsLinkNode), LinkDataOf);
    if item.Link? {
      MapSingleton(item, LinkDataOf);
    }
  }

  /** The dictionary a top-level category's content is written into, in place. */
  class CategoryDict {
    var content: Dict<string, seq<LinkData>>

    constructor()
      ensures content == Empty()
    {
      content := Empty();
    }
  }

  /** The first loop of `process_folder_content`: the subfolders and the
    * direct links' records, each in order. */
  method CollectChildren(children: seq<Node>) returns (subfolders: seq<Node>, links: seq<LinkData>)
    ensures subfolders == Filter(children, IsFolderNode)
    ensures links == DirectRecords(children)
  {
    subfolders := [];
    links := [];
    var i := 0;
    while i < |children|
      invariant 0 <= i <= |children|
      invariant subfolders == Filter(children[..i], IsFolderNode)
      invariant links == DirectRecords(children[..i])
    {
      var item := children[i];
      CollectStep(children, i);
      if item.Link? {
        links := links + [LinkDataOf(item)];
      } else if item.Folder? {
        subfolders := subfolders + [item];
      }
      i := i + 1;
    }
    assert children[..i] == children;
  }

  /** The second loop of `process_folder_content`: each subfolder's name is
    * set to a fresh list that `process_folder_recursive` fills. */
  method FillSubfolders(subfolders: seq<Node>, target: CategoryDict)
    requires Valid(target.content)
    modifies target
    ensures target.content == WithSubfolders(old(target.content), subfolders)
  {
    var j := 0;
    while j < |subfolders|
      invariant 0 <= j <= |subfolders|
      invariant Valid(target.content)
      invariant target.content == WithSubfolders(old(target.content), subfolders[..j])
    {
      var subfolder := subfolders[j];
      var list := new LinkArray();
      ProcessFolderRecursive(subfolder, list);
      assert list.links == SubtreeRecords(KidsOf(subfolder));
      target.content := Put(target.content, FolderName(subfolder), list.links);
      assert target.content == WithSubfolders(old(target.content), subfolders[..j + 1]) by {
        assert subfolders[..j + 1][..j] == subfolders[..j];
      }
      j := j + 1;
    }
    assert subfolders[..j] == subfolders;
  }

  /** `process_folder_content(folder, target_dict)`: collects the direct
    * links and the subfolders in one pass, fills each subfolder's list,
    * then files the direct links. */
  method ProcessFolderContent(folder: Node, target: CategoryDict)
    requires Valid(target.content)
    modifies target
    ensures target.content == FolderContent(old(target.content), folder)
  {
    if ChildrenKey(folder).Absent? {
      return;
    }
    var children := KidsOf(folder);
    var subfolders, links := CollectChildren(children);
    FillSubfolders(subfolders, target);
    if links != [] {
      var folderTitle := FolderName(folder);
      if IsMainLinkFolder(folderTitle) {
        target.content := Put(target.content, "主要链接", Get(target.content, "主要链接", []) + links);
      } else if subfolders == [] {
        target.content := Put(target.content, folderTitle, links);
      } else {
        target.content := Put(target.content, "其他链接", Get(target.content, "其他链接", []) + links);
      }
    }
  }

  // ---------------------------------------------------------------------------
  // extract_navigation_data
  // ---------------------------------------------------------------------------

  /** Each top-level folder in turn: its name is (re)set to its content,
    * built into a fresh dictionary. */
  function TopFolders(nav: Dict<string, Dict<string, seq<LinkData>>>, tops: seq<Node>): (r: Dict<string, Dict<string, seq<LinkData>>>)
    requires Valid(nav)
    ensures Valid(r)
  {
    if tops == [] then nav
    else
      var before := TopFolders(nav, tops[..|tops| - 1]);
      var top := tops[|tops| - 1];
      if top.Folder? then Put(before, FolderName(top), FolderContent(Empty(), top)) else before
  }

  /** The parsed file is a list of exactly one object, and that object has
    * `children`: the only shape `extract_navigation_data` reads. */
  predicate SingleRoot(data: Data) {
    data.List? && |data.entries| == 1 && data.entries[0].Object? && ChildrenKey(data.entries[0].node).Present?
  }

  /** `extract_navigation_data` once the file is parsed: data only when the
    * file holds a list of exactly one element and it has `children`. A
    * single object fails `isinstance(data, list)`, and a member that is not
    * an object has no `children` or raises on the lookup; both give `{}`. */
  function Extracted(data: Data): (r: Dict<string, Dict<string, seq<LinkData>>>)
    ensures Valid(r)
    ensures data.Single? ==> r == Empty()
    ensures !SingleRoot(data) ==> r == Empty()
  {
    if SingleRoot(data) then TopFolders(Empty(), KidsOf(data.entries[0].node))
    else Empty()
  }

  /** The keys are exactly the names of the root's folder children, and a
    * name holds the content of the last folder of that name. */
  lemma {:induction false} TopFoldersKeys(nav: Dict<string, Dict<string, seq<LinkData>>>, tops: seq<Node>, k: string)
    requires Valid(nav)
    ensures k in TopFolders(nav, tops).values <==>
              k in nav.values || exists i | 0 <= i < |tops| :: tops[i].Folder? && FolderName(tops[i]) == k
  {
    if tops != [] {
      var init, top := tops[..|tops| - 1], tops[|tops| - 1];
      TopFoldersKeys(nav, init, k);
      if exists i | 0 <= i < |init| :: init[i].Folder? && FolderName(init[i]) == k {
        var i :| 0 <= i < |init| && init[i].Folder? && FolderName(init[i]) == k;
        assert tops[i] == init[i];
      }
      if exists i | 0 <= i < |tops| :: tops[i].Folder? && FolderName(tops[i]) == k {
        var i :| 0 <= i < |tops| && tops[i].Folder? && FolderName(tops[i]) == k;
        if i < |init| {
          assert init[i] == tops[i];
        }
      }
    }
  }

  lemma {:induction false} TopFoldersLastWins(nav: Dict<string, Dict<string, seq<LinkData>>>, tops: seq<Node>, i: int)
    requires Valid(nav) && 0 <= i < |tops| && tops[i].Folder?
    requires forall j | i < j < |tops| :: !(tops[j].Folder? && FolderName(tops[j]) == FolderName(tops[i]))
    ensures FolderName(tops[i]) in TopFolders(nav, tops).values
    ensures TopFolders(nav, tops).values[FolderName(tops[i])] == FolderContent(Empty(), tops[i])
  {
    if i < |tops| - 1 {
      TopFoldersLastWins(nav, tops[..|tops| - 1], i);
    }
  }

  /** With a single root, the categories are the root's folder children. */
  lemma ExtractedCategories(data: Data, k: string)
    requires SingleRoot(data)
    ensures var tops := KidsOf(data.entries[0].node);
            k in Extracted(data).values <==> exists i | 0 <= i < |tops| :: tops[i].Folder? && FolderName(tops[i]) == k
  {
    TopFoldersKeys(Empty(), KidsOf(data.entries[0].node), k);
  }

  /** `extract_navigation_data` after `json.load`. */
  method ExtractNavigationData(data: Data) returns (navigationData: Dict<string, Dict<string, seq<LinkData>>>)
    ensures navigationData == Extracted(data)
  {
    navigationData := Empty();
    if SingleRoot(data) {
      var tops := KidsOf(data.entries[0].node);
      var i := 0;
      while i < |tops|
        invariant 0 <= i <= |tops|
        invariant navigationData == TopFolders(Empty(), tops[..i])
      {
        assert tops[..i + 1][..i] == tops[..i];
        var top := tops[i];
        if top.Folder? {
          var target := new CategoryDict();
          ProcessFolderContent(top, target);
          navigationData := Put(navigationData, FolderName(top), target.content);
        }
        i := i + 1;
      }
      assert tops[..i] == tops;
    }
  }

  // ---------------------------------------------------------------------------
  // generate_js_data
  // ---------------------------------------------------------------------------

  const JsPrefix := "const navigationData = "

  /** One line with its `n` leading whitespace characters replaced by
    * `2 * (n // 4)` spaces. */
  function Reindent(line: string): string {
    Repeat("  ", LeadingSpaces(Py, line) / 4) + StripStart(Py, line)
  }

  /** The re-indented line has `2 * (n // 4)` leading spaces and the same
    * text after them. */
  lemma ReindentShape(line: string)
    ensures LeadingSpaces(Py, Reindent(line)) == 2 * (LeadingSpaces(Py, line) / 4)
    ensures StripStart(Py, Reindent(line)) == StripStart(Py, line)
  {
    var n := LeadingSpaces(Py, line) / 4;
    var indent := Repeat("  ", n);
    var body := StripStart(Py, line);
    assert Reindent(line) == indent + body;
    assert forall i | 0 <= i < |indent| :: IsSpace(Py, indent[i]) by {
      RepeatUniform("  ", n, ' ');
    }
    StripStartAfterSpaces(Py, indent, body);
  }

  /** Re-indenting adds no line break. */
  lemma ReindentNoBreak(line: string)
    requires '\n' !in line
    ensures '\n' !in Reindent(line)
  {
    var n := LeadingSpaces(Py, line) / 4;
    var indent := Repeat("  ", n);
    var body := StripStart(Py, line);
    assert Reindent(line) == indent + body;
    assert '\n' !in indent by {
      RepeatUniform("  ", n, ' ');
    }
    assert forall c | c in body :: c in line;
  }

  /** The text `generate_js_data` produces from the dumped JSON. */
  function JsData(jsonStr: string): string {
    JsPrefix + Join(Map(Split(jsonStr, '\n'), Reindent), "\n") + ";"
  }

  /** The output starts with the declaration, ends with ";", and has one
    * line per line of the dumped JSON, each re-indented. */
  lemma JsDataShape(jsonStr: string)
    ensures var out := JsData(jsonStr);
            |out| >= |JsPrefix| + 1 && out[..|JsPrefix|] == JsPrefix && out[|out| - 1] == ';'
    ensures var body := JsData(jsonStr)[|JsPrefix|..|JsData(jsonStr)| - 1];
            |Split(body, '\n')| == |Split(jsonStr, '\n')|
            && forall i | 0 <= i < |Split(jsonStr, '\n')| :: Split(body, '\n')[i] == Reindent(Split(jsonStr, '\n')[i])
  {
    var lines := Split(jsonStr, '\n');
    var adjusted := Map(lines, Reindent);
    var body := Join(adjusted, "\n");
    var out := JsData(jsonStr);
    assert out == JsPrefix + body + ";";
    assert out[|JsPrefix|..|out| - 1] == body;
    SplitPiecesFree(jsonStr, '\n');
    forall i | 0 <= i < |adjusted| ensures '\n' !in adjusted[i] {
      assert '\n' !in lines[i];
      assert adjusted[i] == Reindent(lines[i]);
      ReindentNoBreak(lines[i]);
    }
    SplitJoin(adjusted, '\n');
    assert Split(body, '\n') == adjusted;
  }

  /** `generate_js_data(navigation_data)`, given `json.dumps(...)` as `jsonStr`. */
  method GenerateJsData(jsonStr: string) returns (jsData: string)
    ensures jsData == JsData(jsonStr)
  {
    jsData := JsPrefix;
    var lines := Split(jsonStr, '\n');
    var adjustedLines: seq<string> := [];
    var i := 0;
    while i < |lines|
      invariant 0 <= i <= |lines|
      invariant adjustedLines == Map(lines[..i], Reindent)
    {
      var line := lines[i];
      var indentLevel := LeadingSpaces(Py, line);
      var newIndent := Repeat("  ", indentLevel / 4);
      ghost var prev := adjustedLines;
      adjustedLines := adjustedLines + [newIndent + StripStart(Py, line)];
      assert adjustedLines == Map(lines[..i + 1], Reindent) by {
        assert adjustedLines == prev + [Reindent(line)];
        MapStep(lines, i, Reindent);
      }
      i := i + 1;
    }
    assert lines[..i] == lines;
    jsData := jsData + Join(adjustedLines, "\n");
    jsData := jsData + ";";
  }
}
