/** The tree that listChildren shows is the bucket: walking it from the root. */
module S3Tree {
  import opened Paths
  import opened Crawl
  import opened S3

  /** A bucket as S3 lists it: every key once, none empty. */
  predicate IsBucket(bucket: seq<string>) {
    Distinct(bucket) && forall k :: k in bucket ==> k != ""
  }

  // ---------------------------------------------------------------------
  // Pages.
  // ---------------------------------------------------------------------

  function AllPrefixes(pages: seq<Page>): seq<string> {
    if pages == [] then [] else pages[0].commonPrefixes + AllPrefixes(pages[1..])
  }

  function AllContents(pages: seq<Page>): seq<string> {
    if pages == [] then [] else pages[0].contents + AllContents(pages[1..])
  }

  /** What a caller that follows nextPageToken to the end collects from listChildren. */
  function PagesNodes(prefix: string, pages: seq<Page>): seq<Node> {
    if pages == [] then [] else PageNodes(prefix, pages[0]) + PagesNodes(prefix, pages[1..])
  }

  ghost predicate SameItems(a: seq<string>, b: seq<string>) {
    Distinct(a) && forall x :: x in a <==> x in b
  }

  /** S3 reports every common prefix and every key once, on whichever page and in whatever order. */
  ghost predicate Paginates(bucket: seq<string>, prefix: string, pages: seq<Page>) {
    && SameItems(AllPrefixes(pages), CommonPrefixes(bucket, prefix))
    && SameItems(AllContents(pages), Contents(bucket, prefix))
  }

  /** Everything on one page. */
  function OnePage(bucket: seq<string>, prefix: string): Page {
    Page(CommonPrefixes(bucket, prefix), Contents(bucket, prefix))
  }

  lemma {:induction false} OnePagePaginates(bucket: seq<string>, prefix: string)
    requires Distinct(bucket)
    ensures Paginates(bucket, prefix, [OnePage(bucket, prefix)])
    ensures PagesNodes(prefix, [OnePage(bucket, prefix)]) == PageNodes(prefix, OnePage(bucket, prefix))
  {
    var page := OnePage(bucket, prefix);
    CommonPrefixesDistinct(bucket, prefix);
    ContentsExactly(bucket, prefix);
    NoMorePages(prefix, page, [page]);
  }

  lemma {:induction false} NoMorePages(prefix: string, page: Page, pages: seq<Page>)
    requires pages == [page]
    ensures AllPrefixes(pages) == page.commonPrefixes && AllContents(pages) == page.contents
    ensures PagesNodes(prefix, pages) == PageNodes(prefix, page)
  {
    assert pages[1..] == [];
    assert page.commonPrefixes + [] == page.commonPrefixes && page.contents + [] == page.contents;
    assert PageNodes(prefix, page) + [] == PageNodes(prefix, page);
  }

  lemma {:induction false} PagesCount(prefix: string, pages: seq<Page>, n: Node)
    ensures var ps, ks := AllPrefixes(pages), AllContents(pages);
      Times(PagesNodes(prefix, pages), n) ==
        Times(FolderNodes(prefix, ps, |ps|), n) + Times(FileNodes(prefix, ks, |ks|), n)
  {
    if pages != [] {
      var page, rest := pages[0], pages[1..];
      PagesCount(prefix, rest, n);
      TimesAppend(PageNodes(prefix, page), PagesNodes(prefix, rest), n);
      PageCount(prefix, page, AllPrefixes(rest), AllContents(rest), n);
    }
  }

  lemma {:induction false} PageCount(prefix: string, page: Page, ps: seq<string>, ks: seq<string>, n: Node)
    ensures var allPs, allKs := page.commonPrefixes + ps, page.contents + ks;
      Times(PageNodes(prefix, page), n)
      + Times(FolderNodes(prefix, ps, |ps|), n) + Times(FileNodes(prefix, ks, |ks|), n)
      == Times(FolderNodes(prefix, allPs, |allPs|), n) + Times(FileNodes(prefix, allKs, |allKs|), n)
  {
    TimesAppend(FolderNodes(prefix, page.commonPrefixes, |page.commonPrefixes|),
                FileNodes(prefix, page.contents, |page.contents|), n);
    FolderNodesAppend(prefix, page.commonPrefixes, ps, page.commonPrefixes + ps, n);
    FileNodesAppend(prefix, page.contents, ks, page.contents + ks, n);
  }

  lemma {:induction false} FolderNodesAppend(prefix: string, a: seq<string>, b: seq<string>, all: seq<string>, n: Node)
    requires all == a + b
    ensures Times(FolderNodes(prefix, all, |all|), n)
         == Times(FolderNodes(prefix, a, |a|), n) + Times(FolderNodes(prefix, b, |b|), n)
  {
    KeepAppend(a, b, all, p => SkipsFolder(prefix, p), p => FolderNode(prefix, p));
    TimesAppend(FolderNodes(prefix, a, |a|), FolderNodes(prefix, b, |b|), n);
  }

  lemma {:induction false} FileNodesAppend(prefix: string, a: seq<string>, b: seq<string>, all: seq<string>, n: Node)
    requires all == a + b
    ensures Times(FileNodes(prefix, all, |all|), n)
         == Times(FileNodes(prefix, a, |a|), n) + Times(FileNodes(prefix, b, |b|), n)
  {
    KeepAppend(a, b, all, k => SkipsFile(prefix, k), k => FileNode(prefix, k));
    TimesAppend(FileNodes(prefix, a, |a|), FileNodes(prefix, b, |b|), n);
  }

  /** The nodes a folder's pages bring together do not depend on the pages. */
  lemma {:induction false} AnyPages(bucket: seq<string>, prefix: string, pages: seq<Page>, n: Node)
    requires Distinct(bucket) && Paginates(bucket, prefix, pages)
    ensures Times(PagesNodes(prefix, pages), n) == Times(PageNodes(prefix, OnePage(bucket, prefix)), n)
  {
    PagesOnce(bucket, prefix, pages, n);
    OnePagePaginates(bucket, prefix);
    PagesOnce(bucket, prefix, [OnePage(bucket, prefix)], n);
  }

  lemma {:induction false} PagesOnce(bucket: seq<string>, prefix: string, pages: seq<Page>, n: Node)
    requires Paginates(bucket, prefix, pages)
    ensures Times(PagesNodes(prefix, pages), n)
         == One(FromFolder(prefix, n) && n.remoteId in CommonPrefixes(bucket, prefix))
            + One(FromFile(prefix, n) && n.remoteId in Contents(bucket, prefix))
  {
    PagesCount(prefix, pages, n);
    FolderNodesOnce(prefix, AllPrefixes(pages), n);
    FileNodesOnce(prefix, AllContents(pages), n);
  }

  // ---------------------------------------------------------------------
  // The walk.
  // ---------------------------------------------------------------------

  /** The pages S3 gives for each folder. */
  type Pagination = string -> seq<Page>

  ghost predicate Lists(bucket: seq<string>, pages: Pagination) {
    forall p: string {:trigger pages(p)} :: Paginates(bucket, p, pages(p))
  }

  /** The listing of every folder. */
  function Listing(pages: Pagination): string -> Level<Node> {
    p => Level(AllPrefixes(pages(p)), PagesNodes(p, pages(p)))
  }

  function Longest(bucket: seq<string>): nat {
    if bucket == [] then 0
    else if |bucket[0]| > Longest(bucket[1..]) then |bucket[0]| else Longest(bucket[1..])
  }

  lemma {:induction false} NoneLonger(bucket: seq<string>, k: string)
    requires k in bucket
    ensures |k| <= Longest(bucket)
  {
    if bucket[0] != k {
      NoneLonger(bucket[1..], k);
    }
  }

  lemma {:induction false} FolderIsDeeper(bucket: seq<string>, prefix: string, p: string)
    requires p in CommonPrefixes(bucket, prefix)
    ensures |prefix| < |p| <= Longest(bucket)
  {
    var k := ListedHasKey(bucket, prefix, p);
    NoneLonger(bucket, k);
  }

  /** No folder is longer than the longest key: the walk ends. */
  lemma {:induction false} ListingDeepens(bucket: seq<string>, pages: Pagination)
    requires Lists(bucket, pages)
    ensures Deepens(Listing(pages), Longest(bucket))
  {
    forall p, q | q in Listing(pages)(p).folders
      ensures |p| < |q| <= Longest(bucket)
    {
      assert q in AllPrefixes(pages(p));
      assert Paginates(bucket, p, pages(p));
      FolderIsDeeper(bucket, p, q);
    }
  }

  /** All nodes listed from the root down. */
  ghost function WholeTree(bucket: seq<string>, pages: Pagination): seq<Node>
    requires Lists(bucket, pages)
  {
    ListingDeepens(bucket, pages);
    Walk(Listing(pages), Longest(bucket), "")
  }

  // ---------------------------------------------------------------------
  // The independent reading: which nodes a flat bucket has.
  // ---------------------------------------------------------------------

  /** A file for every key not ending in a slash, a folder for every prefix of a key that ends in
      one; each says of its parent what getMetadata says. */
  ghost predicate InTree(bucket: seq<string>, n: Node) {
    && n.name == NameFromKey(n.remoteId)
    && if n.isFolder then
         && EndsWithSlash(n.remoteId)
         && n.parentRemoteId == FolderParent(n.remoteId)
         && (exists k :: k in bucket && HasPrefix(n.remoteId, k))
       else
         && n.remoteId in bucket && !EndsWithSlash(n.remoteId)
         && n.parentRemoteId == FileParent(n.remoteId)
  }

  predicate Below(prefix: string, n: Node) {
    HasPrefix(prefix, n.remoteId) && n.remoteId != prefix
  }

  /** Directly below: no slash after the prefix but a final one. */
  predicate Child(prefix: string, n: Node) {
    && Below(prefix, n)
    && if n.isFolder then SlashFree(Remainder(prefix, n.remoteId)[..|n.remoteId| - |prefix| - 1])
       else SlashFree(Remainder(prefix, n.remoteId))
  }

  // ---------------------------------------------------------------------
  // One level.
  // ---------------------------------------------------------------------

  /** n is the node that listChildren makes of its id. */
  predicate FromFolder(prefix: string, n: Node) {
    !SkipsFolder(prefix, n.remoteId) && n == FolderNode(prefix, n.remoteId)
  }

  predicate FromFile(prefix: string, n: Node) {
    !SkipsFile(prefix, n.remoteId) && n == FileNode(prefix, n.remoteId)
  }

  lemma {:induction false} FolderNodesOnce(prefix: string, ps: seq<string>, n: Node)
    requires Distinct(ps)
    ensures Times(FolderNodes(prefix, ps, |ps|), n) == One(FromFolder(prefix, n) && n.remoteId in ps)
  {
    KeptOnce(ps, p => SkipsFolder(prefix, p), p => FolderNode(prefix, p), |ps|, n, FromFolder(prefix, n), n.remoteId);
  }

  lemma {:induction false} FileNodesOnce(prefix: string, keys: seq<string>, n: Node)
    requires Distinct(keys)
    ensures Times(FileNodes(prefix, keys, |keys|), n) == One(FromFile(prefix, n) && n.remoteId in keys)
  {
    KeptOnce(keys, k => SkipsFile(prefix, k), k => FileNode(prefix, k), |keys|, n, FromFile(prefix, n), n.remoteId);
  }

  lemma {:induction false} FolderListedExactly(bucket: seq<string>, prefix: string, ps: seq<string>, n: Node)
    requires IsPrefix(prefix) && n.isFolder && ps == CommonPrefixes(bucket, prefix)
    ensures FromFolder(prefix, n) && n.remoteId in ps <==> InTree(bucket, n) && Child(prefix, n)
  {
    if n.remoteId in ps {
      ListedIsChildFolder(bucket, prefix, n);
    }
    if InTree(bucket, n) && Child(prefix, n) {
      ChildFolderIsListed(bucket, prefix, n);
    }
  }

  lemma {:induction false} ListedIsChildFolder(bucket: seq<string>, prefix: string, n: Node)
    requires IsPrefix(prefix) && n.isFolder && n.remoteId in CommonPrefixes(bucket, prefix)
    ensures !SkipsFolder(prefix, n.remoteId)
    ensures n == FolderNode(prefix, n.remoteId) <==> InTree(bucket, n) && Child(prefix, n)
  {
    var k := ListedHasKey(bucket, prefix, n.remoteId);
    CommonPrefixIsChild(prefix, k, n.remoteId);
  }

  lemma {:induction false} CommonPrefixIsChild(prefix: string, k: string, id: string)
    requires IsPrefix(prefix) && RollsUp(prefix, k) && CommonPrefix(prefix, k) == id
    ensures HasPrefix(prefix, id) && id != prefix && id != "" && EndsWithSlash(id)
    ensures FolderParent(id) == ParentId(prefix)
    ensures SlashFree(Remainder(prefix, id)[..|id| - |prefix| - 1])
  {
    CommonPrefixParts(prefix, k);
    var name := Remainder(prefix, k)[..FirstSlash(Remainder(prefix, k))];
    FolderIdSplits(prefix, name);
    assert Remainder(prefix, id)[..|id| - |prefix| - 1] == name;
  }

  lemma {:induction false} ChildFolderIsListed(bucket: seq<string>, prefix: string, n: Node)
    requires IsPrefix(prefix) && n.isFolder && InTree(bucket, n) && Child(prefix, n)
    ensures n.remoteId in CommonPrefixes(bucket, prefix)
  {
    var id := n.remoteId;
    var k :| k in bucket && HasPrefix(id, k);
    var name := Remainder(prefix, id)[..|id| - |prefix| - 1];
    FolderIdParts(prefix, id);
    KeyParts(id, k);
    RollsUpTo(prefix, k, name, k[|id|..]);
    KeyIsListed(bucket, prefix, k);
  }

  lemma {:induction false} FolderIdParts(prefix: string, id: string)
    requires HasPrefix(prefix, id) && id != prefix && EndsWithSlash(id)
    ensures id == prefix + Remainder(prefix, id)[..|id| - |prefix| - 1] + ['/']
  {
  }

  lemma {:induction false} KeyParts(id: string, k: string)
    requires HasPrefix(id, k)
    ensures k == id + k[|id|..]
  {
  }

  lemma {:induction false} RollsUpTo(prefix: string, k: string, name: string, tail: string)
    requires SlashFree(name) && k == prefix + name + ['/'] + tail
    ensures RollsUp(prefix, k) && CommonPrefix(prefix, k) == prefix + name + ['/']
  {
    var r := Remainder(prefix, k);
    assert r == name + (['/'] + tail);
    FirstSlashAt(name, ['/'] + tail);
    assert r[|name|] == '/';
    assert k[..|prefix| + |name| + 1] == prefix + name + ['/'];
  }

  lemma {:induction false} FileListedExactly(bucket: seq<string>, prefix: string, n: Node)
    requires IsBucket(bucket) && IsPrefix(prefix) && !n.isFolder
    ensures FromFile(prefix, n) && n.remoteId in Contents(bucket, prefix) <==> InTree(bucket, n) && Child(prefix, n)
  {
    ContentsExactly(bucket, prefix);
    if IsContent(prefix, n.remoteId) && n.remoteId != prefix {
      ContentIsChildFile(prefix, n.remoteId);
    }
  }

  lemma {:induction false} ContentIsChildFile(prefix: string, id: string)
    requires IsPrefix(prefix) && IsContent(prefix, id) && id != prefix
    ensures FileParent(id) == ParentId(prefix) && !EndsWithSlash(id)
  {
    var name := Remainder(prefix, id);
    assert id == prefix + name;
    FileIdSplits(prefix, name);
  }

  /** The children of a folder, from all its pages, are its nodes one level down, each once. */
  lemma {:induction false} ChildrenOnce(bucket: seq<string>, prefix: string, pages: seq<Page>, n: Node)
    requires IsBucket(bucket) && IsPrefix(prefix) && Paginates(bucket, prefix, pages)
    ensures Times(PagesNodes(prefix, pages), n) == One(InTree(bucket, n) && Child(prefix, n))
  {
    PagesOnce(bucket, prefix, pages, n);
    if n.isFolder {
      FolderListedExactly(bucket, prefix, CommonPrefixes(bucket, prefix), n);
    } else {
      FileListedExactly(bucket, prefix, n);
    }
  }

  // ---------------------------------------------------------------------
  // All levels.
  // ---------------------------------------------------------------------

  /** The folder of a level that n is below: the only one. */
  lemma {:induction false} OnlyFolder(bucket: seq<string>, prefix: string, p: string, n: Node)
    requires IsPrefix(prefix) && p in CommonPrefixes(bucket, prefix) && HasPrefix(p, n.remoteId)
    ensures RollsUp(prefix, n.remoteId) && p == CommonPrefix(prefix, n.remoteId)
  {
    var k := ListedHasKey(bucket, prefix, p);
    SameCommonPrefix(prefix, k, n.remoteId);
  }

  /** A node below a folder is its child or below exactly one of its child folders. */
  lemma {:induction false} ChildOrDeeper(bucket: seq<string>, prefix: string, n: Node)
    requires IsBucket(bucket) && IsPrefix(prefix) && InTree(bucket, n) && Below(prefix, n)
    ensures Child(prefix, n) <==> !exists p :: p in CommonPrefixes(bucket, prefix) && Below(p, n)
  {
    ChildOrRolledUp(prefix, n);
    if RollsUp(prefix, n.remoteId) {
      RolledUpIsListed(bucket, prefix, n);
    }
    if q :| q in CommonPrefixes(bucket, prefix) && Below(q, n) {
      OnlyFolder(bucket, prefix, q, n);
    }
  }

  lemma {:induction false} ChildOrRolledUp(prefix: string, n: Node)
    requires Below(prefix, n) && (n.isFolder <==> EndsWithSlash(n.remoteId))
    ensures Child(prefix, n) <==> (RollsUp(prefix, n.remoteId) ==> n.remoteId == CommonPrefix(prefix, n.remoteId))
  {
    var id := n.remoteId;
    var r := Remainder(prefix, id);
    if n.isFolder {
      var name := r[..|r| - 1];
      FolderIdParts(prefix, id);
      assert r[|r| - 1] == '/';
      if SlashFree(name) {
        assert id == prefix + name + ['/'] + [];
        RollsUpTo(prefix, id, name, []);
      }
      if RollsUp(prefix, id) && id == CommonPrefix(prefix, id) {
        RolledUpToItself(prefix, id);
      }
    } else if RollsUp(prefix, id) {
      CommonPrefixParts(prefix, id);
    }
  }

  lemma {:induction false} RolledUpToItself(prefix: string, id: string)
    requires RollsUp(prefix, id) && id == CommonPrefix(prefix, id)
    ensures SlashFree(Remainder(prefix, id)[..|id| - |prefix| - 1])
  {
    CommonPrefixParts(prefix, id);
    var r := Remainder(prefix, id);
    var name := r[..FirstSlash(r)];
    assert |id| == |prefix| + |name| + 1;
    assert r[..|id| - |prefix| - 1] == name;
  }

  lemma {:induction false} RolledUpIsListed(bucket: seq<string>, prefix: string, n: Node)
    requires InTree(bucket, n) && RollsUp(prefix, n.remoteId)
    ensures CommonPrefix(prefix, n.remoteId) in CommonPrefixes(bucket, prefix)
  {
    if n.isFolder {
      var k :| k in bucket && HasPrefix(n.remoteId, k);
      PrefixOfPrefix(CommonPrefix(prefix, n.remoteId), n.remoteId, k);
      SameCommonPrefix(prefix, n.remoteId, k);
      KeyIsListed(bucket, prefix, k);
    } else {
      KeyIsListed(bucket, prefix, n.remoteId);
    }
  }

  lemma {:induction false} PrefixOfPrefix(a: string, b: string, c: string)
    requires HasPrefix(a, b) && HasPrefix(b, c)
    ensures HasPrefix(a, c)
  {
    assert a == b[..|a|] && b == c[..|b|] && c[..|a|] == a;
  }

  lemma {:induction false} ListedEndsWithSlash(bucket: seq<string>, prefix: string, p: string)
    requires p in CommonPrefixes(bucket, prefix)
    ensures EndsWithSlash(p)
  {
    var k := ListedHasKey(bucket, prefix, p);
    CommonPrefixParts(prefix, k);
  }

  lemma {:induction false} NotBelowTwo(bucket: seq<string>, prefix: string, ps: seq<string>, k: nat, l: nat, n: Node)
    requires IsPrefix(prefix) && SameItems(ps, CommonPrefixes(bucket, prefix)) && k < l < |ps|
    ensures !(Below(ps[k], n) && Below(ps[l], n))
  {
    if Below(ps[k], n) && Below(ps[l], n) {
      OnlyFolder(bucket, prefix, ps[k], n);
      OnlyFolder(bucket, prefix, ps[l], n);
      assert false;
    }
  }

  ghost predicate TreeChild(bucket: seq<string>, n: Node, prefix: string) {
    InTree(bucket, n) && Child(prefix, n)
  }

  ghost predicate TreeBelow(bucket: seq<string>, n: Node, prefix: string) {
    InTree(bucket, n) && Below(prefix, n)
  }

  /** A node of the tree below a folder is its child or below exactly one of its child folders. */
  lemma {:induction false} OneWay(bucket: seq<string>, prefix: string, ps: seq<string>, n: Node, below: string -> bool)
    requires IsBucket(bucket) && IsPrefix(prefix) && SameItems(ps, CommonPrefixes(bucket, prefix))
    requires forall p :: below(p) <==> TreeBelow(bucket, n, p)
    ensures TreeBelow(bucket, n, prefix) <==> TreeChild(bucket, n, prefix) || BelowOneOf(ps, |ps|, below)
    ensures !(TreeChild(bucket, n, prefix) && BelowOneOf(ps, |ps|, below))
  {
    if BelowOneOf(ps, |ps|, below) {
      var i :| 0 <= i < |ps| && below(ps[i]);
      FolderIsDeeper(bucket, prefix, ps[i]);
      OnlyFolder(bucket, prefix, ps[i], n);
    }
    if TreeBelow(bucket, n, prefix) {
      ChildOrDeeper(bucket, prefix, n);
      if p :| p in ps && Below(p, n) {
        var i :| 0 <= i < |ps| && ps[i] == p;
        assert below(ps[i]);
      }
    }
  }

  lemma {:induction false} LevelSplits(bucket: seq<string>, pages: Pagination, prefix: string, n: Node,
                                       ok: string -> bool, child: string -> bool, below: string -> bool)
    requires IsBucket(bucket) && IsPrefix(prefix) && Paginates(bucket, prefix, pages(prefix))
    requires forall p :: ok(p) <==> IsPrefix(p)
    requires forall p :: child(p) <==> TreeChild(bucket, n, p)
    requires forall p :: below(p) <==> TreeBelow(bucket, n, p)
    ensures SplitsAt(Listing(pages), n, ok, child, below, prefix)
  {
    var ps := AllPrefixes(pages(prefix));
    ChildrenOnce(bucket, prefix, pages(prefix), n);
    OneWay(bucket, prefix, ps, n, below);
    forall i, j | 0 <= i < j < |ps|
      ensures !(below(ps[i]) && below(ps[j]))
    {
      NotBelowTwo(bucket, prefix, ps, i, j, n);
    }
    forall i | 0 <= i < |ps|
      ensures ok(ps[i])
    {
      ListedEndsWithSlash(bucket, prefix, ps[i]);
    }
  }

  /** Walking from the root: every key not ending in a slash once, as a file, every prefix of a key
      that ends in a slash once, as a folder, nothing else, for every bucket and however
      each listing is cut into pages; and each node's parent is the one getMetadata
      derives from its id. */
  lemma {:induction false} TreeIsBucket(bucket: seq<string>, pages: Pagination, n: Node)
    requires IsBucket(bucket) && Lists(bucket, pages)
    ensures Times(WholeTree(bucket, pages), n) == if InTree(bucket, n) then 1 else 0
  {
    var ok: string -> bool := p => IsPrefix(p);
    ghost var child: string -> bool := p => TreeChild(bucket, n, p);
    ghost var below: string -> bool := p => TreeBelow(bucket, n, p);
    forall p | ok(p)
      ensures SplitsAt(Listing(pages), n, ok, child, below, p)
    {
      assert Paginates(bucket, p, pages(p));
      LevelSplits(bucket, pages, p, n, ok, child, below);
    }
    ListingDeepens(bucket, pages);
    WalkOnce(Listing(pages), Longest(bucket), "", n, ok, child, below);
    if InTree(bucket, n) {
      assert n.remoteId != "";
    }
  }
}
