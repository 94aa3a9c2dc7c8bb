/** keys.ts and provider.ts: a flat bucket read as a tree. */
module S3 {
  import opened Options
  import opened Paths
  import opened Crawl

  // ---------------------------------------------------------------------
  // Keys.
  // ---------------------------------------------------------------------

  datatype Ref = Root | FolderRef(prefix: string) | FileRef(key: string)

  predicate EndsWithSlash(s: string) {
    s != "" && s[|s| - 1] == '/'
  }

  function ParseRemoteId(remoteId: Option<string>): Ref {
    if remoteId.None? || remoteId.value == "" then Root
    else if EndsWithSlash(remoteId.value) then FolderRef(remoteId.value)
    else FileRef(remoteId.value)
  }

  function ToPrefix(parentRemoteId: Option<string>): (prefix: string)
    ensures IsPrefix(prefix)
    ensures prefix == "" <==> parentRemoteId == None || parentRemoteId == Some("")
    ensures prefix != "" ==> prefix == parentRemoteId.value || prefix == parentRemoteId.value + "/"
    ensures prefix != "" ==> (prefix == parentRemoteId.value <==> EndsWithSlash(parentRemoteId.value))
  {
    if parentRemoteId.None? || parentRemoteId.value == "" then ""
    else if EndsWithSlash(parentRemoteId.value) then parentRemoteId.value
    else parentRemoteId.value + "/"
  }

  function NameFromKey(key: string): string {
    var trimmed := if EndsWithSlash(key) then key[..|key| - 1] else key;
    trimmed[LastIndexOf(trimmed, '/') + 1..]
  }

  function FolderParent(prefix: string): Option<string> {
    var stripped := if EndsWithSlash(prefix) then prefix[..|prefix| - 1] else prefix;
    var idx := LastIndexOf(stripped, '/');
    if idx == -1 then None else Some(stripped[..idx] + "/")
  }

  function FileParent(key: string): Option<string> {
    var idx := LastIndexOf(key, '/');
    if idx == -1 then None else Some(key[..idx + 1])
  }

  predicate IsPrefix(p: string) {
    p == "" || EndsWithSlash(p)
  }

  /** The parentRemoteId of what is listed under a prefix. */
  function ParentId(prefix: string): Option<string> {
    if prefix == "" then None else Some(prefix)
  }

  lemma {:induction false} LastSlashOf(prefix: string, name: string)
    requires IsPrefix(prefix) && SlashFree(name)
    ensures LastIndexOf(prefix + name, '/') == |prefix| - 1
  {
    var s := prefix + name;
    forall k | |prefix| <= k < |s|
      ensures s[k] != '/'
    {
      assert s[k] == name[k - |prefix|];
    }
    if prefix != "" {
      assert s[|prefix| - 1] == '/';
    }
  }

  /** What a folder id says of itself: for every prefix and slash-free name, the empty one included. */
  lemma {:induction false} FolderIdSplits(prefix: string, name: string)
    requires IsPrefix(prefix) && SlashFree(name)
    ensures FolderParent(prefix + name + "/") == ParentId(prefix)
    ensures NameFromKey(prefix + name + "/") == name
  {
    var id := prefix + name + "/";
    LastSlashOf(prefix, name);
    assert id[..|id| - 1] == prefix + name;
    assert (prefix + name)[|prefix|..] == name;
    if prefix != "" {
      assert (prefix + name)[..|prefix| - 1] + "/" == prefix;
    }
  }

  lemma {:induction false} FileIdSplits(prefix: string, name: string)
    requires IsPrefix(prefix) && IsName(name)
    ensures FileParent(prefix + name) == ParentId(prefix)
    ensures NameFromKey(prefix + name) == name
    ensures ParseRemoteId(Some(prefix + name)) == FileRef(prefix + name)
  {
    LastSlashOf(prefix, name);
    SplitAt(prefix, name);
    assert name[|name| - 1] != '/';
  }

  lemma {:induction false} SplitAt(a: string, b: string)
    ensures (a + b)[..|a|] == a && (a + b)[|a|..] == b
    ensures b != "" ==> (a + b)[|a + b| - 1] == b[|b| - 1]
  {
  }

  /** upload and getMetadata agree about a file they both describe exactly when its name has no slash. */
  lemma {:induction false} UploadedFileIsWhereItSays(parentRemoteId: Option<string>, name: string)
    requires name != ""
    ensures var prefix := ToPrefix(parentRemoteId);
      FileParent(prefix + name) == ParentId(prefix) && NameFromKey(prefix + name) == name <==> SlashFree(name)
  {
    var prefix := ToPrefix(parentRemoteId);
    if SlashFree(name) {
      FileIdSplits(prefix, name);
    } else {
      var k :| 0 <= k < |name| && name[k] == '/';
      assert (prefix + name)[|prefix| + k] == '/';
      assert LastIndexOf(prefix + name, '/') >= |prefix|;
    }
  }

  // ---------------------------------------------------------------------
  // ListObjectsV2 with delimiter.
  // ---------------------------------------------------------------------

  predicate HasPrefix(prefix: string, key: string) {
    prefix <= key
  }

  function Remainder(prefix: string, key: string): string
    requires HasPrefix(prefix, key)
  {
    key[|prefix|..]
  }

  /** S3 rolls the key up into a common prefix. */
  predicate RollsUp(prefix: string, key: string) {
    HasPrefix(prefix, key) && !SlashFree(Remainder(prefix, key))
  }

  predicate IsContent(prefix: string, key: string) {
    HasPrefix(prefix, key) && SlashFree(Remainder(prefix, key))
  }

  function CommonPrefix(prefix: string, key: string): (p: string)
    requires RollsUp(prefix, key)
    ensures HasPrefix(p, key) && |prefix| < |p|
  {
    var r := Remainder(prefix, key);
    HasSlash(r);
    key[..|prefix| + FirstSlash(r) + 1]
  }

  lemma {:induction false} HasSlash(r: string)
    requires !SlashFree(r)
    ensures FirstSlash(r) < |r|
  {
    assert r[..|r|] == r;
  }

  lemma {:induction false} CommonPrefixParts(prefix: string, key: string)
    requires RollsUp(prefix, key)
    ensures var name := Remainder(prefix, key)[..FirstSlash(Remainder(prefix, key))];
      SlashFree(name) && CommonPrefix(prefix, key) == prefix + name + "/"
    ensures EndsWithSlash(CommonPrefix(prefix, key))
  {
    var r := Remainder(prefix, key);
    HasSlash(r);
    assert key == prefix + r;
    assert r[..FirstSlash(r) + 1] == r[..FirstSlash(r)] + "/";
  }

  /** Two keys below the same common prefix roll up into the same one. */
  lemma {:induction false} SameCommonPrefix(prefix: string, a: string, b: string)
    requires RollsUp(prefix, a) && HasPrefix(CommonPrefix(prefix, a), b)
    ensures RollsUp(prefix, b) && CommonPrefix(prefix, b) == CommonPrefix(prefix, a)
  {
    var p := CommonPrefix(prefix, a);
    CommonPrefixParts(prefix, a);
    var name := Remainder(prefix, a)[..FirstSlash(Remainder(prefix, a))];
    assert b == p + b[|p|..];
    var r := Remainder(prefix, b);
    assert r == name + ("/" + b[|p|..]);
    FirstSlashAt(name, "/" + b[|p|..]);
    assert r[|name|] == '/';
    assert p == a[..|p|] == b[..|p|];
  }

  /** What a listing has to report as Contents, however it is cut into pages. */
  function Contents(bucket: seq<string>, prefix: string): seq<string> {
    if bucket == [] then []
    else if IsContent(prefix, bucket[0]) then [bucket[0]] + Contents(bucket[1..], prefix)
    else Contents(bucket[1..], prefix)
  }

  /** And as CommonPrefixes, each once. */
  function CommonPrefixes(bucket: seq<string>, prefix: string): seq<string> {
    if bucket == [] then []
    else
      var rest := CommonPrefixes(bucket[1..], prefix);
      if RollsUp(prefix, bucket[0]) && CommonPrefix(prefix, bucket[0]) !in rest
      then [CommonPrefix(prefix, bucket[0])] + rest else rest
  }

  lemma {:induction false} ContentsExactly(bucket: seq<string>, prefix: string)
    requires Distinct(bucket)
    ensures forall k :: k in Contents(bucket, prefix) <==> k in bucket && IsContent(prefix, k)
    ensures Distinct(Contents(bucket, prefix))
  {
    if bucket != [] {
      ContentsExactly(bucket[1..], prefix);
    }
  }

  lemma {:induction false} CommonPrefixesDistinct(bucket: seq<string>, prefix: string)
    ensures Distinct(CommonPrefixes(bucket, prefix))
  {
    if bucket != [] {
      CommonPrefixesDistinct(bucket[1..], prefix);
    }
  }

  lemma {:induction false} ListedHasKey(bucket: seq<string>, prefix: string, p: string) returns (k: string)
    requires p in CommonPrefixes(bucket, prefix)
    ensures k in bucket && RollsUp(prefix, k) && CommonPrefix(prefix, k) == p
  {
    if RollsUp(prefix, bucket[0]) && CommonPrefix(prefix, bucket[0]) == p {
      k := bucket[0];
    } else {
      k := ListedHasKey(bucket[1..], prefix, p);
    }
  }

  lemma {:induction false} KeyIsListed(bucket: seq<string>, prefix: string, k: string)
    requires k in bucket && RollsUp(prefix, k)
    ensures CommonPrefix(prefix, k) in CommonPrefixes(bucket, prefix)
  {
    if bucket[0] != k {
      KeyIsListed(bucket[1..], prefix, k);
    }
  }

  // ---------------------------------------------------------------------
  // listChildren.
  // ---------------------------------------------------------------------

  datatype Node = Node(remoteId: string, name: string, isFolder: bool, parentRemoteId: Option<string>)

  /** The CommonPrefixes and Contents items that listChildren leaves out. */
  predicate SkipsFolder(prefix: string, p: string) {
    p == "" || p == prefix
  }

  predicate SkipsFile(prefix: string, key: string) {
    key == "" || key == prefix || EndsWithSlash(key)
  }

  function FolderNode(prefix: string, p: string): Node {
    Node(p, NameFromKey(p), true, ParentId(prefix))
  }

  function FileNode(prefix: string, key: string): Node {
    Node(key, NameFromKey(key), false, ParentId(prefix))
  }

  function FolderNodes(prefix: string, ps: seq<string>, n: nat): seq<Node>
    requires n <= |ps|
  {
    Keep(ps, p => SkipsFolder(prefix, p), p => FolderNode(prefix, p), n)
  }

  function FileNodes(prefix: string, keys: seq<string>, n: nat): seq<Node>
    requires n <= |keys|
  {
    Keep(keys, k => SkipsFile(prefix, k), k => FileNode(prefix, k), n)
  }

  /** One response of ListObjectsV2. */
  datatype Page = Page(commonPrefixes: seq<string>, contents: seq<string>)

  /** The nodes of one page: folders first. */
  function PageNodes(prefix: string, page: Page): seq<Node> {
    FolderNodes(prefix, page.commonPrefixes, |page.commonPrefixes|)
    + FileNodes(prefix, page.contents, |page.contents|)
  }

  /** The two loops of listChildren over the response. */
  method ListChildren(parentRemoteId: Option<string>, page: Page) returns (nodes: seq<Node>)
    ensures nodes == PageNodes(ToPrefix(parentRemoteId), page)
    ensures var prefix := ToPrefix(parentRemoteId);
      forall n :: n in nodes <==>
        && n.name == NameFromKey(n.remoteId) && n.parentRemoteId == (if prefix == "" then None else Some(prefix))
        && n.remoteId != "" && n.remoteId != prefix
        && if n.isFolder then n.remoteId in page.commonPrefixes
           else n.remoteId in page.contents && n.remoteId[|n.remoteId| - 1] != '/'
  {
    var prefix := ToPrefix(parentRemoteId);
    nodes := ListFolders(prefix, page.commonPrefixes);
    var files := ListFiles(prefix, page.contents);
    nodes := nodes + files;
    FolderNodesAre(prefix, page.commonPrefixes, |page.commonPrefixes|);
    FileNodesAre(prefix, page.contents, |page.contents|);
  }

  lemma {:induction false} FolderNodesAre(prefix: string, ps: seq<string>, m: nat)
    requires m <= |ps|
    ensures forall n :: n in FolderNodes(prefix, ps, m) <==>
      n.remoteId in ps[..m] && n.remoteId != "" && n.remoteId != prefix && n == FolderNode(prefix, n.remoteId)
  {
    if m > 0 {
      FolderNodesAre(prefix, ps, m - 1);
      assert ps[..m] == ps[..m - 1] + [ps[m - 1]];
    }
  }

  lemma {:induction false} FileNodesAre(prefix: string, keys: seq<string>, m: nat)
    requires m <= |keys|
    ensures forall n :: n in FileNodes(prefix, keys, m) <==>
      && n.remoteId in keys[..m] && n.remoteId != "" && n.remoteId != prefix
      && n.remoteId[|n.remoteId| - 1] != '/' && n == FileNode(prefix, n.remoteId)
  {
    if m > 0 {
      FileNodesAre(prefix, keys, m - 1);
      assert keys[..m] == keys[..m - 1] + [keys[m - 1]];
    }
  }

  method ListFolders(prefix: string, commonPrefixes: seq<string>) returns (nodes: seq<Node>)
    ensures nodes == FolderNodes(prefix, commonPrefixes, |commonPrefixes|)
  {
    nodes := [];
    for i := 0 to |commonPrefixes|
      invariant nodes == FolderNodes(prefix, commonPrefixes, i)
    {
      if !SkipsFolder(prefix, commonPrefixes[i]) {
        nodes := nodes + [FolderNode(prefix, commonPrefixes[i])];
      }
    }
  }

  method ListFiles(prefix: string, contents: seq<string>) returns (nodes: seq<Node>)
    ensures nodes == FileNodes(prefix, contents, |contents|)
  {
    nodes := [];
    for i := 0 to |contents|
      invariant nodes == FileNodes(prefix, contents, i)
    {
      if !SkipsFile(prefix, contents[i]) {
        nodes := nodes + [FileNode(prefix, contents[i])];
      }
    }
  }
}
