/** delete of provider.ts, over paginated listings of a bucket that it shrinks as it goes. */
module S3Delete {
  import opened Options
  import opened Crawl
  import opened S3
  import opened S3Tree

  class Bucket {
    const order: seq<string>   // the keys there may be, in the order S3 lists them
    var live: set<string>

    ghost predicate Valid()
      reads this
    {
      forall k :: k in live ==> k in order
    }

    constructor (order: seq<string>, live: set<string>)
      requires forall k :: k in live ==> k in order
      ensures Valid() && this.order == order && this.live == live
    {
      this.order, this.live := order, live;
    }

    /** One page of ListObjectsV2: S3 stops wherever it likes after the continuation token. */
    method ListPage(prefix: string, token: nat) returns (keys: seq<string>, next: Option<nat>)
      requires token <= |order|
      ensures next.Some? ==> token < next.value < |order|
      ensures forall k :: k in keys ==> k in live && HasPrefix(prefix, k)
      ensures forall i :: token <= i < (if next.Some? then next.value else |order|) ==>
        order[i] in live && HasPrefix(prefix, order[i]) ==> order[i] in keys
    {
      keys, next := [], None;
      if token == |order| {
        return;
      }
      var end: nat :| token < end <= |order|;
      for i := token to end
        invariant forall k :: k in keys ==> k in live && HasPrefix(prefix, k)
        invariant forall j :: token <= j < i && order[j] in live && HasPrefix(prefix, order[j]) ==> order[j] in keys
      {
        if order[i] in live && HasPrefix(prefix, order[i]) {
          keys := keys + [order[i]];
        }
      }
      if end < |order| {
        next := Some(end);
      }
    }

    method DeleteObjects(keys: seq<string>)
      modifies this`live
      ensures live == set k | k in old(live) && k !in keys
    {
      live := set k | k in live && k !in keys;
    }

    /** False for the refusal to delete the root. An id that ends in a slash takes every key it is a
        prefix of, itself included, and any other id that very key. */
    method Delete(remoteId: Option<string>) returns (ok: bool)
      requires Valid()
      modifies this`live
      ensures Valid()
      ensures ok <==> remoteId.Some? && remoteId.value != ""
      ensures !ok ==> live == old(live)
      ensures ok && remoteId.value[|remoteId.value| - 1] == '/' ==>
        forall k :: k in live <==> k in old(live) && !(remoteId.value <= k)
      ensures ok && remoteId.value[|remoteId.value| - 1] != '/' ==> live == old(live) - {remoteId.value}
    {
      match ParseRemoteId(remoteId)
      case Root =>
        return false;
      case FileRef(key) =>
        live := live - {key};
        return true;
      case FolderRef(prefix) =>
        DeleteFolder(prefix);
        return true;
    }

    method DeleteFolder(prefix: string)
      requires Valid()
      modifies this`live
      ensures Valid()
      ensures forall k :: k in live <==> k in old(live) && !HasPrefix(prefix, k)
    {
      var token := Some(0);
      while token.Some?
        invariant Valid()
        invariant token.Some? ==> token.value <= |order|
        invariant forall k :: k in live ==> k in old(live)
        invariant forall k :: k in old(live) && !HasPrefix(prefix, k) ==> k in live
        invariant forall i :: 0 <= i < (if token.Some? then token.value else |order|) ==>
          HasPrefix(prefix, order[i]) ==> order[i] !in live
        decreases if token.Some? then |order| - token.value + 1 else 0
      {
        var keys, next := ListPage(prefix, token.value);
        if |keys| > 0 {
          DeleteObjects(keys);
        }
        token := next;
      }
      forall k | k in live
        ensures !HasPrefix(prefix, k)
      {
        var i :| 0 <= i < |order| && order[i] == k;
      }
    }
  }

  /** What deleting the node with this id takes. */
  predicate Takes(id: string, key: string) {
    if id != "" && id[|id| - 1] == '/' then id <= key else key == id
  }

  /** The tree after a delete by any id: of the files exactly those taken are gone, and of the folders
      exactly those are left that have a key which is not taken. */
  lemma {:induction false} TreeAfterDelete(before: seq<string>, pagesBefore: Pagination,
                                           after: seq<string>, pagesAfter: Pagination, id: string, n: Node)
    requires IsBucket(before) && Lists(before, pagesBefore) && IsBucket(after) && Lists(after, pagesAfter)
    requires forall k :: k in after <==> k in before && !Takes(id, k)
    ensures Times(WholeTree(after, pagesAfter), n) == One(
      && Times(WholeTree(before, pagesBefore), n) == 1
      && if n.isFolder then exists k :: k in before && n.remoteId <= k && !Takes(id, k)
         else !Takes(id, n.remoteId))
  {
    TreeIsBucket(before, pagesBefore, n);
    TreeIsBucket(after, pagesAfter, n);
  }

  /** The tree after deleting a node m that the tree lists. A file goes alone, with the folders that
      held nothing else; a folder goes with everything below it and the same folders above
      it; and a node that neither is m, nor below it, nor left without a key, stays. */
  lemma {:induction false} TreeAfterDeletingNode(before: seq<string>, pagesBefore: Pagination, after: seq<string>,
                                                 pagesAfter: Pagination, m: Node, n: Node)
    requires IsBucket(before) && Lists(before, pagesBefore) && IsBucket(after) && Lists(after, pagesAfter)
    requires forall k :: k in after <==> k in before && !Takes(m.remoteId, k)
    requires Times(WholeTree(before, pagesBefore), m) == 1 && Times(WholeTree(before, pagesBefore), n) == 1
    ensures Times(WholeTree(after, pagesAfter), m) == 0
    ensures !n.isFolder ==>
      (Times(WholeTree(after, pagesAfter), n) == 0 <==> n == m || (m.isFolder && m.remoteId <= n.remoteId))
    ensures n.isFolder ==>
      (Times(WholeTree(after, pagesAfter), n) == 0 <==>
        forall k :: k in before && n.remoteId <= k ==> if m.isFolder then m.remoteId <= k else k == m.remoteId)
  {
    TreeIsBucket(before, pagesBefore, m);
    TreeIsBucket(before, pagesBefore, n);
    TreeAfterDelete(before, pagesBefore, after, pagesAfter, m.remoteId, m);
    TreeAfterDelete(before, pagesBefore, after, pagesAfter, m.remoteId, n);
    if !n.isFolder && n.remoteId == m.remoteId {
      SameFile(before, m, n);
    }
  }

  lemma {:induction false} SameFile(bucket: seq<string>, m: Node, n: Node)
    requires InTree(bucket, m) && InTree(bucket, n) && m.remoteId == n.remoteId && !n.isFolder
    ensures m == n
  {
  }
}
