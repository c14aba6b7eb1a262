/** The key/value store kept in a git tree (db.rs): a key is a path of segments, each
    segment names an entry of a tree, and a value is a blob at the end of the path. Objects
    are content addressed, so the model identifies an object with its content: a blob is its
    bytes and a tree is its map from entry name to object. */
module Db {

  import opened Wrappers
  import opened GitRepo

  datatype Object = Blob(content: seq<bv8>) | Tree(entries: map<string, Object>)

  /** The subset of `git2::FileMode` that the store produces. */
  datatype FileMode = BlobMode | TreeMode

  /** libgit2's answer when a blob is looked up as a tree or a tree as a blob. */
  function TypeMismatch(): GitError {
    GitError(NotFound, InvalidClass, "the requested type does not match the type in the ODB")
  }

  function MissingElement(key: string): GitError {
    GitError(NotFound, ErrorClass.Tree, "Did not find path element " + key)
  }

  function BlobIntoStore(): GitError {
    GitError(Invalid, ErrorClass.Tree, "Attempt to write Blob to store is not allowed (potentially empty path into KV store?)")
  }

  /** `repo.find_tree(parent).ok()` read as its entries: a blob, or no parent at all, is
      treated as an empty tree. */
  function EntriesOf(parent: Option<Object>): map<string, Object> {
    match parent
    case Some(Tree(entries)) => entries
    case _ => map[]
  }

  /** `tree_modify` with the leaf function of `put_oid`, which ignores what it replaces and
      answers `leaf` in blob mode. Each level rewrites only the entry of its own key. */
  function TreeModify(parent: Option<Object>, path: seq<string>, leaf: Object): (r: (Object, FileMode))
    ensures |path| == 0 <==> r.1 == BlobMode
    ensures |path| == 0 ==> r.0 == leaf
    ensures |path| > 0 ==> r.0.Tree? && path[0] in r.0.entries
    ensures |path| > 0 ==> forall k :: k != path[0] ==>
              (k in r.0.entries <==> k in EntriesOf(parent)) &&
              (k in EntriesOf(parent) ==> r.0.entries[k] == EntriesOf(parent)[k])
    decreases |path|
  {
    if |path| == 0 then
      (leaf, BlobMode)
    else
      var key := path[0];
      var entries := EntriesOf(parent);
      var entry := if key in entries then Some(entries[key]) else None;
      var (child, _) := TreeModify(entry, path[1..], leaf);
      (Object.Tree(entries[key := child]), TreeMode)
  }

  /** `tree_find`: follow the segments from `root`; the empty path finds the root itself. */
  function TreeFind(root: Object, path: seq<string>): (r: Result<Object, GitError>)
    ensures |path| == 0 ==> r == Ok(root)
    ensures |path| > 0 && root.Blob? ==> r == Err(TypeMismatch())
    ensures |path| > 0 && root.Tree? && path[0] !in root.entries ==> r == Err(MissingElement(path[0]))
    ensures r.Err? ==> r.error.code == NotFound
    decreases |path|
  {
    if |path| == 0 then
      Ok(root)
    else
      match root
      case Blob(_) => Err(TypeMismatch())
      case Tree(entries) =>
        if path[0] in entries then TreeFind(entries[path[0]], path[1..])
        else Err(MissingElement(path[0]))
  }

  /** `state::Error` as far as the store raises it; the message of a JSON error is all the
      model keeps of it. */
  datatype StoreError = Git(failure: GitError) | Serde(message: string)

  /** The blob a path names in `root`, or why there is none. */
  function BlobAt(root: Object, path: seq<string>): (r: Result<seq<bv8>, GitError>)
    ensures r.Ok? <==> TreeFind(root, path).Ok? && TreeFind(root, path).value.Blob?
    ensures r.Ok? ==> TreeFind(root, path) == Ok(Blob(r.value))
  {
    match TreeFind(root, path)
    case Err(e) => Err(e)
    case Ok(Blob(content)) => Ok(content)
    case Ok(Tree(_)) => Err(TypeMismatch())
  }

  /** Neither path is a prefix of the other: they part somewhere inside both. */
  predicate Diverge(p: seq<string>, q: seq<string>)
    decreases |p|
  {
    |p| > 0 && |q| > 0 && (p[0] != q[0] || Diverge(p[1..], q[1..]))
  }

  // ---------------------------------------------------------------------------------------
  // What a write does to later reads

  /** Reading back the path just written finds what was written. */
  lemma {:induction false} FindModified(parent: Option<Object>, path: seq<string>, leaf: Object)
    ensures TreeFind(TreeModify(parent, path, leaf).0, path) == Ok(leaf)
    decreases |path|
  {
    if |path| > 0 {
      var entries := EntriesOf(parent);
      var key := path[0];
      var entry := if key in entries then Some(entries[key]) else None;
      FindModified(entry, path[1..], leaf);
    }
  }

  /** Every proper prefix of the path just written names a tree. */
  lemma {:induction false} PrefixIsTree(parent: Option<Object>, path: seq<string>, leaf: Object, k: nat)
    requires k < |path|
    ensures var r := TreeFind(TreeModify(parent, path, leaf).0, path[..k]);
            r.Ok? && r.value.Tree?
    decreases k
  {
    if k > 0 {
      var entries := EntriesOf(parent);
      var key := path[0];
      var entry := if key in entries then Some(entries[key]) else None;
      PrefixIsTree(entry, path[1..], leaf, k - 1);
      assert path[..k][1..] == path[1..][..k - 1];
    }
  }

  /** Finding `p + q` is finding `q` from what `p` finds. */
  lemma {:induction false} FindThrough(root: Object, p: seq<string>, q: seq<string>)
    requires TreeFind(root, p).Ok?
    ensures TreeFind(root, p + q) == TreeFind(TreeFind(root, p).value, q)
    decreases |p|
  {
    if |p| > 0 {
      assert (p + q)[0] == p[0];
      assert (p + q)[1..] == p[1..] + q;
      var child := root.entries[p[0]];
      FindThrough(child, p[1..], q);
      assert TreeFind(root, p) == TreeFind(child, p[1..]);
      assert TreeFind(root, p + q) == TreeFind(child, p[1..] + q);
    } else {
      assert p + q == q;
    }
  }

  /** Nothing lies below a blob. */
  lemma FindBelowBlob(root: Object, p: seq<string>, q: seq<string>)
    requires TreeFind(root, p).Ok? && TreeFind(root, p).value.Blob? && |q| > 0
    ensures TreeFind(root, p + q).Err?
  {
    FindThrough(root, p, q);
  }

  /** A write leaves every path that parts from the written one resolving as before. */
  lemma {:induction false} SiblingsKept(root: Object, path: seq<string>, q: seq<string>, leaf: Object)
    requires Diverge(path, q) && TreeFind(root, q).Ok?
    ensures TreeFind(TreeModify(Some(root), path, leaf).0, q) == TreeFind(root, q)
    decreases |path|
  {
    var key := path[0];
    if key == q[0] {
      var child := root.entries[key];
      SiblingsKept(child, path[1..], q[1..], leaf);
    }
  }

  // ---------------------------------------------------------------------------------------
  // The store

  /** `Store`: the tree holding the current contents. The commit it was read from and the
      writing of new commits are not modelled. */
  class Store {
    var tree: Object

    /** `Store::new`: an empty tree. */
    constructor ()
      ensures tree == Object.Tree(map[])
    {
      tree := Object.Tree(map[]);
    }

    /** `Store::get_blob`. */
    function GetBlob(path: seq<string>): Result<seq<bv8>, GitError>
      reads this
    {
      BlobAt(tree, path)
    }

    /** `Store::get`: the blob's bytes go through `decode`, which stands for `serde_json`. */
    function Get<T>(path: seq<string>, decode: seq<bv8> -> Result<T, string>): (r: Result<T, StoreError>)
      reads this
      ensures GetBlob(path).Err? ==> r == Err(StoreError.Git(GetBlob(path).error))
      ensures GetBlob(path).Ok? && decode(GetBlob(path).value).Ok? ==> r == Ok(decode(GetBlob(path).value).value)
      ensures GetBlob(path).Ok? && decode(GetBlob(path).value).Err? ==> r == Err(Serde(decode(GetBlob(path).value).error))
    {
      match GetBlob(path)
      case Err(e) => Err(StoreError.Git(e))
      case Ok(content) =>
        match decode(content)
        case Err(m) => Err(Serde(m))
        case Ok(v) => Ok(v)
    }

    /** `Store::put_oid`: the empty path would make the leaf the new root, which is refused
        and leaves the store as it was. */
    method PutOid(path: seq<string>, leaf: Object) returns (r: Result<(), GitError>)
      modifies this
      ensures |path| == 0 ==> r == Err(BlobIntoStore()) && tree == old(tree)
      ensures |path| > 0 ==> r == Ok(()) && tree == TreeModify(Some(old(tree)), path, leaf).0
    {
      var (newTree, mode) := TreeModify(Some(tree), path, leaf);
      if mode != TreeMode {
        return Err(BlobIntoStore());
      }
      tree := newTree;
      r := Ok(());
    }

    /** `Store::put`: `data` is the value as `serde_json` writes it, stored as a blob. */
    method Put(path: seq<string>, data: seq<bv8>) returns (r: Result<(), StoreError>)
      modifies this
      ensures |path| == 0 ==> r == Err(StoreError.Git(BlobIntoStore())) && tree == old(tree)
      ensures |path| > 0 ==> r == Ok(()) && tree == TreeModify(Some(old(tree)), path, Blob(data)).0
    {
      var written := PutOid(path, Blob(data));
      if written.Err? {
        return Err(StoreError.Git(written.error));
      }
      r := Ok(());
    }
  }

  // ---------------------------------------------------------------------------------------
  // The store's properties, and its unit tests

  /** `put` then `get_blob` of the same non-empty path gives back the bytes written. */
  lemma PutThenGet(root: Object, path: seq<string>, data: seq<bv8>)
    requires |path| > 0
    ensures BlobAt(TreeModify(Some(root), path, Blob(data)).0, path) == Ok(data)
  {
    FindModified(Some(root), path, Blob(data));
  }

  /** `put(path, v)` followed by `get(path)` on a store: for every non-empty path `get`
      decodes exactly the bytes `put` wrote, so it gives back the decoder's value, or its
      error as a serde error. */
  method PutThenGetValue<T>(kv: Store, path: seq<string>, data: seq<bv8>, decode: seq<bv8> -> Result<T, string>)
    returns (r: Result<T, StoreError>)
    requires |path| > 0
    modifies kv
    ensures r == (match decode(data)
                  case Ok(v) => Ok(v)
                  case Err(m) => Err(Serde(m)))
    ensures kv.Get(path, decode) == r
  {
    ghost var t0 := kv.tree;
    var written := kv.Put(path, data);
    PutThenGet(t0, path, data);
    r := kv.Get(path, decode);
  }

  /** Writing below a path replaces what was there by a tree: the shorter path no longer
      names a blob, and the longer one names what was written. */
  lemma PutBelow(root: Object, path: seq<string>, q: seq<string>, data: seq<bv8>)
    requires |path| > 0 && |q| > 0
    ensures var t := TreeModify(Some(root), path + q, Blob(data)).0;
            BlobAt(t, path).Err? && BlobAt(t, path + q) == Ok(data)
  {
    PrefixIsTree(Some(root), path + q, Blob(data), |path|);
    assert (path + q)[..|path|] == path;
    PutThenGet(root, path + q, data);
  }

  /** Writing at a prefix of a nested path overwrites the whole subtree: nothing below the
      written blob resolves any more. */
  lemma PutAbove(root: Object, path: seq<string>, q: seq<string>, data: seq<bv8>)
    requires |path| > 0 && |q| > 0
    ensures var t := TreeModify(Some(root), path, Blob(data)).0;
            BlobAt(t, path) == Ok(data) && BlobAt(t, path + q).Err?
  {
    var t := TreeModify(Some(root), path, Blob(data)).0;
    FindModified(Some(root), path, Blob(data));
    FindBelowBlob(t, path, q);
  }

  /** A write keeps every blob at a path that parts from the written one. */
  lemma PutKeepsSiblings(root: Object, path: seq<string>, q: seq<string>, data: seq<bv8>)
    requires Diverge(path, q) && BlobAt(root, q).Ok?
    ensures BlobAt(TreeModify(Some(root), path, Blob(data)).0, q) == BlobAt(root, q)
  {
    SiblingsKept(root, path, q, Blob(data));
  }

  // The unit tests of db.rs, for any keys and any serialised values, on the tree of a new
  // store; `Store.Put` keeps the tree equal to `TreeModify` of the one before.

  /** `read_write_simple`. */
  lemma ReadWriteSimple(key: string, one: seq<bv8>)
    ensures BlobAt(TreeModify(Some(Object.Tree(map[])), [key], Blob(one)).0, [key]) == Ok(one)
  {
    PutThenGet(Object.Tree(map[]), [key], one);
  }

  /** `read_write_nested`: a write below a blob turns it into a tree. */
  lemma ReadWriteNested(key: string, sub: string, one: seq<bv8>, two: seq<bv8>)
    ensures var t1 := TreeModify(Some(Object.Tree(map[])), [key], Blob(one)).0;
            var t2 := TreeModify(Some(t1), [key, sub], Blob(two)).0;
            BlobAt(t2, [key]).Err? && BlobAt(t2, [key, sub]) == Ok(two)
  {
    var t1 := TreeModify(Some(Object.Tree(map[])), [key], Blob(one)).0;
    assert [key] + [sub] == [key, sub];
    PutBelow(t1, [key], [sub], two);
  }

  /** `read_write_override_nested`: a write above a blob replaces its subtree. */
  lemma ReadWriteOverrideNested(key: string, sub: string, one: seq<bv8>, two: seq<bv8>)
    ensures var t1 := TreeModify(Some(Object.Tree(map[])), [key, sub], Blob(two)).0;
            var t2 := TreeModify(Some(t1), [key], Blob(one)).0;
            BlobAt(t2, [key, sub]).Err? && BlobAt(t2, [key]) == Ok(one)
  {
    var t1 := TreeModify(Some(Object.Tree(map[])), [key, sub], Blob(two)).0;
    assert [key] + [sub] == [key, sub];
    PutAbove(t1, [key], [sub], one);
  }
}
