/**
 The Git object graph of a backup descriptor. Parsed commits, trees and tags are given as maps;
 the validator walks them with worklists. When it accepts, the listed objects are exactly
 those reachable from the references, and the declared blobs exactly those in the trees.
 */
module GitGraph {
  import opened Base
  import opened Reachability

  const MAX_OBJECTS: nat := 100_000
  /** The byte strings `refs/`, `refs/heads/`, `refs/tags/` and `main`. */
  const REFS: Bytes := [114, 101, 102, 115, 47]
  const HEADS: Bytes := REFS + [104, 101, 97, 100, 115, 47]
  const TAGS: Bytes := REFS + [116, 97, 103, 115, 47]
  const MAIN: Bytes := [109, 97, 105, 110]
  const SLASH: uint8 := 47
  const MODE_TREE: nat := 16384
  const MODE_FILE: nat := 33188
  const MODE_EXECUTABLE: nat := 33261
  const MODE_SYMLINK: nat := 40960

  type Oid = nat

  datatype Kind = Commit | Tree | Tag

  datatype EntryKind = Subtree | BlobEntry | OtherEntry

  datatype Entry = Entry(name: Bytes, kind: EntryKind, mode: nat, id: Oid)

  datatype CommitInfo = CommitInfo(tree: Oid, parents: seq<Oid>)

  datatype TagInfo = TagInfo(name: Bytes, targetKind: Option<Kind>, target: Oid)

  /** What the object library makes of the objects and names; anything it rejects is absent. */
  datatype Git =
    Git(commits: map<Oid, CommitInfo>, trees: map<Oid, seq<Entry>>, tags: map<Oid, TagInfo>, pathOk: Bytes -> bool,
        validName: Bytes -> bool, validBranch: Bytes -> bool)

  /** A listed object: its id, its declared kind, and whether its bytes hash to its id. */
  datatype Listed = Listed(oid: Oid, code: nat, intact: bool)

  datatype Ref = Ref(name: Bytes, oid: Oid)

  datatype GraphError = InvalidGraph

  // ---------------------------------------------------------------- the three walks

  function RefOids(refs: seq<Ref>): set<Oid> {
    set i | 0 <= i < |refs| :: refs[i].oid
  }

  /** From a tag to what it points at. */
  function TagTargets(g: Git, kinds: map<Oid, Kind>, x: Oid): set<Oid> {
    if x in kinds && kinds[x] == Tag && x in g.tags then {g.tags[x].target} else {}
  }

  function Parents(g: Git, x: Oid): set<Oid> {
    if x in g.commits then set i | 0 <= i < |g.commits[x].parents| :: g.commits[x].parents[i] else {}
  }

  function Subtrees(g: Git, x: Oid): set<Oid> {
    if x in g.trees then set i | 0 <= i < |g.trees[x]| && g.trees[x][i].kind == Subtree :: g.trees[x][i].id else {}
  }

  function BlobsIn(g: Git, x: Oid): set<Oid> {
    if x in g.trees then set i | 0 <= i < |g.trees[x]| && g.trees[x][i].kind == BlobEntry :: g.trees[x][i].id else {}
  }

  function LinksIn(g: Git, x: Oid): set<Oid> {
    if x in g.trees then
      set i | 0 <= i < |g.trees[x]| && g.trees[x][i].kind == BlobEntry
        && g.trees[x][i].mode == MODE_SYMLINK :: g.trees[x][i].id
    else {}
  }

  ghost function TagStep(g: Git, kinds: map<Oid, Kind>): Oid -> set<Oid> {
    x => TagTargets(g, kinds, x)
  }

  ghost function ParentStep(g: Git): Oid -> set<Oid> {
    x => Parents(g, x)
  }

  ghost function SubtreeStep(g: Git): Oid -> set<Oid> {
    x => Subtrees(g, x)
  }

  /** The trees of some commits. */
  function TreesOf(g: Git, commits: set<Oid>): set<Oid> {
    set c | c in commits && c in g.commits :: g.commits[c].tree
  }

  function OfKind(kinds: map<Oid, Kind>, kind: Kind): set<Oid> {
    set x | x in kinds && kinds[x] == kind
  }

  /** The objects named by references, through any chain of tags. */
  ghost predicate Named(g: Git, kinds: map<Oid, Kind>, refs: seq<Ref>, x: Oid) {
    Reachable(TagStep(g, kinds), RefOids(refs), x)
  }

  /** The commits that references name. */
  ghost function Heads(g: Git, kinds: map<Oid, Kind>, refs: seq<Ref>): set<Oid> {
    set x | x in kinds && kinds[x] == Commit && Named(g, kinds, refs, x)
  }

  /**
   The listed objects are exactly the reachable ones: tags that references name, commits that
   are ancestors of commits so named, trees below these commits; and the declared blobs are
   exactly those in these trees.
   */
  ghost predicate Exact(g: Git, kinds: map<Oid, Kind>, refs: seq<Ref>, blobs: set<Oid>) {
    && (forall x :: Named(g, kinds, refs, x) ==> x in kinds && kinds[x] != Tree)
    && (forall x :: x in OfKind(kinds, Tag) ==> Named(g, kinds, refs, x))
    && (forall x :: x in OfKind(kinds, Commit) <==> Reachable(ParentStep(g), Heads(g, kinds, refs), x))
    && (forall x :: x in OfKind(kinds, Tree) <==> Reachable(SubtreeStep(g), TreesOf(g, OfKind(kinds, Commit)), x))
    && blobs == AllBlobs(g, OfKind(kinds, Tree))
  }

  function AllBlobs(g: Git, trees: set<Oid>): set<Oid> {
    set t, b | t in trees && b in BlobsIn(g, t) :: b
  }

  function AllLinks(g: Git, trees: set<Oid>): set<Oid> {
    set t, b | t in trees && b in LinksIn(g, t) :: b
  }

  // ---------------------------------------------------------------- counting by kind

  lemma KindsPartition(kinds: map<Oid, Kind>)
    ensures |kinds| == |OfKind(kinds, Commit)| + |OfKind(kinds, Tree)| + |OfKind(kinds, Tag)|
  {
    var c, t, a := OfKind(kinds, Commit), OfKind(kinds, Tree), OfKind(kinds, Tag);
    assert kinds.Keys == c + t + a && c !! t && (c + t) !! a;
    assert |c + t| == |c| + |t| && |c + t + a| == |c + t| + |a|;
  }

  /** Three seen-sets of three kinds that add up to all listed objects are all listed objects. */
  lemma CountsSuffice(kinds: map<Oid, Kind>, commits: set<Oid>, trees: set<Oid>, tags: set<Oid>)
    requires commits <= OfKind(kinds, Commit) && trees <= OfKind(kinds, Tree) && tags <= OfKind(kinds, Tag)
    requires |commits| + |trees| + |tags| == |kinds|
    ensures commits == OfKind(kinds, Commit) && trees == OfKind(kinds, Tree) && tags == OfKind(kinds, Tag)
  {
    KindsPartition(kinds);
    SubsetIsSmaller(commits, OfKind(kinds, Commit));
    SubsetIsSmaller(trees, OfKind(kinds, Tree));
    SubsetIsSmaller(tags, OfKind(kinds, Tag));
  }

  // ---------------------------------------------------------------- what is accepted

  function KindOf(code: nat, formatVersion: nat): Option<Kind> {
    if code == 1 then Some(Commit) else if code == 2 then Some(Tree)
    else if code == 3 && formatVersion >= 3 then Some(Tag) else None
  }

  /** Every object is of a known kind and hashes to its id, and none is listed twice. */
  predicate ListingOk(objects: seq<Listed>, formatVersion: nat) {
    && (forall i :: 0 <= i < |objects| ==> objects[i].intact && KindOf(objects[i].code, formatVersion).Some?)
    && (forall i, j :: 0 <= i < j < |objects| ==> objects[i].oid != objects[j].oid)
  }

  /** The kind of every listed object. */
  function KindMap(objects: seq<Listed>, formatVersion: nat): map<Oid, Kind> {
    if objects == [] then map[]
    else
      var front, last := KindMap(objects[..|objects| - 1], formatVersion), objects[|objects| - 1];
      match KindOf(last.code, formatVersion)
      case Some(kind) => front[last.oid := kind]
      case None => front
  }

  lemma {:induction false} KindMapKeys(objects: seq<Listed>, formatVersion: nat, x: Oid)
    requires ListingOk(objects, formatVersion)
    ensures x in KindMap(objects, formatVersion) <==> exists i :: 0 <= i < |objects| && objects[i].oid == x
  {
    if objects != [] {
      var front := objects[..|objects| - 1];
      KindMapKeys(front, formatVersion, x);
      if i :| 0 <= i < |objects| && objects[i].oid == x { assert i < |front| ==> front[i].oid == x; }
      if i :| 0 <= i < |front| && front[i].oid == x { assert objects[i].oid == x; }
      if objects[|objects| - 1].oid == x { assert exists i :: 0 <= i < |objects| && objects[i].oid == x; }
    }
  }

  lemma {:induction false} KindMapSize(objects: seq<Listed>, formatVersion: nat)
    requires ListingOk(objects, formatVersion)
    ensures |KindMap(objects, formatVersion)| == |objects|
  {
    if objects != [] {
      var front := objects[..|objects| - 1];
      KindMapSize(front, formatVersion);
      KindMapKeys(front, formatVersion, objects[|objects| - 1].oid);
    }
  }

  lemma {:induction false} KindMapAt(objects: seq<Listed>, formatVersion: nat, i: nat)
    requires ListingOk(objects, formatVersion) && i < |objects|
    ensures objects[i].oid in KindMap(objects, formatVersion)
    ensures Some(KindMap(objects, formatVersion)[objects[i].oid]) == KindOf(objects[i].code, formatVersion)
  {
    if i < |objects| - 1 {
      var front := objects[..|objects| - 1];
      KindMapAt(front, formatVersion, i);
      assert front[i] == objects[i] && objects[i].oid != objects[|objects| - 1].oid;
    }
  }

  lemma KindMapIs(objects: seq<Listed>, formatVersion: nat)
    requires ListingOk(objects, formatVersion)
    ensures |KindMap(objects, formatVersion)| == |objects|
    ensures forall x :: x in KindMap(objects, formatVersion) <==> exists i :: 0 <= i < |objects| && objects[i].oid == x
    ensures forall i :: 0 <= i < |objects| ==>
              && objects[i].oid in KindMap(objects, formatVersion)
              && Some(KindMap(objects, formatVersion)[objects[i].oid]) == KindOf(objects[i].code, formatVersion)
  {
    KindMapSize(objects, formatVersion);
    forall x ensures x in KindMap(objects, formatVersion) <==> exists i :: 0 <= i < |objects| && objects[i].oid == x {
      KindMapKeys(objects, formatVersion, x);
    }
    forall i | 0 <= i < |objects|
      ensures && objects[i].oid in KindMap(objects, formatVersion)
              && Some(KindMap(objects, formatVersion)[objects[i].oid]) == KindOf(objects[i].code, formatVersion)
    {
      KindMapAt(objects, formatVersion, i);
    }
  }

  /** A reference name: under `refs/`, valid, and under `refs/heads/` a valid branch. */
  predicate RefNameOk(g: Git, name: Bytes) {
    REFS <= name && g.validName(name) && (HEADS <= name ==> g.validBranch(name[|HEADS|..]))
  }

  /** The tag goes by the name of the reference. */
  predicate NamesTag(r: Ref, tag: TagInfo) {
    TAGS <= r.name && tag.name == r.name[|TAGS|..]
  }

  /** One hop of a tag reference: a listed tag that names its target's kind rightly. */
  predicate HopOk(g: Git, kinds: map<Oid, Kind>, r: Ref, x: Oid, first: bool) {
    && x in kinds && kinds[x] == Tag && TAGS <= r.name && x in g.tags && (first ==> NamesTag(r, g.tags[x]))
    && (g.tags[x].targetKind == Some(Commit) || g.tags[x].targetKind == Some(Tag))
    && g.tags[x].target in kinds && Some(kinds[g.tags[x].target]) == g.tags[x].targetKind
  }

  /** Hops from a reference's object on. */
  ghost predicate Hops(g: Git, kinds: map<Oid, Kind>, r: Ref, path: seq<Oid>) {
    && path != [] && path[0] == r.oid
    && forall i :: 0 <= i < |path| - 1 ==> HopOk(g, kinds, r, path[i], i == 0) && path[i + 1] == g.tags[path[i]].target
  }

  /** The reference resolves to a commit, through tags if it is a tag reference. */
  ghost predicate Resolves(g: Git, kinds: map<Oid, Kind>, r: Ref) {
    exists path :: ResolvesBy(g, kinds, r, path)
  }

  ghost predicate ResolvesBy(g: Git, kinds: map<Oid, Kind>, r: Ref, path: seq<Oid>) {
    Hops(g, kinds, r, path) && |path| <= MAX_OBJECTS && path[|path| - 1] in kinds && kinds[path[|path| - 1]] == Commit
  }

  /** A reference with a valid name that resolves to a commit. */
  ghost predicate RefOk(g: Git, kinds: map<Oid, Kind>, r: Ref) {
    RefNameOk(g, r.name) && Resolves(g, kinds, r)
  }

  ghost predicate RefsOk(g: Git, kinds: map<Oid, Kind>, refs: seq<Ref>) {
    && (forall i :: 0 <= i < |refs| ==> RefOk(g, kinds, refs[i]))
    && (forall i, j :: 0 <= i < j < |refs| ==> refs[i].name != refs[j].name)
  }

  /** Every ancestor of the heads is a listed commit that parses. */
  ghost predicate CommitsOk(g: Git, kinds: map<Oid, Kind>, heads: set<Oid>) {
    forall x :: Reachable(ParentStep(g), heads, x) ==> x in OfKind(kinds, Commit) && x in g.commits
  }

  /** No reference is a directory above another one. */
  predicate NamesApart(refs: seq<Ref>) {
    forall i, j :: 0 <= i < |refs| && 0 <= j < |refs| ==> !(refs[i].name + [SLASH] <= refs[j].name)
  }

  /** Formats 2 and 3 list the head branch; without references it is the default branch. */
  predicate HeadOk(formatVersion: nat, refs: seq<Ref>, head: Bytes) {
    && ((formatVersion == 2 || formatVersion == 3) && refs != [] ==>
          exists i :: 0 <= i < |refs| && refs[i].name == HEADS + head)
    && (formatVersion >= 2 && refs == [] ==> head == MAIN)
  }
}
