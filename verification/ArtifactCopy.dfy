/**
 * Copying a build artifact to the host output directory, source and destination on one file system: a map
 * from paths to items. A path is the list of its components; every system call may fail, and making a
 * directory does fail beyond some path length. Trees describe what lies under a path.
 */
module ArtifactCopy {
  import opened Prelude
  import opened LexicalPaths

  type Bytes = seq<bv8>

  /** `Special` is a pipe, socket or device, with what reading it would give. */
  datatype Node = File(data: Bytes) | Dir(entries: seq<Entry>) | Link(text: string) | Special(data: Bytes)

  datatype Entry = Entry(name: string, node: Node)

  datatype Item = FileItem(data: Bytes) | DirItem | LinkItem(text: string) | SpecialItem(data: Bytes)

  /** How the copy of one regular file ends: a failure may leave a partial file behind. */
  datatype FileFault = NoFault | NotOpened | Partial(left: Bytes)

  /** Which system calls fail: by the path of the new directory for `mkdir`, by the source path otherwise. */
  datatype Faults = Faults(
    stat: Path -> bool, mkdir: Path -> bool, readDir: Path -> bool, lstat: Path -> bool,
    readlink: Path -> bool, symlink: Path -> bool, copy: Path -> FileFault)

  // --------------------------------------------------------------------------------- trees

  predicate ValidName(name: string) { Normal(name) && '/' !in name }

  /** Names a file system can hold, and each once per directory. */
  predicate WellFormed(node: Node) {
    node.Dir? ==>
      && (forall i :: 0 <= i < |node.entries| ==> ValidName(node.entries[i].name) && WellFormed(node.entries[i].node))
      && (forall i, j :: 0 <= i < j < |node.entries| ==> node.entries[i].name != node.entries[j].name)
  }

  function Find(entries: seq<Entry>, name: string): Option<Node> {
    if entries == [] then None
    else
      var last := entries[|entries| - 1];
      if last.name == name then Some(last.node) else Find(entries[..|entries| - 1], name)
  }

  /** The node at a relative path. */
  function NodeAt(node: Node, rel: Path): Option<Node>
    decreases |rel|
  {
    if rel == [] then Some(node)
    else if !node.Dir? then None
    else
      match Find(node.entries, rel[0])
      case None => None
      case Some(child) => NodeAt(child, rel[1..])
  }

  function ItemOf(node: Node): Item {
    match node
    case File(data) => FileItem(data)
    case Dir(_) => DirItem
    case Link(text) => LinkItem(text)
    case Special(data) => SpecialItem(data)
  }

  /** What the tree holds at a relative path. */
  function Mirror(node: Node, rel: Path): Option<Item> {
    match NodeAt(node, rel)
    case None => None
    case Some(n) => Some(ItemOf(n))
  }

  lemma {:induction false} FindEntry(entries: seq<Entry>, i: nat)
    requires i < |entries|
    requires forall j, k :: 0 <= j < k < |entries| ==> entries[j].name != entries[k].name
    ensures Find(entries, entries[i].name) == Some(entries[i].node)
  {
    var last := |entries| - 1;
    if i < last { FindEntry(entries[..last], i); }
  }

  /** Entry `i` is the one found under the name. */
  predicate IsEntry(entries: seq<Entry>, name: string, i: nat)
    requires i < |entries|
  {
    entries[i].name == name && Find(entries, name) == Some(entries[i].node)
  }

  lemma {:induction false} FindSome(entries: seq<Entry>, name: string)
    ensures Find(entries, name).Some? ==> exists i :: 0 <= i < |entries| && IsEntry(entries, name, i)
  {
    if entries == [] {
    } else if entries[|entries| - 1].name == name {
      assert IsEntry(entries, name, |entries| - 1);
    } else {
      var front := entries[..|entries| - 1];
      FindSome(front, name);
      if i :| 0 <= i < |front| && IsEntry(front, name, i) { assert IsEntry(entries, name, i); }
    }
  }

  /** The tree under `path`. */
  ghost predicate Mirrors(items: map<Path, Item>, path: Path, node: Node) {
    forall p :: path <= p ==> At(items, p) == Mirror(node, p[|path|..])
  }

  function At(items: map<Path, Item>, p: Path): Option<Item> { if p in items then Some(items[p]) else None }

  ghost predicate Absent(items: map<Path, Item>, path: Path) { forall p <- items :: !(path <= p) }

  /** Nothing changed outside `path`. */
  ghost predicate Elsewhere(before: map<Path, Item>, after: map<Path, Item>, path: Path) {
    forall p :: !(path <= p) ==> At(after, p) == At(before, p)
  }

  ghost predicate CleanItems(items: map<Path, Item>) { forall p <- items :: Clean(p) }

  ghost function Names(node: Node): set<string>
    requires node.Dir?
  {
    set i | 0 <= i < |node.entries| :: node.entries[i].name
  }

  /** The subtree of an entry. */
  lemma ChildMirrors(items: map<Path, Item>, path: Path, node: Node, name: string)
    requires Mirrors(items, path, node) && node.Dir? && Find(node.entries, name).Some?
    ensures Mirrors(items, path + [name], Find(node.entries, name).value)
  {
    var at, child := path + [name], Find(node.entries, name).value;
    forall p | at <= p ensures At(items, p) == Mirror(child, p[|at|..]) {
      assert path <= p && p[|path|..][0] == name && p[|path|..][1..] == p[|at|..];
    }
  }

  /** The entries of a directory are the names one step below it. */
  lemma EntriesFound(items: map<Path, Item>, path: Path, node: Node, name: string)
    requires Mirrors(items, path, node) && node.Dir?
    ensures path + [name] in items <==> Find(node.entries, name).Some?
    ensures name in Names(node) <==> Find(node.entries, name).Some?
  {
    var at := path + [name];
    assert path <= at && at[|path|..] == [name];
    assert [name][1..] == [];
    assert At(items, at) == Mirror(node, [name]);
    if Find(node.entries, name).Some? { assert NodeAt(node, [name]) == NodeAt(Find(node.entries, name).value, []); }
    FindSome(node.entries, name);
    if name in Names(node) {
      var i :| 0 <= i < |node.entries| && node.entries[i].name == name;
      FindAny(node.entries, i);
    }
  }

  lemma {:induction false} FindAny(entries: seq<Entry>, i: nat)
    requires i < |entries|
    ensures Find(entries, entries[i].name).Some?
  {
    var last := |entries| - 1;
    if i == last {
    } else {
      FindAny(entries[..last], i);
    }
  }

  // ----------------------------------------------------------------------- when a copy works

  /** Whether an entry at `p` that is not a directory is copied. */
  predicate EntryCopies(root: Path, p: Path, item: Item, f: Faults)
    requires Clean(root) && Clean(p) && p != []
  {
    !f.lstat(p) &&
    match item
    case LinkItem(text) => !f.readlink(p) && IsWithinDir(root, LexicalTarget(p, text)) && !f.symlink(p)
    case FileItem(_) => f.copy(p).NoFault?
    case DirItem => true
    case SpecialItem(_) => false
  }

  /** copyDir succeeds on the directory `node` at `src` into a destination outside it. */
  ghost predicate Copies(root: Path, src: Path, dst: Path, node: Node, f: Faults)
    requires Clean(root) && Clean(src) && WellFormed(node)
    decreases node
  {
    node.Dir? ==>
      && !f.stat(src) && !f.mkdir(dst) && !f.readDir(src)
      && forall i :: 0 <= i < |node.entries| ==>
           && EntryCopies(root, src + [node.entries[i].name], ItemOf(node.entries[i].node), f)
           && Copies(root, src + [node.entries[i].name], dst + [node.entries[i].name], node.entries[i].node, f)
  }

  /** Directories can be made up to a path length. */
  ghost predicate Limited(f: Faults, limit: nat) { forall p: Path :: |p| > limit ==> f.mkdir(p) }

  /** Nothing in the file system fails, except making a directory beyond the path length. */
  ghost predicate Faultless(f: Faults, limit: nat) {
    && (forall p: Path :: f.mkdir(p) <==> |p| > limit)
    && (forall p :: !f.stat(p) && !f.readDir(p) && !f.lstat(p) && !f.readlink(p) && !f.symlink(p) && f.copy(p).NoFault?)
  }

  /** A special file, or a link whose text leads out of the root. */
  ghost predicate Escapes(root: Path, src: Path, node: Node, rel: Path)
    requires Clean(root) && Clean(src + rel)
  {
    var n, at := NodeAt(node, rel), src + rel;
    rel != [] && n.Some? && (n.value.Special? || (n.value.Link? && !(root <= Meaning(at[..|at| - 1], n.value.text))))
  }

  /** A directory whose copy would have too long a path. */
  ghost predicate TooDeep(dst: Path, limit: nat, node: Node, rel: Path) {
    NodeAt(node, rel).Some? && NodeAt(node, rel).value.Dir? && |dst + rel| > limit
  }

  /** A relative path into a well-formed tree has only normal components. */
  lemma {:induction false} NodePathClean(node: Node, rel: Path)
    requires WellFormed(node) && NodeAt(node, rel).Some?
    ensures Clean(rel) && WellFormed(NodeAt(node, rel).value)
    decreases |rel|
  {
    if rel == [] {
    } else {
      FindSome(node.entries, rel[0]);
      var i :| 0 <= i < |node.entries| && IsEntry(node.entries, rel[0], i);
      NodePathClean(node.entries[i].node, rel[1..]);
      assert rel == [rel[0]] + rel[1..];
    }
  }

  /** A copied tree has no special file and no link that leads out of the root. */
  lemma {:induction false} CopiedIsContained(root: Path, src: Path, dst: Path, node: Node, f: Faults, rel: Path)
    requires Clean(root) && Clean(src) && Clean(src + rel) && WellFormed(node) && Copies(root, src, dst, node, f)
    ensures !Escapes(root, src, node, rel)
    decreases |rel|
  {
    hide Meaning, LexicalTarget, IsWithinDir;
    if Escapes(root, src, node, rel) {
      FindSome(node.entries, rel[0]);
      var i :| 0 <= i < |node.entries| && IsEntry(node.entries, rel[0], i);
      var child, at := node.entries[i].node, src + [rel[0]];
      assert EntryCopies(root, at, ItemOf(child), f);
      if |rel| == 1 {
        assert src + rel == at && rel[1..] == [];
        assert NodeAt(node, rel) == NodeAt(child, []) == Some(child);
        if child.Link? { LinkStaysIff(root, at, child.text); }
      } else {
        assert at + rel[1..] == src + rel;
        CopiedIsContained(root, at, dst + [rel[0]], child, f, rel[1..]);
      }
    }
  }

  /**
   * The links of a copied artifact at `root`: an absolute text is led by the root's own components, and a relative one
   * climbs no higher than the root unless its names lead back into it.
   */
  lemma CopiedLinksStay(root: Path, dst: Path, node: Node, f: Faults, rel: Path, ups: nat, names: Path)
    requires Clean(root) && WellFormed(node) && Copies(root, root, dst, node, f)
    requires rel != [] && Clean(root + rel) && NodeAt(node, rel).Some? && NodeAt(node, rel).value.Link?
    requires PlainNames(names) && ups + |names| > 0
    ensures var text := NodeAt(node, rel).value.text;
      && (names != [] && text == "/" + Join(names) ==> root <= names)
      && (text == Join(Climb(ups) + names) ==>
            ups < |rel| || root[if ups + 1 - |rel| >= |root| then 0 else |root| - (ups + 1 - |rel|)..] <= names)
  {
    hide Meaning, Join, Copies, NodeAt, IsWithinDir, LexicalTarget, Clean, PlainNames, WellFormed;
    var at, below, last := root + rel, rel[..|rel| - 1], rel[|rel| - 1];
    CopiedIsContained(root, root, dst, node, f, rel);
    var text := NodeAt(node, rel).value.text;
    LinkPath(root, rel);
    LinkStaysIff(root, at, text);
    if names != [] && text == "/" + Join(names) { AbsoluteStaysIff(root, at, names); }
    if text == Join(Climb(ups) + names) { RelativeStaysIff(root, below, last, ups, names); }
  }

  lemma LinkPath(root: Path, rel: Path)
    requires rel != [] && Clean(root + rel)
    ensures var below, last := rel[..|rel| - 1], rel[|rel| - 1];
      root + rel == root + below + [last] && Clean(below) && Normal(last)
  {
    assert rel == rel[..|rel| - 1] + [rel[|rel| - 1]];
    assert forall x <- rel :: x in root + rel;
  }

  lemma CopiedFits(root: Path, src: Path, dst: Path, node: Node, f: Faults, limit: nat, rel: Path)
    requires Clean(root) && Clean(src) && WellFormed(node) && Copies(root, src, dst, node, f) && Limited(f, limit)
    ensures !TooDeep(dst, limit, node, rel)
    decreases |rel|
  {
    if TooDeep(dst, limit, node, rel) && rel != [] {
      FindSome(node.entries, rel[0]);
      var i :| 0 <= i < |node.entries| && IsEntry(node.entries, rel[0], i);
      CopiedFits(root, src + [rel[0]], dst + [rel[0]], node.entries[i].node, f, limit, rel[1..]);
    } else {
      assert dst + [] == dst;
    }
  }

  /** Without faults, what does not offend is copied. */
  lemma {:induction false} ContainedCopies(root: Path, src: Path, dst: Path, node: Node, f: Faults, limit: nat)
    requires Clean(root) && Clean(src) && WellFormed(node) && Faultless(f, limit)
    requires forall rel :: Clean(src + rel) ==> !Escapes(root, src, node, rel)
    requires forall rel :: !TooDeep(dst, limit, node, rel)
    ensures Copies(root, src, dst, node, f)
    decreases node
  {
    if node.Dir? {
      assert !TooDeep(dst, limit, node, []) && dst + [] == dst;
      forall i | 0 <= i < |node.entries|
        ensures EntryCopies(root, src + [node.entries[i].name], ItemOf(node.entries[i].node), f)
        ensures Copies(root, src + [node.entries[i].name], dst + [node.entries[i].name], node.entries[i].node, f)
      {
        var name, child := node.entries[i].name, node.entries[i].node;
        EntryDoesNotOffend(root, src, node, f, limit, i);
        ChildDoesNotOffend(root, src, dst, node, limit, i);
        ContainedCopies(root, src + [name], dst + [name], child, f, limit);
      }
    }
  }

  lemma EntryDoesNotOffend(root: Path, src: Path, node: Node, f: Faults, limit: nat, i: nat)
    requires Clean(root) && Clean(src) && node.Dir? && WellFormed(node) && i < |node.entries| && Faultless(f, limit)
    requires forall rel :: Clean(src + rel) ==> !Escapes(root, src, node, rel)
    ensures EntryCopies(root, src + [node.entries[i].name], ItemOf(node.entries[i].node), f)
  {
    var name, child := node.entries[i].name, node.entries[i].node;
    FindEntry(node.entries, i);
    assert NodeAt(node, [name]) == NodeAt(child, []) == Some(child);
    assert Clean(src + [name]) && !Escapes(root, src, node, [name]);
    if child.Link? { LinkStaysIff(root, src + [name], child.text); }
  }

  lemma ChildDoesNotOffend(root: Path, src: Path, dst: Path, node: Node, limit: nat, i: nat)
    requires Clean(root) && Clean(src) && node.Dir? && WellFormed(node) && i < |node.entries|
    requires forall rel :: Clean(src + rel) ==> !Escapes(root, src, node, rel)
    requires forall rel :: !TooDeep(dst, limit, node, rel)
    ensures var at, child := [node.entries[i].name], node.entries[i].node;
      && (forall rel :: Clean(src + at + rel) ==> !Escapes(root, src + at, child, rel))
      && (forall rel :: !TooDeep(dst + at, limit, child, rel))
  {
    var name, child := node.entries[i].name, node.entries[i].node;
    FindEntry(node.entries, i);
    forall rel | Clean(src + [name] + rel) ensures !Escapes(root, src + [name], child, rel) {
      assert src + [name] + rel == src + ([name] + rel);
      assert ([name] + rel)[1..] == rel;
      assert !Escapes(root, src, node, [name] + rel);
    }
    forall rel ensures !TooDeep(dst + [name], limit, child, rel) {
      assert ([name] + rel)[1..] == rel;
      assert !TooDeep(dst, limit, node, [name] + rel);
    }
  }

  /** Without faults a directory is copied exactly when nothing in it escapes and no copy lies too deep. */
  lemma CopiesIffContained(root: Path, src: Path, dst: Path, node: Node, f: Faults, limit: nat)
    requires Clean(root) && Clean(src) && WellFormed(node) && node.Dir? && Faultless(f, limit)
    ensures Copies(root, src, dst, node, f) <==>
      && (forall rel :: Clean(src + rel) ==> !Escapes(root, src, node, rel))
      && (forall rel :: !TooDeep(dst, limit, node, rel))
  {
    if Copies(root, src, dst, node, f) {
      forall rel | Clean(src + rel) ensures !Escapes(root, src, node, rel) {
        CopiedIsContained(root, src, dst, node, f, rel);
      }
      forall rel ensures !TooDeep(dst, limit, node, rel) {
        CopiedFits(root, src, dst, node, f, limit, rel);
      }
    } else if
      && (forall rel :: Clean(src + rel) ==> !Escapes(root, src, node, rel))
      && (forall rel :: !TooDeep(dst, limit, node, rel))
    {
      ContainedCopies(root, src, dst, node, f, limit);
    }
  }

  // --------------------------------------------------------------------- copying, in place

  /** The directories on the way from `src` down to `dst` exist. */
  ghost predicate Lodged(items: map<Path, Item>, src: Path, dst: Path) {
    src <= dst && forall k :: |src| <= k < |dst| ==> At(items, dst[..k]) == Some(DirItem)
  }

  /** The names one step below a path. */
  function Children(items: map<Path, Item>, path: Path): set<string> {
    set p | p in items && |p| == |path| + 1 && path <= p :: p[|path|]
  }

  lemma ChildrenAre(items: map<Path, Item>, path: Path, name: string)
    ensures name in Children(items, path) <==> path + [name] in items
  {
    if name in Children(items, path) {
      var p :| p in items && |p| == |path| + 1 && path <= p && p[|path|] == name;
      assert p == path + [name];
    }
    if path + [name] in items {
      var p := path + [name];
      assert |p| == |path| + 1 && path <= p && p[|path|] == name;
    }
  }

  /** What the copy of a directory holds at `p` when the entries in `todo` are still missing. */
  ghost function PartItem(dst: Path, node: Node, todo: set<string>, p: Path): Option<Item>
    requires dst <= p
  {
    if p == dst then Some(DirItem) else if p[|dst|] in todo then None else Mirror(node, p[|dst|..])
  }

  ghost predicate PartCopied(items: map<Path, Item>, dst: Path, node: Node, todo: set<string>) {
    forall p :: dst <= p ==> At(items, p) == PartItem(dst, node, todo, p)
  }

  /** What copying one entry can rely on. */
  ghost predicate EntryReady(items: map<Path, Item>, root: Path, src: Path, dst: Path, name: string) {
    && Clean(root) && Clean(src) && Clean(dst) && Normal(name) && CleanItems(items)
    && src + [name] in items && Absent(items, dst + [name])
  }

  /** A tree known to lie under `src`, which `dst` is not part of. */
  ghost predicate Known(items: map<Path, Item>, src: Path, dst: Path, tree: Option<Node>) {
    tree.Some? ==> !(src <= dst) && WellFormed(tree.value) && Mirrors(items, src, tree.value)
  }

  class FileSystem {
    var items: map<Path, Item>

    /** copyRegularFile: open, truncate, write. */
    method CopyRegularFile(p: Path, data: Bytes, dst: Path, f: Faults) returns (ok: bool)
      modifies this
      ensures ok <==> f.copy(p).NoFault?
      ensures ok ==> items == old(items)[dst := FileItem(data)]
      ensures Elsewhere(old(items), items, dst) && items.Keys <= old(items).Keys + {dst}
    {
      match f.copy(p)
      case NotOpened =>
        ok := false;
      case Partial(left) =>
        items := items[dst := FileItem(left)];
        ok := false;
      case NoFault =>
        items := items[dst := FileItem(data)];
        ok := true;
    }

    /** One directory entry that is not itself a directory. */
    method CopyLeaf(root: Path, p: Path, dst: Path, f: Faults) returns (ok: bool)
      requires Clean(root) && Clean(p) && p != [] && p in items && !items[p].DirItem? && !f.lstat(p)
      modifies this
      ensures ok <==> EntryCopies(root, p, old(items)[p], f)
      ensures ok ==> items == old(items)[dst := old(items)[p]]
      ensures Elsewhere(old(items), items, dst) && items.Keys <= old(items).Keys + {dst}
    {
      match items[p]
      case LinkItem(text) =>
        if f.readlink(p) { return false; }
        if !IsWithinDir(root, LexicalTarget(p, text)) { return false; }
        if f.symlink(p) { return false; }
        items := items[dst := LinkItem(text)];
        return true;
      case SpecialItem(_) =>
        return false;
      case FileItem(data) =>
        ok := CopyRegularFile(p, data, dst, f);
    }

    /** One entry of the directory being copied: links and files here, directories by recursion. */
    method CopyEntry(root: Path, src: Path, dst: Path, name: string, f: Faults, limit: nat, ghost tree: Option<Node>)
      returns (ok: bool)
      requires EntryReady(items, root, src, dst, name) && Limited(f, limit) && |dst| <= limit
      requires Known(items, src + [name], dst + [name], tree)
      modifies this
      ensures Elsewhere(old(items), items, dst + [name]) && CleanItems(items)
      ensures Lodged(old(items), src + [name], dst + [name]) && old(items)[src + [name]].DirItem? ==> !ok
      ensures tree.Some? ==>
        (ok <==>
           && EntryCopies(root, src + [name], old(items)[src + [name]], f)
           && Copies(root, src + [name], dst + [name], tree.value, f))
      ensures tree.Some? && ok ==> Mirrors(items, dst + [name], tree.value)
      decreases limit - |dst|, 1
    {
      var srcPath, dstPath := src + [name], dst + [name];
      if f.lstat(srcPath) { return false; }
      if items[srcPath].DirItem? {
        TreeAt(items, srcPath, tree);
        ok := CopyDir(root, srcPath, dstPath, f, limit, tree);
      } else {
        TreeAt(items, srcPath, tree);
        ok := CopyLeaf(root, srcPath, dstPath, f);
        assert Clean(dstPath);
        if ok && tree.Some? { LeafMirrors(old(items), items, dstPath, tree.value); }
      }
    }

    /** copyDir. */
    method CopyDir(root: Path, src: Path, dst: Path, f: Faults, limit: nat, ghost tree: Option<Node>) returns (ok: bool)
      requires Clean(root) && Clean(src) && Clean(dst) && CleanItems(items) && Absent(items, dst) && Limited(f, limit)
      requires Known(items, src, dst, tree) && (tree.Some? ==> tree.value.Dir?)
      modifies this
      ensures Elsewhere(old(items), items, dst) && CleanItems(items)
      ensures Lodged(old(items), src, dst) ==> !ok
      ensures tree.Some? ==> (ok <==> Copies(root, src, dst, tree.value, f))
      ensures tree.Some? && ok ==> Mirrors(items, dst, tree.value)
      decreases limit + 1 - |dst|, 0
    {
      hide Copies;
      if src !in items || f.stat(src) { CopiesNeeds(items, root, src, dst, f, tree); return false; }
      assert !(dst <= src);
      if f.mkdir(dst) { CopiesNeeds(items, root, src, dst, f, tree); return false; }
      items := items[dst := DirItem];
      if f.readDir(src) { CopiesNeeds(old(items), root, src, dst, f, tree); return false; }
      var todo := Children(items, src);
      Begun(old(items), items, root, src, dst, f, tree);
      while todo != {}
        invariant Elsewhere(old(items), items, dst) && CleanItems(items) && src in items
        invariant forall n <- todo :: Normal(n) && src + [n] in items && Absent(items, dst + [n])
        invariant Lodged(old(items), src, dst) ==> Nested(items, src, dst, todo)
        invariant tree.Some? ==> Halfway(items, root, src, dst, f, tree.value, todo)
        decreases todo
      {
        var name :| name in todo;
        ghost var before, full, child := items, todo, ChildOf(tree, name);
        EntryKnown(items, src, dst, tree, name);
        if Lodged(old(items), src, dst) { NestedDeeper(items, src, dst, todo, name); }
        var done := CopyEntry(root, src, dst, name, f, limit, child);
        ElsewhereUp(before, items, dst, name);
        if !done {
          if tree.Some? { EntryFails(before, root, src, dst, f, tree.value, name); }
          return false;
        }
        todo := todo - {name};
        StillReady(old(items), before, items, src, dst, todo, name);
        if Lodged(old(items), src, dst) { StillNested(before, items, src, dst, todo, name); }
        if tree.Some? { Further(before, items, root, src, dst, f, tree.value, full, name); }
      }
      if tree.Some? { AllCopied(items, root, src, dst, f, tree.value); }
      return true;
    }

    /** Remove a whole tree. */
    method RemoveAll(dst: Path)
      modifies this
      ensures forall p :: At(items, p) == if dst <= p then None else At(old(items), p)
    {
      items := map p | p in items && !(dst <= p) :: items[p];
    }

    /**
     * copyFile: `resolved` says whether the artifact resolves inside the source directory. A destination
     * inside the artifact always fails, one outside it exactly when the artifact does not copy. A successful
     * copy mirrors the artifact with every link inside. A refused artifact changes nothing; any other failure
     * takes away whatever is at the destination, which is no trace only where there was nothing. A file copied
     * onto itself is emptied, or lost.
     */
    method CopyFile(src: Path, dst: Path, resolved: bool, f: Faults, limit: nat, ghost tree: Node) returns (ok: bool)
      requires Clean(src) && Clean(dst) && CleanItems(items) && Limited(f, limit)
      requires WellFormed(tree) && (src in items ==> Mirrors(items, src, tree))
      requires Absent(items, dst) || (!tree.Dir? && (dst in items ==> items[dst].FileItem? || items[dst].DirItem?))
      requires Absent(items, dst) && src <= dst ==> Lodged(items, src, dst)
      modifies this
      ensures ok <==>
        && src in old(items) && resolved && !tree.Link? && !IsDir(old(items), dst)
        && !(tree.Dir? && src <= dst) && ArtifactCopies(src, dst, tree, f)
      ensures ok && Absent(old(items), dst) ==> Mirrors(items, dst, AsCopied(tree)) && Elsewhere(old(items), items, dst)
      ensures ok && !tree.Dir? ==>
        items == old(items)[dst := FileItem(if src == dst then [] else ItemOf(AsCopied(tree)).data)]
      ensures ok ==> forall rel :: Clean(src + rel) ==> !Escapes(src, src, tree, rel)
      ensures !ok && (src !in old(items) || !resolved || tree.Link?) ==> items == old(items)
      ensures !ok && src in old(items) && resolved && !tree.Link? ==>
        forall p :: At(items, p) == if dst <= p then None else At(old(items), p)
      ensures !ok && Absent(old(items), dst) ==> items == old(items)
    {
      if src !in items || !resolved { return false; }
      TreeAt(items, src, Some(tree));
      if items[src].LinkItem? { return false; }
      if items[src].DirItem? {
        ok := CopyDir(src, src, dst, f, limit, if src <= dst then None else Some(tree));
        if ok { Contained(src, dst, tree, f); }
      } else if dst in items && items[dst].DirItem? {
        ok := false;                                                    // a directory cannot be opened for writing
      } else {
        ok := CopyRegularFile(src, if src == dst then [] else items[src].data, dst, f);
        LeafContained(src, tree);
        if ok && Absent(old(items), dst) { LeafMirrors(old(items), items, dst, AsCopied(tree)); }
      }
      if !ok {
        RemoveAll(dst);
        if Absent(old(items), dst) { SameItems(old(items), items, dst); }
      }
    }
  }

  predicate IsDir(items: map<Path, Item>, p: Path) { p in items && items[p].DirItem? }

  /** A copy into the source: the directories down to `dst` exist, and the first of them is still to be read. */
  ghost predicate Nested(items: map<Path, Item>, src: Path, dst: Path, todo: set<string>) {
    && src < dst && dst[|src|] in todo
    && forall k :: |src| <= k <= |dst| ==> At(items, dst[..k]) == Some(DirItem)
  }

  /** A copy of a known tree with the entries in `todo` still missing. */
  ghost predicate Halfway(items: map<Path, Item>, root: Path, src: Path, dst: Path, f: Faults, node: Node,
                          todo: set<string>)
    requires Clean(root) && Clean(src)
  {
    && node.Dir? && WellFormed(node) && !(src <= dst)
    && Mirrors(items, src, node) && PartCopied(items, dst, node, todo)
    && !f.stat(src) && !f.mkdir(dst) && !f.readDir(src)
    && forall i :: 0 <= i < |node.entries| && node.entries[i].name !in todo ==> EntryDone(root, src, dst, f, node, i)
  }

  ghost predicate EntryDone(root: Path, src: Path, dst: Path, f: Faults, node: Node, i: nat)
    requires Clean(root) && Clean(src) && node.Dir? && WellFormed(node) && i < |node.entries|
  {
    && EntryCopies(root, src + [node.entries[i].name], ItemOf(node.entries[i].node), f)
    && Copies(root, src + [node.entries[i].name], dst + [node.entries[i].name], node.entries[i].node, f)
  }

  ghost function ChildOf(tree: Option<Node>, name: string): Option<Node> {
    if tree.Some? && tree.value.Dir? then Find(tree.value.entries, name) else None
  }

  lemma TreeAt(items: map<Path, Item>, p: Path, tree: Option<Node>)
    requires p in items && (tree.Some? ==> Mirrors(items, p, tree.value))
    ensures tree.Some? ==> items[p] == ItemOf(tree.value)
  {
    if tree.Some? { assert p <= p && p[|p|..] == [] && At(items, p) == Mirror(tree.value, []); }
  }

  lemma LeafMirrors(before: map<Path, Item>, after: map<Path, Item>, dst: Path, node: Node)
    requires Absent(before, dst) && after == before[dst := ItemOf(node)] && !node.Dir?
    ensures Mirrors(after, dst, node)
  {
    forall p | dst <= p ensures At(after, p) == Mirror(node, p[|dst|..]) {
      if p[|dst|..] == [] { assert p == dst; }
    }
  }

  lemma CopiesNeeds(items: map<Path, Item>, root: Path, src: Path, dst: Path, f: Faults, tree: Option<Node>)
    requires Clean(root) && Clean(src) && Known(items, src, dst, tree) && (tree.Some? ==> tree.value.Dir?)
    requires src !in items || f.stat(src) || f.mkdir(dst) || f.readDir(src)
    ensures tree.Some? ==> !Copies(root, src, dst, tree.value, f)
  {
    if tree.Some? { assert src <= src && src[|src|..] == [] && At(items, src) == Mirror(tree.value, []); }
  }

  lemma PrefixStep(a: Path, m: string, p: Path)
    ensures a + [m] <= p ==> a <= p && |a| < |p| && p[|a|] == m
  {
  }

  lemma PrefixTake(a: Path, b: Path)
    ensures a <= b ==> b[..|a|] == a
  {
  }

  lemma LastStep(a: Path, m: string, b: Path, n: string)
    ensures a + [m] <= b + [n] ==> a <= b
  {
    assert |a| <= |b| ==> (b + [n])[..|a|] == b[..|a|];
  }

  lemma Comparable(a: Path, b: Path, p: Path)
    ensures a <= p && b <= p ==> a <= b || b <= a
  {
    assert a <= p && b <= p && |a| <= |b| ==> p[..|b|][..|a|] == p[..|a|];
    assert a <= p && b <= p && |b| <= |a| ==> p[..|a|][..|b|] == p[..|b|];
  }

  /** Writing below a destination that did not exist leaves the entries of the source alone. */
  lemma SourceApart(items: map<Path, Item>, src: Path, dst: Path, n: string, m: string)
    requires src in items && Absent(items, dst)
    ensures !(dst + [m] <= src + [n]) && !(dst <= src)
  {
    LastStep(dst, m, src, n);
  }

  lemma Begun(before: map<Path, Item>, items: map<Path, Item>, root: Path, src: Path, dst: Path, f: Faults,
              tree: Option<Node>)
    requires Clean(root) && Clean(src) && Clean(dst) && CleanItems(before) && Absent(before, dst) && src in before
    requires Known(before, src, dst, tree) && (tree.Some? ==> tree.value.Dir?)
    requires items == before[dst := DirItem] && !f.stat(src) && !f.mkdir(dst) && !f.readDir(src)
    ensures forall n <- Children(items, src) :: Normal(n) && src + [n] in items && Absent(items, dst + [n])
    ensures Lodged(before, src, dst) ==> Nested(items, src, dst, Children(items, src))
    ensures tree.Some? ==> Halfway(items, root, src, dst, f, tree.value, Children(items, src))
  {
    var todo := Children(items, src);
    forall n <- todo ensures Normal(n) && src + [n] in items && Absent(items, dst + [n]) {
      ChildrenAre(items, src, n);
      assert n == (src + [n])[|src|] && Clean(src + [n]);
      forall p <- items ensures !(dst + [n] <= p) {
        PrefixStep(dst, n, p);
      }
    }
    if Lodged(before, src, dst) { BegunInside(before, items, src, dst); }
    if tree.Some? { BegunOutside(before, items, root, src, dst, f, tree.value); }
  }

  lemma BegunInside(before: map<Path, Item>, items: map<Path, Item>, src: Path, dst: Path)
    requires Absent(before, dst) && src in before && items == before[dst := DirItem] && Lodged(before, src, dst)
    ensures Nested(items, src, dst, Children(items, src))
  {
    assert src != dst;
    forall k | |src| <= k <= |dst| ensures At(items, dst[..k]) == Some(DirItem) {
      if k == |dst| { assert dst[..k] == dst; }
    }
    var a := dst[|src|];
    assert dst[..|src| + 1] == src + [a];
    assert At(items, dst[..|src| + 1]) == Some(DirItem);
    ChildrenAre(items, src, a);
  }

  lemma BegunOutside(before: map<Path, Item>, items: map<Path, Item>, root: Path, src: Path, dst: Path, f: Faults,
                     node: Node)
    requires Clean(root) && Clean(src) && Absent(before, dst) && src in before && items == before[dst := DirItem]
    requires !(src <= dst) && node.Dir? && WellFormed(node) && Mirrors(before, src, node)
    requires !f.stat(src) && !f.mkdir(dst) && !f.readDir(src)
    ensures Halfway(items, root, src, dst, f, node, Children(items, src))
  {
    var todo := Children(items, src);
    assert Mirrors(items, src, node);
    forall n ensures n in todo <==> n in Names(node) {
      ChildrenAre(items, src, n);
      EntriesFound(items, src, node, n);
    }
    forall p | dst <= p ensures At(items, p) == PartItem(dst, node, todo, p) {
      if p != dst {
        EntriesFound(items, src, node, p[|dst|]);
        assert p !in before;
      }
    }
  }

  lemma EntryKnown(items: map<Path, Item>, src: Path, dst: Path, tree: Option<Node>, name: string)
    requires src + [name] in items
    requires Known(items, src, dst, tree) && (tree.Some? ==> tree.value.Dir?)
    ensures Known(items, src + [name], dst + [name], ChildOf(tree, name))
    ensures tree.Some? ==> ChildOf(tree, name).Some?
  {
    if tree.Some? {
      EntriesFound(items, src, tree.value, name);
      ChildMirrors(items, src, tree.value, name);
      FindSome(tree.value.entries, name);
      LastStep(src, name, dst, name);
    }
  }

  lemma NestedDeeper(items: map<Path, Item>, src: Path, dst: Path, todo: set<string>, name: string)
    requires Nested(items, src, dst, todo) && src + [name] in items
    ensures name == dst[|src|] ==> Lodged(items, src + [name], dst + [name]) && items[src + [name]].DirItem?
  {
    if name == dst[|src|] {
      assert src + [name] == dst[..|src| + 1] == (dst + [name])[..|src| + 1];
      forall k | |src| + 1 <= k < |dst| + 1 ensures At(items, (dst + [name])[..k]) == Some(DirItem) {
        assert (dst + [name])[..k] == dst[..k];
      }
      assert At(items, dst[..|src| + 1]) == Some(DirItem);
    }
  }

  lemma EntryFails(items: map<Path, Item>, root: Path, src: Path, dst: Path, f: Faults, node: Node, name: string)
    requires Clean(root) && Clean(src) && Normal(name) && node.Dir? && WellFormed(node) && Mirrors(items, src, node)
    requires src + [name] in items && Find(node.entries, name).Some? && WellFormed(Find(node.entries, name).value)
    requires !(EntryCopies(root, src + [name], items[src + [name]], f)
               && Copies(root, src + [name], dst + [name], Find(node.entries, name).value, f))
    ensures !Copies(root, src, dst, node, f)
  {
    FindSome(node.entries, name);
    ChildMirrors(items, src, node, name);
    TreeAt(items, src + [name], Find(node.entries, name));
  }

  lemma ElsewhereUp(before: map<Path, Item>, after: map<Path, Item>, dst: Path, name: string)
    requires Elsewhere(before, after, dst + [name])
    ensures Elsewhere(before, after, dst)
  {
    forall p | !(dst <= p) ensures At(after, p) == At(before, p) {
      assert dst + [name] <= p ==> dst <= p;
    }
  }

  lemma StillReady(start: map<Path, Item>, before: map<Path, Item>, after: map<Path, Item>, src: Path, dst: Path,
                   todo: set<string>, name: string)
    requires src in start && Absent(start, dst) && src in before && name !in todo
    requires Elsewhere(before, after, dst + [name])
    requires forall n <- todo :: src + [n] in before && Absent(before, dst + [n])
    ensures src in after && forall n <- todo :: src + [n] in after && Absent(after, dst + [n])
  {
    SourceApart(start, src, dst, "", name);
    PrefixStep(dst, name, src);
    assert At(after, src) == At(before, src);
    forall n <- todo ensures src + [n] in after && Absent(after, dst + [n]) {
      SourceApart(start, src, dst, n, name);
      assert At(after, src + [n]) == At(before, src + [n]);
      forall p | dst + [n] <= p ensures p !in after {
        PrefixStep(dst, n, p);
        PrefixStep(dst, name, p);
        assert At(after, p) == At(before, p);
      }
    }
  }

  lemma StillNested(before: map<Path, Item>, after: map<Path, Item>, src: Path, dst: Path, todo: set<string>,
                    name: string)
    requires Nested(before, src, dst, todo + {name}) && name != dst[|src|] && Elsewhere(before, after, dst + [name])
    ensures Nested(after, src, dst, todo)
  {
    forall k | |src| <= k <= |dst| ensures At(after, dst[..k]) == Some(DirItem) {
      assert !(dst + [name] <= dst[..k]);
      assert At(after, dst[..k]) == At(before, dst[..k]);
    }
  }

  /** One more entry copied. */
  lemma Further(before: map<Path, Item>, after: map<Path, Item>, root: Path, src: Path, dst: Path, f: Faults,
                node: Node, full: set<string>, name: string)
    requires Clean(root) && Clean(src) && Normal(name) && name in full && src in before && src + [name] in before
    requires Halfway(before, root, src, dst, f, node, full) && !(dst <= src)
    requires Elsewhere(before, after, dst + [name]) && Find(node.entries, name).Some?
    requires WellFormed(Find(node.entries, name).value) && Mirrors(after, dst + [name], Find(node.entries, name).value)
    requires EntryCopies(root, src + [name], before[src + [name]], f)
    requires Copies(root, src + [name], dst + [name], Find(node.entries, name).value, f)
    ensures Halfway(after, root, src, dst, f, node, full - {name})
  {
    hide Copies;
    var todo := full - {name};
    assert full == todo + {name};
    SourceKept(before, after, src, dst, node, name);
    CopyGrows(before, after, dst, node, todo, name);
    ChildMirrors(before, src, node, name);
    TreeAt(before, src + [name], Find(node.entries, name));
    forall i | 0 <= i < |node.entries| && node.entries[i].name !in todo ensures EntryDone(root, src, dst, f, node, i) {
      if node.entries[i].name == name { FindEntry(node.entries, i); }
    }
  }

  lemma SourceKept(before: map<Path, Item>, after: map<Path, Item>, src: Path, dst: Path, node: Node, name: string)
    requires Mirrors(before, src, node) && Elsewhere(before, after, dst + [name]) && !(src <= dst) && !(dst <= src)
    ensures Mirrors(after, src, node)
  {
    forall p | src <= p ensures At(after, p) == Mirror(node, p[|src|..]) {
      PrefixStep(dst, name, p);
      Comparable(src, dst, p);
      assert At(after, p) == At(before, p);
    }
  }

  lemma CopyGrows(before: map<Path, Item>, after: map<Path, Item>, dst: Path, node: Node, todo: set<string>,
                  name: string)
    requires node.Dir? && PartCopied(before, dst, node, todo + {name}) && name !in todo
    requires Elsewhere(before, after, dst + [name]) && Find(node.entries, name).Some?
    requires Mirrors(after, dst + [name], Find(node.entries, name).value)
    ensures PartCopied(after, dst, node, todo)
  {
    var at, child := dst + [name], Find(node.entries, name).value;
    forall p | dst <= p ensures At(after, p) == PartItem(dst, node, todo, p) {
      if p != dst && p[|dst|] == name {
        assert at <= p && p[|dst|..][0] == name && p[|dst|..][1..] == p[|at|..];
        assert At(after, p) == Mirror(child, p[|at|..]);
      } else {
        assert !(at <= p);
        assert At(after, p) == At(before, p) == PartItem(dst, node, todo + {name}, p);
      }
    }
  }

  lemma AllCopied(items: map<Path, Item>, root: Path, src: Path, dst: Path, f: Faults, node: Node)
    requires Clean(root) && Clean(src) && Halfway(items, root, src, dst, f, node, {})
    ensures Copies(root, src, dst, node, f) && Mirrors(items, dst, node)
  {
    forall i | 0 <= i < |node.entries|
      ensures EntryCopies(root, src + [node.entries[i].name], ItemOf(node.entries[i].node), f)
      ensures Copies(root, src + [node.entries[i].name], dst + [node.entries[i].name], node.entries[i].node, f)
    {
      assert EntryDone(root, src, dst, f, node, i);
    }
    forall p | dst <= p ensures At(items, p) == Mirror(node, p[|dst|..]) {
      assert At(items, p) == PartItem(dst, node, {}, p);
      if p == dst { assert p[|dst|..] == []; }
    }
  }

  /** A special file at the top is read like a regular one. */
  function AsCopied(node: Node): Node { if node.Special? then File(node.data) else node }

  /** When an artifact outside the destination copies. */
  ghost predicate ArtifactCopies(src: Path, dst: Path, node: Node, f: Faults)
    requires Clean(src) && WellFormed(node)
  {
    match node
    case Link(_) => false
    case Dir(_) => Copies(src, src, dst, node, f)
    case _ => f.copy(src).NoFault?
  }

  lemma Contained(src: Path, dst: Path, node: Node, f: Faults)
    requires Clean(src) && WellFormed(node) && Copies(src, src, dst, node, f)
    ensures forall rel :: Clean(src + rel) ==> !Escapes(src, src, node, rel)
  {
    forall rel | Clean(src + rel) ensures !Escapes(src, src, node, rel) {
      CopiedIsContained(src, src, dst, node, f, rel);
    }
  }

  /** A single file has no links in it. */
  lemma LeafContained(src: Path, node: Node)
    requires Clean(src) && WellFormed(node) && (node.File? || node.Special?)
    ensures forall rel :: Clean(src + rel) ==> !Escapes(src, src, node, rel)
  {
  }

  lemma SameItems(before: map<Path, Item>, after: map<Path, Item>, dst: Path)
    requires Absent(before, dst)
    requires forall p :: At(after, p) == if dst <= p then None else At(before, p)
    ensures after == before
  {
    forall p ensures At(after, p) == At(before, p) {}
    assert forall p :: p in after <==> At(after, p).Some?;
    assert forall p :: p in before <==> At(before, p).Some?;
    assert forall p <- after :: Some(after[p]) == At(after, p) == Some(before[p]);
  }

  /** An empty directory copied into itself: nothing in it offends, yet by CopyFile's contract the copy fails. */
  lemma SelfCopyExample(f: Faults, limit: nat)
    requires Faultless(f, limit) && limit >= 2
    ensures var src, dst, items, tree := ["dist"], ["dist", "dist"], map[["dist"] := DirItem], Dir([]);
      && Clean(src) && WellFormed(tree) && Mirrors(items, src, tree) && Absent(items, dst)
      && Lodged(items, src, dst) && ArtifactCopies(src, dst, tree, f)
  {
    var src, dst, items, tree := ["dist"], ["dist", "dist"], map[["dist"] := DirItem], Dir([]);
    forall p | src <= p ensures At(items, p) == Mirror(tree, p[|src|..]) {
      if p[|src|..] == [] { assert p == src; }
    }
    assert dst[..1] == src;
    assert "dist" != "" && "dist" != "." && "dist" != "..";
  }
}
