/** `tarstream`: a directory becomes a stream of entries, and the stream becomes the directory again. */
module TarStream {
  import opened Basics

  datatype TarEntry = DirEntry(name: Path) | FileEntry(name: Path, mode: nat, content: Bytes)

  /** What a reader can get out of a stream: entries, then either the end of the archive or an error. */
  datatype Stream = Stream(entries: seq<TarEntry>, intact: bool)

  function Parent(p: Path): Path
    requires p != []
  {
    p[..|p| - 1]
  }

  predicate IsFolder(d: Dir, p: Path) {
    p == [] || (p in d && d[p].Folder?)
  }

  /** What a file system guarantees of the contents of a directory. */
  ghost predicate ParentClosed(d: Dir) {
    forall p <- d :: p != [] && IsFolder(d, Parent(p))
  }

  // ---- Sending ----

  function EntryFor(d: Dir, p: Path): TarEntry
    requires p in d
  {
    match d[p]
    case Folder => DirEntry(p)
    case File(mode, content) => FileEntry(p, mode, content)
  }

  /** Everything strictly below `base`. */
  function Below(d: Dir, base: Path): set<Path> {
    set p | p in d && |p| > |base| && p[..|base|] == base
  }

  ghost predicate ListedBefore(es: seq<TarEntry>, i: nat, p: Path)
    requires i <= |es|
  {
    exists j :: 0 <= j < i && es[j].name == p
  }

  ghost predicate Covers(s: set<Path>, es: seq<TarEntry>) {
    forall p <- s :: ListedBefore(es, |es|, p)
  }

  ghost predicate Faithful(d: Dir, s: set<Path>, es: seq<TarEntry>) {
    && s <= d.Keys
    && forall i :: 0 <= i < |es| ==> es[i].name in s && es[i] == EntryFor(d, es[i].name)
  }

  ghost predicate Distinct(es: seq<TarEntry>) {
    forall i, j :: 0 <= i < j < |es| ==> es[i].name != es[j].name
  }

  ghost predicate ParentFirst(base: Path, es: seq<TarEntry>) {
    forall i :: 0 <= i < |es| ==>
      es[i].name != [] && (Parent(es[i].name) == base || ListedBefore(es, i, Parent(es[i].name)))
  }

  /** `es` lists every path of `s` once, with what `d` has there, and after its parent unless that is `base`. */
  ghost predicate Lists(d: Dir, base: Path, s: set<Path>, es: seq<TarEntry>) {
    Covers(s, es) && Faithful(d, s, es) && Distinct(es) && ParentFirst(base, es)
  }

  lemma CoversConcat(s: set<Path>, es: seq<TarEntry>, s': set<Path>, es': seq<TarEntry>)
    requires Covers(s, es) && Covers(s', es')
    ensures Covers(s + s', es + es')
  {
    var all := es + es';
    forall p <- s + s' ensures ListedBefore(all, |all|, p) {
      if p in s {
        var i :| 0 <= i < |es| && es[i].name == p;
        assert all[i].name == p;
      } else {
        assert ListedBefore(es', |es'|, p);
        var i :| 0 <= i < |es'| && es'[i].name == p;
        assert all[|es| + i].name == p;
      }
    }
  }

  lemma ListedConcat(es: seq<TarEntry>, es': seq<TarEntry>, i: nat, p: Path)
    requires (i <= |es| && ListedBefore(es, i, p)) || (|es| <= i <= |es + es'| && ListedBefore(es, |es|, p))
          || (|es| <= i <= |es + es'| && ListedBefore(es', i - |es|, p))
    ensures i <= |es + es'| && ListedBefore(es + es', i, p)
  {
    var all := es + es';
    if j :| 0 <= j < i && j < |es| && es[j].name == p {
      assert all[j].name == p;
    } else {
      var j :| 0 <= j < i - |es| && es'[j].name == p;
      assert all[|es| + j].name == p;
    }
  }

  lemma ParentFirstConcat(base: Path, es: seq<TarEntry>, base': Path, es': seq<TarEntry>)
    requires ParentFirst(base, es) && ParentFirst(base', es')
    requires base' == base || ListedBefore(es, |es|, base')
    ensures ParentFirst(base, es + es')
  {
    var all := es + es';
    forall i | 0 <= i < |all|
      ensures all[i].name != [] && (Parent(all[i].name) == base || ListedBefore(all, i, Parent(all[i].name)))
    {
      var e := if i < |es| then es[i] else es'[i - |es|];
      assert all[i] == e && e.name != [];
      if Parent(e.name) != base {
        ListedConcat(es, es', i, Parent(e.name));
      }
    }
  }

  lemma ListsConcat(d: Dir, base: Path, s: set<Path>, es: seq<TarEntry>, base': Path, s': set<Path>, es': seq<TarEntry>)
    requires Lists(d, base, s, es) && Lists(d, base', s', es') && s !! s'
    requires base' == base || base' in s
    ensures Lists(d, base, s + s', es + es')
  {
    CoversConcat(s, es, s', es');
    ParentFirstConcat(base, es, base', es');
  }

  /** Every ancestor of a path of `d` is a folder of `d`. */
  lemma {:induction false} Ancestor(d: Dir, p: Path, k: nat)
    requires ParentClosed(d) && p in d && 0 < k <= |p|
    ensures p[..k] in d && (k < |p| ==> d[p[..k]].Folder?)
    decreases |p|
  {
    if k == |p| {
      assert p[..k] == p;
    } else if k == |p| - 1 {
      assert p[..k] == Parent(p);
    } else {
      Ancestor(d, Parent(p), k);
      assert Parent(p)[..k] == p[..k];
    }
  }

  class Writer {
    var entries: seq<TarEntry>
    var closed: bool

    constructor ()
      ensures entries == [] && !closed
    {
      entries, closed := [], false;
    }
  }

  /** A path and everything below it. */
  function Subtree(d: Dir, p: Path): set<Path>
    requires p in d
  {
    {p} + Below(d, p)
  }

  predicate IsChild(d: Dir, base: Path, p: Path) {
    p in d && |p| == |base| + 1 && p[..|base|] == base
  }

  /** What `d` is at every moment from `now` on. */
  ghost predicate Steady(at: seq<Dir>, now: nat, d: Dir) {
    now < |at| && forall k :: now <= k < |at| ==> at[k] == d
  }

  /**
   `filepath.Walk` below `base`; siblings come in whatever order the directory is read. Each read of the
   file system happens at some moment no earlier than the one before: `at[k]` is the directory then.
   */
  method Walk(at: seq<Dir>, now: nat, ghost d: Dir, base: Path, w: Writer) returns (later: nat, ghost es: seq<TarEntry>)
    requires Steady(at, now, d) && ParentClosed(d) && IsFolder(d, base)
    modifies w
    ensures now <= later < |at|
    ensures w.entries == old(w.entries) + es && w.closed == old(w.closed)
    ensures Lists(d, base, Below(d, base), es)
    decreases |Below(d, base)|, 1
  {
    ghost var done: set<Path> := {};
    es := [];
    later :| now <= later < |at|;
    var names := set p | p in at[later] && |p| == |base| + 1 && p[..|base|] == base;
    ChildrenCover(d, base, names);
    while names != {}
      invariant now <= later < |at|
      invariant w.entries == old(w.entries) + es && w.closed == old(w.closed)
      invariant forall p <- names :: IsChild(d, base, p)
      invariant Visited(d, base, names, done)
      invariant Lists(d, base, done, es)
      decreases |names|
    {
      var p :| p in names;
      ghost var subtree;
      later, subtree := VisitChild(at, later, d, base, p, w);
      VisitedGrows(d, base, names, done, p);
      ListsConcat(d, base, done, es, base, Subtree(d, p), subtree);
      Associative(old(w.entries), es, subtree);
      es := es + subtree;
      names := names - {p};
      done := done + Subtree(d, p);
    }
    assert done == Below(d, base);
  }

  /** The callback on one path, and the walk below it if it is a directory. */
  method VisitChild(at: seq<Dir>, now: nat, ghost d: Dir, base: Path, p: Path, w: Writer)
      returns (later: nat, ghost es: seq<TarEntry>)
    requires Steady(at, now, d) && ParentClosed(d) && IsFolder(d, base) && IsChild(d, base, p)
    modifies w
    ensures now <= later < |at|
    ensures w.entries == old(w.entries) + es && w.closed == old(w.closed)
    ensures Lists(d, base, Subtree(d, p), es)
    decreases |Below(d, base)|, 0
  {
    later :| now <= later < |at|;
    var info := at[later][p];
    ghost var below: seq<TarEntry> := [];
    if info.Folder? {
      w.entries := w.entries + [DirEntry(p)];
      BelowChild(d, base, p);
      later, below := Walk(at, later, d, p, w);
    } else {
      var stat := later;
      later :| stat <= later < |at|;
      w.entries := w.entries + [FileEntry(p, info.mode, at[later][p].content)];
      NothingBelowFile(d, p);
    }
    ListsSubtree(d, base, p, below);
    Associative(old(w.entries), [EntryFor(d, p)], below);
    es := [EntryFor(d, p)] + below;
  }

  /** What the loop of `Walk` has listed: the subtrees of the children it has taken. */
  ghost predicate Visited(d: Dir, base: Path, names: set<Path>, done: set<Path>) {
    && done <= Below(d, base)
    && forall p <- Below(d, base) :: p in done <==> p[..|base| + 1] !in names
  }

  lemma ChildrenCover(d: Dir, base: Path, names: set<Path>)
    requires ParentClosed(d) && names == set p | p in d && |p| == |base| + 1 && p[..|base|] == base
    ensures Visited(d, base, names, {})
  {
    forall p <- Below(d, base) ensures p[..|base| + 1] in names {
      Ancestor(d, p, |base| + 1);
      assert p[..|base| + 1][..|base|] == base;
    }
  }

  lemma VisitedGrows(d: Dir, base: Path, names: set<Path>, done: set<Path>, p: Path)
    requires IsChild(d, base, p) && p in names && Visited(d, base, names, done)
    ensures done !! Subtree(d, p)
    ensures Visited(d, base, names - {p}, done + Subtree(d, p))
  {
    BelowChild(d, base, p);
    assert p[..|base| + 1] == p;
  }

  lemma Associative<T>(a: seq<T>, b: seq<T>, c: seq<T>)
    ensures (a + b) + c == a + (b + c)
  {
  }

  lemma ListsOne(d: Dir, base: Path, p: Path)
    requires IsChild(d, base, p)
    ensures Lists(d, base, {p}, [EntryFor(d, p)])
  {
    assert [EntryFor(d, p)][0].name == p;
    assert Parent(p) == base;
  }

  lemma ListsSubtree(d: Dir, base: Path, p: Path, below: seq<TarEntry>)
    requires IsChild(d, base, p) && Lists(d, p, Below(d, p), below)
    ensures Lists(d, base, Subtree(d, p), [EntryFor(d, p)] + below)
  {
    ListsOne(d, base, p);
    ListsConcat(d, base, {p}, [EntryFor(d, p)], p, Below(d, p), below);
  }

  lemma BelowChild(d: Dir, base: Path, p: Path)
    requires p in d && |p| == |base| + 1 && p[..|base|] == base
    ensures |Below(d, p)| < |Below(d, base)| && Subtree(d, p) <= Below(d, base)
    ensures forall q <- Below(d, base) :: q in Below(d, p) + {p} <==> q[..|base| + 1] == p
  {
    forall q <- Below(d, p) ensures q in Below(d, base) {
      assert q[..|base|] == q[..|p|][..|base|];
    }
    forall q <- Below(d, base) | q[..|base| + 1] == p ensures q in Below(d, p) + {p} {
      if |q| == |p| { assert q == q[..|p|]; }
    }
    assert p in Below(d, base) && p !in Below(d, p);
    SetSmaller(Below(d, p), Below(d, base));
  }

  lemma SetSmaller<T>(a: set<T>, b: set<T>)
    requires a < b
    ensures |a| < |b|
  {
    assert |b - a| > 0 by {
      var x :| x in b && x !in a;
      assert x in b - a;
    }
    assert b == a + (b - a);
  }

  lemma NothingBelowFile(d: Dir, p: Path)
    requires ParentClosed(d) && p in d && d[p].File?
    ensures Below(d, p) == {}
  {
    if q :| q in Below(d, p) {
      assert p != [];
      Ancestor(d, q, |p|);
    }
  }

  /** `Send` while the directory holds still. */
  method Send(at: seq<Dir>, ghost d: Dir, w: Writer)
    requires Steady(at, 0, d) && ParentClosed(d) && w.entries == []
    modifies w
    ensures Lists(d, [], d.Keys, w.entries) && w.closed
  {
    var later;
    ghost var es;
    later, es := Walk(at, 0, d, [], w);
    assert Below(d, []) == d.Keys;
    assert [] + es == es;
    w.closed := true;
  }

  // ---- Receiving ----

  /**
   `filepath.Join(base, name)` for an absolute `base`, with the name given as its components between
   slashes: empty components and single dots vanish, double dots climb.
   */
  function Join(base: Path, name: Path): Path {
    if name == [] then base
    else
      var front, c := Join(base, name[..|name| - 1]), name[|name| - 1];
      if c == "" || c == "." then front
      else if c == ".." then (if front == [] then [] else Parent(front))
      else front + [c]
  }

  /** The entry with its name made absolute. */
  function Target(base: Path, e: TarEntry): TarEntry {
    e.(name := Join(base, e.name))
  }

  function Targets(base: Path, es: seq<TarEntry>): (ts: seq<TarEntry>)
    ensures |ts| == |es|
  {
    if es == [] then [] else Targets(base, es[..|es| - 1]) + [Target(base, es[|es| - 1])]
  }

  /** Writing without `O_TRUNC` over a file that is already there. */
  function Overwrite(was: Bytes, data: Bytes): Bytes {
    if |data| < |was| then data + was[|data|..] else data
  }

  /** One entry applied to a directory, or None where the system call fails. */
  function Put(d: Dir, e: TarEntry): Option<Dir> {
    if e.name == [] || !IsFolder(d, Parent(e.name)) then None
    else match e
      case DirEntry(p) => if p in d then None else Some(d[p := Folder])
      case FileEntry(p, mode, content) =>
        if p !in d then Some(d[p := File(mode, content)])
        else match d[p]
          case Folder => None
          case File(m, c) => Some(d[p := File(m, Overwrite(c, content))])
  }

  function Replay(d: Dir, es: seq<TarEntry>): Option<Dir> {
    if es == [] then Some(d)
    else match Replay(d, es[..|es| - 1])
      case None => None
      case Some(d') => Put(d', es[|es| - 1])
  }

  class Disk {
    var files: Dir

    constructor (found: Dir)
      ensures files == found
    {
      files := found;
    }

    /** `os.Mkdir`. */
    method MakeDir(p: Path) returns (ok: bool)
      modifies this
      ensures ok == Put(old(files), DirEntry(p)).Some?
      ensures if ok then Put(old(files), DirEntry(p)) == Some(files) else files == old(files)
    {
      ok := p != [] && IsFolder(files, Parent(p)) && p !in files;
      if ok {
        files := files[p := Folder];
      }
    }

    /** `os.OpenFile` with `O_CREATE|O_WRONLY`, then the copy of the whole content. */
    method WriteFile(p: Path, mode: nat, content: Bytes) returns (ok: bool)
      modifies this
      ensures ok == Put(old(files), FileEntry(p, mode, content)).Some?
      ensures if ok then Put(old(files), FileEntry(p, mode, content)) == Some(files) else files == old(files)
    {
      ok := p != [] && IsFolder(files, Parent(p)) && (p in files ==> files[p].File?);
      if ok {
        if p !in files {
          files := files[p := File(mode, [])];
        }
        files := files[p := File(files[p].mode, Overwrite(files[p].content, content))];
        assert p !in old(files) ==> files == old(files)[p := File(mode, content)];
      }
    }
  }

  /** Every name is joined to `dir`, and taken as it comes. */
  method Receive(root: Disk, dir: Path, r: Stream) returns (ok: bool)
    modifies root
    ensures ok == (r.intact && Replay(old(root.files), Targets(dir, r.entries)).Some?)
    ensures ok ==> Replay(old(root.files), Targets(dir, r.entries)) == Some(root.files)
  {
    ghost var start, targets := root.files, Targets(dir, r.entries);
    var i := 0;
    while i < |r.entries|
      invariant 0 <= i <= |r.entries|
      invariant Replay(start, targets[..i]) == Some(root.files)
    {
      var h := r.entries[i];
      TargetAt(dir, r.entries, i);
      assert targets[..i + 1][..i] == targets[..i];
      if h.DirEntry? {
        ok := root.MakeDir(Join(dir, h.name));
      } else {
        ok := root.WriteFile(Join(dir, h.name), h.mode, h.content);
      }
      if !ok {
        ReplayFails(start, targets, i + 1);
        return;
      }
      i := i + 1;
    }
    assert targets[..i] == targets;
    ok := r.intact;
  }

  lemma {:induction false} TargetAt(dir: Path, es: seq<TarEntry>, i: nat)
    requires i < |es|
    ensures Targets(dir, es)[i] == Target(dir, es[i])
  {
    if i < |es| - 1 {
      TargetAt(dir, es[..|es| - 1], i);
    }
  }

  lemma {:induction false} ReplayFails(d: Dir, es: seq<TarEntry>, k: nat)
    requires k <= |es| && Replay(d, es[..k]) == None
    ensures Replay(d, es) == None
    decreases |es|
  {
    if k == |es| {
      assert es[..k] == es;
    } else {
      assert es[..|es| - 1][..k] == es[..k];
      ReplayFails(d, es[..|es| - 1], k);
    }
  }

  // ---- When receiving succeeds, and what it yields ----

  ghost predicate DirBefore(es: seq<TarEntry>, i: nat, p: Path)
    requires i <= |es|
  {
    exists j :: 0 <= j < i && es[j] == DirEntry(p)
  }

  /** The entry has a parent, a new name if it is a directory, and no directory's name if it is a file. */
  ghost predicate Admissible(es: seq<TarEntry>, i: nat)
    requires i < |es|
  {
    var p := es[i].name;
    && p != [] && (Parent(p) == [] || DirBefore(es, i, Parent(p)))
    && (es[i].DirEntry? ==> !ListedBefore(es, i, p))
    && (es[i].FileEntry? ==> !DirBefore(es, i, p))
  }

  /** After `k` entries the directory holds the names received so far, folders where a `DirEntry` came. */
  ghost predicate Mirrors(d: Dir, es: seq<TarEntry>) {
    && (forall p :: p in d <==> ListedBefore(es, |es|, p))
    && (forall p :: p in d && d[p].Folder? <==> DirBefore(es, |es|, p))
  }

  lemma MirrorsStep(d: Dir, es: seq<TarEntry>, e: TarEntry)
    requires Mirrors(d, es)
    ensures Put(d, e).Some? <==> Admissible(es + [e], |es|)
    ensures Put(d, e).Some? ==> Mirrors(Put(d, e).value, es + [e])
  {
    var all := es + [e];
    forall p ensures ListedBefore(all, |es|, p) == ListedBefore(es, |es|, p)
      ensures DirBefore(all, |es|, p) == DirBefore(es, |es|, p)
    {
      PrefixListed(es, e, p);
    }
    forall p ensures ListedBefore(all, |all|, p) == (ListedBefore(es, |es|, p) || e.name == p)
      ensures DirBefore(all, |all|, p) == (DirBefore(es, |es|, p) || e == DirEntry(p))
    {
      PrefixListed(es, e, p);
      assert all[|es|] == e;
    }
  }

  lemma PrefixListed(es: seq<TarEntry>, e: TarEntry, p: Path)
    ensures ListedBefore(es + [e], |es|, p) == ListedBefore(es, |es|, p)
    ensures DirBefore(es + [e], |es|, p) == DirBefore(es, |es|, p)
  {
    var all := es + [e];
    forall j | 0 <= j < |es| ensures all[j] == es[j] {}
    if ListedBefore(es, |es|, p) {
      var j :| 0 <= j < |es| && es[j].name == p;
      assert all[j].name == p;
    }
    if DirBefore(es, |es|, p) {
      var j :| 0 <= j < |es| && es[j] == DirEntry(p);
      assert all[j] == DirEntry(p);
    }
  }

  /** Into an empty directory, a stream is received if and only if each entry is admissible after those before it. */
  lemma {:induction false} ReceivableIff(es: seq<TarEntry>)
    ensures Replay(map[], es).Some? <==> forall i :: 0 <= i < |es| ==> Admissible(es, i)
    ensures Replay(map[], es).Some? ==> Mirrors(Replay(map[], es).value, es)
    decreases |es|
  {
    if es != [] {
      var front, last := es[..|es| - 1], es[|es| - 1];
      assert es == front + [last];
      ReceivableIff(front);
      forall i | 0 <= i < |front| ensures Admissible(es, i) == Admissible(front, i) {
        AdmissiblePrefix(es, front, i);
      }
      if Replay(map[], front).Some? {
        MirrorsStep(Replay(map[], front).value, front, last);
      }
    }
  }

  lemma AdmissiblePrefix(es: seq<TarEntry>, front: seq<TarEntry>, i: nat)
    requires |front| <= |es| && front == es[..|front|] && i < |front|
    ensures Admissible(es, i) == Admissible(front, i)
  {
    forall j | 0 <= j <= i ensures front[j] == es[j] {}
  }

  // ---- Files that are received more than once ----

  predicate Writes(es: seq<TarEntry>, i: nat, p: Path)
    requires i < |es|
  {
    es[i].FileEntry? && es[i].name == p
  }

  /** Entry `i` is the first one for the file at `p`, and has its mode. */
  ghost predicate MadeBy(es: seq<TarEntry>, i: nat, p: Path, mode: nat)
    requires i < |es|
  {
    Writes(es, i, p) && mode == es[i].mode && forall j :: 0 <= j < i ==> !Writes(es, j, p)
  }

  /** Byte `n` of the file at `p` is `b`, as the last entry says that is long enough: entry `i`. */
  ghost predicate WrittenBy(es: seq<TarEntry>, i: nat, p: Path, n: nat, b: Byte)
    requires i < |es|
  {
    && Writes(es, i, p) && n < |es[i].content| && b == es[i].content[n]
    && forall j :: i < j < |es| && Writes(es, j, p) ==> |es[j].content| <= n
  }

  ghost predicate HasByte(es: seq<TarEntry>, p: Path, n: nat, b: Byte) {
    exists i :: 0 <= i < |es| && WrittenBy(es, i, p, n, b)
  }

  /** The file has the mode of the entry that made it, and each byte of the last entry that is long enough. */
  ghost predicate Written(f: Node, es: seq<TarEntry>, p: Path) {
    && f.File?
    && (exists i :: 0 <= i < |es| && MadeBy(es, i, p, f.mode))
    && (forall i :: 0 <= i < |es| && Writes(es, i, p) ==> |es[i].content| <= |f.content|)
    && forall n :: 0 <= n < |f.content| ==> HasByte(es, p, n, f.content[n])
  }

  lemma SameWrites(es: seq<TarEntry>, e: TarEntry, p: Path)
    ensures forall i :: 0 <= i < |es| ==> Writes(es + [e], i, p) == Writes(es, i, p) && (es + [e])[i] == es[i]
    ensures Writes(es + [e], |es|, p) == (e.FileEntry? && e.name == p)
  {
  }

  lemma SameMaker(es: seq<TarEntry>, e: TarEntry, p: Path, mode: nat)
    requires exists i :: 0 <= i < |es| && MadeBy(es, i, p, mode)
    ensures exists i :: 0 <= i < |es + [e]| && MadeBy(es + [e], i, p, mode)
  {
    SameWrites(es, e, p);
    var i :| 0 <= i < |es| && MadeBy(es, i, p, mode);
    assert MadeBy(es + [e], i, p, mode);
  }

  /** A byte that the new entry does not reach. */
  lemma SameByte(es: seq<TarEntry>, e: TarEntry, p: Path, n: nat, b: Byte)
    requires HasByte(es, p, n, b)
    requires e.FileEntry? && e.name == p ==> |e.content| <= n
    ensures HasByte(es + [e], p, n, b)
  {
    SameWrites(es, e, p);
    var i :| 0 <= i < |es| && WrittenBy(es, i, p, n, b);
    assert WrittenBy(es + [e], i, p, n, b);
  }

  lemma WrittenKept(f: Node, es: seq<TarEntry>, e: TarEntry, p: Path)
    requires Written(f, es, p) && !(e.FileEntry? && e.name == p)
    ensures Written(f, es + [e], p)
  {
    SameWrites(es, e, p);
    SameMaker(es, e, p, f.mode);
    forall n | 0 <= n < |f.content| ensures HasByte(es + [e], p, n, f.content[n]) {
      SameByte(es, e, p, n, f.content[n]);
    }
  }

  lemma WrittenFirst(es: seq<TarEntry>, e: TarEntry)
    requires e.FileEntry? && forall i :: 0 <= i < |es| ==> !Writes(es, i, e.name)
    ensures Written(File(e.mode, e.content), es + [e], e.name)
  {
    SameWrites(es, e, e.name);
    assert MadeBy(es + [e], |es|, e.name, e.mode);
    forall n | 0 <= n < |e.content| ensures HasByte(es + [e], e.name, n, e.content[n]) {
      assert WrittenBy(es + [e], |es|, e.name, n, e.content[n]);
    }
  }

  lemma NeverWritten(es: seq<TarEntry>, p: Path)
    requires !ListedBefore(es, |es|, p)
    ensures forall i :: 0 <= i < |es| ==> !Writes(es, i, p)
  {
  }

  lemma WrittenAgain(f: Node, es: seq<TarEntry>, e: TarEntry)
    requires e.FileEntry? && Written(f, es, e.name)
    ensures Written(File(f.mode, Overwrite(f.content, e.content)), es + [e], e.name)
  {
    var c := Overwrite(f.content, e.content);
    SameWrites(es, e, e.name);
    SameMaker(es, e, e.name, f.mode);
    forall n | 0 <= n < |c| ensures HasByte(es + [e], e.name, n, c[n]) {
      if n < |e.content| {
        assert WrittenBy(es + [e], |es|, e.name, n, c[n]);
      } else {
        SameByte(es, e, e.name, n, c[n]);
      }
    }
  }

  /**
   Without `O_TRUNC`, and with a mode that counts only when a file is created: what a file holds once a
   stream has been received into an empty directory, however often the stream names it.
   */
  lemma {:induction false} ReplayedFile(es: seq<TarEntry>, p: Path)
    requires Replay(map[], es).Some? && p in Replay(map[], es).value && Replay(map[], es).value[p].File?
    ensures Written(Replay(map[], es).value[p], es, p)
    decreases |es|
  {
    var front, e := es[..|es| - 1], es[|es| - 1];
    assert es == front + [e];
    ReceivableIff(front);
    var was := Replay(map[], front).value;
    if p in was {
      ReplayedFile(front, p);
      if e.name == p { WrittenAgain(was[p], front, e); } else { WrittenKept(was[p], front, e, p); }
    } else {
      NeverWritten(front, p);
      WrittenFirst(front, e);
    }
  }

  /** What the first `k` entries of a listing of `d` say of it. */
  ghost function Partial(d: Dir, es: seq<TarEntry>, k: nat): Dir
    requires k <= |es|
  {
    map p | p in d && ListedBefore(es, k, p) :: d[p]
  }

  lemma ListedNext(es: seq<TarEntry>, k: nat, q: Path)
    requires k < |es|
    ensures ListedBefore(es, k + 1, q) <==> ListedBefore(es, k, q) || q == es[k].name
  {
  }

  /** The next entry is new, and its parent is already there. */
  lemma NextEntry(d: Dir, es: seq<TarEntry>, k: nat)
    requires ParentClosed(d) && Lists(d, [], d.Keys, es) && k < |es|
    ensures var p := es[k].name;
            p in d && es[k] == EntryFor(d, p) && p != [] && p !in Partial(d, es, k)
                && IsFolder(Partial(d, es, k), Parent(p))
  {
    assert IsFolder(d, Parent(es[k].name));
  }

  lemma PartialStep(d: Dir, es: seq<TarEntry>, k: nat)
    requires ParentClosed(d) && Lists(d, [], d.Keys, es) && k < |es|
    ensures Put(Partial(d, es, k), es[k]) == Some(Partial(d, es, k + 1))
  {
    NextEntry(d, es, k);
    PutNew(Partial(d, es, k), d, es[k].name);
    PartialGrows(d, es, k);
  }

  lemma PutNew(before: Dir, d: Dir, p: Path)
    requires p in d && p != [] && p !in before && IsFolder(before, Parent(p))
    ensures Put(before, EntryFor(d, p)) == Some(before[p := d[p]])
  {
  }

  lemma PartialGrows(d: Dir, es: seq<TarEntry>, k: nat)
    requires k < |es| && es[k].name in d
    ensures Partial(d, es, k + 1) == Partial(d, es, k)[es[k].name := d[es[k].name]]
  {
    forall q ensures ListedBefore(es, k + 1, q) <==> ListedBefore(es, k, q) || q == es[k].name {
      ListedNext(es, k, q);
    }
  }

  lemma {:induction false} ReplayListing(d: Dir, es: seq<TarEntry>, k: nat)
    requires ParentClosed(d) && Lists(d, [], d.Keys, es) && k <= |es|
    ensures Replay(map[], es[..k]) == Some(Partial(d, es, k))
  {
    if k == 0 {
      assert Partial(d, es, 0) == map[];
    } else {
      ReplayListing(d, es, k - 1);
      PartialStep(d, es, k - 1);
      assert es[..k][..k - 1] == es[..k - 1];
    }
  }

  /** Receiving a complete listing of `d` rebuilds `d`: same paths, kinds, modes and contents. */
  lemma RoundTrip(d: Dir, es: seq<TarEntry>)
    requires ParentClosed(d) && Lists(d, [], d.Keys, es)
    ensures Replay(map[], es) == Some(d)
  {
    ReplayListing(d, es, |es|);
    assert es[..|es|] == es;
    assert Partial(d, es, |es|) == d by {
      assert Covers(d.Keys, es);
    }
  }
}
