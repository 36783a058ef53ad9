/** Where the names of a tar stream lead: below the directory it is received into, or out of it. */
module TarPaths {
  import opened Basics
  import opened TarStream

  // ---- Names ----

  predicate CleanComponent(c: string) {
    c != "" && c != "." && c != ".." && '/' !in c
  }

  predicate Clean(p: Path) {
    forall c <- p :: CleanComponent(c)
  }

  /** What a file system guarantees of the contents of a directory. */
  ghost predicate FileTree(d: Dir) {
    ParentClosed(d) && forall p <- d :: Clean(p)
  }

  lemma {:induction false} JoinClean(base: Path, name: Path)
    requires Clean(name)
    ensures Join(base, name) == base + name
  {
    if name == [] {
      assert base + name == base;
    } else {
      var front, c := name[..|name| - 1], name[|name| - 1];
      assert c in name && forall x <- front :: x in name;
      JoinClean(base, front);
      assert base + front + [c] == base + name;
    }
  }

  /** Component by component: joining in two parts is joining once. */
  lemma {:induction false} JoinConcat(base: Path, a: Path, b: Path)
    ensures Join(base, a + b) == Join(Join(base, a), b)
  {
    if b == [] {
      assert a + b == a;
    } else {
      assert (a + b)[..|a + b| - 1] == a + b[..|b| - 1];
      JoinConcat(base, a, b[..|b| - 1]);
    }
  }

  /**
   Anywhere in a name, an empty component or a dot changes nothing, double dots undo the clean component
   before them, and at the root they change nothing. With `JoinClean` this determines every join.
   */
  lemma JoinReduces(base: Path, a: Path, c: string, b: Path)
    ensures c == "" || c == "." ==> Join(base, a + [c] + b) == Join(base, a + b)
    ensures CleanComponent(c) ==> Join(base, a + [c, ".."] + b) == Join(base, a + b)
    ensures Join([], [".."] + b) == Join([], b)
  {
    JoinConcat(base, a + [c], b);
    JoinConcat(base, a, [c]);
    JoinConcat(base, a, b);
    JoinConcat(base, a + [c, ".."], b);
    JoinConcat(base, a, [c, ".."]);
    assert [c, ".."][..1] == [c];
    JoinConcat([], [".."], b);
  }

  /**
   Joined to `dir`, the name leads below it, or to `dir` or a directory above it, where nothing can be
   created. Without double dots it always does.
   */
  predicate StaysInside(dir: Path, name: Path) {
    dir <= Join(dir, name) || Join(dir, name) <= dir
  }

  predicate Inside(dir: Path, es: seq<TarEntry>) {
    forall e <- es :: StaysInside(dir, e.name)
  }

  predicate CleanNames(es: seq<TarEntry>) {
    forall i :: 0 <= i < |es| ==> Clean(es[i].name)
  }

  lemma CleanStaysInside(dir: Path, es: seq<TarEntry>)
    requires CleanNames(es)
    ensures Inside(dir, es)
  {
    forall e <- es ensures StaysInside(dir, e.name) {
      JoinClean(dir, e.name);
    }
  }

  // ---- One directory of a file system ----

  predicate Under(dir: Path, p: Path) {
    dir < p
  }

  /** What the directory `dir` of the file system holds. */
  function Sub(fs: Dir, dir: Path): Dir {
    var below := set p | p in fs && Under(dir, p) :: p[|dir|..];
    map r | r in below && dir + r in fs :: fs[dir + r]
  }

  lemma SubAt(fs: Dir, dir: Path, p: Path)
    requires p != []
    ensures p in Sub(fs, dir) <==> dir + p in fs
    ensures p in Sub(fs, dir) ==> Sub(fs, dir)[p] == fs[dir + p]
  {
    assert (dir + p)[|dir|..] == p && Under(dir, dir + p);
  }

  /** Everything outside of `dir` is as it was. */
  ghost predicate SameOutside(fs: Dir, fs': Dir, dir: Path) {
    forall p :: !Under(dir, p) ==> (p in fs' <==> p in fs) && (p in fs ==> fs'[p] == fs[p])
  }

  /** A file system in which `dir` exists. */
  ghost predicate Has(fs: Dir, dir: Path) {
    ParentClosed(fs) && IsFolder(fs, dir)
  }

  /** The entry as seen from `dir`; one that leads to `dir` or above gets the name of its root. */
  function Relative(dir: Path, e: TarEntry): TarEntry {
    e.(name := if dir <= Join(dir, e.name) then Join(dir, e.name)[|dir|..] else [])
  }

  function Relatives(dir: Path, es: seq<TarEntry>): (rs: seq<TarEntry>)
    ensures |rs| == |es|
  {
    if es == [] then [] else Relatives(dir, es[..|es| - 1]) + [Relative(dir, es[|es| - 1])]
  }

  lemma RelativeClean(dir: Path, e: TarEntry)
    requires Clean(e.name)
    ensures Relative(dir, e) == e
  {
    JoinClean(dir, e.name);
    assert (dir + e.name)[|dir|..] == e.name;
  }

  lemma {:induction false} RelativesClean(dir: Path, es: seq<TarEntry>)
    requires CleanNames(es)
    ensures Relatives(dir, es) == es
  {
    if es != [] {
      var front, e := es[..|es| - 1], es[|es| - 1];
      RelativesClean(dir, front);
      RelativeClean(dir, e);
      assert Relatives(dir, es) == front + [e];
    }
  }

  /** All ancestors of an existing path are folders. */
  lemma {:induction false} Above(fs: Dir, p: Path, q: Path)
    requires ParentClosed(fs) && IsFolder(fs, p) && q <= p
    ensures IsFolder(fs, q)
    decreases |p|
  {
    if q == p {
    } else {
      Above(fs, Parent(p), q);
    }
  }

  lemma PutTree(fs: Dir, e: TarEntry)
    requires ParentClosed(fs)
    ensures Put(fs, e).Some? ==> ParentClosed(Put(fs, e).value)
    ensures forall dir :: Put(fs, e).Some? && IsFolder(fs, dir) ==> IsFolder(Put(fs, e).value, dir)
  {
    if Put(fs, e).Some? {
      var fs' := Put(fs, e).value;
      forall p <- fs' ensures p != [] && IsFolder(fs', Parent(p)) {
        assert p == e.name || (p in fs && IsFolder(fs, Parent(p)));
      }
    }
  }

  /** An entry that stays inside acts on `dir` alone, as its relative entry does on the contents of `dir`. */
  lemma PutInside(fs: Dir, dir: Path, e: TarEntry)
    requires Has(fs, dir) && StaysInside(dir, e.name)
    ensures Put(fs, Target(dir, e)).Some? <==> Put(Sub(fs, dir), Relative(dir, e)).Some?
    ensures Put(fs, Target(dir, e)).Some? ==>
              var fs' := Put(fs, Target(dir, e)).value;
              SameOutside(fs, fs', dir) && Put(Sub(fs, dir), Relative(dir, e)) == Some(Sub(fs', dir))
  {
    var t := Join(dir, e.name);
    if dir < t {
      PutBelow(fs, dir, e);
    } else {
      assert t <= dir;
      Above(fs, dir, t);
      assert Relative(dir, e).name == [];
    }
  }

  lemma PutBelow(fs: Dir, dir: Path, e: TarEntry)
    requires Has(fs, dir) && dir < Join(dir, e.name)
    ensures Put(fs, Target(dir, e)).Some? <==> Put(Sub(fs, dir), Relative(dir, e)).Some?
    ensures Put(fs, Target(dir, e)).Some? ==>
              var fs' := Put(fs, Target(dir, e)).value;
              SameOutside(fs, fs', dir) && Put(Sub(fs, dir), Relative(dir, e)) == Some(Sub(fs', dir))
  {
    var t := Join(dir, e.name);
    var r := t[|dir|..];
    assert t == dir + r;
    SubAt(fs, dir, r);
    FolderBelow(fs, dir, r);
    if Put(fs, Target(dir, e)).Some? {
      SubUpdate(fs, dir, r, Put(fs, Target(dir, e)).value[t]);
    }
  }

  lemma FolderBelow(fs: Dir, dir: Path, r: Path)
    requires IsFolder(fs, dir) && r != []
    ensures IsFolder(fs, Parent(dir + r)) <==> IsFolder(Sub(fs, dir), Parent(r))
  {
    assert Parent(dir + r) == dir + Parent(r);
    if Parent(r) == [] {
      assert dir + Parent(r) == dir;
    } else {
      SubAt(fs, dir, Parent(r));
    }
  }

  lemma SubUpdate(fs: Dir, dir: Path, r: Path, n: Node)
    requires r != []
    ensures Sub(fs[dir + r := n], dir) == Sub(fs, dir)[r := n]
    ensures SameOutside(fs, fs[dir + r := n], dir)
  {
    var fs' := fs[dir + r := n];
    forall p | p != [] ensures p in Sub(fs', dir) <==> p in Sub(fs, dir)[r := n]
      ensures p in Sub(fs', dir) ==> Sub(fs', dir)[p] == Sub(fs, dir)[r := n][p]
    {
      SubUpdateAt(fs, dir, r, n, p);
    }
    assert [] !in Sub(fs', dir) && [] !in Sub(fs, dir)[r := n];
  }

  lemma SubUpdateAt(fs: Dir, dir: Path, r: Path, n: Node, p: Path)
    requires r != [] && p != []
    ensures p in Sub(fs[dir + r := n], dir) <==> p in Sub(fs, dir)[r := n]
    ensures p in Sub(fs[dir + r := n], dir) ==> Sub(fs[dir + r := n], dir)[p] == Sub(fs, dir)[r := n][p]
  {
    SubAt(fs, dir, p);
    SubAt(fs[dir + r := n], dir, p);
    if dir + p == dir + r {
      assert p == (dir + p)[|dir|..] == (dir + r)[|dir|..] == r;
    }
  }

  /** So does a whole stream: received into `dir`, it changes nothing else, and `dir` as its own replay says. */
  lemma {:induction false} ReplayInside(fs: Dir, dir: Path, es: seq<TarEntry>)
    requires Has(fs, dir) && Inside(dir, es)
    ensures Replay(fs, Targets(dir, es)).Some? <==> Replay(Sub(fs, dir), Relatives(dir, es)).Some?
    ensures Replay(fs, Targets(dir, es)).Some? ==>
              var fs' := Replay(fs, Targets(dir, es)).value;
              Has(fs', dir) && SameOutside(fs, fs', dir)
                  && Replay(Sub(fs, dir), Relatives(dir, es)) == Some(Sub(fs', dir))
  {
    if es != [] {
      var front, e := es[..|es| - 1], es[|es| - 1];
      ReplayInside(fs, dir, front);
      assert Targets(dir, es)[..|es| - 1] == Targets(dir, front);
      assert Relatives(dir, es)[..|es| - 1] == Relatives(dir, front);
      if Replay(fs, Targets(dir, front)).Some? {
        var mid := Replay(fs, Targets(dir, front)).value;
        PutInside(mid, dir, e);
        PutTree(mid, Target(dir, e));
      }
    }
  }

  // ---- Names that lead out ----

  /** The folders on the way to `p`, and `p` itself. */
  function Way(p: Path): Dir {
    if p == [] then map[] else Way(Parent(p))[p := Folder]
  }

  lemma {:induction false} WayAt(p: Path, q: Path)
    ensures q in Way(p) <==> q != [] && q <= p
    ensures q in Way(p) ==> Way(p)[q].Folder?
    decreases |p|
  {
    if p != [] {
      WayAt(Parent(p), q);
      if q <= p && |q| == |p| {
        assert q == p;
      }
    }
  }

  lemma WayHas(p: Path)
    ensures Has(Way(p), p)
  {
    WayAt(p, p);
    forall q <- Way(p) ensures q != [] && IsFolder(Way(p), Parent(q)) {
      WayAt(p, q);
      WayAt(p, Parent(q));
    }
  }

  lemma WaysHave(p: Path, q: Path)
    ensures Has(Way(p) + Way(q), p) && IsFolder(Way(p) + Way(q), q)
    ensures forall r :: r in Way(p) + Way(q) <==> r != [] && (r <= p || r <= q)
  {
    WayHas(p);
    WayHas(q);
    forall r ensures r in Way(p) <==> r != [] && r <= p
      ensures r in Way(q) <==> r != [] && r <= q
    {
      WayAt(p, r);
      WayAt(q, r);
    }
    forall r ensures IsFolder(Way(p), r) || IsFolder(Way(q), r) ==> IsFolder(Way(p) + Way(q), r) {
      WayAt(p, r);
      WayAt(q, r);
    }
  }

  /**
   The condition is exact: an entry leaves everything outside of `dir` alone, in every file system that
   has `dir`, if and only if its name stays inside.
   */
  lemma StaysInsideIff(dir: Path, e: TarEntry)
    ensures StaysInside(dir, e.name) <==>
            forall fs :: Has(fs, dir) && Put(fs, Target(dir, e)).Some? ==>
                SameOutside(fs, Put(fs, Target(dir, e)).value, dir)
  {
    if StaysInside(dir, e.name) {
      forall fs | Has(fs, dir) && Put(fs, Target(dir, e)).Some?
          ensures SameOutside(fs, Put(fs, Target(dir, e)).value, dir) {
        PutInside(fs, dir, e);
      }
    } else {
      var t := Join(dir, e.name);
      assert t != [];
      var fs := Way(dir) + Way(Parent(t));
      WaysHave(dir, Parent(t));
      assert t !in fs;
      assert Put(fs, Target(dir, e)).Some? && t in Put(fs, Target(dir, e)).value;
    }
  }

  /** From `tmp/a`, the name `../b/x` leads to `tmp/b/x`. */
  lemma LeadsOutName()
    ensures Join(["tmp", "a"], ["..", "b", "x"]) == ["tmp", "b", "x"]
  {
    JoinClean([], ["tmp", "a"]);
    JoinConcat([], ["tmp", "a"], ["..", "b", "x"]);
    assert [] + ["tmp", "a"] == ["tmp", "a"];
    assert ["tmp", "a"] + ["..", "b", "x"] == ["tmp"] + ["a", ".."] + ["b", "x"];
    JoinReduces([], ["tmp"], "a", ["b", "x"]);
    JoinClean([], ["tmp"] + ["b", "x"]);
  }

  /** Such a stream: received into `tmp/a`, a single file ends up in `tmp/b`. */
  lemma LeadsOut(content: Bytes)
    ensures var dir, es := ["tmp", "a"], [FileEntry(["..", "b", "x"], 0, content)];
            var fs := map[["tmp"] := Folder, ["tmp", "a"] := Folder, ["tmp", "b"] := Folder];
            && Has(fs, dir) && !Inside(dir, es)
            && Replay(fs, Targets(dir, es)) == Some(fs[["tmp", "b", "x"] := File(0, content)])
            && !SameOutside(fs, fs[["tmp", "b", "x"] := File(0, content)], dir)
  {
    var dir, e := ["tmp", "a"], FileEntry(["..", "b", "x"], 0, content);
    LeadsOutName();
    ReplayOne(Neighbours(), dir, e);
    assert Parent(["tmp", "b", "x"]) == ["tmp", "b"];
    assert dir[1] != ["tmp", "b", "x"][1] && e in [e];
    assert !Under(dir, ["tmp", "b", "x"]);
  }

  function Neighbours(): (fs: Dir)
    ensures Has(fs, ["tmp", "a"])
  {
    assert Parent(["tmp", "b"]) == ["tmp"] && Parent(["tmp", "a"]) == ["tmp"] && Parent(["tmp"]) == [];
    map[["tmp"] := Folder, ["tmp", "a"] := Folder, ["tmp", "b"] := Folder]
  }

  lemma ReplayOne(fs: Dir, dir: Path, e: TarEntry)
    ensures Replay(fs, Targets(dir, [e])) == Put(fs, Target(dir, e))
  {
    assert [e][..0] == [] && [Target(dir, e)][..0] == [];
    assert Targets(dir, [e]) == [Target(dir, e)];
  }

  // ---- Receiving into an empty directory ----

  /** Into an empty directory, a stream that stays inside is received iff each entry is admissible at its place. */
  lemma ReceivedIff(fs: Dir, dir: Path, es: seq<TarEntry>)
    requires Has(fs, dir) && Inside(dir, es) && Sub(fs, dir) == map[]
    ensures Replay(fs, Targets(dir, es)).Some? <==> forall i :: 0 <= i < |es| ==> Admissible(Relatives(dir, es), i)
  {
    ReplayInside(fs, dir, es);
    ReceivableIff(Relatives(dir, es));
  }

  /** `Send` into a buffer, then `Receive` into an empty directory of any file system. */
  method SendThenReceive(d: Dir, root: Disk, dir: Path) returns (ok: bool)
    requires FileTree(d) && Has(root.files, dir) && Sub(root.files, dir) == map[]
    modifies root
    ensures ok && Sub(root.files, dir) == d && SameOutside(old(root.files), root.files, dir)
  {
    var w := new Writer();
    Send([d], d, w);
    ghost var es := w.entries;
    CleanStaysInside(dir, es);
    RelativesClean(dir, es);
    ReplayInside(root.files, dir, es);
    RoundTrip(d, es);
    ok := Receive(root, dir, Stream(w.entries, w.closed));
  }
}
