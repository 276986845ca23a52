/**
 * An abstract host filesystem: a finite map from paths to nodes, with the
 * handful of operations the installer performs on it (`mkdir`, writing a
 * file, `chmod +x`, `copy2`, and `rmtree` followed by `move`).
 */
module Files {
  import opened Paths
  import opened Events

  /** What a regular file holds; launcher scripts are kept symbolic. */
  datatype Content =
    | Text(text: string)
    | StartScript(family: OsFamily, demoDir: Path)
    | StopScript(family: OsFamily, demoDir: Path)

  datatype Node = Dir | File(content: Content, executable: bool)

  /** The first line of each launcher script, the only one without an emoji. */
  function ScriptHead(os: OsFamily): string
  {
    if os == Windows then "@echo off\n" else "#!/bin/bash\n"
  }

  type Fs = map<Path, Node>

  /** A subtree, keyed relative to its own root; the key `[]` is the root itself. */
  type Tree = map<Path, Node>

  predicate Exists(fs: Fs, p: Path)
  {
    p == [] || p in fs
  }

  predicate IsDir(fs: Fs, p: Path)
  {
    p == [] || (p in fs && fs[p].Dir?)
  }

  /** `p` holds the same thing (or nothing) in both filesystems. */
  predicate Unchanged(fs: Fs, fs': Fs, p: Path)
  {
    (p in fs <==> p in fs') && (p in fs ==> fs[p] == fs'[p])
  }

  /** Nothing outside the subtree rooted at `root` differs. */
  ghost predicate SameOutside(fs: Fs, fs': Fs, root: Path)
  {
    forall q :: !(root <= q) ==> Unchanged(fs, fs', q)
  }

  datatype FsResult = Changed(fs: Fs) | Refused(fault: Fault)

  /** `Path.mkdir(exist_ok=True)`: an existing directory is accepted, anything else existing is not. */
  function Mkdir(fs: Fs, p: Path): (r: FsResult)
    ensures r.Changed? <==> IsDir(fs, p) || (!Exists(fs, p) && IsDir(fs, Parent(p)))
    ensures r.Changed? ==> IsDir(r.fs, p) && forall q | q != p :: Unchanged(fs, r.fs, q)
  {
    if IsDir(fs, p) then Changed(fs)
    else if Exists(fs, p) then Refused(NotADirectory(p))
    else if IsDir(fs, Parent(p)) then Changed(fs[p := Dir])
    else Refused(ParentMissing(p))
  }

  /**
   * `open(p, 'w')` and a write: refused where `p` is a directory or its parent
   * is not one; an existing file keeps its mode.
   */
  function WriteFile(fs: Fs, p: Path, c: Content): (r: FsResult)
    ensures r.Changed? <==> p != [] && !IsDir(fs, p) && IsDir(fs, Parent(p))
    ensures r.Changed? ==> p in r.fs && r.fs[p].File? && r.fs[p].content == c
    ensures r.Changed? && p in fs ==> r.fs[p].executable == fs[p].executable
    ensures r.Changed? ==> forall q | q != p :: Unchanged(fs, r.fs, q)
  {
    if p == [] || IsDir(fs, p) then Refused(IsADirectory(p))
    else if !IsDir(fs, Parent(p)) then Refused(ParentMissing(p))
    else Changed(fs[p := File(c, if p in fs then fs[p].executable else false)])
  }

  /** The remaining writes through a file handle already open: the file ends up holding `c`, its mode kept. */
  function CompleteFile(fs: Fs, p: Path, c: Content): (fs': Fs)
    ensures p in fs && fs[p].File? ==> p in fs' && fs'[p] == fs[p].(content := c)
    ensures forall q | q != p :: Unchanged(fs, fs', q)
  {
    if p in fs && fs[p].File? then fs[p := fs[p].(content := c)] else fs
  }

  /** `chmod 0o755` on a regular file. */
  function MarkExecutable(fs: Fs, p: Path): (fs': Fs)
    ensures p in fs && fs[p].File? ==> p in fs' && fs'[p] == fs[p].(executable := true)
    ensures forall q | q != p :: Unchanged(fs, fs', q)
  {
    if p in fs && fs[p].File? then fs[p := fs[p].(executable := true)] else fs
  }

  /** `shutil.copy2(src, dst)` onto a path that does not exist yet: content and mode both carried over. */
  function CopyFile(fs: Fs, src: Path, dst: Path): (r: FsResult)
    requires !Exists(fs, dst)
    ensures r.Changed? <==> src != [] && src in fs && fs[src].File? && IsDir(fs, Parent(dst))
    ensures r.Changed? ==> r.fs == fs[dst := fs[src]]
  {
    if !Exists(fs, src) then Refused(NoSuchFile(src))
    else if IsDir(fs, src) then Refused(IsADirectory(src))
    else if !IsDir(fs, Parent(dst)) then Refused(ParentMissing(dst))
    else Changed(fs[dst := fs[src]])
  }

  /** `shutil.rmtree(root)`: the subtree at `root` disappears. */
  function Prune(fs: Fs, root: Path): (fs': Fs)
    ensures forall q | root <= q :: q !in fs'
    ensures SameOutside(fs, fs', root)
  {
    map q | q in fs && !(root <= q) :: fs[q]
  }

  /** The tree `t` placed at `root`, its keys made absolute. */
  function Graft(root: Path, t: Tree): (g: Fs)
    ensures forall q :: q in g <==> root <= q && q[|root|..] in t
    ensures forall q | q in g :: g[q] == t[q[|root|..]]
  {
    forall p1, p2 | root + p1 == root + p2 ensures p1 == p2 {
      assert p1 == (root + p1)[|root|..];
    }
    var g := map p | p in t :: root + p := t[p];
    forall q | root <= q && q[|root|..] in t ensures q in g {
      assert q == root + q[|root|..];
    }
    forall q | q in g ensures root <= q && q[|root|..] in t && g[q] == t[q[|root|..]] {
      var p :| p in t && q == root + p;
      assert q[|root|..] == p;
    }
    g
  }

  /**
   * `rmtree(root)` then `move(src, root)`: the subtree at `root` becomes exactly
   * `t`, and nothing outside it changes.
   */
  function Replace(fs: Fs, root: Path, t: Tree): (fs': Fs)
    ensures SameOutside(fs, fs', root)
    ensures forall q | root <= q :: (q in fs' <==> q[|root|..] in t)
    ensures forall q | root <= q && q in fs' :: fs'[q] == t[q[|root|..]]
  {
    Prune(fs, root) + Graft(root, t)
  }
}
