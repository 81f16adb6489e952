/** `refactor.py`: the one-off script that moves the Python packages from
    `src/` to `python_core/` and rewrites `src.` imports. The project tree is
    a map from file paths to contents plus a set of directory paths, both
    relative to the project root; `shutil.move` is modelled as a rename of a
    subtree. Printing is left out. */
module Refactoring {
  import opened Wrappers
  import PyText

  /** A path as its components below the project root; `[]` is the root. */
  type Path = seq<string>

  const FoldersToMove: seq<string> :=
    ["ingestion", "transcription", "intelligence", "vision", "retrieval", "editing",
     "overlay", "packaging", "distribution", "utils", "modes", "audio"]

  const FilesToMove: seq<string> := ["pipeline.py", "config_manager.py", "worker.py"]

  const Src: Path := ["src"]
  const Core: Path := ["python_core"]
  const Backend: Path := ["backend"]
  const Tests: Path := ["tests"]
  const Root: Path := []

  /** The directories scanned for `.py` files, in order. */
  const ScanDirs: seq<Path> := [Core, Backend, Tests, Root]

  // ---------------------------------------------------------------------
  // update_imports: the string transform
  // ---------------------------------------------------------------------

  /** The three replacements, in this order. */
  function RewriteImports(content: string): string
  {
    var a := PyText.ReplaceAll(content, "from src.", "from python_core.");
    var b := PyText.ReplaceAll(a, "import src.", "import python_core.");
    PyText.ReplaceAll(b, "from src ", "from python_core ")
  }

  /** Content with none of the three patterns is left as it is. */
  lemma RewriteUntouched(content: string)
    requires !PyText.Contains(content, "from src.")
    requires !PyText.Contains(content, "import src.")
    requires !PyText.Contains(content, "from src ")
    ensures RewriteImports(content) == content
  {
    PyText.ReplaceAbsent(content, "from src.", "from python_core.");
    PyText.ReplaceAbsent(content, "import src.", "import python_core.");
    PyText.ReplaceAbsent(content, "from src ", "from python_core ");
  }

  // ---------------------------------------------------------------------
  // the project tree and shutil.move
  // ---------------------------------------------------------------------

  datatype Tree = Tree(files: map<Path, string>, dirs: set<Path>)

  predicate Exists(t: Tree, p: Path)
  {
    p == Root || p in t.files || p in t.dirs
  }

  /** `p` is `a` or lies below it. */
  predicate Under(p: Path, a: Path)
  {
    |a| <= |p| && p[..|a|] == a
  }

  /** `p` below `a` moved to the same place below `b`. */
  function Rebase(p: Path, a: Path, b: Path): Path
    requires |a| <= |p|
  {
    b + p[|a|..]
  }

  lemma RebaseInjective(p: Path, q: Path, a: Path, b: Path)
    requires Under(p, a) && Under(q, a) && Rebase(p, a, b) == Rebase(q, a, b)
    ensures p == q
  {
    assert p[|a|..] == Rebase(p, a, b)[|b|..];
    assert q[|a|..] == Rebase(q, a, b)[|b|..];
    assert p == p[..|a|] + p[|a|..];
    assert q == q[..|a|] + q[|a|..];
  }

  /** Two top-level names that differ: neither path lies below the other. */
  predicate Apart(a: Path, b: Path)
  {
    a != [] && b != [] && a[0] != b[0]
  }

  /** The files of the subtree at `src`, rebased to `target`. */
  function MovedFiles(files: map<Path, string>, src: Path, target: Path): map<Path, string>
  {
    assert forall p, q | p in files && Under(p, src) && q in files && Under(q, src)
                         && Rebase(p, src, target) == Rebase(q, src, target) :: p == q by {
      forall p, q | p in files && Under(p, src) && q in files && Under(q, src)
                    && Rebase(p, src, target) == Rebase(q, src, target)
        ensures p == q
      {
        RebaseInjective(p, q, src, target);
      }
    }
    map p | p in files && Under(p, src) :: Rebase(p, src, target) := files[p]
  }

  /** The subtree at `src` renamed to `target`, replacing what was there. */
  function Rename(t: Tree, src: Path, target: Path): Tree
    requires Apart(src, target)
  {
    Tree((map p | p in t.files && !Under(p, src) && !Under(p, target) :: t.files[p])
         + MovedFiles(t.files, src, target),
         (set p | p in t.dirs && !Under(p, src) && !Under(p, target))
         + (set p | p in t.dirs && Under(p, src) :: Rebase(p, src, target)))
  }

  /** `shutil.move(src, dst)`: into `dst` when it is a directory. */
  function Move(t: Tree, src: Path, dst: Path): Tree
    requires Apart(src, dst)
  {
    var target := if dst in t.dirs then dst + [src[|src| - 1]] else dst;
    Rename(t, src, target)
  }

  /** A rename carries every file of the subtree to its new place with its
      content, leaves nothing behind and keeps every file outside both
      places. */
  lemma RenameCarries(t: Tree, src: Path, target: Path)
    requires Apart(src, target)
    ensures var r := Rename(t, src, target);
      (forall p :: p in t.files && Under(p, src) ==>
         Rebase(p, src, target) in r.files && r.files[Rebase(p, src, target)] == t.files[p])
      && (forall p :: p in r.files ==> !Under(p, src))
      && (forall p :: p in t.files && !Under(p, src) && !Under(p, target) ==>
            p in r.files && r.files[p] == t.files[p])
  {
    var r := Rename(t, src, target);
    var moved := MovedFiles(t.files, src, target);
    forall p | p in t.files && Under(p, src)
      ensures Rebase(p, src, target) in r.files && r.files[Rebase(p, src, target)] == t.files[p]
    {
      var k := Rebase(p, src, target);
      assert k in moved;
      forall q | q in t.files && Under(q, src) && Rebase(q, src, target) == k
        ensures q == p
      {
        RebaseInjective(p, q, src, target);
      }
      assert moved[k] == t.files[p];
    }
    forall p | p in r.files
      ensures !Under(p, src)
    {
      if p in moved {
        var q :| q in t.files && Under(q, src) && Rebase(q, src, target) == p;
        assert p[0] == target[0];
        if |src| <= |p| {
          assert p[..|src|][0] == p[0];
        }
      }
    }
  }

  // ---------------------------------------------------------------------
  // main, step by step
  // ---------------------------------------------------------------------

  /** Steps 1 and 2: create `python_core/` and its `__init__.py`; `None`
      when `touch` raises because `python_core` is a file. */
  function Setup(t: Tree): Option<Tree>
  {
    var t1 := if Exists(t, Core) then t else Tree(t.files, t.dirs + {Core});
    var init := Core + ["__init__.py"];
    if Exists(t1, init) then Some(t1)
    else if Core in t1.dirs then Some(Tree(t1.files[init := ""], t1.dirs))
    else None
  }

  /** One folder of step 2: moved only when it exists under `src/` and
      nothing is in its place under `python_core/`. */
  function FolderStep(t: Tree, folder: string): Tree
  {
    var s := Src + [folder];
    var d := Core + [folder];
    if Exists(t, s) && !Exists(t, d) then Move(t, s, d) else t
  }

  function FolderMoves(t: Tree, n: nat): Tree
    requires n <= |FoldersToMove|
  {
    if n == 0 then t else FolderStep(FolderMoves(t, n - 1), FoldersToMove[n - 1])
  }

  /** One file of step 3: moved whenever it exists. */
  function FileStep(t: Tree, name: string): Tree
  {
    if Exists(t, Src + [name]) then Move(t, Src + [name], Core + [name]) else t
  }

  function FileMoves(t: Tree, n: nat): Tree
    requires n <= |FilesToMove|
  {
    if n == 0 then t else FileStep(FileMoves(t, n - 1), FilesToMove[n - 1])
  }

  /** A stray `src/cli.py` becomes `python_core/cli_internal.py`. */
  function CliStep(t: Tree): Tree
  {
    if Exists(t, Src + ["cli.py"]) then Move(t, Src + ["cli.py"], Core + ["cli_internal.py"]) else t
  }

  /** Steps 2 and 3, done only when `src` exists. */
  function Moves(t: Tree): Tree
  {
    if Exists(t, Src) then CliStep(FileMoves(FolderMoves(t, |FoldersToMove|), |FilesToMove|)) else t
  }

  /** A folder whose destination exists, or whose source is missing, is not
      moved. Otherwise the files of `src/<folder>` end up under
      `python_core/<folder>` with their contents, none stays behind, and
      every other file is kept. */
  lemma FolderStepCases(t: Tree, folder: string)
    ensures Exists(t, Core + [folder]) || !Exists(t, Src + [folder]) ==> FolderStep(t, folder) == t
    ensures Exists(t, Src + [folder]) && !Exists(t, Core + [folder]) ==>
      var s := Src + [folder];
      var d := Core + [folder];
      var r := FolderStep(t, folder);
      (forall p :: p in t.files && Under(p, s) ==> Rebase(p, s, d) in r.files && r.files[Rebase(p, s, d)] == t.files[p])
      && (forall p :: p in r.files ==> !Under(p, s))
      && (forall p :: p in t.files && !Under(p, s) && !Under(p, d) ==> p in r.files && r.files[p] == t.files[p])
  {
    var s := Src + [folder];
    var d := Core + [folder];
    if Exists(t, s) && !Exists(t, d) {
      RenameCarries(t, s, d);
    }
  }

  // ---------------------------------------------------------------------
  // step 4: the scan and the rewrite
  // ---------------------------------------------------------------------

  predicate IsPyName(name: string)
  {
    PyText.EndsWith(name, ".py")
  }

  /** `folder.glob("*.py")` filtered for the root, `folder.rglob("*.py")`
      elsewhere; nothing for a missing folder. */
  function ScanSet(t: Tree, folder: Path): set<Path>
  {
    if folder == Root then
      set p | p in t.files && |p| == 1 && IsPyName(p[0]) && p[0] != "refactor.py"
    else if !Exists(t, folder) then {}
    else
      (set p | p in t.files && Under(p, folder) && |p| > |folder| && IsPyName(p[|p| - 1]))
      + (set p | p in t.dirs && Under(p, folder) && |p| > |folder| && IsPyName(p[|p| - 1]))
  }

  /** The root scan stays at the top level and skips the script itself; the
      other scans reach `.py` files at any depth. */
  lemma ScanReach(t: Tree, folder: Path, p: Path)
    ensures p in ScanSet(t, Root) ==> |p| == 1 && p in t.files && p[0] != "refactor.py"
    ensures (folder != Root && Exists(t, folder) && p in t.files && Under(p, folder) && |p| > |folder|
             && IsPyName(p[|p| - 1])) ==> p in ScanSet(t, folder)
  {
  }

  /** The four scans never meet, so no file is rewritten twice. */
  lemma ScansDisjoint(t: Tree, i: nat, j: nat)
    requires i < j < |ScanDirs|
    ensures ScanSet(t, ScanDirs[i]) !! ScanSet(t, ScanDirs[j])
  {
    forall p | p in ScanSet(t, ScanDirs[i])
      ensures p !in ScanSet(t, ScanDirs[j])
    {
      assert |p| > 1;
      assert p[..1] == ScanDirs[i];
      assert p[0] == p[..1][0] == ScanDirs[i][0];
      if j < 3 && |p| >= 1 {
        assert p[..1][0] == p[0];
      }
    }
  }

  /** The files after `update_imports` on every path of `scanned`: a path
      that is a readable file gets the rewritten content. */
  function Rewritten(files: map<Path, string>, scanned: set<Path>, unreadable: set<Path>): (r: map<Path, string>)
    ensures r.Keys == files.Keys
  {
    map p | p in files :: if p in scanned && p !in unreadable then RewriteImports(files[p]) else files[p]
  }

  /** The files `update_imports` writes: only those whose content changes. */
  function Changed(files: map<Path, string>, scanned: set<Path>, unreadable: set<Path>): set<Path>
  {
    set p | p in files && p in scanned && p !in unreadable && RewriteImports(files[p]) != files[p]
  }

  /** A file without any of the three patterns is never written. */
  lemma UntouchedNotWritten(files: map<Path, string>, scanned: set<Path>, unreadable: set<Path>, p: Path)
    requires p in files
    requires !PyText.Contains(files[p], "from src.")
    requires !PyText.Contains(files[p], "import src.")
    requires !PyText.Contains(files[p], "from src ")
    ensures p !in Changed(files, scanned, unreadable)
    ensures Rewritten(files, scanned, unreadable)[p] == files[p]
  {
    RewriteUntouched(files[p]);
  }

  /** Rewriting two disjoint sets one after the other is rewriting their
      union. */
  lemma RewrittenUnion(files: map<Path, string>, a: set<Path>, b: set<Path>, unreadable: set<Path>)
    requires a !! b
    ensures Rewritten(Rewritten(files, a, unreadable), b, unreadable) == Rewritten(files, a + b, unreadable)
    ensures Changed(Rewritten(files, a, unreadable), b, unreadable) + Changed(files, a, unreadable)
            == Changed(files, a + b, unreadable)
  {
    var fa := Rewritten(files, a, unreadable);
    assert forall p :: p in fa && p !in a ==> fa[p] == files[p];
  }

  lemma RewrittenNothing(files: map<Path, string>, unreadable: set<Path>)
    ensures Rewritten(files, {}, unreadable) == files
    ensures Changed(files, {}, unreadable) == {}
  {
  }

  /** The scans of the first `n` scan directories. */
  function ScannedUpTo(t: Tree, n: nat): set<Path>
    requires n <= |ScanDirs|
  {
    if n == 0 then {} else ScannedUpTo(t, n - 1) + ScanSet(t, ScanDirs[n - 1])
  }

  lemma {:induction false} ScannedUpToDisjoint(t: Tree, n: nat)
    requires n < |ScanDirs|
    ensures ScannedUpTo(t, n) !! ScanSet(t, ScanDirs[n])
    decreases n
  {
    if n > 0 {
      ScannedUpToDisjoint(t, n - 1);
      ScansDisjoint(t, n - 1, n);
      if n > 1 {
        ScannedPrefixDisjoint(t, n - 1, n);
      }
    }
  }

  /** A scan set is disjoint from every earlier one. */
  lemma {:induction false} ScannedPrefixDisjoint(t: Tree, m: nat, n: nat)
    requires m <= n < |ScanDirs|
    ensures ScannedUpTo(t, m) !! ScanSet(t, ScanDirs[n])
    decreases m
  {
    if m > 0 {
      ScannedPrefixDisjoint(t, m - 1, n);
      ScansDisjoint(t, m - 1, n);
    }
  }

  /** What `main` ends with. */
  datatype Outcome = Outcome(tree: Tree, written: set<Path>, completed: bool)

  /** `main`: `unreadable` are the files whose reading raises inside
      `update_imports`, which reports and goes on. */
  function RefactorSpec(t: Tree, unreadable: set<Path>): Outcome
  {
    match Setup(t)
    case None => Outcome(t, {}, false)
    case Some(t1) =>
      var t2 := Moves(t1);
      var scanned := ScannedUpTo(t2, |ScanDirs|);
      Outcome(Tree(Rewritten(t2.files, scanned, unreadable), t2.dirs), Changed(t2.files, scanned, unreadable), true)
  }

  /** A run that completes rewrites exactly the scanned readable files whose
      content changes, leaves the directories as the moves made them and
      never writes a file that has none of the three patterns. */
  lemma RefactorOutcome(t: Tree, unreadable: set<Path>)
    ensures var o := RefactorSpec(t, unreadable);
      (o.completed <==> Setup(t).Some?)
      && (!o.completed ==> o.tree == t && o.written == {})
      && o.written <= o.tree.files.Keys
      && (forall p :: p in o.written ==> p !in unreadable)
      && ["refactor.py"] !in o.written
      && (o.completed ==>
            var moved := Moves(Setup(t).value);
            o.tree.dirs == moved.dirs && o.tree.files.Keys == moved.files.Keys
            && forall p :: p in o.written ==>
                 o.tree.files[p] == RewriteImports(moved.files[p])
                 && (PyText.Contains(moved.files[p], "from src.") || PyText.Contains(moved.files[p], "import src.")
                     || PyText.Contains(moved.files[p], "from src ")))
  {
    var o := RefactorSpec(t, unreadable);
    if o.completed {
      var moved := Moves(Setup(t).value);
      var scanned := ScannedUpTo(moved, |ScanDirs|);
      forall p | p in o.written
        ensures PyText.Contains(moved.files[p], "from src.") || PyText.Contains(moved.files[p], "import src.")
                || PyText.Contains(moved.files[p], "from src ")
      {
        if !PyText.Contains(moved.files[p], "from src.") && !PyText.Contains(moved.files[p], "import src.")
           && !PyText.Contains(moved.files[p], "from src ") {
          UntouchedNotWritten(moved.files, scanned, unreadable, p);
        }
      }
      ScriptNotScanned(moved);
    }
  }

  /** The script never rewrites itself. */
  lemma ScriptNotScanned(t: Tree)
    ensures ["refactor.py"] !in ScannedUpTo(t, |ScanDirs|)
  {
    ScannedDeep(t, 3);
  }

  /** The scans below the root only find paths inside a directory. */
  lemma {:induction false} ScannedDeep(t: Tree, n: nat)
    requires n <= 3
    ensures forall p :: p in ScannedUpTo(t, n) ==> |p| > 1
    decreases n
  {
    if n > 0 {
      ScannedDeep(t, n - 1);
    }
  }

  // ---------------------------------------------------------------------
  // the script on the disk
  // ---------------------------------------------------------------------

  /** The project directory on disk and the files written so far. */
  class Disk {
    var files: map<Path, string>
    var dirs: set<Path>
    var written: set<Path>

    function State(): Tree
      reads this
    {
      Tree(files, dirs)
    }

    constructor (t: Tree)
      ensures State() == t && written == {}
    {
      files := t.files;
      dirs := t.dirs;
      written := {};
    }

    method Mkdir(p: Path)
      modifies this
      ensures files == old(files) && dirs == old(dirs) + {p} && written == old(written)
    {
      dirs := dirs + {p};
    }

    /** `touch` of a missing file creates it empty. */
    method Touch(p: Path)
      modifies this
      ensures files == old(files)[p := ""] && dirs == old(dirs) && written == old(written)
    {
      files := files[p := ""];
    }

    method MoveTree(src: Path, dst: Path)
      requires Apart(src, dst)
      modifies this
      ensures State() == Move(old(State()), src, dst) && written == old(written)
    {
      var t := Move(State(), src, dst);
      files := t.files;
      dirs := t.dirs;
    }

    /** `update_imports`: nothing happens to a directory or an unreadable
        file, and a file is written only when its content changes. */
    method UpdateImports(p: Path, unreadable: set<Path>)
      modifies this
      ensures files == Rewritten(old(files), {p}, unreadable) && dirs == old(dirs)
      ensures written == old(written) + Changed(old(files), {p}, unreadable)
    {
      if p in files && p !in unreadable {
        var content := files[p];
        var newContent := PyText.ReplaceAll(content, "from src.", "from python_core.");
        newContent := PyText.ReplaceAll(newContent, "import src.", "import python_core.");
        newContent := PyText.ReplaceAll(newContent, "from src ", "from python_core ");
        if content != newContent {
          files := files[p := newContent];
          written := written + {p};
        }
      }
    }

    /** The loop over one scan's files; each is rewritten once, in any order. */
    method RewriteAll(scanned: set<Path>, unreadable: set<Path>)
      modifies this
      ensures files == Rewritten(old(files), scanned, unreadable) && dirs == old(dirs)
      ensures written == old(written) + Changed(old(files), scanned, unreadable)
    {
      var remaining := scanned;
      ghost var done: set<Path> := {};
      ghost var files0 := files;
      while remaining != {}
        invariant done + remaining == scanned && done !! remaining
        invariant files == Rewritten(files0, done, unreadable) && dirs == old(dirs)
        invariant written == old(written) + Changed(files0, done, unreadable)
        decreases |remaining|
      {
        var p :| p in remaining;
        UpdateImports(p, unreadable);
        RewrittenUnion(files0, done, {p}, unreadable);
        remaining := remaining - {p};
        done := done + {p};
      }
    }

    /** Steps 1 and 2 of `main`: `false` when `touch` raises. */
    method MakePackage() returns (ok: bool)
      modifies this
      ensures ok == Setup(old(State())).Some?
      ensures State() == (if ok then Setup(old(State())).value else old(State()))
      ensures written == old(written)
    {
      if !Exists(State(), Core) {
        Mkdir(Core);
      }
      var init := Core + ["__init__.py"];
      if !Exists(State(), init) {
        if Core !in dirs {
          return false;
        }
        Touch(init);
      }
      return true;
    }

    /** The moves of steps 2 and 3, done only when `src` exists. */
    method MoveAll()
      modifies this
      ensures State() == Moves(old(State())) && written == old(written)
    {
      ghost var t1 := State();
      if Exists(State(), Src) {
        for i := 0 to |FoldersToMove|
          invariant State() == FolderMoves(t1, i) && written == old(written)
        {
          var s := Src + [FoldersToMove[i]];
          var d := Core + [FoldersToMove[i]];
          if Exists(State(), s) {
            if !Exists(State(), d) {
              MoveTree(s, d);
            }
          }
        }
        for i := 0 to |FilesToMove|
          invariant State() == FileMoves(FolderMoves(t1, |FoldersToMove|), i) && written == old(written)
        {
          var s := Src + [FilesToMove[i]];
          if Exists(State(), s) {
            MoveTree(s, Core + [FilesToMove[i]]);
          }
        }
        if Exists(State(), Src + ["cli.py"]) {
          MoveTree(Src + ["cli.py"], Core + ["cli_internal.py"]);
        }
      }
    }

    /** One directory of step 4; a missing one is skipped. */
    method RewriteScan(folder: Path, unreadable: set<Path>)
      modifies this
      ensures var scan := ScanSet(old(State()), folder);
        files == Rewritten(old(files), scan, unreadable) && dirs == old(dirs)
        && written == old(written) + Changed(old(files), scan, unreadable)
    {
      if Exists(State(), folder) {
        RewriteAll(ScanSet(State(), folder), unreadable);
      } else {
        RewrittenNothing(files, unreadable);
      }
    }

    /** Step 4: every scan directory in turn. */
    method RewriteScans(unreadable: set<Path>)
      modifies this
      ensures var scanned := ScannedUpTo(old(State()), |ScanDirs|);
        files == Rewritten(old(files), scanned, unreadable) && dirs == old(dirs)
        && written == old(written) + Changed(old(files), scanned, unreadable)
    {
      ghost var t2 := State();
      for i := 0 to |ScanDirs|
        invariant files == Rewritten(t2.files, ScannedUpTo(t2, i), unreadable) && dirs == t2.dirs
        invariant written == old(written) + Changed(t2.files, ScannedUpTo(t2, i), unreadable)
      {
        ghost var before := ScannedUpTo(t2, i);
        ghost var scan := ScanSet(t2, ScanDirs[i]);
        ScanKeysOnly(t2, State(), ScanDirs[i]);
        ScannedUpToDisjoint(t2, i);
        RewrittenUnion(t2.files, before, scan, unreadable);
        RewriteScan(ScanDirs[i], unreadable);
      }
    }

    /** `main`; `false` when it stops at the `touch` that raises. */
    method Refactor(unreadable: set<Path>) returns (completed: bool)
      modifies this
      ensures var o := RefactorSpec(old(State()), unreadable);
        State() == o.tree && written == old(written) + o.written && completed == o.completed
    {
      completed := MakePackage();
      if !completed {
        return;
      }
      MoveAll();
      RewriteScans(unreadable);
    }
  }

  /** A scan sees only which paths exist, not what the files hold. */
  lemma ScanKeysOnly(t: Tree, u: Tree, folder: Path)
    requires t.files.Keys == u.files.Keys && t.dirs == u.dirs
    ensures ScanSet(t, folder) == ScanSet(u, folder)
    ensures Exists(t, folder) == Exists(u, folder)
  {
  }
}
