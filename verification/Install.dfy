/**
 Installing a skill tree: the copy that is staged, the manifests that are
 compared, and the renames with their rollback.  Any step may raise, before or
 after it took effect.
 */
module Install {
  import opened Wrappers

  type Path = seq<string>

  // What reading a file gives: its bytes, and what the two required files are parsed for.
  datatype Content = Content(text: string, declaresSkill: bool, version: Option<string>)

  datatype Node = File(content: Content) | Directory(entries: map<string, Node>)

  const IGNORED_DIRECTORY_NAMES: set<string> :=
    {".git", ".mypy_cache", ".pytest_cache", ".ruff_cache", "__pycache__", "build", "dist"}
  const ENV: string := ".env"
  const SKILL_FILE: string := "SKILL.md"
  const VERSION_FILE: string := "VERSION"

  predicate EndsWith(name: string, suffix: string) {
    |suffix| <= |name| && name[|name| - |suffix|..] == suffix
  }

  predicate IgnoredAsDirectory(name: string) {
    name in IGNORED_DIRECTORY_NAMES || EndsWith(name, ".egg-info")
  }

  predicate IgnoredAsFile(name: string) {
    name == ".coverage" || EndsWith(name, ".pyc") || EndsWith(name, ".pyo")
  }

  // ----- manifests and copies -----

  /** All files below a node, by path. */
  function Files(node: Node): set<(Path, Content)> {
    match node
    case File(content) => {([], content)}
    case Directory(entries) => set name, f | name in entries && f in Files(entries[name]) :: ([name] + f.0, f.1)
  }

  /** The manifest leaves out files below an ignored directory and files ignored by their own name. */
  predicate LeftOutOfManifest(path: Path) {
    path == []
    || (exists i :: 0 <= i < |path| - 1 && IgnoredAsDirectory(path[i]))
    || IgnoredAsFile(path[|path| - 1])
  }

  function Manifest(root: Node): set<(Path, Content)> {
    set f | f in Files(root) && !LeftOutOfManifest(f.0)
  }

  /** The copy skips a name on either list, whether it is a file or a directory, and local environment files. */
  predicate SkippedByCopy(name: string, child: Node) {
    IgnoredAsDirectory(name) || IgnoredAsFile(name) || (child.File? && name == ENV)
  }

  function CopyTree(node: Node): Node {
    match node
    case File(_) => node
    case Directory(entries) =>
      Directory(map name | name in entries && !SkippedByCopy(name, entries[name]) :: CopyTree(entries[name]))
  }

  /** Whether the copy keeps the file at a path. */
  predicate KeptByCopy(path: Path) {
    && (forall i :: 0 <= i < |path| ==> !IgnoredAsDirectory(path[i]) && !IgnoredAsFile(path[i]))
    && (path != [] ==> path[|path| - 1] != ENV)
  }

  lemma FileIsRootOnly(node: Node, f: (Path, Content))
    requires f in Files(node)
    ensures node.File? <==> f.0 == []
  {
  }

  lemma {:induction false} CopyKeeps(node: Node, f: (Path, Content))
    requires node.Directory?
    ensures f in Files(CopyTree(node)) <==> f in Files(node) && KeptByCopy(f.0)
    decreases |f.0|
  {
    if f.0 != [] && f.0[0] in node.entries {
      var name, rest := f.0[0], (f.0[1..], f.1);
      var child := node.entries[name];
      assert f.0 == [name] + rest.0;
      assert f in Files(node) <==> rest in Files(child) by {
        FirstStep(node, f);
      }
      assert KeptByCopy(f.0) <==> !IgnoredAsDirectory(name) && !IgnoredAsFile(name) && KeptByCopy(rest.0)
                                  && (rest.0 == [] ==> name != ENV) by {
        FirstName(f.0);
      }
      if name in CopyTree(node).entries {
        FirstStep(CopyTree(node), f);
      } else if f in Files(CopyTree(node)) {
        FilesLieBelow(CopyTree(node), f);
      }
      if child.Directory? {
        CopyKeeps(child, rest);
      }
      if rest in Files(child) {
        FileIsRootOnly(child, rest);
      }
    } else {
      if f in Files(node) {
        FilesLieBelow(node, f);
      }
      if f in Files(CopyTree(node)) {
        FilesLieBelow(CopyTree(node), f);
      }
    }
  }

  lemma FirstStep(node: Node, f: (Path, Content))
    requires node.Directory? && f.0 != [] && f.0[0] in node.entries
    ensures f in Files(node) <==> (f.0[1..], f.1) in Files(node.entries[f.0[0]])
  {
    var name, rest := f.0[0], (f.0[1..], f.1);
    assert f.0 == [name] + rest.0;
    if f in Files(node) {
      var n, g :| n in node.entries && g in Files(node.entries[n]) && f == ([n] + g.0, g.1);
      assert ([n] + g.0)[0] == n && ([n] + g.0)[1..] == g.0;
      assert g == rest;
    }
    if rest in Files(node.entries[name]) {
      assert f == ([name] + rest.0, rest.1);
    }
  }

  lemma FilesLieBelow(node: Node, f: (Path, Content))
    requires node.Directory? && f in Files(node)
    ensures f.0 != [] && f.0[0] in node.entries
  {
    var n, g :| n in node.entries && g in Files(node.entries[n]) && f == ([n] + g.0, g.1);
    assert ([n] + g.0)[0] == n;
  }

  lemma FirstName(path: Path)
    requires path != []
    ensures KeptByCopy(path) <==> !IgnoredAsDirectory(path[0]) && !IgnoredAsFile(path[0]) && KeptByCopy(path[1..])
                                  && (path[1..] == [] ==> path[0] != ENV)
  {
    var rest := path[1..];
    assert forall i :: 0 <= i < |rest| ==> rest[i] == path[i + 1];
    if KeptByCopy(rest) && !IgnoredAsDirectory(path[0]) && !IgnoredAsFile(path[0]) {
      forall i | 0 <= i < |path| ensures !IgnoredAsDirectory(path[i]) && !IgnoredAsFile(path[i]) {
        assert i > 0 ==> path[i] == rest[i - 1];
      }
    }
  }

  /** A manifest path that the copy loses: a file named like an ignored directory or `.env`, or below a directory named like an ignored file. */
  ghost predicate LostByCopy(path: Path) {
    path != []
    && (IgnoredAsDirectory(path[|path| - 1]) || path[|path| - 1] == ENV
        || exists i :: 0 <= i < |path| - 1 && IgnoredAsFile(path[i]))
  }

  lemma LostExactly(path: Path)
    requires !LeftOutOfManifest(path)
    ensures KeptByCopy(path) <==> !LostByCopy(path)
  {
  }

  lemma KeptIsInManifest(path: Path)
    requires path != [] && KeptByCopy(path)
    ensures !LeftOutOfManifest(path)
  {
  }

  /**
   The staged manifest is always part of the source manifest, and equal to it
   exactly when the source manifest has no path of the losing kind.  The staged
   tree itself holds no file that its manifest leaves out.
   */
  lemma StagedManifest(source: Node)
    requires source.Directory?
    ensures Manifest(CopyTree(source)) <= Manifest(source)
    ensures Manifest(CopyTree(source)) == Manifest(source) <==> forall f :: f in Manifest(source) ==> !LostByCopy(f.0)
    ensures Manifest(CopyTree(source)) == Files(CopyTree(source))
  {
    forall f | f in Files(CopyTree(source)) ensures !LeftOutOfManifest(f.0) {
      CopyKeeps(source, f);
      FileIsRootOnly(CopyTree(source), f);
      KeptIsInManifest(f.0);
    }
    hide LeftOutOfManifest, KeptByCopy, LostByCopy, CopyTree, Files;
    forall f ensures f in Manifest(CopyTree(source)) <==> f in Manifest(source) && !LostByCopy(f.0) {
      CopyKeeps(source, f);
      if !LeftOutOfManifest(f.0) {
        LostExactly(f.0);
      }
    }
  }

  /** The manifest loop over a listing of the tree's files. */
  method BuildManifest(root: Node, listing: seq<(Path, Content)>) returns (manifest: set<(Path, Content)>)
    requires forall f :: f in listing <==> f in Files(root)
    ensures manifest == Manifest(root)
  {
    manifest := {};
    for k := 0 to |listing|
      invariant manifest == set f | f in listing[..k] && !LeftOutOfManifest(f.0)
    {
      assert listing[..k + 1] == listing[..k] + [listing[k]];
      if !LeftOutOfManifest(listing[k].0) {
        manifest := manifest + {listing[k]};
      }
    }
    assert listing[..|listing|] == listing;
  }

  // ----- validation -----

  predicate HasEnvFile(node: Node) {
    node.Directory?
    && exists name :: name in node.entries && ((node.entries[name].File? && name == ENV) || HasEnvFile(node.entries[name]))
  }

  /** The search for environment files finds exactly the files of that name among all the files below. */
  lemma {:induction false} EnvFileExact(node: Node)
    requires node.Directory?
    ensures HasEnvFile(node) <==> exists f :: f in Files(node) && f.0 != [] && f.0[|f.0| - 1] == ENV
  {
    if HasEnvFile(node) {
      var name :| name in node.entries && ((node.entries[name].File? && name == ENV) || HasEnvFile(node.entries[name]));
      var child := node.entries[name];
      if child.File? {
        EnvFileBelow(node, name, ([], child.content));
      } else {
        EnvFileExact(child);
        var g :| g in Files(child) && g.0 != [] && g.0[|g.0| - 1] == ENV;
        EnvFileBelow(node, name, g);
      }
    }
    if f :| f in Files(node) && f.0 != [] && f.0[|f.0| - 1] == ENV {
      FilesLieBelow(node, f);
      FirstStep(node, f);
      var child := node.entries[f.0[0]];
      FileIsRootOnly(child, (f.0[1..], f.1));
      if child.Directory? {
        EnvFileExact(child);
      }
    }
  }

  lemma EnvFileBelow(node: Node, name: string, g: (Path, Content))
    requires node.Directory? && name in node.entries && g in Files(node.entries[name])
    requires if g.0 == [] then name == ENV else g.0[|g.0| - 1] == ENV
    ensures var f := ([name] + g.0, g.1); f in Files(node) && f.0 != [] && f.0[|f.0| - 1] == ENV
  {
  }

  function VersionOf(root: Node): Option<string> {
    if root.Directory? && VERSION_FILE in root.entries && root.entries[VERSION_FILE].File?
    then root.entries[VERSION_FILE].content.version else None
  }

  predicate ValidTree(root: Node) {
    && root.Directory? && SKILL_FILE in root.entries && root.entries[SKILL_FILE].File?
    && root.entries[SKILL_FILE].content.declaresSkill && VersionOf(root).Some? && !HasEnvFile(root)
  }

  lemma {:induction false} CopyHasNoEnv(node: Node)
    ensures !HasEnvFile(CopyTree(node))
  {
    if node.Directory? {
      var entries := CopyTree(node).entries;
      forall name | name in entries ensures !(entries[name].File? && name == ENV) && !HasEnvFile(entries[name]) {
        CopyHasNoEnv(node.entries[name]);
        assert entries[name].File? == node.entries[name].File?;
      }
    }
  }

  lemma RequiredNamesKept()
    ensures !IgnoredAsDirectory(SKILL_FILE) && !IgnoredAsFile(SKILL_FILE) && SKILL_FILE != ENV
    ensures !IgnoredAsDirectory(VERSION_FILE) && !IgnoredAsFile(VERSION_FILE) && VERSION_FILE != ENV
  {
  }

  /** A valid source always stages to a valid tree of the same version. */
  lemma StagedIsValid(source: Node)
    requires ValidTree(source)
    ensures ValidTree(CopyTree(source)) && VersionOf(CopyTree(source)) == VersionOf(source)
  {
    RequiredNamesKept();
    hide IgnoredAsDirectory, IgnoredAsFile;
    CopyHasNoEnv(source);
    assert SKILL_FILE in CopyTree(source).entries && VERSION_FILE in CopyTree(source).entries;
  }

  /** The sources that can ever be installed: valid, with nothing in the manifest that the copy loses. */
  ghost predicate Installable(source: Node) {
    ValidTree(source) && forall f :: f in Manifest(source) ==> !LostByCopy(f.0)
  }

  /** A valid source with a plain file called `build` passes every check of the source and can never be installed. */
  lemma ValidSourceNeverInstalled() returns (source: Node)
    ensures ValidTree(source) && !Installable(source)
  {
    var text := Content("", true, Some("1.0.0"));
    source := Directory(map[SKILL_FILE := File(text), VERSION_FILE := File(text), "build" := File(text)]);
    var f := (["build"], text);
    assert f.0[1..] == [] && ([], text) in Files(source.entries["build"]);
    FirstStep(source, f);
    assert f in Manifest(source) && LostByCopy(f.0);
  }

  predicate InstalledMatches(target: Node, source: Node) {
    VersionOf(target).Some? && VersionOf(target) == VersionOf(source) && Manifest(target) == Manifest(source)
  }

  // ----- replacing the installed tree -----

  // A step completes, or raises before or after taking effect.
  datatype Fault = NoFault | Before | After

  /** One choice of what goes wrong; `partial` and `leftover` are what an interrupted copy or removal leaves in staging. */
  datatype Faults = Faults(copy: bool, partial: Node, check: bool, prepareBackup: bool, toBackup: Fault, replace: Fault,
                           rollback: Fault, cleanup: bool, leftover: Node)

  /**
   The faults after which a failed replacement leaves something else than the
   old tree at the target: the rename to the backup raised after it took
   effect, which no rollback follows; the new tree could be put neither in
   place nor the old one back; or the new tree was in place when its rename raised.
   */
  predicate Displaces(f: Faults, source: Node, installed: Node) {
    && !f.prepareBackup && f.toBackup != Before
    && (f.toBackup == After || (f.replace == Before && f.rollback == Before)
        || (f.replace == After && CopyTree(source) != installed))
  }

  predicate Faultless(f: Faults) {
    !f.copy && !f.check && !f.prepareBackup && f.toBackup == NoFault && f.replace == NoFault
  }

  datatype Disk = Disk(target: Option<Node>, staging: Option<Node>, backup: Option<Node>)

  datatype Outcome = Installed | Unchanged | Planned | Failed

  /** Everything up to the renames goes through, so that the installed tree is about to be moved. */
  ghost predicate Attempts(before: Disk, source: Node, dryRun: bool, f: Faults) {
    && ValidTree(source) && !(before.target.Some? && InstalledMatches(before.target.value, source)) && !dryRun
    && before.staging.None? && before.backup.None? && !f.copy && !f.check
    && Manifest(CopyTree(source)) == Manifest(source)
  }

  /** The complete old tree is at the target or the backup, and the target is never a partial tree. */
  ghost predicate KeepsOld(before: Disk, source: Node, now: Disk) {
    && (before.target.Some? ==> now.target == before.target || now.backup == before.target)
    && (now.target == before.target || now.target == None
        || (now.target == Some(CopyTree(source)) && Manifest(CopyTree(source)) == Manifest(source)))
  }

  ghost predicate AlwaysKeepsOld(before: Disk, source: Node, history: seq<Disk>) {
    forall i :: 0 <= i < |history| ==> KeepsOld(before, source, history[i])
  }

  class Installation {
    var target: Option<Node>
    var staging: Option<Node>
    var backup: Option<Node>
    ghost var history: seq<Disk> // the disk after every step that touched it

    function Now(): Disk
      reads this
    {
      Disk(target, staging, backup)
    }

    constructor (installed: Option<Node>)
      ensures Now() == Disk(installed, None, None) && history == []
    {
      target, staging, backup, history := installed, None, None, [];
    }

    method Put(disk: Disk)
      modifies this
      ensures Now() == disk && history == old(history) + [disk]
    {
      target, staging, backup := disk.target, disk.staging, disk.backup;
      history := history + [Now()];
    }

    /** The staged copy and its checks; a failure leaves whatever was staged for the clean-up. */
    method Stage(source: Node, faults: Faults) returns (ok: bool)
      requires ValidTree(source) && AlwaysKeepsOld(Now(), source, history)
      modifies this
      ensures target == old(target) && backup == old(backup)
      ensures AlwaysKeepsOld(old(Now()), source, history)
      ensures ok ==> staging == Some(CopyTree(source))
      ensures ok <==> !faults.copy && !faults.check && Manifest(CopyTree(source)) == Manifest(source)
    {
      Put(Disk(target, Some(faults.partial), backup));
      if faults.copy {
        return false;
      }
      Put(Disk(target, Some(CopyTree(source)), backup));
      if faults.check {
        return false;
      }
      StagedIsValid(source);
      if !ValidTree(staging.value) || VersionOf(staging.value) != VersionOf(source) || Manifest(staging.value) != Manifest(source) {
        return false;
      }
      return true;
    }

    /** Moves the old tree to the backup and the staged one into place, or tries to move the old one back. */
    method Replace(ghost before: Disk, source: Node, faults: Faults) returns (ok: bool)
      requires target.Some? && backup.None? && before.target == target && staging == Some(CopyTree(source))
      requires Manifest(CopyTree(source)) == Manifest(source) && AlwaysKeepsOld(before, source, history)
      modifies this
      ensures AlwaysKeepsOld(before, source, history) && KeepsOld(before, source, Now())
      ensures ok <==> !faults.prepareBackup && faults.toBackup == NoFault && faults.replace == NoFault
      ensures ok ==> Now() == Disk(Some(CopyTree(source)), None, before.target)
      ensures !ok ==> (target != before.target <==> Displaces(faults, source, before.target.value))
      ensures !ok && target != before.target ==> backup == before.target
      ensures !ok && !faults.prepareBackup && faults.toBackup == After ==> target == None
      ensures !ok && target == before.target && faults.replace != After ==> backup == None
    {
      if faults.prepareBackup || faults.toBackup == Before {
        return false;
      }
      Put(Disk(None, staging, target));
      if faults.toBackup == After {
        return false;
      }
      if faults.replace != Before {
        Put(Disk(staging, None, backup));
      }
      if faults.replace == NoFault {
        return true;
      }
      // The rollback: a rename onto an existing tree fails.
      if target.None? && faults.rollback != Before {
        Put(Disk(backup, staging, None));
      }
      return false;
    }

    method InstallFresh(ghost before: Disk, source: Node, faults: Faults) returns (ok: bool)
      requires target.None? && before.target == target && staging == Some(CopyTree(source))
      requires Manifest(CopyTree(source)) == Manifest(source) && AlwaysKeepsOld(before, source, history)
      modifies this
      ensures AlwaysKeepsOld(before, source, history) && KeepsOld(before, source, Now()) && backup == old(backup)
      ensures ok <==> faults.replace == NoFault
      ensures ok ==> target == Some(CopyTree(source)) && staging == None
    {
      if faults.replace == Before {
        return false;
      }
      Put(Disk(staging, None, backup));
      return faults.replace == NoFault;
    }

    method RemoveStaging(ghost before: Disk, source: Node, faults: Faults)
      requires KeepsOld(before, source, Now()) && AlwaysKeepsOld(before, source, history)
      modifies this
      ensures target == old(target) && backup == old(backup) && AlwaysKeepsOld(before, source, history)
      ensures staging == if old(staging).None? || !faults.cleanup then None else Some(faults.leftover)
    {
      if staging.Some? {
        Put(Disk(target, Some(faults.leftover), backup));
        if !faults.cleanup {
          Put(Disk(target, None, backup));
        }
      }
    }

    /**
     The whole update under any choice of faults: at every step the complete old
     tree is at the target or the backup and the target holds no partial tree.
     */
    method Update(source: Node, dryRun: bool, faults: Faults) returns (outcome: Outcome)
      requires history == []
      modifies this
      ensures AlwaysKeepsOld(old(Now()), source, history)
      ensures outcome.Unchanged? || outcome.Planned? ==> Now() == old(Now())
      ensures outcome.Unchanged? <==>
              ValidTree(source) && old(target).Some? && VersionOf(old(target).value) == VersionOf(source)
              && Manifest(old(target).value) == Manifest(source)
      ensures outcome.Planned? <==>
              && ValidTree(source) && dryRun
              && !(old(target).Some? && VersionOf(old(target).value) == VersionOf(source)
                   && Manifest(old(target).value) == Manifest(source))
      ensures outcome.Installed? ==>
                Manifest(CopyTree(source)) == Manifest(source) && Installable(source)
                && Now() == Disk(Some(CopyTree(source)), None, if old(target).Some? then old(target) else old(backup))
      ensures outcome.Failed? && old(target).Some? ==>
                (target != old(target) <==>
                 Attempts(old(Now()), source, dryRun, faults) && Displaces(faults, source, old(target).value))
      ensures outcome.Failed? && target != old(target) && old(target).Some? ==> backup == old(target)
      ensures Attempts(old(Now()), source, dryRun, faults) && old(target).Some? ==>
                outcome == if !faults.prepareBackup && faults.toBackup == NoFault && faults.replace == NoFault
                           then Installed else Failed
      ensures (Attempts(old(Now()), source, dryRun, faults) && old(target).Some? && !faults.prepareBackup
               && faults.toBackup == After) ==>
                target == None
      ensures old(staging).None? && !faults.cleanup ==> staging == None
      ensures Faultless(faults) && !dryRun && old(staging).None? && old(backup).None? ==>
                (outcome.Failed? <==> !Installable(source)
                                      && !(ValidTree(source) && old(target).Some? && InstalledMatches(old(target).value, source)))
    {
      ghost var before := Now();
      if !ValidTree(source) {
        return Failed;
      }
      if target.Some? && InstalledMatches(target.value, source) {
        return Unchanged;
      }
      if dryRun {
        return Planned;
      }
      if staging.Some? || backup.Some? {
        return Failed;
      }
      var ok := Stage(source, faults);
      if ok {
        if target.Some? {
          ok := Replace(before, source, faults);
        } else {
          ok := InstallFresh(before, source, faults);
        }
      }
      StagedManifest(source);
      RemoveStaging(before, source, faults);
      return if ok then Installed else Failed;
    }
  }

  /** An interruption just after the old tree was moved away: nothing puts it back, and the target stays empty. */
  method InterruptedAfterBackup(source: Node, installed: Node) returns (i: Installation, outcome: Outcome)
    requires Installable(source) && !InstalledMatches(installed, source)
    ensures outcome == Failed && i.Now() == Disk(None, None, Some(installed))
  {
    i := new Installation(Some(installed));
    StagedManifest(source);
    outcome := i.Update(source, false, Faults(false, source, false, false, After, NoFault, NoFault, false, source));
  }
}
