/** The transactional swap of the served web assets, tools/start-runtime.js: every file operation may fail. */
module AssetSwap {
  import opened Wrappers

  /** A directory's files by path. */
  type Tree = map<string, seq<int>>

  datatype Dirs = Dirs(target: Option<Tree>, staging: Option<Tree>, backup: Option<Tree>)

  datatype Slot = Target | Staging | Backup

  function Get(d: Dirs, s: Slot): Option<Tree> {
    match s
    case Target => d.target
    case Staging => d.staging
    case Backup => d.backup
  }

  function Put(d: Dirs, s: Slot, t: Option<Tree>): Dirs {
    match s
    case Target => d.(target := t)
    case Staging => d.(staging := t)
    case Backup => d.(backup := t)
  }

  /** The operations of an attempt that can throw, in order; `Restore` is the way back of a failed installation. */
  datatype Operation =
    | MakeParent
    | RemoveOldStaging
    | RemoveOldBackup
    | CopyBuild
    | ScanCopy
    | DropIncomplete
    | MoveAside
    | Install
    | Restore
    | RemoveStaging
    | RemoveBackup

  datatype Outcome = Staged | Skipped | Threw

  /** An attempt and all that its environment decides: `faults` are the operations that throw when they are reached,
      `copied` is what the copy leaves in the staging directory, which is another tree than the source when somebody
      writes to that meanwhile. `complete` is the check that every asset the index refers to is there; `pathsAreSafe`
      the checks of the target path and of links in the source. */
  datatype Attempt = Attempt(
    isPackaged: bool,
    source: Option<Tree>,
    complete: Tree -> bool,
    pathsAreSafe: bool,
    copied: Tree,
    faults: set<Operation>)
  {
    predicate IsSkipped() {
      isPackaged || source.None?
    }

    predicate ReachesSwap() {
      && !IsSkipped() && complete(source.value) && pathsAreSafe && complete(copied)
      && faults !! {MakeParent, RemoveOldStaging, RemoveOldBackup, CopyBuild, ScanCopy}
    }

    predicate Installs(before: Option<Tree>) {
      ReachesSwap() && Install !in faults && (before.Some? ==> MoveAside !in faults)
    }

    /** The old build was moved aside, the new one could not be installed, and the way back failed as well. */
    predicate LosesTarget(before: Option<Tree>) {
      ReachesSwap() && before.Some? && MoveAside !in faults && Install in faults && Restore in faults
    }

    /** How the attempt ends over a target that was `before`. */
    function Result(before: Option<Tree>): Outcome {
      if IsSkipped() then Skipped
      else if Installs(before) && RemoveStaging !in faults && RemoveBackup !in faults then Staged
      else Threw
    }

    function TargetAfter(before: Option<Tree>): Option<Tree> {
      if Installs(before) then Some(copied)
      else if LosesTarget(before) then None
      else before
    }
  }

  /** An attempt succeeds exactly when there is a complete source on safe paths, the copy is complete, and no operation
      on its way throws; and whatever stops it before the old build is moved aside, the target is as it was. */
  lemma StagedExactly(a: Attempt, before: Option<Tree>)
    ensures a.Result(before) == Skipped <==> a.isPackaged || a.source.None?
    ensures a.Result(before) == Staged
            <==> && !a.isPackaged && a.source.Some? && a.complete(a.source.value) && a.pathsAreSafe
                 && MakeParent !in a.faults && RemoveOldStaging !in a.faults && RemoveOldBackup !in a.faults
                 && CopyBuild !in a.faults && ScanCopy !in a.faults && a.complete(a.copied)
                 && (before.Some? ==> MoveAside !in a.faults) && Install !in a.faults
                 && RemoveStaging !in a.faults && RemoveBackup !in a.faults
    ensures a.Result(before) == Staged ==> a.TargetAfter(before) == Some(a.copied)
    ensures (|| a.isPackaged || a.source.None? || !a.complete(a.source.value) || !a.pathsAreSafe
             || MakeParent in a.faults || RemoveOldStaging in a.faults || RemoveOldBackup in a.faults
             || CopyBuild in a.faults || ScanCopy in a.faults || !a.complete(a.copied)
             || (before.Some? && MoveAside in a.faults) || (Install in a.faults && Restore !in a.faults)) ==>
              a.TargetAfter(before) == before
  {
  }

  /** When a throw keeps the promise that the target is as it was: exactly unless the restoring rename failed, or a
      build other than the one that was there was installed and a removal after that failed. */
  lemma ThrowKeepsTarget(a: Attempt, before: Option<Tree>)
    requires a.Result(before) == Threw
    ensures a.TargetAfter(before) == before
            <==> && !a.LosesTarget(before)
                 && !(&& a.Installs(before) && before != Some(a.copied)
                      && (RemoveStaging in a.faults || RemoveBackup in a.faults))
  {
  }

  /** Attempts for which it is not: only the removal of the backup fails, and the new build is in place all the same;
      or the installation and the way back fail, and there is none. */
  lemma ThrowsThatChangeTheTarget(source: Tree, complete: Tree -> bool, before: Tree)
    requires complete(source) && before != source
    ensures
      var late := Attempt(false, Some(source), complete, true, source, {RemoveBackup});
      late.Result(Some(before)) == Threw && late.TargetAfter(Some(before)) == Some(source)
    ensures
      var stuck := Attempt(false, Some(source), complete, true, source, {Install, Restore});
      stuck.Result(Some(before)) == Threw && stuck.TargetAfter(Some(before)) == None
  {
  }

  /** The old build is complete in the target or the backup, or the new one is in place. */
  ghost predicate BuildAvailable(d: Dirs, before: Option<Tree>, staged: Tree) {
    d.target == before || d.backup == before || d.target == Some(staged)
  }

  class Disk {
    var dirs: Dirs
    /** The directories after every operation since the attempt began. */
    ghost var history: seq<Dirs>

    constructor (initial: Dirs)
      ensures dirs == initial && history == [initial]
    {
      dirs, history := initial, [initial];
    }

    /** fs.rmSync: a failure may leave any part of the directory behind. */
    method Remove(s: Slot, fails: bool) returns (ok: bool)
      modifies this
      ensures ok == !fails
      ensures dirs == Put(old(dirs), s, Get(dirs, s))
      ensures ok ==> Get(dirs, s) == None
      ensures Get(old(dirs), s) == None ==> dirs == old(dirs)
      ensures history == old(history) + [dirs]
    {
      ok := !fails;
      if ok || Get(dirs, s).None? {
        dirs := Put(dirs, s, None);
      } else {
        var left: set<string> :| left <= Get(dirs, s).value.Keys;
        var was := Get(dirs, s).value;
        dirs := Put(dirs, s, Some(map p | p in left :: was[p]));
      }
      history := history + [dirs];
    }

    /** fs.renameSync: all or nothing. */
    method Rename(from: Slot, to: Slot, fails: bool) returns (ok: bool)
      requires from != to && Get(dirs, from).Some? && Get(dirs, to).None?
      modifies this
      ensures ok == !fails
      ensures dirs == if ok then Put(Put(old(dirs), to, Get(old(dirs), from)), from, None) else old(dirs)
      ensures history == old(history) + [dirs]
    {
      ok := !fails;
      if ok {
        dirs := Put(Put(dirs, to, Get(dirs, from)), from, None);
      }
      history := history + [dirs];
    }

    /** fs.cpSync into the staging directory: a failure leaves any tree there. */
    method CopyToStaging(copied: Tree, fails: bool) returns (ok: bool)
      modifies this
      ensures ok == !fails
      ensures dirs.target == old(dirs).target && dirs.backup == old(dirs).backup
      ensures ok ==> dirs.staging == Some(copied)
      ensures history == old(history) + [dirs]
    {
      ok := !fails;
      if ok {
        dirs := dirs.(staging := Some(copied));
      } else {
        var t: Tree := *;
        dirs := dirs.(staging := Some(t));
      }
      history := history + [dirs];
    }

    /** The rename of the old build, the rename of the new one, and the way back. */
    method Swap(a: Attempt) returns (installed: bool)
      requires a.ReachesSwap() && dirs.staging == Some(a.copied) && dirs.backup.None?
      modifies this
      ensures |old(history)| <= |history| && history[..|old(history)|] == old(history)
      ensures forall i :: |old(history)| <= i < |history| ==> BuildAvailable(history[i], old(dirs).target, a.copied)
      ensures |history| > 0 && history[|history| - 1] == dirs
      ensures installed == a.Installs(old(dirs).target)
      ensures dirs == if installed then Dirs(Some(a.copied), None, old(dirs).target)
                      else if a.LosesTarget(old(dirs).target) then Dirs(None, Some(a.copied), old(dirs).target)
                      else old(dirs)
    {
      var activeMoved := false;
      if dirs.target.Some? {
        var moved := Rename(Target, Backup, MoveAside in a.faults);
        if !moved {
          return false;
        }
        activeMoved := true;
      }
      installed := Rename(Staging, Target, Install in a.faults);
      if !installed && dirs.target.None? && activeMoved && dirs.backup.Some? {
        var restored := Rename(Backup, Target, Restore in a.faults);
      }
    }

    /** Everything between the first check and the swap: the target is not touched. */
    method Prepare(a: Attempt) returns (ok: bool)
      requires !a.IsSkipped() && a.complete(a.source.value) && a.pathsAreSafe
      requires |history| > 0 && history[|history| - 1] == dirs
      modifies this
      ensures |old(history)| <= |history| && history[..|old(history)|] == old(history)
      ensures forall i :: |old(history)| <= i < |history| ==> history[i].target == old(dirs).target
      ensures history[|history| - 1] == dirs
      ensures dirs.target == old(dirs).target
      ensures ok == a.ReachesSwap()
      ensures ok ==> dirs.staging == Some(a.copied) && dirs.backup == None
    {
      if MakeParent in a.faults {
        return false;
      }
      ok := Remove(Staging, RemoveOldStaging in a.faults);
      if !ok {
        return;
      }
      ok := Remove(Backup, RemoveOldBackup in a.faults);
      if !ok {
        return;
      }
      ok := CopyToStaging(a.copied, CopyBuild in a.faults);
      if !ok || ScanCopy in a.faults {
        return false;
      }
      if !a.complete(a.copied) {
        ok := Remove(Staging, DropIncomplete in a.faults);
        return false;
      }
    }

    /** Outcome and target follow from the attempt and the target it found. At every step the old build or the new one
        is complete; a normal return leaves the new build and nothing else; and while the backup is not being removed,
        an old build that is not in the target is whole in the backup. */
    method StageFrontendAssets(a: Attempt) returns (r: Outcome)
      modifies this
      ensures r == a.Result(old(dirs).target) && dirs.target == a.TargetAfter(old(dirs).target)
      ensures forall i :: 0 <= i < |history| ==> BuildAvailable(history[i], old(dirs).target, a.copied)
      ensures |history| > 0 && history[|history| - 1] == dirs
      ensures r == Skipped ==> dirs == old(dirs)
      ensures r == Staged ==> dirs == Dirs(Some(a.copied), None, None) && a.complete(a.copied)
      ensures a.Installs(old(dirs).target) ==> a.complete(a.copied)
      ensures a.LosesTarget(old(dirs).target) || (a.Installs(old(dirs).target) && RemoveStaging in a.faults) ==>
                dirs.backup == old(dirs).target
    {
      history := [dirs];
      if a.IsSkipped() {
        return Skipped;
      }
      if !a.complete(a.source.value) || !a.pathsAreSafe {
        return Threw;
      }
      var prepared := Prepare(a);
      if !prepared {
        return Threw;
      }
      var installed := Swap(a);
      var cleaned := Remove(Staging, RemoveStaging in a.faults);
      if !installed || !cleaned {
        return Threw;
      }
      cleaned := Remove(Backup, RemoveBackup in a.faults);
      return if cleaned then Staged else Threw;
    }
  }
}
