/**
 * What became of the files of a plan that could not be committed (src/modules/git/commit-plan-file-state.ts).
 * Every look is a command of its own and may fail.
 */
module PlanFileState {
  import opened Base
  import opened GitRepository

  datatype Presence = Present | Missing | Unreadable

  /** What the file system and the index answer about paths that git does not show as changed. */
  datatype Disk = Disk(ignored: string -> bool, onDisk: string -> Presence, tracked: string -> bool)

  datatype FileState = Changed | Unchanged | Nonexistent | Unknown

  function StateOf(f: string, dirty: set<string>, disk: Disk): FileState {
    if f in dirty || disk.ignored(f) then Changed
    else match disk.onDisk(f)
         case Present => Unchanged
         case Unreadable => Unknown
         case Missing => if disk.tracked(f) then Unchanged else Nonexistent
  }

  /** Git shows no change, and the path exists neither on disk nor in the index. */
  predicate IsNowhere(f: string, dirty: set<string>, disk: Disk) {
    f !in dirty && !disk.ignored(f) && disk.onDisk(f) == Missing && !disk.tracked(f)
  }

  /** Git shows no change, and the path exists on disk, or is missing there but tracked. */
  predicate IsUnchanged(f: string, dirty: set<string>, disk: Disk) {
    f !in dirty && !disk.ignored(f) && (disk.onDisk(f) == Present || (disk.onDisk(f) == Missing && disk.tracked(f)))
  }

  /** The four states, each by what git and the file system say. */
  lemma StatesMean(dirty: set<string>, disk: Disk)
    ensures forall f :: StateOf(f, dirty, disk) == Nonexistent <==> IsNowhere(f, dirty, disk)
    ensures forall f :: StateOf(f, dirty, disk) == Unchanged <==> IsUnchanged(f, dirty, disk)
    ensures forall f :: StateOf(f, dirty, disk) == Changed <==> f in dirty || disk.ignored(f)
    ensures forall f :: StateOf(f, dirty, disk) == Unknown <==>
                          f !in dirty && !disk.ignored(f) && disk.onDisk(f) == Unreadable
  {
  }

  /** The git commands spent on one file: `git status`, and `git ls-files` for a clean missing path. */
  function Looks(f: string, dirty: set<string>, disk: Disk): nat {
    if f in dirty || disk.ignored(f) || disk.onDisk(f) != Missing then 1 else 2
  }

  /** The commands spent on one file, from command `c` on, work, and so does its `lstat`. */
  predicate Seen(fate: nat -> Fate, c: nat, f: string, dirty: set<string>, disk: Disk) {
    && fate(c) == Works && (Looks(f, dirty, disk) == 2 ==> fate(c + 1) == Works)
    && StateOf(f, dirty, disk) != Unknown
  }

  /** Every command of the inspection that starts with command `c` works, and so does every `lstat`. */
  predicate Inspectable(fate: nat -> Fate, c: nat, files: seq<string>, dirty: set<string>, disk: Disk)
    decreases |files|
  {
    files == [] || (&& Seen(fate, c, files[0], dirty, disk)
                    && Inspectable(fate, c + Looks(files[0], dirty, disk), files[1..], dirty, disk))
  }

  /** The files in the given state, in order. */
  function Those(files: seq<string>, state: FileState, dirty: set<string>, disk: Disk): seq<string> {
    if files == [] then []
    else
      var front, last := Those(files[..|files| - 1], state, dirty, disk), files[|files| - 1];
      if StateOf(last, dirty, disk) == state then front + [last] else front
  }

  lemma {:induction false} OneFile(fate: nat -> Fate, c: nat, files: seq<string>, i: nat, dirty: set<string>,
                                   disk: Disk)
    requires i < |files|
    ensures Inspectable(fate, c, files[i..], dirty, disk) <==>
            && Seen(fate, c, files[i], dirty, disk)
            && Inspectable(fate, c + Looks(files[i], dirty, disk), files[i + 1..], dirty, disk)
    ensures forall s ::
              (Those(files[..i + 1], s, dirty, disk) ==
               var front := Those(files[..i], s, dirty, disk);
               if StateOf(files[i], dirty, disk) == s then front + [files[i]] else front)
  {
    assert files[i..][0] == files[i] && files[i..][1..] == files[i + 1..];
    assert files[..i + 1][..i] == files[..i];
  }

  datatype Inspection = Inspection(nonexistent: seq<string>, clean: seq<string>)

  /** The body of the loop for one file; Unknown when it throws. */
  method LookAt(repo: Repository, file: string, disk: Disk) returns (state: FileState)
    modifies repo`commands
    ensures state != Unknown <==> Seen(repo.fate, old(repo.commands), file, repo.dirty, disk)
    ensures state != Unknown ==>
              && state == StateOf(file, repo.dirty, disk)
              && repo.commands == old(repo.commands) + Looks(file, repo.dirty, disk)
  {
    var status := repo.Look();
    if !status {
      return Unknown;
    }
    if file in repo.dirty || disk.ignored(file) {
      return Changed;
    }
    if disk.onDisk(file) != Missing {
      return if disk.onDisk(file) == Present then Unchanged else Unknown;
    }
    var listed := repo.Look();
    state := if !listed then Unknown else if disk.tracked(file) then Unchanged else Nonexistent;
  }

  /** `inspectCommitPlanFileState`; None when it throws. */
  method Inspect(repo: Repository, files: seq<string>, disk: Disk) returns (r: Option<Inspection>)
    modifies repo`commands
    ensures r.Some? <==> Inspectable(repo.fate, old(repo.commands), files, repo.dirty, disk)
    ensures r.Some? ==>
              && r.value.nonexistent == Those(files, Nonexistent, repo.dirty, disk)
              && r.value.clean == Those(files, Unchanged, repo.dirty, disk)
  {
    var nonexistent, clean := [], [];
    assert files[0..] == files;
    for i := 0 to |files|
      invariant Inspectable(repo.fate, old(repo.commands), files, repo.dirty, disk)
             <==> Inspectable(repo.fate, repo.commands, files[i..], repo.dirty, disk)
      invariant nonexistent == Those(files[..i], Nonexistent, repo.dirty, disk)
      invariant clean == Those(files[..i], Unchanged, repo.dirty, disk)
    {
      hide *;
      OneFile(repo.fate, repo.commands, files, i, repo.dirty, disk);
      var state := LookAt(repo, files[i], disk);
      if state == Unknown {
        return None;
      }
      if state == Nonexistent {
        nonexistent := nonexistent + [files[i]];
      } else if state == Unchanged {
        clean := clean + [files[i]];
      }
    }
    assert files[..|files|] == files;
    r := Some(Inspection(nonexistent, clean));
  }

  /** The two tests the publisher makes of an inspection. */
  lemma {:induction false} ThoseIff(files: seq<string>, state: FileState, dirty: set<string>, disk: Disk)
    ensures Those(files, state, dirty, disk) != [] <==> exists f :: f in files && StateOf(f, dirty, disk) == state
    ensures |Those(files, state, dirty, disk)| <= |files|
    ensures |Those(files, state, dirty, disk)| == |files| <==>
            forall f :: f in files ==> StateOf(f, dirty, disk) == state
  {
    if files != [] {
      var front, last := files[..|files| - 1], files[|files| - 1];
      ThoseIff(front, state, dirty, disk);
      assert files == front + [last];
      assert forall f :: f in files <==> f in front || f == last;
    }
  }

  /** Only the plan's own files matter. */
  lemma {:induction false} SameInspection(fate: nat -> Fate, c: nat, files: seq<string>, a: set<string>,
                                          b: set<string>, disk: Disk)
    requires forall f :: f in files ==> (f in a <==> f in b)
    ensures Inspectable(fate, c, files, a, disk) == Inspectable(fate, c, files, b, disk)
    decreases |files|
  {
    if files != [] {
      assert files[0] in files;
      SameInspection(fate, c + Looks(files[0], a, disk), files[1..], a, b, disk);
    }
  }

  lemma {:induction false} SameFiles(files: seq<string>, state: FileState, a: set<string>, b: set<string>, disk: Disk)
    requires forall f :: f in files ==> (f in a <==> f in b)
    ensures Those(files, state, a, disk) == Those(files, state, b, disk)
  {
    if files != [] {
      assert files[|files| - 1] in files;
      SameFiles(files[..|files| - 1], state, a, b, disk);
    }
  }

  /** While every git command works, one unreadable path is all that can stop the inspection. */
  lemma {:induction false} InspectableIff(fate: nat -> Fate, c: nat, files: seq<string>, dirty: set<string>,
                                          disk: Disk)
    requires forall n :: n >= c ==> fate(n) == Works
    ensures Inspectable(fate, c, files, dirty, disk) <==>
            forall f :: f in files ==> StateOf(f, dirty, disk) != Unknown
    decreases |files|
  {
    if files != [] {
      assert files[0] in files;
      InspectableIff(fate, c + Looks(files[0], dirty, disk), files[1..], dirty, disk);
      assert forall f :: f in files <==> f == files[0] || f in files[1..];
    }
  }
}
