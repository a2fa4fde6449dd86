/**
 * The errors of the multi-commit publisher as the retry policy sees them (src/modules/core/errors.ts,
 * src/modules/core/error-classifier.ts): which ones there are, and the ways in which one of them does not record
 * a commit that landed.
 */
module PublishErrors {
  import opened Base
  import opened Plans
  import opened GitRepository
  import opened PlanFileState
  import opened Publisher
  import Publication
  import RetryPolicy

  /** How the retry policy sees a failure. */
  function AsPublishError(f: Failure): (e: RetryPolicy.PublishError)
    ensures !e.Push?
    ensures AtPlan(f) ==> (e.PlanError? || e.Partial?) && e.committed == f.committed
    ensures f.PushFailed? ==> e == RetryPolicy.PostCommitPush(f.committed, f.error.retryCount)
    ensures e.PlanError? && e.emptyPlans <==> f.EmptyPlans?
    ensures e.PlanError? <==> f.EmptyPlans? || f.DuplicateFile? || f.PlanProblem?
    ensures e.PlanError? && !AtPlan(f) ==> e.committed == []
  {
    match f
    case EmptyPlans => RetryPolicy.PlanError(true, [])
    case DuplicateFile(_) => RetryPolicy.PlanError(false, [])
    case DiffHashMismatch => RetryPolicy.HashMismatch
    case PlainError => RetryPolicy.OtherError
    case PlanProblem(_, committed, _) => RetryPolicy.PlanError(false, committed)
    case PartialCommit(committed, _) => RetryPolicy.Partial(committed)
    case GitFailure => RetryPolicy.GitExec
    case PushFailed(committed, e) => RetryPolicy.PostCommitPush(committed, e.retryCount)
  }

  const MESSAGE: CommitMessage := CommitMessage("fix", None, "d", None, false)

  function PlansOf(committed: seq<CommittedSha>): seq<CommitPlan> {
    seq(|committed|, k requires 0 <= k < |committed| => CommitPlan(MESSAGE, committed[k].files))
  }

  /** A list of landed commits as it can come about: each has files, and no file is in two of them. */
  predicate Landable(committed: seq<CommittedSha>) {
    (forall k :: 0 <= k < |committed| ==> committed[k].files != []) && Distinct(Files(PlansOf(committed)))
  }

  /** The errors a publication can end with: any kind but the bare push error. */
  predicate Raisable(e: RetryPolicy.PublishError) {
    match e
    case PlanError(emptyPlans, committed) => Landable(committed) && (emptyPlans ==> committed == [])
    case HashMismatch => true
    case Partial(committed) => Landable(committed)
    case GitExec => true
    case PostCommitPush(committed, retries) => Landable(committed) && committed != [] && retries <= 1
    case Push(_) => false
    case OtherError => true
  }

  lemma {:induction false} SameFileLists(a: seq<CommitPlan>, b: seq<CommitPlan>)
    requires |a| == |b| && forall k :: 0 <= k < |a| ==> a[k].files == b[k].files
    ensures Files(a) == Files(b)
  {
    if a != [] {
      SameFileLists(a[1..], b[1..]);
    }
  }

  lemma {:induction false} DistinctFront(plans: seq<CommitPlan>, i: nat, normalize: string -> string)
    requires i <= |plans| && NoDuplicates(plans, normalize)
    ensures Distinct(Files(plans[..i]))
  {
    var all := Files(plans);
    assert plans[..i] + plans[i..] == plans;
    FilesSplit(plans[..i], plans[i..]);
    forall a, b | 0 <= a < b < |Files(plans[..i])|
      ensures Files(plans[..i])[a] != Files(plans[..i])[b]
    {
      assert Normalized(all, normalize)[a] == normalize(all[a]) && Normalized(all, normalize)[b] == normalize(all[b]);
    }
  }

  /** What a publication records is a list of commits of distinct files. */
  lemma {:induction false} RecordedIsLandable(committed: seq<CommittedSha>, plans: seq<CommitPlan>,
                                              history: seq<Commit>, base: nat, fate: nat -> Fate, start: nat,
                                              dirty: set<string>, normalize: string -> string)
    requires Records(committed, plans, history, base) && NoDuplicates(plans, normalize)
    requires AllReported(fate, start, plans, dirty, |committed|)
    ensures Landable(committed)
  {
    DistinctFront(plans, |committed|, normalize);
    hide Distinct, Normalized;
    SameFileLists(PlansOf(committed), plans[..|committed|]);
    forall k | 0 <= k < |committed|
      ensures committed[k].files != []
    {
      assert LandsAt(fate, start + 4 * k, plans[k], dirty);
    }
  }

  lemma {:induction false} FailureIsRaisable(f: Failure, plans: seq<CommitPlan>, history: seq<Commit>, base: nat,
                                             fate: nat -> Fate, start: nat, dirty: set<string>,
                                             normalize: string -> string)
    requires AtPlan(f) || f.PushFailed? ==>
               && Records(f.committed, plans, history, base) && NoDuplicates(plans, normalize)
               && AllReported(fate, start, plans, dirty, |f.committed|)
    requires f.PushFailed? ==> f.committed != [] && f.error.retryCount <= 1
    ensures Raisable(AsPublishError(f))
  {
    assert Landable([]);
    hide Landable, NoDuplicates, Records, AllReported;
    if AtPlan(f) || f.PushFailed? {
      RecordedIsLandable(f.committed, plans, history, base, fate, start, dirty, normalize);
    }
  }

  /** A publication as the retry policy gets to know it. Its errors are raisable ones. */
  method PublishForPolicy(repo: Repository, plans: seq<CommitPlan>, world: World, remote: Publication.Remote)
    returns (r: RetryPolicy.Publication)
    requires remote.Alive()
    modifies repo, remote
    ensures old(repo.history) <= repo.history && Isolated(repo.history, |old(repo.history)|, plans, repo.name)
    ensures r.Published? ==> Records(r.committed, plans, repo.history, |old(repo.history)|)
                             && |repo.history| == |old(repo.history)| + |plans| == |old(repo.history)| + |r.committed|
    ensures r.Unpublished? ==> Raisable(r.error)
  {
    hide Isolated, Records, AllReported, Partition, NoDuplicates, Publication.PushConversation, Raisable, Starts,
      IsFirstRepeat, Files, Publication.Outlook;
    var published, failedAt := ExecuteMultiCommitAndPush(repo, plans, world, remote);
    if published.Ok? {
      return RetryPolicy.Published(published.value.0, published.value.1);
    }
    FailureIsRaisable(published.error, plans, repo.history, |old(repo.history)|, repo.fate, old(repo.commands) + 2,
                      old(repo.dirty), world.normalize);
    r := RetryPolicy.Unpublished(AsPublishError(published.error));
  }

  // ---------------------------------------------------------------------------------------------
  // Runs that end with a given error.

  const READABLE: Disk := Disk((f: string) => false, (f: string) => Present, (f: string) => true)

  const NO_PUSH: Publication.Local :=
    Publication.Local(false, Publication.Nowhere, true, None, (a: string, b: string) => false, true)

  const QUIET: World := World((f: string) => f, Same, READABLE, NO_PUSH)

  /** A publication in a fresh repository with one commit, where the two commands before the loop work. */
  method PublishFrom(fate: nat -> Fate, name: nat -> string, dirty: set<string>, plans: seq<CommitPlan>, world: World,
                     remote: Publication.Remote)
    returns (r: Result<Published, Failure>, failedAt: Option<nat>, history: seq<Commit>)
    requires remote.Alive() && plans != [] && NoDuplicates(plans, world.normalize)
    requires world.diff.Same? && fate(0) == fate(1) == Works
    modifies remote
    ensures Isolated(history, 1, plans, name)
    ensures r.Ok? || r.error.PushFailed? || failedAt.Some?
    ensures failedAt.Some? ==> r.Err? && StopsAt(r.error, failedAt.value, plans, world, history, 1, fate, 2, dirty)
    ensures r.Ok? || r.error.PushFailed? ==>
              Complete(if r.Ok? then r.value.0 else r.error.committed, plans, history, 1, fate, 2, dirty)
    ensures !world.local.autoPush ==> r.Ok? || !r.error.PushFailed?
    ensures history != []
    ensures var local := LocalAfter(world.local, history);
            var outlook := Publication.Outlook(remote, old(remote.calls), old(remote.Ref()), local);
            outlook.Doomed? ==> r.Err? && (r.error.PushFailed? ==> r.error.error.retryCount == outlook.retries)
  {
    hide Isolated, StopsAt, Complete, NoDuplicates, Publication.PushConversation, Publication.Outlook;
    var repo := new Repository(fate, (n: nat) => {}, name, [Commit("h", {})], {}, dirty);
    r, failedAt := ExecuteMultiCommitAndPush(repo, plans, world, remote);
    history := repo.history;
  }

  method NoRemote() returns (remote: Publication.Remote)
    ensures fresh(remote) && remote.Alive()
  {
    remote := new Publication.Remote(None, (n: nat) => [], (n: nat) => Publication.Answered, (n: nat) => false);
  }

  function Fates(odd: map<nat, Fate>): nat -> Fate {
    (n: nat) => if n in odd then odd[n] else Works
  }

  const LONELY: seq<CommitPlan> := [CommitPlan(MESSAGE, ["f"])]

  /** One plan over one dirty file, where exactly the commands in `odd` do not simply work. */
  method PublishLonely(odd: map<nat, Fate>) returns (r: Result<Published, Failure>, landed: nat)
    requires forall n :: n in odd ==> n >= 2
    ensures LandsAt(Fates(odd), 2, LONELY[0], {"f"}) <==> landed == 1
    ensures landed <= 1 && (r.Ok? <==> landed == 1 && SaysSo(Fates(odd), 2))
    ensures r.Err? ==> (AtPlan(r.error) <==> Recovers(Fates(odd), 2, LONELY[0], {"f"}, READABLE))
    ensures r.Err? ==> if AtPlan(r.error) then r.error.committed == [] else r.error == GitFailure
  {
    LonelyIsDistinct();
    var remote := NoRemote();
    hide Recovers;
    var at, history;
    r, at, history := PublishFrom(Fates(odd), (n: nat) => "h", {"f"}, LONELY, QUIET, remote);
    landed := |history| - 1;
  }

  lemma {:induction false} LonelyIsDistinct()
    ensures Files(LONELY) == ["f"] && NoDuplicates(LONELY, QUIET.normalize)
  {
    assert LONELY[1..] == [];
  }

  /** First way to lose a landed commit: the `rev-parse` after it fails. */
  method HiddenByRevParse() returns (r: Result<Published, Failure>, landed: nat)
    ensures landed == 1 && r.Err? && AtPlan(r.error) && r.error.committed == []
  {
    InspectableIff(Fates(map[4 := Fails]), 6, ["f"], {}, READABLE);
    r, landed := PublishLonely(map[4 := Fails]);
  }

  /** Second way: the commit takes effect and then reports failure. */
  method HiddenByItsOwnReport() returns (r: Result<Published, Failure>, landed: nat)
    ensures landed == 1 && r.Err? && AtPlan(r.error) && r.error.committed == []
  {
    InspectableIff(Fates(map[3 := FailsAfterEffect]), 5, ["f"], {}, READABLE);
    r, landed := PublishLonely(map[3 := FailsAfterEffect]);
  }

  /** Third way: the cleanup reset fails too, and the failure carries no list at all. */
  method LostByTheCleanup() returns (r: Result<Published, Failure>, landed: nat)
    ensures landed == 1 && r == Err(GitFailure)
  {
    r, landed := PublishLonely(map[4 := Fails, 5 := Fails]);
  }

  /**
   * Fourth way: nothing is wrong with the commits, but git refuses to look at a path of the next plan. One plan
   * over a dirty file lands and is reported; the next one names a path outside the repository, so its `git add`
   * fails and so does the `git status` after the reset.
   */
  method LostByTheInspection() returns (r: Result<Published, Failure>, landed: nat)
    ensures landed == 1 && r == Err(GitFailure)
  {
    var plans := [CommitPlan(MESSAGE, ["f"]), CommitPlan(MESSAGE, ["../outside"])];
    var fate := Fates(map[6 := Fails, 8 := Fails]);
    assert NoDuplicates(plans, QUIET.normalize) by {
      FilesOfPlan(plans, 0);
      FilesOfPlan(plans, 1);
      assert plans[0..] == plans && plans[2..] == [];
      assert |"f"| != |"../outside"|;
      assert Normalized(Files(plans), QUIET.normalize) == ["f", "../outside"];
    }
    assert LandsAt(fate, 2, plans[0], {"f"}) && SaysSo(fate, 2) by {
      assert "f" in plans[0].files;
    }
    assert !Recovers(fate, 6, plans[1], {"f"}, READABLE);
    hide Recovers, NoDuplicates, Partition, Files;
    var remote := NoRemote();
    var at, history;
    r, at, history := PublishFrom(fate, (n: nat) => "h", {"f"}, plans, QUIET, remote);
    landed := |history| - 1;
  }

  // ---------------------------------------------------------------------------------------------
  // Every raisable error is raised.

  function AllFiles(plans: seq<CommitPlan>): set<string> {
    set f | f in Files(plans)
  }

  /** A name that is longer than all of these. */
  function Fresh(files: seq<string>): string {
    if files == [] then "x" else files[0] + Fresh(files[1..])
  }

  lemma {:induction false} FreshIsNew(files: seq<string>)
    ensures |Fresh(files)| > 0 && forall f :: f in files ==> |f| < |Fresh(files)|
  {
    if files != [] {
      FreshIsNew(files[1..]);
    }
  }

  /** Adding a plan with at most one file, and that a new one, to a list of landed commits. */
  lemma {:induction false} ExtraIsNoDuplicate(committed: seq<CommittedSha>, extra: seq<CommitPlan>)
    requires Landable(committed)
    requires Files(extra) in {[], [Fresh(Files(PlansOf(committed)))]}
    ensures NoDuplicates(PlansOf(committed) + extra, QUIET.normalize)
  {
    var plans := PlansOf(committed);
    var all := Files(plans + extra);
    FilesSplit(plans, extra);
    FreshIsNew(Files(plans));
    assert Normalized(all, QUIET.normalize) == all;
  }

  /** With everything dirty and every command working, the plans of these commits land and are reported. */
  lemma {:induction false} AllLand(committed: seq<CommittedSha>, extra: seq<CommitPlan>, fate: nat -> Fate)
    requires Landable(committed) && forall n: nat :: n < 2 + 4 * |committed| ==> fate(n) == Works
    ensures var plans := PlansOf(committed) + extra; AllReported(fate, 2, plans, AllFiles(plans), |committed|)
  {
    var plans := PlansOf(committed) + extra;
    forall k | 0 <= k < |committed|
      ensures LandsAt(fate, 2 + 4 * k, plans[k], AllFiles(plans)) && SaysSo(fate, 2 + 4 * k)
    {
      assert plans[k].files == committed[k].files;
      assert plans[k].files[0] in plans[k].files;
      FilesOfPlan(plans, k);
      FilesSplit(plans[..k], plans[k..]);
      assert plans[..k] + plans[k..] == plans;
      assert plans[k].files[0] in AllFiles(plans);
    }
  }

  /** The records are these very commits. */
  lemma {:induction false} RecordsThese(recorded: seq<CommittedSha>, committed: seq<CommittedSha>,
                                        extra: seq<CommitPlan>, history: seq<Commit>, name: nat -> string)
    requires var plans := PlansOf(committed) + extra;
             Isolated(history, 1, plans, name) && Records(recorded, plans, history, 1)
    requires |recorded| == |committed| && forall k :: 0 <= k < |committed| ==> name(1 + k) == committed[k].sha
    ensures recorded == committed
  {
    forall k | 0 <= k < |committed|
      ensures recorded[k] == committed[k]
    {
      assert (PlansOf(committed) + extra)[k] == PlansOf(committed)[k];
    }
  }

  function NamesOf(committed: seq<CommittedSha>): nat -> string {
    (n: nat) => if 1 <= n <= |committed| then committed[n - 1].sha else "h"
  }

  /** A publication of these commits that fails at one extra plan, because the plan does not get through. */
  predicate FailsAtExtra(f: Failure, committed: seq<CommittedSha>, extra: CommitPlan, fate: nat -> Fate, disk: Disk) {
    var c, dirty := 2 + 4 * |committed|, AllFiles(PlansOf(committed) + [extra]);
    && (f == GitFailure || AtPlan(f))
    && (AtPlan(f) <==> Recovers(fate, c, extra, dirty, disk))
    && (AtPlan(f) ==>
          f.committed == committed && Classified(f, extra, LeftDirty(LandsAt(fate, c, extra, dirty), dirty), disk))
  }

  lemma {:induction false} StopsNoEarlier(f: Failure, i: nat, plans: seq<CommitPlan>, world: World,
                                          history: seq<Commit>, fate: nat -> Fate, dirty: set<string>, n: nat)
    requires n <= |plans| && AllReported(fate, 2, plans, dirty, n)
    requires StopsAt(f, i, plans, world, history, 1, fate, 2, dirty)
    ensures i >= n
  {
  }

  lemma {:induction false} StopsAtExtra(f: Failure, i: nat, committed: seq<CommittedSha>, extra: seq<CommitPlan>,
                                        world: World, history: seq<Commit>, fate: nat -> Fate)
    requires Landable(committed) && |extra| <= 1 && forall n: nat :: n < 2 + 4 * |committed| ==> fate(n) == Works
    requires var plans := PlansOf(committed) + extra;
             && Isolated(history, 1, plans, NamesOf(committed))
             && StopsAt(f, i, plans, world, history, 1, fate, 2, AllFiles(plans))
    ensures extra != [] && FailsAtExtra(f, committed, extra[0], fate, world.disk)
  {
    var plans := PlansOf(committed) + extra;
    AllLand(committed, extra, fate);
    StopsNoEarlier(f, i, plans, world, history, fate, AllFiles(plans), |committed|);
    assert |plans| == |committed| + |extra|;
    assert extra != [] ==> extra == [extra[0]] && plans[|committed|] == extra[0];
    hide Landable, Isolated, Records, LandsAt, SaysSo, Recovers, Classified, Partition, PlansOf, AllFiles, AllReported;
    if AtPlan(f) {
      RecordsThese(f.committed, committed, extra, history, NamesOf(committed));
    }
  }

  lemma {:induction false} NotAllReported(committed: seq<CommittedSha>, extra: CommitPlan, fate: nat -> Fate)
    requires var c, dirty := 2 + 4 * |committed|, AllFiles(PlansOf(committed) + [extra]);
             !(LandsAt(fate, c, extra, dirty) && SaysSo(fate, c))
    ensures var plans := PlansOf(committed) + [extra]; !AllReported(fate, 2, plans, AllFiles(plans), |plans|)
  {
    assert (PlansOf(committed) + [extra])[|committed|] == extra;
  }

  /** Land these commits, then fail at one more plan that does not get through. */
  method FailAtExtra(committed: seq<CommittedSha>, extra: CommitPlan, fate: nat -> Fate, disk: Disk)
    returns (f: Failure)
    requires Landable(committed) && NoDuplicates(PlansOf(committed) + [extra], QUIET.normalize)
    requires fate(0) == fate(1) == Works && forall n: nat :: n < 2 + 4 * |committed| ==> fate(n) == Works
    requires var c, dirty := 2 + 4 * |committed|, AllFiles(PlansOf(committed) + [extra]);
             !(LandsAt(fate, c, extra, dirty) && SaysSo(fate, c))
    ensures FailsAtExtra(f, committed, extra, fate, disk)
  {
    var plans := PlansOf(committed) + [extra];
    NotAllReported(committed, extra, fate);
    hide Landable, NoDuplicates, Isolated, LandsAt, SaysSo, PlansOf, AllFiles, StopsAt, FailsAtExtra, Records,
      AllReported;
    var remote := NoRemote();
    var world := QUIET.(disk := disk);
    var r, at, history := PublishFrom(fate, NamesOf(committed), AllFiles(plans), plans, world, remote);
    StopsAtExtra(r.error, at.value, committed, [extra], world, history, fate);
    f := r.error;
  }

  /** Land these commits, then fail at the push. */
  method FailAtPush(committed: seq<CommittedSha>, local: Publication.Local, remote: Publication.Remote,
                    ghost retries: nat)
    returns (f: Failure)
    requires remote.Alive() && Landable(committed) && committed != []
    requires local.head.Some? && forall sha: string ::
               Publication.Outlook(remote, remote.calls, remote.Ref(), local.(head := Some(sha))) ==
               Publication.Doomed(retries)
    modifies remote
    ensures f.PushFailed? && f.committed == committed && f.error.retryCount == retries
  {
    var plans := PlansOf(committed);
    assert plans + [] == plans && Files([]) == [];
    ExtraIsNoDuplicate(committed, []);
    var fate := (n: nat) => Works;
    hide Landable, NoDuplicates, Isolated, LandsAt, SaysSo, AllFiles, StopsAt, Records, Publication.Outlook;
    var r, at, history := PublishFrom(fate, NamesOf(committed), AllFiles(plans), plans, QUIET.(local := local), remote);
    if at.Some? {
      StopsAtExtra(r.error, at.value, committed, [], QUIET.(local := local), history, fate);
      assert false;
    }
    f := r.error;
    RecordsThese(f.committed, committed, [], history, NamesOf(committed));
  }

  /** A publication that does not reach the loop. */
  method FailEarly(plans: seq<CommitPlan>, diff: DiffLook) returns (f: Failure)
    requires plans == [] || (plans == LONELY && diff in {DiffLook.Changed, DiffLook.Unreadable})
    ensures f == if plans == [] then EmptyPlans else if diff.Changed? then DiffHashMismatch else PlainError
  {
    LonelyIsDistinct();
    var remote := NoRemote();
    var repo := new Repository(Fates(map[]), (n: nat) => {}, (n: nat) => "h", [Commit("h", {})], {}, {});
    hide NoDuplicates, Isolated, StopsAt, Complete, PushTold;
    var r, at := ExecuteMultiCommitAndPush(repo, plans, QUIET.(diff := diff), remote);
    f := r.error;
  }

  /** One more plan with nothing to commit. */
  method RaisePlanError(committed: seq<CommittedSha>) returns (f: Failure)
    requires Landable(committed)
    ensures AsPublishError(f) == RetryPolicy.PlanError(false, committed)
  {
    var extra := CommitPlan(MESSAGE, []);
    assert Files([extra]) == [];
    ExtraIsNoDuplicate(committed, [extra]);
    f := FailAtExtra(committed, extra, (n: nat) => Works, READABLE);
  }

  /** One more plan over a dirty file, whose `git add` fails. */
  method RaisePartial(committed: seq<CommittedSha>) returns (f: Failure)
    requires Landable(committed)
    ensures AsPublishError(f) == RetryPolicy.Partial(committed)
  {
    var extra := CommitPlan(MESSAGE, [Fresh(Files(PlansOf(committed)))]);
    FreshPlan(committed, extra);
    hide *;
    f := FailAtExtra(committed, extra, Fates(map[2 + 4 * |committed| := Fails]), READABLE);
    OnlyPartial(f, committed, extra);
  }

  lemma {:induction false} FreshPlan(committed: seq<CommittedSha>, extra: CommitPlan)
    requires Landable(committed) && extra.files == [Fresh(Files(PlansOf(committed)))]
    ensures NoDuplicates(PlansOf(committed) + [extra], QUIET.normalize)
    ensures extra.files[0] in AllFiles(PlansOf(committed) + [extra])
    ensures var c, fate := 2 + 4 * |committed|, Fates(map[2 + 4 * |committed| := Fails]);
            && fate(c) == Fails && forall n :: n != c ==> fate(n) == Works
  {
    assert Files([extra]) == extra.files;
    ExtraIsNoDuplicate(committed, [extra]);
    FilesSplit(PlansOf(committed), [extra]);
  }

  lemma {:induction false} OnlyPartial(f: Failure, committed: seq<CommittedSha>, extra: CommitPlan)
    requires |extra.files| == 1 && extra.files[0] in AllFiles(PlansOf(committed) + [extra])
    requires FailsAtExtra(f, committed, extra, Fates(map[2 + 4 * |committed| := Fails]), READABLE)
    ensures AsPublishError(f) == RetryPolicy.Partial(committed)
  {
    var dirty := AllFiles(PlansOf(committed) + [extra]);
    assert extra.files[0] in extra.files && StateOf(extra.files[0], dirty, READABLE) == FileState.Changed;
    hide AllFiles, PlansOf;
    InspectableIff(Fates(map[2 + 4 * |committed| := Fails]), 4 + 4 * |committed|, extra.files, dirty, READABLE);
  }

  /** A push to an unknown destination, or one that is never answered. */
  method RaisePushFailed(committed: seq<CommittedSha>, retries: nat) returns (f: Failure)
    requires Landable(committed) && committed != [] && retries <= 1
    ensures AsPublishError(f) == RetryPolicy.PostCommitPush(committed, retries)
  {
    var fate := (n: nat) => if n == 0 then Publication.Answered else Publication.NeverArrived(true);
    var remote := new Publication.Remote(None, (n: nat) => [], fate, (n: nat) => false);
    var destination := if retries == 0 then Publication.Unresolvable else Publication.Somewhere(false);
    var local := Publication.Local(true, destination, true, Some("h"), (a: string, b: string) => false, true);
    hide Landable;
    f := FailAtPush(committed, local, remote, retries);
  }

  /** Every raisable error is what some publication ends with. */
  method Raise(e: RetryPolicy.PublishError) returns (f: Failure)
    requires Raisable(e)
    ensures AsPublishError(f) == e
  {
    hide Landable;
    match e
    case PlanError(emptyPlans, committed) =>
      if emptyPlans {
        f := FailEarly([], Same);
      } else {
        f := RaisePlanError(committed);
      }
    case HashMismatch => f := FailEarly(LONELY, DiffLook.Changed);
    case OtherError => f := FailEarly(LONELY, DiffLook.Unreadable);
    case Partial(committed) => f := RaisePartial(committed);
    case PostCommitPush(committed, retries) => f := RaisePushFailed(committed, retries);
    case GitExec =>
      var r, landed := PublishLonely(map[2 := Fails, 3 := Fails]);
      f := r.error;
  }

  /** The eight retry jobs come about with publish errors the publisher raises. */
  lemma {:induction false} EightJobsFromRaisedErrors(st: RetryPolicy.RepoState)
    requires RetryPolicy.Standing(st, RetryPolicy.Attempts(0, 0, 0, 0, 0), false, None)
    ensures RetryPolicy.Jobs("r", st, RetryPolicy.WithEnv(RetryPolicy.WORST_REPLIES)) == 8
    ensures forall reply :: reply in RetryPolicy.WORST_REPLIES && reply.Planned? ==>
              reply.publication.Unpublished? && Raisable(reply.publication.error)
  {
    RetryPolicy.EightJobsHappen(st);
  }
}
