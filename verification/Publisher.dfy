/**
 * Committing a list of plans one by one and then pushing once
 * (src/modules/git/publisher.ts: executeMultiCommitAndPush, collectPendingFiles).
 *
 * A plan path names one file. Any git command may fail, and a commit may land and still be reported as failed.
 */
module Publisher {
  import opened Base
  import opened Plans
  import opened GitRepository
  import opened PlanFileState
  import Publication

  /** `collectPendingFiles`, with its set of files already seen. */
  method CollectPending(plans: seq<CommitPlan>, index: nat) returns (pending: seq<string>)
    requires index <= |plans|
    ensures pending == Dedup(Files(plans[index..]))
  {
    var all := Files(plans[index..]);
    var seen: set<string> := {};
    pending := [];
    for i := 0 to |all|
      invariant pending == Dedup(all[..i])
      invariant forall f :: f in seen <==> f in pending
    {
      assert all[..i + 1][..i] == all[..i];
      if all[i] !in seen {
        seen := seen + {all[i]};
        pending := pending + [all[i]];
      }
    }
    assert all[..|all|] == all;
  }

  function Normalized(files: seq<string>, normalize: string -> string): seq<string> {
    seq(|files|, i requires 0 <= i < |files| => normalize(files[i]))
  }

  /** The i-th file is the first one whose normal form was there before. */
  predicate RepeatsFirst(all: seq<string>, i: nat, normalize: string -> string) {
    i < |all| && Distinct(Normalized(all[..i], normalize)) && normalize(all[i]) in Normalized(all[..i], normalize)
  }

  ghost predicate IsFirstRepeat(all: seq<string>, file: string, normalize: string -> string) {
    exists i: nat :: RepeatsFirst(all, i, normalize) && all[i] == file
  }

  /** The duplicate guard: the first file whose normal form was seen before, over all plans in order. */
  method FirstDuplicate(plans: seq<CommitPlan>, normalize: string -> string) returns (r: Option<string>)
    ensures r.None? <==> Distinct(Normalized(Files(plans), normalize))
    ensures r.Some? ==> IsFirstRepeat(Files(plans), r.value, normalize)
  {
    var all := Files(plans);
    var seen: set<string> := {};
    for i := 0 to |all|
      invariant Distinct(Normalized(all[..i], normalize))
      invariant forall x :: x in seen <==> x in Normalized(all[..i], normalize)
    {
      var n := normalize(all[i]);
      assert Normalized(all[..i + 1], normalize) == Normalized(all[..i], normalize) + [n];
      if n in seen {
        var k :| 0 <= k < i && Normalized(all[..i], normalize)[k] == n;
        assert Normalized(all, normalize)[k] == Normalized(all, normalize)[i];
        assert RepeatsFirst(all, i, normalize);
        return Some(all[i]);
      }
      seen := seen + {n};
    }
    assert all[..|all|] == all;
    r := None;
  }

  /** The commits recorded for the first plans: one each, in order, with that plan's files and the real sha. */
  predicate Records(committed: seq<CommittedSha>, plans: seq<CommitPlan>, history: seq<Commit>, base: nat) {
    && |committed| <= |plans| && base + |committed| <= |history|
    && forall k :: 0 <= k < |committed| ==>
         committed[k].files == plans[k].files && committed[k].sha == history[base + k].sha
  }

  /** The k-th new commit changed nothing outside the k-th plan and has the name git gave it. */
  predicate Isolated(history: seq<Commit>, base: nat, plans: seq<CommitPlan>, name: nat -> string) {
    && base <= |history| <= base + |plans|
    && forall k :: 0 <= k < |history| - base ==>
         && history[base + k].changed <= (set f | f in plans[k].files)
         && history[base + k].sha == name(base + k)
  }

  datatype Failure =
    | EmptyPlans
    | DuplicateFile(file: string)
    | DiffHashMismatch
    | PlainError     // a git command before the loop failed: an error of no class of its own
    | PlanProblem(nonexistent: bool, committed: seq<CommittedSha>, pending: seq<string>)  // CommitPlanError at a plan
    | PartialCommit(committed: seq<CommittedSha>, pending: seq<string>)
    | GitFailure     // GitExecError, raised by the loop alone
    | PushFailed(committed: seq<CommittedSha>, error: Publication.PushError)

  /** A failure raised while a plan was being committed. */
  predicate AtPlan(f: Failure) {
    f.PlanProblem? || f.PartialCommit?
  }

  /** The staged diff against the hash it is expected to have, if one is expected. */
  datatype DiffLook = NotExpected | Same | Changed | Unreadable

  /** What the outside world answers during one publication. */
  datatype World = World(
    normalize: string -> string,
    diff: DiffLook,
    disk: Disk,
    local: Publication.Local)   // for the push; of `head` it says only whether it can be read

  /** What the push finds: HEAD is the last commit. */
  function LocalAfter(local: Publication.Local, history: seq<Commit>): Publication.Local {
    if local.head.None? || history == [] then local else local.(head := Some(history[|history| - 1].sha))
  }

  /** A plan that names a missing file, or whose files are all unchanged, is itself at fault. */
  predicate Classified(f: Failure, plan: CommitPlan, dirty: set<string>, disk: Disk)
    requires AtPlan(f)
  {
    var missing := exists p :: p in plan.files && IsNowhere(p, dirty, disk);
    var done := forall p :: p in plan.files ==> IsUnchanged(p, dirty, disk);
    && (f.PlanProblem? <==> missing || done)
    && (f.PlanProblem? ==> f.nonexistent == missing)
  }

  /** The landed commits and the pending files of a failure at plan i, and why they do not overlap. */
  predicate Partition(f: Failure, plans: seq<CommitPlan>, normalize: string -> string) {
    && AtPlan(f) && |f.committed| < |plans|
    && f.pending == Files(plans[|f.committed|..])
    && Distinct(f.pending)
    && (forall a, b :: a in Files(plans[..|f.committed|]) && b in f.pending ==> normalize(a) != normalize(b))
  }

  lemma {:induction false} FilesSplit(a: seq<CommitPlan>, b: seq<CommitPlan>)
    ensures Files(a + b) == Files(a) + Files(b)
  {
    if a == [] {
      assert a + b == b;
    } else {
      assert (a + b)[1..] == a[1..] + b;
      FilesSplit(a[1..], b);
    }
  }

  lemma {:induction false} DistinctApart(before: seq<string>, after: seq<string>, normalize: string -> string)
    requires Distinct(Normalized(before + after, normalize))
    ensures Distinct(after)
    ensures forall a, b :: a in before && b in after ==> normalize(a) != normalize(b)
  {
    var all := Normalized(before + after, normalize);
    forall i, j | 0 <= i < j < |after|
      ensures after[i] != after[j]
    {
      assert all[|before| + i] == normalize(after[i]) && all[|before| + j] == normalize(after[j]);
    }
    forall a, b | a in before && b in after
      ensures normalize(a) != normalize(b)
    {
      var i :| 0 <= i < |before| && before[i] == a;
      var j :| 0 <= j < |after| && after[j] == b;
      assert all[i] == normalize(a) && all[|before| + j] == normalize(b);
    }
  }

  lemma {:induction false} GuardedSplit(plans: seq<CommitPlan>, i: nat, normalize: string -> string)
    requires i <= |plans| && Distinct(Normalized(Files(plans), normalize))
    ensures Distinct(Files(plans[i..]))
    ensures forall a, b :: a in Files(plans[..i]) && b in Files(plans[i..]) ==> normalize(a) != normalize(b)
  {
    hide *;
    assert plans[..i] + plans[i..] == plans;
    FilesSplit(plans[..i], plans[i..]);
    DistinctApart(Files(plans[..i]), Files(plans[i..]), normalize);
  }

  /** Past the duplicate guard, pending files are simply the files of the remaining plans. */
  lemma {:induction false} GuardedPending(f: Failure, plans: seq<CommitPlan>, normalize: string -> string)
    requires Distinct(Normalized(Files(plans), normalize))
    requires AtPlan(f) && |f.committed| < |plans| && f.pending == Dedup(Files(plans[|f.committed|..]))
    ensures Partition(f, plans, normalize)
  {
    hide Files;
    hide Normalized;
    hide Dedup;
    hide Distinct;
    GuardedSplit(plans, |f.committed|, normalize);
    DedupKeepsAll(Files(plans[|f.committed|..]));
  }

  /**
   * The plan whose three commands start at `c` puts a commit into the history: something was staged, and the
   * commit took effect.
   */
  predicate LandsAt(fate: nat -> Fate, c: nat, plan: CommitPlan, dirty: set<string>) {
    fate(c) == Works && fate(c + 1) != Fails && exists f :: f in plan.files && f in dirty
  }

  /** The commit command and the `rev-parse` after it both report success. */
  predicate SaysSo(fate: nat -> Fate, c: nat) {
    fate(c + 1) == Works && fate(c + 2) == Works
  }

  /** How many commands are tried before the first one that does not succeed. */
  function Tried(fate: nat -> Fate, c: nat, landed: bool): nat {
    if fate(c) != Works then 1 else if !landed || fate(c + 1) != Works then 2 else 3
  }

  /** The history after a plan over files that differ from HEAD where `now` says so. */
  function Extended(history: seq<Commit>, landed: bool, name: nat -> string, plan: CommitPlan, now: set<string>)
    : seq<Commit>
  {
    if landed then history + [Commit(name(|history|), set f | f in plan.files && f in now)] else history
  }

  /** What still differs from HEAD then. */
  function Cleaned(landed: bool, plan: CommitPlan, now: set<string>): set<string> {
    if landed then now - (set f | f in plan.files && f in now) else now
  }

  /** One plan: stage its files, commit, read the new sha. */
  method CommitPlanOnce(repo: Repository, plan: CommitPlan) returns (sha: Option<string>)
    requires repo.index == {}
    modifies repo
    ensures var landed := LandsAt(repo.fate, old(repo.commands), plan, old(repo.dirty));
            && repo.commands == old(repo.commands) + Tried(repo.fate, old(repo.commands), landed)
            && repo.history == Extended(old(repo.history), landed, repo.name, plan, old(repo.dirty))
            && repo.dirty == Cleaned(landed, plan, old(repo.dirty))
            && (landed ==> repo.index == {})
            && sha == if landed && SaysSo(repo.fate, old(repo.commands)) then Some(repo.name(|old(repo.history)|))
                      else None
  {
    var wanted := set f | f in plan.files && f in repo.dirty;
    var staged := repo.Add(plan.files);
    if !staged {
      return None;
    }
    assert repo.index == wanted;
    assert wanted != {} <==> exists f :: f in plan.files && f in old(repo.dirty) by {
      if f :| f in plan.files && f in old(repo.dirty) {
        assert f in wanted;
      }
    }
    var landed := repo.DoCommit();
    if !landed {
      return None;
    }
    sha := repo.RevParseHead();
  }

  /** One more plan committed as planned. */
  lemma {:induction false} RecordsGrow(committed: seq<CommittedSha>, plans: seq<CommitPlan>, history: seq<Commit>,
                                       base: nat, next: seq<Commit>, name: nat -> string)
    requires Records(committed, plans, history, base) && Isolated(history, base, plans, name)
    requires |committed| < |plans| && |history| == base + |committed|
    requires |next| == |history| + 1 && history <= next
    requires next[|history|].changed <= set f | f in plans[|committed|].files
    requires next[|history|].sha == name(|history|)
    ensures Isolated(next, base, plans, name)
    ensures Records(committed + [CommittedSha(next[|history|].sha, plans[|committed|].files)], plans, next, base)
  {
    var more := committed + [CommittedSha(next[|history|].sha, plans[|committed|].files)];
    forall k | 0 <= k < |more|
      ensures more[k].files == plans[k].files && more[k].sha == next[base + k].sha
      ensures next[base + k].changed <= (set f | f in plans[k].files) && next[base + k].sha == name(base + k)
    {
      if k < |committed| {
        assert more[k] == committed[k] && next[base + k] == history[base + k];
      }
    }
  }

  /** What is left dirty of the failing plan's own files. */
  function LeftDirty(landed: bool, dirty: set<string>): set<string> {
    if landed then {} else dirty
  }

  /** The cleanup that begins with command `c` works: the reset, and then the look at every file of the plan. */
  predicate CleansUp(fate: nat -> Fate, c: nat, plan: CommitPlan, dirty: set<string>, disk: Disk) {
    fate(c) == Works && Inspectable(fate, c + 1, plan.files, dirty, disk)
  }

  /** The cleanup after a failure of the plan whose commands start at `c`. */
  predicate Recovers(fate: nat -> Fate, c: nat, plan: CommitPlan, dirty: set<string>, disk: Disk) {
    var landed := LandsAt(fate, c, plan, dirty);
    CleansUp(fate, c + Tried(fate, c, landed), plan, LeftDirty(landed, dirty), disk)
  }

  /** The commits that the error of a failure at a plan records. */
  function Recorded(f: Failure): seq<CommittedSha> {
    if AtPlan(f) then f.committed else []
  }

  /**
   * How a failure at plan i, whose commands start at `c`, accounts for the commits that landed. The plan's own
   * commit landed only if `git add` worked and the commit took effect, but the commit or the `rev-parse` after
   * it did not report success; the error carries the commits before it exactly when the cleanup worked.
   */
  predicate Accounts(f: Failure, i: nat, landed: nat, fate: nat -> Fate, c: nat, plan: CommitPlan,
                     dirty: set<string>, disk: Disk) {
    && (f == GitFailure || AtPlan(f))
    && !(LandsAt(fate, c, plan, dirty) && SaysSo(fate, c))
    && landed == i + (if LandsAt(fate, c, plan, dirty) then 1 else 0)
    && (AtPlan(f) <==> Recovers(fate, c, plan, dirty, disk))
    && (AtPlan(f) ==> |f.committed| == i && Classified(f, plan, LeftDirty(LandsAt(fate, c, plan, dirty), dirty), disk))
  }

  /** Of `landed` commits, a failure in the commit loop records all exactly under these conditions. */
  lemma {:induction false} RecordsAllIff(f: Failure, i: nat, landed: nat, fate: nat -> Fate, c: nat, plan: CommitPlan,
                                         dirty: set<string>, disk: Disk)
    requires Accounts(f, i, landed, fate, c, plan, dirty, disk)
    ensures |Recorded(f)| == landed <==>
            !LandsAt(fate, c, plan, dirty) && (i == 0 || Recovers(fate, c, plan, dirty, disk))
  {
  }

  lemma {:induction false} FilesOfPlan(plans: seq<CommitPlan>, i: nat)
    requires i < |plans|
    ensures Files(plans[i..]) == plans[i].files + Files(plans[i + 1..])
    ensures forall f :: f in plans[i].files ==> f in Files(plans[..i + 1])
  {
    assert plans[i..][1..] == plans[i + 1..];
    assert plans[..i + 1] == plans[..i] + [plans[i]];
    FilesSplit(plans[..i], [plans[i]]);
    assert [plans[i]][1..] == [];
  }

  /** The files of later plans are as dirty as they were before the loop. */
  predicate StillDirty(now: set<string>, before: set<string>, files: seq<string>) {
    forall f :: f in files ==> (f in now <==> f in before)
  }

  lemma {:induction false} FileOfOnePlan(plans: seq<CommitPlan>, i: nat, normalize: string -> string, f: string)
    requires i < |plans| && Distinct(Normalized(Files(plans), normalize)) && f in plans[i].files
    ensures f !in Files(plans[i + 1..])
  {
    FilesOfPlan(plans, i);
    GuardedSplit(plans, i + 1, normalize);
    hide *;
    assert f in Files(plans[..i + 1]);
    assert f in Files(plans[i + 1..]) ==> normalize(f) != normalize(f);
  }

  lemma {:induction false} LaterFilesStayDirty(plans: seq<CommitPlan>, i: nat, normalize: string -> string,
                                               now: set<string>, before: set<string>, changed: set<string>)
    requires i < |plans| && Distinct(Normalized(Files(plans), normalize))
    requires StillDirty(now, before, Files(plans[i..])) && forall f :: f in changed ==> f in plans[i].files
    ensures StillDirty(now - changed, before, Files(plans[i + 1..]))
  {
    FilesOfPlan(plans, i);
    hide Files, Normalized, Distinct;
    forall f | f in Files(plans[i + 1..])
      ensures f in now - changed <==> f in before
    {
      if f in changed {
        FileOfOnePlan(plans, i, normalize, f);
      }
      assert f in Files(plans[i..]);
    }
  }

  /** Every plan so far landed and was reported, four commands each. */
  predicate AllReported(fate: nat -> Fate, start: nat, plans: seq<CommitPlan>, dirty: set<string>, n: nat)
    requires n <= |plans|
  {
    forall k :: 0 <= k < n ==> LandsAt(fate, start + 4 * k, plans[k], dirty) && SaysSo(fate, start + 4 * k)
  }

  /** What the plans before the i-th have left behind. */
  predicate Known(i: nat, committed: seq<CommittedSha>, plans: seq<CommitPlan>, history: seq<Commit>, base: nat,
                  name: nat -> string, fate: nat -> Fate, start: nat, now: set<string>, dirty: set<string>) {
    && i <= |plans| && |committed| == i && |history| == base + i
    && Isolated(history, base, plans, name) && Records(committed, plans, history, base)
    && AllReported(fate, start, plans, dirty, i)
    && StillDirty(now, dirty, Files(plans[i..]))
  }

  /** What the loop knows before plan i. */
  ghost predicate BeforePlan(i: nat, committed: seq<CommittedSha>, plans: seq<CommitPlan>, repo: Repository,
                             started: seq<Commit>, start: nat, dirty: set<string>)
    reads repo
  {
    && repo.index == {} && repo.commands == start + 4 * i && started <= repo.history
    && Known(i, committed, plans, repo.history, |started|, repo.name, repo.fate, start, repo.dirty, dirty)
  }

  /** Every plan landed, was reported and is recorded. */
  predicate Complete(committed: seq<CommittedSha>, plans: seq<CommitPlan>, history: seq<Commit>, base: nat,
                     fate: nat -> Fate, start: nat, dirty: set<string>) {
    && Records(committed, plans, history, base) && |committed| == |plans| && |history| == base + |plans|
    && AllReported(fate, start, plans, dirty, |plans|)
  }

  /** The loop stopped at plan i, the first one that was not reported. */
  predicate StopsAt(f: Failure, i: nat, plans: seq<CommitPlan>, world: World, history: seq<Commit>, base: nat,
                    fate: nat -> Fate, start: nat, dirty: set<string>) {
    && i < |plans| && base <= |history| && AllReported(fate, start, plans, dirty, i)
    && Accounts(f, i, |history| - base, fate, start + 4 * i, plans[i], dirty, world.disk)
    && (AtPlan(f) ==> Records(f.committed, plans, history, base) && Partition(f, plans, world.normalize))
  }

  lemma {:induction false} OneMoreReported(fate: nat -> Fate, start: nat, plans: seq<CommitPlan>, dirty: set<string>,
                                           n: nat)
    requires n < |plans| && AllReported(fate, start, plans, dirty, n)
    requires LandsAt(fate, start + 4 * n, plans[n], dirty) && SaysSo(fate, start + 4 * n)
    ensures AllReported(fate, start, plans, dirty, n + 1)
  {
  }

  lemma {:induction false} RecordsStay(committed: seq<CommittedSha>, plans: seq<CommitPlan>, history: seq<Commit>,
                                       base: nat, next: seq<Commit>)
    requires Records(committed, plans, history, base) && history <= next
    ensures Records(committed, plans, next, base)
  {
  }

  lemma {:induction false} OwnFilesLeft(fate: nat -> Fate, c: nat, plans: seq<CommitPlan>, i: nat, now: set<string>,
                                        before: set<string>)
    requires i < |plans| && StillDirty(now, before, Files(plans[i..]))
    ensures var plan, landed := plans[i], LandsAt(fate, c, plans[i], before);
            && LandsAt(fate, c, plan, now) == landed
            && StillDirty(Cleaned(landed, plan, now), LeftDirty(landed, before), plan.files)
  {
    FilesOfPlan(plans, i);
  }

  /** A plan that landed and was reported: the loop goes on with everything it knew. */
  lemma {:induction false} GoesOn(committed: seq<CommittedSha>, plans: seq<CommitPlan>, i: nat,
                                  normalize: string -> string, history: seq<Commit>, base: nat, name: nat -> string,
                                  fate: nat -> Fate, start: nat, now: set<string>, dirty: set<string>)
    requires i < |plans| && Distinct(Normalized(Files(plans), normalize))
    requires Known(i, committed, plans, history, base, name, fate, start, now, dirty)
    requires LandsAt(fate, start + 4 * i, plans[i], now) && SaysSo(fate, start + 4 * i)
    ensures Known(i + 1, committed + [CommittedSha(name(|history|), plans[i].files)], plans,
                  Extended(history, true, name, plans[i], now), base, name, fate, start,
                  Cleaned(true, plans[i], now), dirty)
  {
    var next := Extended(history, true, name, plans[i], now);
    OwnFilesLeft(fate, start + 4 * i, plans, i, now, dirty);
    hide Isolated, Records, Distinct, Normalized, Files, LandsAt, SaysSo, StillDirty, AllReported;
    RecordsGrow(committed, plans, history, base, next, name);
    LaterFilesStayDirty(plans, i, normalize, now, dirty, next[|history|].changed);
    OneMoreReported(fate, start, plans, dirty, i);
  }

  /** A plan that was not reported: what is known of the plans before it still holds. */
  lemma {:induction false} StopsThere(committed: seq<CommittedSha>, plans: seq<CommitPlan>, i: nat,
                                      history: seq<Commit>, base: nat, name: nat -> string, fate: nat -> Fate,
                                      start: nat, now: set<string>, dirty: set<string>)
    requires i < |plans| && Known(i, committed, plans, history, base, name, fate, start, now, dirty)
    ensures var plan, landed := plans[i], LandsAt(fate, start + 4 * i, plans[i], now);
            var next := Extended(history, landed, name, plan, now);
            && LandsAt(fate, start + 4 * i, plan, dirty) == landed
            && Isolated(next, base, plans, name) && Records(committed, plans, next, base)
            && AllReported(fate, start, plans, dirty, i)
            && StillDirty(Cleaned(landed, plan, now), LeftDirty(landed, dirty), plan.files)
  {
    var landed := LandsAt(fate, start + 4 * i, plans[i], now);
    var next := Extended(history, landed, name, plans[i], now);
    OwnFilesLeft(fate, start + 4 * i, plans, i, now, dirty);
    hide Isolated, Records, Files, LandsAt, StillDirty, AllReported, LeftDirty;
    if landed {
      RecordsGrow(committed, plans, history, base, next, name);
    }
    RecordsStay(committed, plans, history, base, next);
  }

  /** The plan whose commands started at `c` has just failed; `landed` is what it added to the history. */
  predicate FailedNow(repo: Repository, c: nat, plan: CommitPlan, dirty: set<string>, landed: int)
    reads repo`commands, repo`dirty
  {
    var lands := LandsAt(repo.fate, c, plan, dirty);
    && !(lands && SaysSo(repo.fate, c)) && landed == (if lands then 1 else 0)
    && repo.commands == c + Tried(repo.fate, c, lands)
    && StillDirty(repo.dirty, LeftDirty(lands, dirty), plan.files)
  }

  /** One turn of the loop: the plan is committed and recorded, or the failure accounts for what landed. */
  method CommitNext(repo: Repository, plans: seq<CommitPlan>, i: nat, committed: seq<CommittedSha>, world: World,
                    ghost started: seq<Commit>, ghost start: nat, ghost dirty: set<string>)
    returns (r: Result<seq<CommittedSha>, Failure>)
    requires i < |plans| && Distinct(Normalized(Files(plans), world.normalize))
    requires BeforePlan(i, committed, plans, repo, started, start, dirty)
    modifies repo
    ensures r.Ok? ==> BeforePlan(i + 1, r.value, plans, repo, started, start, dirty)
    ensures started <= repo.history && Isolated(repo.history, |started|, plans, repo.name)
    ensures r.Err? ==> StopsAt(r.error, i, plans, world, repo.history, |started|, repo.fate, start, dirty)
  {
    var pending := CollectPending(plans, i);
    ghost var history, now, c := repo.history, repo.dirty, repo.commands;
    StopsThere(committed, plans, i, history, |started|, repo.name, repo.fate, start, now, dirty);
    hide *;
    var sha := CommitPlanOnce(repo, plans[i]);
    if sha.None? {
      var failure := FailAtPlan(repo, plans, i, committed, pending, world, |started|, start, dirty);
      return Err(failure);
    }
    GoesOn(committed, plans, i, world.normalize, history, |started|, repo.name, repo.fate, start, now, dirty);
    r := Ok(committed + [CommittedSha(sha.value, plans[i].files)]);
    var _ := repo.Reset();
  }

  /** The catch block: unstage, look at the plan's files, and report what landed and what is pending. */
  method FailAtPlan(repo: Repository, plans: seq<CommitPlan>, i: nat, committed: seq<CommittedSha>,
                    pending: seq<string>, world: World, ghost base: nat, ghost start: nat, ghost dirty: set<string>)
    returns (failure: Failure)
    requires i < |plans| && |committed| == i && pending == Dedup(Files(plans[i..]))
    requires Distinct(Normalized(Files(plans), world.normalize)) && AllReported(repo.fate, start, plans, dirty, i)
    requires base <= |repo.history| && Records(committed, plans, repo.history, base)
    requires FailedNow(repo, start + 4 * i, plans[i], dirty, |repo.history| - base - i)
    modifies repo`index, repo`commands
    ensures StopsAt(failure, i, plans, world, repo.history, base, repo.fate, start, dirty)
  {
    ghost var c := start + 4 * i;
    hide LandsAt, SaysSo, Tried, Partition, Normalized, Distinct, Files, Dedup, Inspectable, Those, StateOf, Records,
      AllReported;
    ghost var left := LeftDirty(LandsAt(repo.fate, c, plans[i], dirty), dirty);
    var clean := repo.Reset();
    if !clean {
      return GitFailure;
    }
    var files := plans[i].files;
    SameInspection(repo.fate, repo.commands, files, repo.dirty, left, world.disk);
    SameFiles(files, Nonexistent, repo.dirty, left, world.disk);
    SameFiles(files, Unchanged, repo.dirty, left, world.disk);
    var seen := Inspect(repo, files, world.disk);
    if seen.None? {
      return GitFailure;
    }
    ThoseIff(files, Nonexistent, left, world.disk);
    ThoseIff(files, Unchanged, left, world.disk);
    StatesMean(left, world.disk);
    failure :=
      if seen.value.nonexistent != [] then PlanProblem(true, committed, pending)
      else if |seen.value.clean| == |files| then PlanProblem(false, committed, pending)
      else PartialCommit(committed, pending);
    GuardedPending(failure, plans, world.normalize);
  }

  /** The commit loop, on a clean index. `failedAt` is the plan a failure happened at. */
  method CommitAll(repo: Repository, plans: seq<CommitPlan>, world: World)
    returns (r: Result<seq<CommittedSha>, Failure>, failedAt: nat)
    requires repo.index == {} && Distinct(Normalized(Files(plans), world.normalize))
    modifies repo
    ensures old(repo.history) <= repo.history && Isolated(repo.history, |old(repo.history)|, plans, repo.name)
    ensures r.Ok? ==> Complete(r.value, plans, repo.history, |old(repo.history)|,
                               repo.fate, old(repo.commands), old(repo.dirty))
    ensures r.Err? ==> StopsAt(r.error, failedAt, plans, world, repo.history, |old(repo.history)|,
                               repo.fate, old(repo.commands), old(repo.dirty))
  {
    ghost var started, start, dirty := repo.history, repo.commands, repo.dirty;
    var committed: seq<CommittedSha> := [];
    assert BeforePlan(0, committed, plans, repo, started, start, dirty);
    failedAt := 0;
    hide StopsAt, Distinct, Normalized, Files, StillDirty, Records, Isolated, AllReported;
    while failedAt < |plans|
      invariant failedAt <= |plans| && BeforePlan(failedAt, committed, plans, repo, started, start, dirty)
      decreases |plans| - failedAt
    {
      r := CommitNext(repo, plans, failedAt, committed, world, started, start, dirty);
      if r.Err? {
        return;
      }
      committed := r.value;
      failedAt := failedAt + 1;
    }
    r := Ok(committed);
  }

  type Published = (seq<CommittedSha>, nat)

  /** The commands before the loop work: HEAD can be read, and everything is unstaged. */
  predicate Starts(fate: nat -> Fate, c: nat, history: seq<Commit>) {
    fate(c) == Works && fate(c + 1) == Works && history != []
  }

  /**
   * What a publication says about its push, given the acts it performed at the remote and what could be said of the
   * push beforehand.
   */
  predicate PushTold(r: Result<Published, Failure>, local: Publication.Local, acts: seq<Publication.Act>,
                     outlook: Publication.Forecast) {
    && (r.Ok? ==> r.value.1 <= 1)
    && (r.Ok? || r.error.PushFailed? ==>
          (r.Ok? <==> || !local.autoPush || local.destination == Publication.Nowhere
                      || (&& |acts| >= 2 && acts[|acts| - 1] == Publication.Saw(local.head) && local.head.Some?
                          && Publication.UpstreamWorks(local))))
    && (r.Err? && r.error.PushFailed? ==>
          local.autoPush && local.destination != Publication.Nowhere && r.error.error.retryCount <= 1)
    && (r.Ok? || r.error.PushFailed? ==>
          match outlook
          case Sure(retries) => r.Ok? && r.value.1 == retries
          case Doomed(retries) => r.Err? && r.error.error.retryCount == retries
          case Open => true)
    && Publication.PushConversation(acts, local)
  }

  /** What a publication says that never came to its push. */
  lemma {:induction false} NeverPushed(f: Failure, local: Publication.Local, outlook: Publication.Forecast)
    requires !f.PushFailed?
    ensures PushTold(Err(f), local, [], outlook)
  {
  }

  /**
   * A publication past its guards, from the history `before` with its first command at c to the history `after`,
   * with these acts at the remote: before the loop it ends as an error of no class; the loop stops at the first plan
   * that is not reported; past it everything is recorded, and only then is anything pushed.
   */
  predicate Conducted(r: Result<Published, Failure>, failedAt: Option<nat>, plans: seq<CommitPlan>, world: World,
                      before: seq<Commit>, after: seq<Commit>, fate: nat -> Fate, c: nat, dirty: set<string>,
                      acts: seq<Publication.Act>, outlook: Publication.Forecast)
    requires before <= after
  {
    // Before the loop.
    && (r == Err(PlainError) <==> !Starts(fate, c, before))
    && (r == Err(PlainError) ==> failedAt.None? && after == before)
    // In the loop.
    && (r.Ok? || r.error.PlainError? || r.error.PushFailed? || failedAt.Some?)
    && (failedAt.Some? ==>
          r.Err? && StopsAt(r.error, failedAt.value, plans, world, after, |before|, fate, c + 2, dirty))
    // Past it.
    && (r.Ok? || r.error.PushFailed? ==>
          Complete(if r.Ok? then r.value.0 else r.error.committed, plans, after, |before|, fate, c + 2, dirty))
    && (r.Ok? || r.error.PushFailed? <==> Starts(fate, c, before) && AllReported(fate, c + 2, plans, dirty, |plans|))
    && (r.Err? && !r.error.PushFailed? ==> acts == [])
    && PushTold(r, LocalAfter(world.local, after), acts, outlook)
  }

  /** The publication past its guards. */
  method PublishGuarded(repo: Repository, plans: seq<CommitPlan>, world: World, remote: Publication.Remote)
    returns (r: Result<Published, Failure>, failedAt: Option<nat>)
    requires remote.Alive() && Distinct(Normalized(Files(plans), world.normalize))
    modifies repo, remote
    ensures remote.Alive() && old(remote.log) <= remote.log
    ensures old(repo.history) <= repo.history && Isolated(repo.history, |old(repo.history)|, plans, repo.name)
    ensures var local := LocalAfter(world.local, repo.history);
            Conducted(r, failedAt, plans, world, old(repo.history), repo.history, repo.fate, old(repo.commands),
                      old(repo.dirty), remote.log[|old(remote.log)|..],
                      Publication.Outlook(remote, old(remote.calls), old(remote.Ref()), local))
  {
    failedAt := None;
    assert Isolated(repo.history, |repo.history|, plans, repo.name);
    ghost var started, c, dirty := repo.history, repo.commands, repo.dirty;
    ghost var calls, ref, log := remote.calls, remote.Ref(), remote.log;
    hide *;
    var originalHead := repo.RevParseHead();
    if originalHead.None? {
      NeverStarted(plans, world, started, repo.fate, c, dirty,
                   Publication.Outlook(remote, calls, ref, LocalAfter(world.local, repo.history)));
      return Err(PlainError), failedAt;
    }
    var clean := repo.Reset();
    if !clean {
      NeverStarted(plans, world, started, repo.fate, c, dirty,
                   Publication.Outlook(remote, calls, ref, LocalAfter(world.local, repo.history)));
      return Err(PlainError), failedAt;
    }
    var committed, at := CommitAll(repo, plans, world);
    if committed.Err? {
      StopsInTheLoop(committed.error, at, plans, world, started, repo.history, repo.fate, c, dirty,
                     Publication.Outlook(remote, calls, ref, LocalAfter(world.local, repo.history)));
      return Err(committed.error), Some(at);
    }
    r := PushAll(committed.value, world.local, repo.history, remote);
    EndsWithThePush(r, committed.value, plans, world, started, repo.history, repo.fate, c, dirty,
                    remote.log[|log|..],
                    Publication.Outlook(remote, calls, ref, LocalAfter(world.local, repo.history)));
  }

  lemma {:induction false} NeverStarted(plans: seq<CommitPlan>, world: World, before: seq<Commit>, fate: nat -> Fate,
                                        c: nat, dirty: set<string>, outlook: Publication.Forecast)
    requires !Starts(fate, c, before)
    ensures Conducted(Err(PlainError), None, plans, world, before, before, fate, c, dirty, [], outlook)
  {
    NeverPushed(PlainError, LocalAfter(world.local, before), outlook);
    hide PushTold, Complete, StopsAt;
  }

  lemma {:induction false} StopsInTheLoop(f: Failure, i: nat, plans: seq<CommitPlan>, world: World,
                                          before: seq<Commit>, after: seq<Commit>, fate: nat -> Fate, c: nat,
                                          dirty: set<string>, outlook: Publication.Forecast)
    requires before <= after && Starts(fate, c, before)
    requires StopsAt(f, i, plans, world, after, |before|, fate, c + 2, dirty)
    ensures Conducted(Err(f), Some(i), plans, world, before, after, fate, c, dirty, [], outlook)
  {
    NeverPushed(f, LocalAfter(world.local, after), outlook);
    hide PushTold, Complete, LandsAt, SaysSo, Records, Partition, Classified, Recovers;
  }

  lemma {:induction false} EndsWithThePush(r: Result<Published, Failure>, committed: seq<CommittedSha>,
                                           plans: seq<CommitPlan>, world: World, before: seq<Commit>,
                                           after: seq<Commit>, fate: nat -> Fate, c: nat, dirty: set<string>,
                                           acts: seq<Publication.Act>, outlook: Publication.Forecast)
    requires before <= after && Starts(fate, c, before)
    requires Complete(committed, plans, after, |before|, fate, c + 2, dirty)
    requires if r.Ok? then r.value.0 == committed else r.error.PushFailed? && r.error.committed == committed
    requires PushTold(r, LocalAfter(world.local, after), acts, outlook)
    ensures Conducted(r, None, plans, world, before, after, fate, c, dirty, acts, outlook)
  {
    hide PushTold, StopsAt;
  }

  /** The push after the loop. */
  method PushAll(committed: seq<CommittedSha>, local: Publication.Local, history: seq<Commit>,
                 remote: Publication.Remote)
    returns (r: Result<Published, Failure>)
    requires remote.Alive()
    modifies remote
    ensures remote.Alive() && old(remote.log) <= remote.log
    ensures if r.Ok? then r.value.0 == committed else r.error.PushFailed? && r.error.committed == committed
    ensures PushTold(r, LocalAfter(local, history), remote.log[|old(remote.log)|..],
                     Publication.Outlook(remote, old(remote.calls), old(remote.Ref()), LocalAfter(local, history)))
  {
    hide Publication.Outlook, Publication.PushCount, Publication.OnlyMoves, Publication.QuietOnceSeen;
    var pushed, acts := Publication.ExecutePush(remote, LocalAfter(local, history));
    assert remote.log[|old(remote.log)|..] == acts;
    r := match pushed
         case Ok(retries) => Ok((committed, retries))
         case Err(e) => Err(PushFailed(committed, e));
  }

  /** The files of all plans differ after normalisation. */
  predicate NoDuplicates(plans: seq<CommitPlan>, normalize: string -> string) {
    Distinct(Normalized(Files(plans), normalize))
  }

  /** There are plans, no two of their files are the same, and the staged diff is the expected one, if one is. */
  predicate PassesGuards(plans: seq<CommitPlan>, world: World) {
    plans != [] && NoDuplicates(plans, world.normalize) && (world.diff.Same? || world.diff.NotExpected?)
  }

  lemma {:induction false} NotAGuard(r: Result<Published, Failure>, failedAt: Option<nat>, plans: seq<CommitPlan>,
                                     world: World, before: seq<Commit>, after: seq<Commit>, fate: nat -> Fate,
                                     c: nat, dirty: set<string>, acts: seq<Publication.Act>,
                                     outlook: Publication.Forecast)
    requires before <= after
    requires Conducted(r, failedAt, plans, world, before, after, fate, c, dirty, acts, outlook)
    ensures r.Err? ==> !r.error.EmptyPlans? && !r.error.DuplicateFile? && !r.error.DiffHashMismatch?
  {
  }

  /**
   * `executeMultiCommitAndPush`. Every new commit changes only its own plan's paths. A failure at plan i, the
   * first one that was not reported, records exactly the commits of the plans before it, in order, and lists
   * as pending the files of plan i and after, or records nothing when the cleanup fails; the two sides do not
   * overlap even after path normalisation. The remote is not touched before every plan landed, and a normal
   * return with a push saw the last commit there.
   */
  method ExecuteMultiCommitAndPush(repo: Repository, plans: seq<CommitPlan>, world: World, remote: Publication.Remote)
    returns (r: Result<Published, Failure>, failedAt: Option<nat>)
    requires remote.Alive()
    modifies repo, remote
    ensures remote.Alive() && old(remote.log) <= remote.log
    ensures old(repo.history) <= repo.history && Isolated(repo.history, |old(repo.history)|, plans, repo.name)
    // The guards, in order.
    ensures r == Err(EmptyPlans) <==> plans == []
    ensures r.Err? && r.error.DuplicateFile? <==> plans != [] && !NoDuplicates(plans, world.normalize)
    ensures r.Err? && r.error.DuplicateFile? ==> IsFirstRepeat(Files(plans), r.error.file, world.normalize)
    ensures r == Err(DiffHashMismatch) <==>
              plans != [] && NoDuplicates(plans, world.normalize) && world.diff == DiffLook.Changed
    ensures plans != [] && NoDuplicates(plans, world.normalize) && world.diff.Unreadable? ==> r == Err(PlainError)
    ensures !PassesGuards(plans, world) ==>
              failedAt.None? && r.Err? && repo.history == old(repo.history) && remote.log == old(remote.log)
    // Past them.
    ensures var local := LocalAfter(world.local, repo.history);
            PassesGuards(plans, world) ==>
              Conducted(r, failedAt, plans, world, old(repo.history), repo.history, repo.fate, old(repo.commands),
                        old(repo.dirty), remote.log[|old(remote.log)|..],
                        Publication.Outlook(remote, old(remote.calls), old(remote.Ref()), local))
  {
    failedAt := None;
    assert Isolated(repo.history, |repo.history|, plans, repo.name);
    hide Distinct, Normalized, Files, Isolated, IsFirstRepeat, Conducted, Publication.Outlook;
    if plans == [] {
      return Err(EmptyPlans), failedAt;
    }
    var duplicate := FirstDuplicate(plans, world.normalize);
    if duplicate.Some? {
      return Err(DuplicateFile(duplicate.value)), failedAt;
    }
    if world.diff.Changed? {
      return Err(DiffHashMismatch), failedAt;
    }
    if world.diff.Unreadable? {
      return Err(PlainError), failedAt;
    }
    r, failedAt := PublishGuarded(repo, plans, world, remote);
    NotAGuard(r, failedAt, plans, world, old(repo.history), repo.history, repo.fate, old(repo.commands),
              old(repo.dirty), remote.log[|old(remote.log)|..],
              Publication.Outlook(remote, old(remote.calls), old(remote.Ref()), LocalAfter(world.local, repo.history)));
  }
}
