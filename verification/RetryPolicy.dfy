/**
 * What happens to one repository when one result for it arrives: five attempt budgets, one fallback that
 * resets the first of them, loop detection by plan hash, and at most one new job
 * (src/modules/core/validation-retry-handler.ts, queue-retry.ts, llm-job-failure-handler.ts,
 * error-classifier.ts, fallback-model.ts and the body of the loop in src/phases/step2-commit-push.ts).
 */
module RetryPolicy {
  import opened Base
  import opened Plans

  datatype Kind = Validation | Structural | Race | Git | Network

  function Budget(k: Kind): nat {
    if k == Validation then 2 else 1
  }

  /** Attempts used so far; an absent counter reads as zero. */
  datatype Attempts = Attempts(validation: nat, structural: nat, race: nat, git: nat, network: nat)

  const MAX_FEEDBACK_HISTORY := 10

  datatype Status = PENDING | RUNNING | SUCCESS | FAILED

  datatype RepoState = RepoState(
    status: Status,
    pushOnly: bool,
    diffHash: Option<string>,
    attempts: Attempts,
    committed: seq<CommittedSha>,
    feedback: seq<string>,
    lastPlanHash: Option<string>,
    fallbackAttempted: bool)

  datatype Job = Job(id: string, repair: bool, fallbackModel: bool)

  datatype PublishError =
    | PlanError(emptyPlans: bool, committed: seq<CommittedSha>)   // CommitPlanError
    | HashMismatch                                                // DiffHashMismatchError
    | Partial(committed: seq<CommittedSha>)                       // PartialCommitError
    | GitExec                                                     // GitExecError
    | PostCommitPush(committed: seq<CommittedSha>, retries: nat)  // PostCommitPushError
    | Push(transient: bool)                                       // a bare PushError
    | OtherError

  datatype Publication = Published(committed: seq<CommittedSha>, retries: nat) | Unpublished(error: PublishError)

  /** What came back for a repository, and what publishing its plans would do. */
  datatype Reply =
    | LlmFailed(error: string)
    | Planned(plans: seq<CommitPlan>, publication: Publication)
    | Checkpoint(pushed: bool)

  /** The parts of the environment the policy calls but does not decide. */
  datatype Env = Env(
    hash: seq<CommitPlan> -> string,
    brokenRules: CommitPlan -> seq<string>,   // messages of the commit-message validator
    render: seq<CommitPlan> -> string,        // feedback text of rejected plans
    restagedHash: string,                     // hash of what is staged for the next attempt
    fallbackConfigured: bool)

  datatype Thrown = MissingDiffHash

  /** The new state, the job queued for it if any, and how many loops were detected. */
  datatype Outcome = Outcome(state: RepoState, job: Option<Job>, loops: nat)

  function Count(a: Attempts, k: Kind): nat {
    match k
    case Validation => a.validation
    case Structural => a.structural
    case Race => a.race
    case Git => a.git
    case Network => a.network
  }

  function Set(a: Attempts, k: Kind, n: nat): Attempts {
    match k
    case Validation => a.(validation := n)
    case Structural => a.(structural := n)
    case Race => a.(race := n)
    case Git => a.(git := n)
    case Network => a.(network := n)
  }

  predicate HasDiffHash(st: RepoState) {
    st.diffHash.Some? && st.diffHash.value != ""
  }

  const MAX_FEEDBACK_ENTRY := 16 * 1024

  /** A long entry keeps its beginning and says that it was cut. */
  function Truncated(entry: string): string {
    if |entry| > MAX_FEEDBACK_ENTRY then entry[..MAX_FEEDBACK_ENTRY] + "\n[truncated]" else entry
  }

  function CapHistory(history: seq<string>, display: string): seq<string> {
    var next := history + [Truncated(display)];
    if |next| > MAX_FEEDBACK_HISTORY then next[|next| - MAX_FEEDBACK_HISTORY..] else next
  }

  datatype Queued = Queued(state: RepoState, job: Job) | LoopDetected(state: RepoState)

  /** `queueRetry`, with its commit-message repair path. */
  function QueueRetry(id: string, st: RepoState, kind: Kind, plans: seq<CommitPlan>, fallbackModel: bool, env: Env)
    : Result<Queued, Thrown>
  {
    if !HasDiffHash(st) then Err(MissingDiffHash)
    else
      var h := env.hash(plans);
      var repair := plans != [] && kind == Validation;
      if st.lastPlanHash == Some(h) then Ok(LoopDetected(st))
      else
        Ok(Queued(st.(lastPlanHash := Some(h), feedback := CapHistory(st.feedback, env.render(plans)),
                      diffHash := if repair then st.diffHash else Some(env.restagedHash)),
                  Job(id, repair, fallbackModel)))
  }

  function ValidationErrors(plans: seq<CommitPlan>, env: Env): seq<string> {
    if plans == [] then [] else env.brokenRules(plans[0]) + ValidationErrors(plans[1..], env)
  }

  function Bump(st: RepoState, k: Kind): RepoState {
    st.(attempts := Set(st.attempts, k, Count(st.attempts, k) + 1))
  }

  /** The state in which the fallback model gets its one attempt. */
  function ForFallback(st: RepoState): RepoState {
    st.(fallbackAttempted := true, lastPlanHash := None, attempts := Set(st.attempts, Validation, 0))
  }

  function Fail(st: RepoState): RepoState {
    st.(status := FAILED)
  }

  /** `handleValidationRetry`; None when the plans are valid. */
  function HandleValidation(id: string, st: RepoState, plans: seq<CommitPlan>, env: Env)
    : Result<Option<Outcome>, Thrown>
  {
    if ValidationErrors(plans, env) == [] then Ok(None)
    else if st.fallbackAttempted then Ok(Some(Outcome(Fail(st), None, 0)))
    else if Count(st.attempts, Validation) < Budget(Validation) then
      match QueueRetry(id, Bump(st, Validation), Validation, plans, false, env)
      case Err(e) => Err(e)
      case Ok(Queued(next, job)) => Ok(Some(Outcome(next, Some(job), 0)))
      case Ok(LoopDetected(looped)) =>
        if env.fallbackConfigured then
          match QueueRetry(id, ForFallback(looped), Validation, plans, true, env)
          case Err(e) => Err(e)
          case Ok(Queued(next, job)) => Ok(Some(Outcome(next, Some(job), 1)))
          case Ok(LoopDetected(_)) => Ok(Some(Outcome(Fail(looped), None, 1)))
        else Ok(Some(Outcome(Fail(looped), None, 1)))
    else if env.fallbackConfigured then
      match QueueRetry(id, ForFallback(st), Validation, plans, true, env)
      case Err(e) => Err(e)
      case Ok(Queued(next, job)) => Ok(Some(Outcome(next, Some(job), 0)))
      case Ok(LoopDetected(looped)) => Ok(Some(Outcome(Fail(looped), None, 0)))
    else Ok(Some(Outcome(Fail(st), None, 0)))
  }

  predicate Contains(s: string, part: string) {
    exists i :: 0 <= i <= |s| && part <= s[i..]
  }

  /** `handleLlmJobFailure`. Only a "validation rejected" failure is retried. */
  function HandleLlmFailure(id: string, st: RepoState, error: string, env: Env): Result<Outcome, Thrown> {
    if !Contains(error, "validation rejected") then
      if (Contains(error, "empty") || Contains(error, "non-empty JSON array")) && st.committed != [] then
        Ok(Outcome(st.(status := SUCCESS), None, 0))
      else Ok(Outcome(Fail(st), None, 0))
    else if Count(st.attempts, Validation) < Budget(Validation) then
      match QueueRetry(id, Bump(st, Validation), Validation, [], false, env)
      case Err(e) => Err(e)
      case Ok(Queued(next, job)) => Ok(Outcome(next, Some(job), 0))
      case Ok(LoopDetected(looped)) => Ok(Outcome(Fail(looped), None, 0))
    else Ok(Outcome(Fail(st), None, 0))
  }

  datatype Classified = TreatAsSuccess | MayRetry(kind: Kind) | MustFail(kind: Kind)

  /** `classifyError`. A PostCommitPushError is a PushError too, and is recognised first. */
  function ClassifyError(e: PublishError, committedExist: bool): Classified {
    match e
    case PlanError(emptyPlans, _) => if emptyPlans && committedExist then TreatAsSuccess else MayRetry(Structural)
    case HashMismatch => MayRetry(Race)
    case Partial(_) => MayRetry(Git)
    case GitExec => MustFail(Git)
    case PostCommitPush(_, _) => MustFail(Network)
    case Push(transient) => if transient then MayRetry(Network) else MustFail(Network)
    case OtherError => MustFail(Git)
  }

  /** `mergeCommittedShas`: what is new is appended, in order; what is known stays where it is. */
  function Merge(existing: seq<CommittedSha>, incoming: seq<CommittedSha>): seq<CommittedSha>
    decreases |incoming|
  {
    if incoming == [] then existing
    else if incoming[0].sha in Shas(existing) then Merge(existing, incoming[1..])
    else Merge(existing + [incoming[0]], incoming[1..])
  }

  lemma KnownShas(cs: seq<CommittedSha>, known: set<string>)
    requires known == set c | c in cs :: c.sha
    ensures forall x :: x in known <==> x in Shas(cs)
  {
    forall x | x in known
      ensures x in Shas(cs)
    {
      var i :| 0 <= i < |cs| && cs[i].sha == x;
      assert Shas(cs)[i] == x;
    }
    forall x | x in Shas(cs)
      ensures x in known
    {
      var i :| 0 <= i < |cs| && Shas(cs)[i] == x;
      assert cs[i] in cs;
    }
  }

  /** The source's loop, with its array and its set of known shas. */
  method MergeCommittedShas(existing: seq<CommittedSha>, incoming: seq<CommittedSha>)
    returns (merged: seq<CommittedSha>)
    ensures merged == Merge(existing, incoming)
  {
    merged := existing;
    var known := set c | c in existing :: c.sha;
    assert incoming[0..] == incoming;
    KnownShas(existing, known);
    for i := 0 to |incoming|
      invariant Merge(merged, incoming[i..]) == Merge(existing, incoming)
      invariant forall x :: x in known <==> x in Shas(merged)
    {
      assert incoming[i..][1..] == incoming[i + 1..];
      if incoming[i].sha in known {
        continue;
      }
      known := known + {incoming[i].sha};
      assert Shas(merged + [incoming[i]]) == Shas(merged) + [incoming[i].sha];
      merged := merged + [incoming[i]];
    }
  }

  /** Recorded commits only grow, earlier ones stay in order, every incoming sha is there, none twice. */
  lemma {:induction false} MergeGrows(existing: seq<CommittedSha>, incoming: seq<CommittedSha>)
    ensures existing <= Merge(existing, incoming)
    ensures forall x :: x in Shas(Merge(existing, incoming)) <==> x in Shas(existing) || x in Shas(incoming)
    ensures Distinct(Shas(existing)) ==> Distinct(Shas(Merge(existing, incoming)))
    decreases |incoming|
  {
    if incoming != [] {
      var rest := incoming[1..];
      assert Shas(incoming) == [incoming[0].sha] + Shas(rest);
      if incoming[0].sha in Shas(existing) {
        MergeGrows(existing, rest);
      } else {
        assert Shas(existing + [incoming[0]]) == Shas(existing) + [incoming[0].sha];
        MergeGrows(existing + [incoming[0]], rest);
      }
    }
  }

  /** What survives of a failed publication before it is classified: landed commits and push retries. */
  function AfterPublishError(st: RepoState, e: PublishError): RepoState {
    match e
    case PostCommitPush(landed, retries) =>
      st.(committed := Merge(st.committed, landed),
          attempts := Set(st.attempts, Network, Count(st.attempts, Network) + retries))
    case Partial(landed) => st.(committed := Merge(st.committed, landed))
    case PlanError(_, landed) => if landed != [] then st.(committed := Merge(st.committed, landed)) else st
    case _ => st
  }

  function HandlePublishError(id: string, st0: RepoState, plans: seq<CommitPlan>, e: PublishError, env: Env)
    : Result<Outcome, Thrown>
  {
    var st := AfterPublishError(st0, e);
    match ClassifyError(e, st.committed != [])
    case TreatAsSuccess => Ok(Outcome(st.(status := SUCCESS), None, 0))
    case MustFail(_) => Ok(Outcome(Fail(st), None, 0))
    case MayRetry(kind) =>
      if Count(st.attempts, kind) < Budget(kind) then
        match QueueRetry(id, Bump(st, kind), kind, plans, false, env)
        case Err(t) => Err(t)
        case Ok(Queued(next, job)) => Ok(Outcome(next, Some(job), 0))
        case Ok(LoopDetected(looped)) => Ok(Outcome(Fail(looped), None, 1))
      else Ok(Outcome(Fail(st), None, 0))
  }

  /** One iteration of the result loop, for a repository that is known. */
  function HandleReply(id: string, st: RepoState, reply: Reply, env: Env): Result<Outcome, Thrown> {
    match reply
    case Checkpoint(pushed) => Ok(Outcome(st.(status := if pushed then SUCCESS else FAILED), None, 0))
    case LlmFailed(error) => HandleLlmFailure(id, st, error, env)
    case Planned(plans, publication) =>
      match HandleValidation(id, st, plans, env)
      case Err(t) => Err(t)
      case Ok(Some(outcome)) => Ok(outcome)
      case Ok(None) =>
        if !HasDiffHash(st) then Err(MissingDiffHash)
        else
          match publication
          case Unpublished(e) => HandlePublishError(id, st, plans, e, env)
          case Published(landed, retries) =>
            Ok(Outcome(st.(status := SUCCESS, committed := Merge(st.committed, landed),
                           attempts := if retries > 0
                                       then Set(st.attempts, Network, Count(st.attempts, Network) + retries)
                                       else st.attempts),
                       None, 0))
  }

  // ---------------------------------------------------------------------------------------------
  // Termination.

  function Left(a: Attempts, k: Kind): nat {
    if Count(a, k) < Budget(k) then Budget(k) - Count(a, k) else 0
  }

  function LeftWithoutNetwork(a: Attempts): nat {
    Left(a, Validation) + Left(a, Structural) + Left(a, Race) + Left(a, Git)
  }

  function BudgetLeft(a: Attempts): nat {
    LeftWithoutNetwork(a) + Left(a, Network)
  }

  function FallbackLeft(st: RepoState): nat {
    if st.fallbackAttempted then 0 else 1
  }

  /** The measure: the fallback first, because using it gives validation attempts back. */
  predicate Below(a: RepoState, b: RepoState) {
    || FallbackLeft(a) < FallbackLeft(b)
    || (FallbackLeft(a) == FallbackLeft(b) && BudgetLeft(a.attempts) < BudgetLeft(b.attempts))
  }

  /** The fallback is worth its own job and the validation budget it restores. */
  function Worth(st: RepoState): nat {
    BudgetLeft(st.attempts) + 3 * FallbackLeft(st)
  }

  function WorthWithoutNetwork(st: RepoState): nat {
    LeftWithoutNetwork(st.attempts) + 3 * FallbackLeft(st)
  }

  /** A push error that is not wrapped as a failure after the commits; the publisher raises none. */
  predicate BarePush(reply: Reply) {
    reply.Planned? && reply.publication.Unpublished? && reply.publication.error.Push?
  }

  /** Either the repository is finished, or exactly one job was queued for it and the measure fell. */
  predicate Progress(id: string, st: RepoState, o: Outcome) {
    if o.job.None? then o.state.status in {SUCCESS, FAILED}
    else
      && o.job.value.id == id && o.state.status == st.status
      && Below(o.state, st) && Worth(o.state) < Worth(st)
      && (!o.job.value.fallbackModel ==> o.state.lastPlanHash.Some? && o.state.lastPlanHash != st.lastPlanHash)
  }

  /** Queueing spends nothing by itself: it changes only the plan hash, the feedback and the diff hash. */
  lemma QueueingSpendsNothing(id: string, st: RepoState, kind: Kind, plans: seq<CommitPlan>, fallbackModel: bool,
                              env: Env)
    requires QueueRetry(id, st, kind, plans, fallbackModel, env).Ok?
    ensures var q := QueueRetry(id, st, kind, plans, fallbackModel, env).value;
            && q.state.attempts == st.attempts && q.state.fallbackAttempted == st.fallbackAttempted
            && q.state.committed == st.committed && q.state.status == st.status
            && (q.Queued? ==> q.job.id == id && q.job.fallbackModel == fallbackModel
                              && q.state.lastPlanHash.Some? && q.state.lastPlanHash != st.lastPlanHash)
            && (q.LoopDetected? ==> q.state == st)
  {
  }

  /** Spending one attempt within its budget. */
  lemma BumpSpends(st: RepoState, k: Kind)
    requires Count(st.attempts, k) < Budget(k)
    ensures Below(Bump(st, k), st) && Worth(Bump(st, k)) < Worth(st)
    ensures k != Network ==> WorthWithoutNetwork(Bump(st, k)) < WorthWithoutNetwork(st)
  {
  }

  /** Using the fallback, whatever validation attempts it gives back. */
  lemma FallbackSpends(st: RepoState)
    requires !st.fallbackAttempted
    ensures Below(ForFallback(st), st) && Worth(ForFallback(st)) < Worth(st)
    ensures WorthWithoutNetwork(ForFallback(st)) < WorthWithoutNetwork(st)
  {
  }

  lemma ValidationProgress(id: string, st: RepoState, plans: seq<CommitPlan>, env: Env)
    requires HandleValidation(id, st, plans, env).Ok? && HandleValidation(id, st, plans, env).value.Some?
    ensures var o := HandleValidation(id, st, plans, env).value.value;
            && Progress(id, st, o) && o.state.committed == st.committed
            && (o.job.Some? ==> WorthWithoutNetwork(o.state) < WorthWithoutNetwork(st))
  {
    if !st.fallbackAttempted && Count(st.attempts, Validation) < Budget(Validation) {
      var bumped := Bump(st, Validation);
      BumpSpends(st, Validation);
      QueueingSpendsNothing(id, bumped, Validation, plans, false, env);
      if env.fallbackConfigured {
        FallbackAfterLoop(id, st, bumped, plans, env);
      }
    } else if !st.fallbackAttempted && env.fallbackConfigured {
      FallbackSpends(st);
      QueueingSpendsNothing(id, ForFallback(st), Validation, plans, true, env);
    }
  }

  lemma FallbackAfterLoop(id: string, st: RepoState, bumped: RepoState, plans: seq<CommitPlan>, env: Env)
    requires !st.fallbackAttempted && bumped == Bump(st, Validation) && Below(bumped, st) && Worth(bumped) < Worth(st)
    requires WorthWithoutNetwork(bumped) < WorthWithoutNetwork(st)
    requires QueueRetry(id, ForFallback(bumped), Validation, plans, true, env).Ok?
    ensures var q := QueueRetry(id, ForFallback(bumped), Validation, plans, true, env).value;
            && q.Queued? && q.job == Job(id, q.job.repair, true)
            && q.state.status == st.status && q.state.committed == st.committed
            && Below(q.state, st) && Worth(q.state) < Worth(st)
            && WorthWithoutNetwork(q.state) < WorthWithoutNetwork(st)
  {
    FallbackSpends(bumped);
    QueueingSpendsNothing(id, ForFallback(bumped), Validation, plans, true, env);
  }

  lemma LlmFailureProgress(id: string, st: RepoState, error: string, env: Env)
    requires HandleLlmFailure(id, st, error, env).Ok?
    ensures var o := HandleLlmFailure(id, st, error, env).value;
            && Progress(id, st, o) && o.state.committed == st.committed
            && (o.job.Some? ==> WorthWithoutNetwork(o.state) < WorthWithoutNetwork(st))
  {
    if Contains(error, "validation rejected") && Count(st.attempts, Validation) < Budget(Validation) {
      BumpSpends(st, Validation);
      QueueingSpendsNothing(id, Bump(st, Validation), Validation, [], false, env);
    }
  }

  /** Recording what landed gives no budget back. */
  lemma LandedCommitsSpend(st: RepoState, e: PublishError)
    ensures var next := AfterPublishError(st, e);
            && next.status == st.status && next.fallbackAttempted == st.fallbackAttempted
            && next.lastPlanHash == st.lastPlanHash
            && BudgetLeft(next.attempts) <= BudgetLeft(st.attempts)
            && LeftWithoutNetwork(next.attempts) == LeftWithoutNetwork(st.attempts)
            && st.committed <= next.committed
            && (Distinct(Shas(st.committed)) ==> Distinct(Shas(next.committed)))
  {
    match e
    case PostCommitPush(landed, _) => MergeGrows(st.committed, landed);
    case Partial(landed) => MergeGrows(st.committed, landed);
    case PlanError(_, landed) => MergeGrows(st.committed, landed);
    case _ =>
  }

  lemma PublishErrorProgress(id: string, st: RepoState, plans: seq<CommitPlan>, e: PublishError, env: Env)
    requires HandlePublishError(id, st, plans, e, env).Ok?
    ensures var o := HandlePublishError(id, st, plans, e, env).value;
            && Progress(id, st, o) && o.state.committed == AfterPublishError(st, e).committed
            && (o.job.Some? && !e.Push? ==> WorthWithoutNetwork(o.state) < WorthWithoutNetwork(st))
  {
    var mid := AfterPublishError(st, e);
    LandedCommitsSpend(st, e);
    var c := ClassifyError(e, mid.committed != []);
    if c.MayRetry? && Count(mid.attempts, c.kind) < Budget(c.kind) {
      BumpSpends(mid, c.kind);
      QueueingSpendsNothing(id, Bump(mid, c.kind), c.kind, plans, false, env);
    }
  }

  /**
   * One reply makes progress. Plain remaining budgets would not do as a measure: see
   * `FallbackGivesBudgetBack`.
   */
  lemma ReplyFinishesOrDecreases(id: string, st: RepoState, reply: Reply, env: Env)
    requires HandleReply(id, st, reply, env).Ok?
    ensures var o := HandleReply(id, st, reply, env).value;
            && Progress(id, st, o)
            && (o.job.Some? && !BarePush(reply) ==> WorthWithoutNetwork(o.state) < WorthWithoutNetwork(st))
            && st.committed <= o.state.committed
            && (Distinct(Shas(st.committed)) ==> Distinct(Shas(o.state.committed)))
  {
    match reply
    case Checkpoint(_) =>
    case LlmFailed(error) => LlmFailureProgress(id, st, error, env);
    case Planned(plans, publication) =>
      if ValidationErrors(plans, env) != [] {
        ValidationProgress(id, st, plans, env);
      } else {
        match publication
        case Published(landed, _) => MergeGrows(st.committed, landed);
        case Unpublished(e) =>
          PublishErrorProgress(id, st, plans, e, env);
          LandedCommitsSpend(st, e);
      }
  }

  /** Queueing the fallback never reports a loop: the plan hash it would repeat was forgotten just before. */
  lemma FallbackNeverLoops(id: string, st: RepoState, plans: seq<CommitPlan>, env: Env)
    ensures QueueRetry(id, ForFallback(st), Validation, plans, true, env) != Ok(LoopDetected(ForFallback(st)))
    ensures HandleValidation(id, st, plans, env).Ok? && HandleValidation(id, st, plans, env).value.Some?
            && !st.fallbackAttempted && HandleValidation(id, st, plans, env).value.value.job.None?
            ==> !env.fallbackConfigured
  {
  }

  /** The fallback raises the plain sum of remaining budgets, so that sum is no termination measure. */
  lemma FallbackGivesBudgetBack(id: string, st: RepoState, plans: seq<CommitPlan>, env: Env)
    requires env.fallbackConfigured && HasDiffHash(st) && !st.fallbackAttempted
    requires Count(st.attempts, Validation) >= 2 && ValidationErrors(plans, env) != []
    ensures var o := HandleValidation(id, st, plans, env).value.value;
            && o.job == Some(Job(id, true, true)) && o.state.fallbackAttempted
            && BudgetLeft(o.state.attempts) == BudgetLeft(st.attempts) + 2
  {
    assert plans != [];
  }

  /** The jobs queued while replies keep coming for one repository. */
  function Jobs(id: string, st: RepoState, replies: seq<(Reply, Env)>): nat
    decreases |replies|
  {
    if replies == [] then 0
    else
      match HandleReply(id, st, replies[0].0, replies[0].1)
      case Err(_) => 0
      case Ok(o) => if o.job.None? then 0 else 1 + Jobs(id, o.state, replies[1..])
  }

  predicate NeverBarePush(replies: seq<(Reply, Env)>) {
    forall i :: 0 <= i < |replies| ==> !BarePush(replies[i].0)
  }

  /** However long replies keep coming, the number of retry jobs is bounded by what was left at the start. */
  lemma {:induction false} JobsAreBounded(id: string, st: RepoState, replies: seq<(Reply, Env)>)
    ensures Jobs(id, st, replies) <= Worth(st) <= 9
    ensures NeverBarePush(replies) ==> Jobs(id, st, replies) <= WorthWithoutNetwork(st) <= 8
    decreases |replies|
  {
    if replies != [] && HandleReply(id, st, replies[0].0, replies[0].1).Ok? {
      ReplyFinishesOrDecreases(id, st, replies[0].0, replies[0].1);
      var o := HandleReply(id, st, replies[0].0, replies[0].1).value;
      if o.job.Some? {
        assert NeverBarePush(replies) ==> NeverBarePush(replies[1..]);
        JobsAreBounded(id, o.state, replies[1..]);
      }
    }
  }

  /**
   * The feedback kept stays bounded in entries and size, ends with the plans just rejected, and is the newest part
   * of what was.
   */
  lemma HistoryIsCapped(history: seq<string>, display: string)
    requires |history| <= MAX_FEEDBACK_HISTORY
    requires forall i :: 0 <= i < |history| ==> |history[i]| <= MAX_FEEDBACK_ENTRY + 12
    ensures var next := CapHistory(history, display);
            && 1 <= |next| <= MAX_FEEDBACK_HISTORY
            && (forall i :: 0 <= i < |next| ==> |next[i]| <= MAX_FEEDBACK_ENTRY + 12)
            && (|display| <= MAX_FEEDBACK_ENTRY ==> next[|next| - 1] == display)
            && (|display| > MAX_FEEDBACK_ENTRY ==> next[|next| - 1] == display[..MAX_FEEDBACK_ENTRY] + "\n[truncated]")
            && next[..|next| - 1] == history[|history| - (|next| - 1)..]
  {
    assert |"\n[truncated]"| == 12;
  }

  // ---------------------------------------------------------------------------------------------
  // The bound without bare push errors is reached.

  function OnePlan(name: string): seq<CommitPlan> {
    [CommitPlan(CommitMessage("fix", None, name, None, false), [name])]
  }

  const WORST_ENV: Env := Env(
    (plans: seq<CommitPlan>) => if plans == [] then "none" else plans[0].commit.description,
    (plan: CommitPlan) => if plan.commit.description == "bad" then ["rule"] else [],
    (plans: seq<CommitPlan>) => "",
    "staged",
    true)

  const WORST_REPLIES: seq<Reply> := [
    LlmFailed("validation rejected"),
    Planned(OnePlan("a"), Unpublished(PlanError(false, []))),
    LlmFailed("validation rejected"),
    Planned(OnePlan("bad"), Unpublished(GitExec)),
    LlmFailed("validation rejected"),
    Planned(OnePlan("b"), Unpublished(HashMismatch)),
    LlmFailed("validation rejected"),
    Planned(OnePlan("c"), Unpublished(Partial([])))]

  function WithEnv(replies: seq<Reply>): seq<(Reply, Env)> {
    seq(|replies|, i requires 0 <= i < |replies| => (replies[i], WORST_ENV))
  }

  /** What a repository looks like between two replies of the worst run. */
  predicate Standing(st: RepoState, attempts: Attempts, fallback: bool, last: Option<string>) {
    && st.attempts == attempts && st.fallbackAttempted == fallback && st.lastPlanHash == last
    && st.diffHash == Some("staged") && st.committed == []
  }

  /** One more job when the next reply queues one. */
  lemma JobsStep(st: RepoState, k: nat) returns (next: RepoState)
    requires k < |WORST_REPLIES|
    requires HandleReply("r", st, WORST_REPLIES[k], WORST_ENV).Ok?
    requires HandleReply("r", st, WORST_REPLIES[k], WORST_ENV).value.job.Some?
    ensures next == HandleReply("r", st, WORST_REPLIES[k], WORST_ENV).value.state
    ensures Jobs("r", st, WithEnv(WORST_REPLIES)[k..]) == 1 + Jobs("r", next, WithEnv(WORST_REPLIES)[k + 1..])
  {
    var all := WithEnv(WORST_REPLIES);
    assert all[k..][0] == (WORST_REPLIES[k], WORST_ENV);
    assert all[k..][1..] == all[k + 1..];
    next := HandleReply("r", st, WORST_REPLIES[k], WORST_ENV).value.state;
  }

  lemma LlmStep(st: RepoState, k: nat, a: Attempts, fallback: bool, last: Option<string>) returns (next: RepoState)
    requires k < |WORST_REPLIES| && WORST_REPLIES[k] == LlmFailed("validation rejected")
    requires Standing(st, a, fallback, last) && a.validation < 2 && last != Some("none")
    ensures Standing(next, a.(validation := a.validation + 1), fallback, Some("none"))
    ensures Jobs("r", st, WithEnv(WORST_REPLIES)[k..]) == 1 + Jobs("r", next, WithEnv(WORST_REPLIES)[k + 1..])
  {
    assert "validation rejected" <= "validation rejected"[0..];
    next := JobsStep(st, k);
  }

  lemma PlanStep(st: RepoState, k: nat, name: string, e: PublishError, kind: Kind, a: Attempts, fallback: bool)
    returns (next: RepoState)
    requires k < |WORST_REPLIES| && WORST_REPLIES[k] == Planned(OnePlan(name), Unpublished(e)) && name != "bad"
    requires (e, kind) in [(PlanError(false, []), Structural), (HashMismatch, Race), (Partial([]), Git)]
    requires Standing(st, a, fallback, Some("none")) && Count(a, kind) == 0 && name != "none"
    ensures Standing(next, Set(a, kind, 1), fallback, Some(name))
    ensures Jobs("r", st, WithEnv(WORST_REPLIES)[k..]) == 1 + Jobs("r", next, WithEnv(WORST_REPLIES)[k + 1..])
  {
    hide Jobs, WithEnv, CapHistory, Contains;
    next := JobsStep(st, k);
  }

  lemma FallbackStep(st: RepoState, k: nat, a: Attempts) returns (next: RepoState)
    requires k < |WORST_REPLIES| && WORST_REPLIES[k] == Planned(OnePlan("bad"), Unpublished(GitExec))
    requires Standing(st, a, false, Some("none")) && a.validation == 2
    ensures Standing(next, a.(validation := 0), true, Some("bad"))
    ensures Jobs("r", st, WithEnv(WORST_REPLIES)[k..]) == 1 + Jobs("r", next, WithEnv(WORST_REPLIES)[k + 1..])
  {
    assert ValidationErrors(OnePlan("bad"), WORST_ENV)[0] == "rule";
    next := JobsStep(st, k);
  }

  lemma FirstFourJobs(st: RepoState) returns (next: RepoState)
    requires Standing(st, Attempts(0, 0, 0, 0, 0), false, None)
    ensures Standing(next, Attempts(0, 1, 0, 0, 0), true, Some("bad"))
    ensures Jobs("r", st, WithEnv(WORST_REPLIES)[0..]) == 4 + Jobs("r", next, WithEnv(WORST_REPLIES)[4..])
  {
    hide Jobs;
    assert |"none"| == 4 && |"a"| == 1 && |"bad"| == 3;
    var s1 := LlmStep(st, 0, Attempts(0, 0, 0, 0, 0), false, None);
    var s2 := PlanStep(s1, 1, "a", PlanError(false, []), Structural, Attempts(1, 0, 0, 0, 0), false);
    var s3 := LlmStep(s2, 2, Attempts(1, 1, 0, 0, 0), false, Some("a"));
    next := FallbackStep(s3, 3, Attempts(2, 1, 0, 0, 0));
  }

  lemma NothingAfterTheEighth(st: RepoState)
    ensures Jobs("r", st, WithEnv(WORST_REPLIES)[8..]) == 0
  {
    assert WithEnv(WORST_REPLIES)[8..] == [];
  }

  lemma LastFourJobs(st: RepoState)
    requires Standing(st, Attempts(0, 1, 0, 0, 0), true, Some("bad"))
    ensures Jobs("r", st, WithEnv(WORST_REPLIES)[4..]) == 4
  {
    hide Jobs;
    assert |"none"| == 4 && |"b"| == 1 && |"bad"| == 3 && |"c"| == 1;
    var s5 := LlmStep(st, 4, Attempts(0, 1, 0, 0, 0), true, Some("bad"));
    var s6 := PlanStep(s5, 5, "b", HashMismatch, Race, Attempts(1, 1, 0, 0, 0), true);
    var s7 := LlmStep(s6, 6, Attempts(1, 1, 1, 0, 0), true, Some("b"));
    var s8 := PlanStep(s7, 7, "c", Partial([]), Git, Attempts(2, 1, 1, 0, 0), true);
    NothingAfterTheEighth(s8);
  }

  /** Eight retry jobs for one repository, without a bare push error: the bound is reached. */
  lemma EightJobsHappen(st: RepoState)
    requires Standing(st, Attempts(0, 0, 0, 0, 0), false, None)
    ensures NeverBarePush(WithEnv(WORST_REPLIES)) && Jobs("r", st, WithEnv(WORST_REPLIES)) == 8
  {
    var mid := FirstFourJobs(st);
    LastFourJobs(mid);
    assert WithEnv(WORST_REPLIES)[0..] == WithEnv(WORST_REPLIES);
  }
}
