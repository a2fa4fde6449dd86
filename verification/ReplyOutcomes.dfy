/**
 * What one result makes of its repository, said from the result and the state alone: which results end it well,
 * which end it badly, which earn it another job, and what that job costs (src/phases/step2-commit-push.ts and the
 * handlers it calls).
 */
module ReplyOutcomes {
  import opened Base
  import opened Plans
  import opened RetryPolicy

  predicate PlansHold(plans: seq<CommitPlan>, env: Env) {
    forall p :: p in plans ==> env.brokenRules(p) == []
  }

  /** The result is a list of plans that the validator rejects. */
  predicate Rejected(reply: Reply, env: Env) {
    reply.Planned? && !PlansHold(reply.plans, env)
  }

  /** The result was published or tried to be. */
  predicate Tried(reply: Reply, env: Env) {
    reply.Planned? && PlansHold(reply.plans, env)
  }

  /** Exactly these results end a repository well. */
  predicate EndsWell(st: RepoState, reply: Reply, env: Env) {
    match reply
    case Checkpoint(pushed) => pushed
    case LlmFailed(error) =>
      && !Contains(error, "validation rejected")
      && (Contains(error, "empty") || Contains(error, "non-empty JSON array"))
      && st.committed != []
    case Planned(plans, publication) =>
      && PlansHold(plans, env)
      && match publication
         case Published(_, _) => true
         case Unpublished(PlanError(emptyPlans, landed)) => emptyPlans && (st.committed != [] || landed != [])
         case _ => false
  }

  /** What went wrong, if it is something that another job may put right. */
  function Repairable(st: RepoState, reply: Reply, env: Env): Option<Kind> {
    match reply
    case Checkpoint(_) => None
    case LlmFailed(error) => if Contains(error, "validation rejected") then Some(Validation) else None
    case Planned(plans, publication) =>
      if !PlansHold(plans, env) then Some(Validation)
      else if EndsWell(st, reply, env) || publication.Published? then None
      else match publication.error
           case PlanError(_, _) => Some(Structural)
           case HashMismatch => Some(Race)
           case Partial(_) => Some(Git)
           case Push(transient) => if transient then Some(Network) else None
           case GitExec => None
           case PostCommitPush(_, _) => None
           case OtherError => None
  }

  /** An attempt of this kind is left: two for validation, one for everything else. */
  predicate Affordable(a: Attempts, k: Kind) {
    match k
    case Validation => a.validation < 2
    case Structural => a.structural < 1
    case Race => a.race < 1
    case Git => a.git < 1
    case Network => a.network < 1
  }

  function PlansIn(reply: Reply): seq<CommitPlan> {
    if reply.Planned? then reply.plans else []
  }

  /** The result is the same as the last one that was sent back. */
  predicate Repeats(st: RepoState, reply: Reply, env: Env) {
    st.lastPlanHash == Some(env.hash(PlansIn(reply)))
  }

  /** Rejected plans after the fallback model had its attempt end the repository. */
  predicate OutOfModels(st: RepoState, reply: Reply, env: Env) {
    Rejected(reply, env) && st.fallbackAttempted
  }

  /** Another job for the same model. */
  predicate Retries(st: RepoState, reply: Reply, env: Env) {
    var kind := Repairable(st, reply, env);
    kind.Some? && Affordable(st.attempts, kind.value) && !Repeats(st, reply, env) && !OutOfModels(st, reply, env)
  }

  /** The one job for the fallback model: validation attempts are used up, or the plans repeat themselves. */
  predicate FallsBack(st: RepoState, reply: Reply, env: Env) {
    && Rejected(reply, env) && !st.fallbackAttempted && env.fallbackConfigured
    && (!Affordable(st.attempts, Validation) || Repeats(st, reply, env))
  }

  /** A loop is reported for plans that an affordable retry would have sent back unchanged. */
  predicate Loops(st: RepoState, reply: Reply, env: Env) {
    var kind := Repairable(st, reply, env);
    && reply.Planned? && kind.Some? && Affordable(st.attempts, kind.value) && Repeats(st, reply, env)
    && !OutOfModels(st, reply, env)
  }

  /** What the result says has landed. */
  function LandedIn(reply: Reply, env: Env): seq<CommittedSha> {
    if !Tried(reply, env) then []
    else match reply.publication
         case Published(landed, _) => landed
         case Unpublished(PlanError(_, landed)) => landed
         case Unpublished(Partial(landed)) => landed
         case Unpublished(PostCommitPush(landed, _)) => landed
         case Unpublished(_) => []
  }

  function PushRetries(reply: Reply, env: Env): nat {
    if !Tried(reply, env) then 0
    else match reply.publication
         case Published(_, retries) => retries
         case Unpublished(PostCommitPush(_, retries)) => retries
         case Unpublished(_) => 0
  }

  function OneMore(a: Attempts, k: Kind): Attempts {
    match k
    case Validation => a.(validation := a.validation + 1)
    case Structural => a.(structural := a.structural + 1)
    case Race => a.(race := a.race + 1)
    case Git => a.(git := a.git + 1)
    case Network => a.(network := a.network + 1)
  }

  /** A diff hash is asked for before publishing and before queueing. */
  predicate AsksForDiffHash(st: RepoState, reply: Reply, env: Env) {
    || Tried(reply, env)
    || (&& Repairable(st, reply, env) == Some(Validation) && !OutOfModels(st, reply, env)
        && (Affordable(st.attempts, Validation) || (Rejected(reply, env) && env.fallbackConfigured)))
  }

  lemma {:induction false} NoErrorsIff(plans: seq<CommitPlan>, env: Env)
    ensures ValidationErrors(plans, env) == [] <==> PlansHold(plans, env)
  {
    if plans != [] {
      NoErrorsIff(plans[1..], env);
      assert forall p :: p in plans <==> p == plans[0] || p in plans[1..];
    }
  }

  /** Where a reply leaves its repository. */
  predicate Lands(id: string, st: RepoState, reply: Reply, env: Env, o: Outcome) {
    && (o.job.Some? <==> Retries(st, reply, env) || FallsBack(st, reply, env))
    && (EndsWell(st, reply, env) ==> o.job.None?)
    && o.state.status == (if o.job.Some? then st.status else if EndsWell(st, reply, env) then SUCCESS else FAILED)
    && o.loops == (if Loops(st, reply, env) then 1 else 0)
  }

  /** What the job is, and what it costs. */
  predicate Costs(id: string, st: RepoState, reply: Reply, env: Env, o: Outcome) {
    && (o.job.Some? ==>
          && o.job.value == Job(id, Rejected(reply, env), FallsBack(st, reply, env))
          && o.state.lastPlanHash == Some(env.hash(PlansIn(reply)))
          && o.state.diffHash == (if Rejected(reply, env) then st.diffHash else Some(env.restagedHash)))
    && (Retries(st, reply, env) ==>
          && o.state.attempts == OneMore(st.attempts, Repairable(st, reply, env).value)
          && o.state.fallbackAttempted == st.fallbackAttempted)
    && (FallsBack(st, reply, env) ==> o.state.attempts == st.attempts.(validation := 0) && o.state.fallbackAttempted)
  }

  /** What the repository remembers of the result. */
  predicate Remembers(st: RepoState, reply: Reply, env: Env, o: Outcome) {
    && o.state.committed == Merge(st.committed, LandedIn(reply, env))
    && (EndsWell(st, reply, env) || (o.job.None? && PushRetries(reply, env) > 0) ==>
          o.state.attempts == st.attempts.(network := st.attempts.network + PushRetries(reply, env)))
    && o.state.pushOnly == st.pushOnly
  }

  lemma RejectedOutcome(id: string, st: RepoState, reply: Reply, env: Env)
    requires HandleReply(id, st, reply, env).Ok? && Rejected(reply, env)
    ensures var o := HandleReply(id, st, reply, env).value;
            Lands(id, st, reply, env, o) && Costs(id, st, reply, env, o) && Remembers(st, reply, env, o)
  {
    NoErrorsIff(reply.plans, env);
    hide CapHistory, PlansHold, ValidationErrors;
  }

  lemma FailureOutcome(id: string, st: RepoState, reply: Reply, env: Env)
    requires HandleReply(id, st, reply, env).Ok? && (reply.LlmFailed? || reply.Checkpoint?)
    ensures var o := HandleReply(id, st, reply, env).value;
            Lands(id, st, reply, env, o) && Costs(id, st, reply, env, o) && Remembers(st, reply, env, o)
  {
    hide CapHistory, Contains;
  }

  lemma MergedIsEmptyIff(existing: seq<CommittedSha>, incoming: seq<CommittedSha>)
    ensures Merge(existing, incoming) == [] <==> existing == [] && incoming == []
    ensures incoming == [] ==> Merge(existing, incoming) == existing
  {
    MergeGrows(existing, incoming);
    if existing == [] && incoming != [] {
      assert Shas(incoming)[0] == incoming[0].sha;
    }
  }

  /** A retry is queued, or it would repeat what was sent back last. */
  lemma QueueFacts(id: string, st: RepoState, kind: Kind, plans: seq<CommitPlan>, env: Env)
    requires QueueRetry(id, st, kind, plans, false, env).Ok? && kind != Validation
    ensures var q := QueueRetry(id, st, kind, plans, false, env).value;
            if st.lastPlanHash == Some(env.hash(plans)) then q == LoopDetected(st)
            else
              && q.Queued? && q.job == Job(id, false, false)
              && q.state == st.(lastPlanHash := Some(env.hash(plans)), diffHash := Some(env.restagedHash),
                                feedback := q.state.feedback)
  {
  }

  lemma PublishedOutcome(id: string, st: RepoState, reply: Reply, env: Env)
    requires HandleReply(id, st, reply, env).Ok? && Tried(reply, env)
    requires reply.publication.Published?
    ensures var o := HandleReply(id, st, reply, env).value;
            Lands(id, st, reply, env, o) && Costs(id, st, reply, env, o) && Remembers(st, reply, env, o)
  {
    NoErrorsIff(reply.plans, env);
    MergedIsEmptyIff(st.committed, LandedIn(reply, env));
    hide CapHistory, PlansHold, ValidationErrors, Merge;
  }

  lemma PlanErrorOutcome(id: string, st: RepoState, reply: Reply, env: Env)
    requires HandleReply(id, st, reply, env).Ok? && Tried(reply, env)
    requires reply.publication.Unpublished? && reply.publication.error.PlanError?
    ensures var o := HandleReply(id, st, reply, env).value;
            Lands(id, st, reply, env, o) && Costs(id, st, reply, env, o) && Remembers(st, reply, env, o)
  {
    NoErrorsIff(reply.plans, env);
    MergedIsEmptyIff(st.committed, LandedIn(reply, env));
    var mid := AfterPublishError(st, reply.publication.error);
    var kind := ClassifyError(reply.publication.error, mid.committed != []);
    if kind.MayRetry? && Count(mid.attempts, kind.kind) < Budget(kind.kind) {
      QueueFacts(id, Bump(mid, kind.kind), kind.kind, reply.plans, env);
    }
    hide PlansHold, ValidationErrors, Merge, QueueRetry;
  }

  /** Errors that no job can put right. */
  predicate Fatal(e: PublishError) {
    e.GitExec? || e.PostCommitPush? || e.OtherError?
  }

  lemma FatalOutcome(id: string, st: RepoState, reply: Reply, env: Env)
    requires HandleReply(id, st, reply, env).Ok? && Tried(reply, env)
    requires reply.publication.Unpublished? && Fatal(reply.publication.error)
    ensures var o := HandleReply(id, st, reply, env).value;
            Lands(id, st, reply, env, o) && Costs(id, st, reply, env, o) && Remembers(st, reply, env, o)
  {
    NoErrorsIff(reply.plans, env);
    MergedIsEmptyIff(st.committed, LandedIn(reply, env));
    hide CapHistory, PlansHold, ValidationErrors, Merge;
  }

  lemma TransientOutcome(id: string, st: RepoState, reply: Reply, env: Env)
    requires HandleReply(id, st, reply, env).Ok? && Tried(reply, env)
    requires reply.publication.Unpublished? && !Fatal(reply.publication.error) && !reply.publication.error.PlanError?
    ensures var o := HandleReply(id, st, reply, env).value;
            Lands(id, st, reply, env, o) && Costs(id, st, reply, env, o) && Remembers(st, reply, env, o)
  {
    NoErrorsIff(reply.plans, env);
    MergedIsEmptyIff(st.committed, LandedIn(reply, env));
    var mid := AfterPublishError(st, reply.publication.error);
    var kind := ClassifyError(reply.publication.error, mid.committed != []);
    if kind.MayRetry? && Count(mid.attempts, kind.kind) < Budget(kind.kind) {
      QueueFacts(id, Bump(mid, kind.kind), kind.kind, reply.plans, env);
    }
    hide PlansHold, ValidationErrors, Merge, QueueRetry;
  }

  lemma TriedOutcome(id: string, st: RepoState, reply: Reply, env: Env)
    requires HandleReply(id, st, reply, env).Ok? && Tried(reply, env)
    ensures var o := HandleReply(id, st, reply, env).value;
            Lands(id, st, reply, env, o) && Costs(id, st, reply, env, o) && Remembers(st, reply, env, o)
  {
    hide HandleReply, Lands, Costs, Remembers;
    if reply.publication.Published? {
      PublishedOutcome(id, st, reply, env);
    } else if reply.publication.error.PlanError? {
      PlanErrorOutcome(id, st, reply, env);
    } else if Fatal(reply.publication.error) {
      FatalOutcome(id, st, reply, env);
    } else {
      TransientOutcome(id, st, reply, env);
    }
  }

  /** The whole answer to one reply. */
  lemma ReplyOutcome(id: string, st: RepoState, reply: Reply, env: Env)
    requires HandleReply(id, st, reply, env).Ok?
    ensures var o := HandleReply(id, st, reply, env).value;
            Lands(id, st, reply, env, o) && Costs(id, st, reply, env, o) && Remembers(st, reply, env, o)
  {
    hide HandleReply, Lands, Costs, Remembers;
    if Rejected(reply, env) {
      RejectedOutcome(id, st, reply, env);
    } else if Tried(reply, env) {
      TriedOutcome(id, st, reply, env);
    } else {
      FailureOutcome(id, st, reply, env);
    }
  }

  /** The one thing that throws: a diff hash that is asked for and missing. */
  lemma ThrowsIff(id: string, st: RepoState, reply: Reply, env: Env)
    ensures HandleReply(id, st, reply, env).Err? <==> AsksForDiffHash(st, reply, env) && !HasDiffHash(st)
  {
    if reply.Planned? {
      NoErrorsIff(reply.plans, env);
    }
    hide CapHistory, PlansHold, ValidationErrors, Merge, Contains;
  }

  /** New commits keep their order behind the known ones. */
  lemma {:induction false} MergeAppends(existing: seq<CommittedSha>, incoming: seq<CommittedSha>)
    requires Distinct(Shas(existing + incoming))
    ensures Merge(existing, incoming) == existing + incoming
    decreases |incoming|
  {
    if incoming == [] {
      assert existing + incoming == existing;
    } else {
      var next := existing + [incoming[0]];
      assert next + incoming[1..] == existing + incoming;
      assert Shas(existing + incoming)[|existing|] == incoming[0].sha;
      assert forall i :: 0 <= i < |existing| ==> Shas(existing + incoming)[i] == Shas(existing)[i];
      MergeAppends(next, incoming[1..]);
    }
  }
}
