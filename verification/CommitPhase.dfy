/**
 * One round of the commit-and-push phase over all results of a batch
 * (src/phases/step2-commit-push.ts: runCommitAndPushPhase and commit-push-finalizer.ts).
 */
module CommitPhase {
  import opened Base
  import opened Plans
  import opened RetryPolicy
  import Replies = ReplyOutcomes

  /** One consumed result, with what its environment will answer while it is handled. */
  datatype Arrival = Arrival(id: string, reply: Reply, env: Env)

  datatype Verdict = Delegate(jobs: seq<Job>) | Done | FailRun

  function Ids(jobs: seq<Job>): seq<string> {
    seq(|jobs|, i requires 0 <= i < |jobs| => jobs[i].id)
  }

  /** Known at the start, finished for good or given exactly one job, and nothing it had landed is forgotten. */
  predicate Settled(before: RepoState, after: RepoState, id: string, jobs: seq<Job>) {
    && (id in Ids(jobs) || after.status in {SUCCESS, FAILED})
    && (id in Ids(jobs) ==> Below(after, before) && Worth(after) < Worth(before))
    && after.pushOnly == before.pushOnly
    && before.committed <= after.committed
    && (Distinct(Shas(before.committed)) ==> Distinct(Shas(after.committed)))
  }

  /** The result left its repository where the handler puts it, with the job the handler gave it, if any. */
  predicate Handled(before: RepoState, after: RepoState, a: Arrival, jobs: seq<Job>) {
    var r := HandleReply(a.id, before, a.reply, a.env);
    && r.Ok? && after == r.value.state
    && (r.value.job.Some? ==> r.value.job.value in jobs)
    && (r.value.job.None? ==> a.id !in Ids(jobs))
  }

  predicate Finished(repos: map<string, RepoState>, status: Status) {
    exists id :: id in repos && repos[id].status == status
  }

  /** A push-only repository only ever answers its checkpoint; any other never does. */
  predicate WellRouted(repos: map<string, RepoState>, r: Arrival) {
    r.id in repos ==> (repos[r.id].pushOnly <==> r.reply.Checkpoint?)
  }

  /** No repository has two results. */
  predicate OnceEach(results: seq<Arrival>) {
    forall i, j :: 0 <= i < j < |results| ==> results[i].id != results[j].id
  }

  predicate AllRouted(repos: map<string, RepoState>, results: seq<Arrival>) {
    forall i :: 0 <= i < |results| ==> WellRouted(repos, results[i])
  }

  /** The loops detected while these results are handled, each against its repository as it was. */
  function Loops(repos: map<string, RepoState>, results: seq<Arrival>): nat {
    if results == [] then 0
    else
      var last := results[|results| - 1];
      Loops(repos, results[..|results| - 1])
      + (if last.id !in repos then 0
         else match HandleReply(last.id, repos[last.id], last.reply, last.env)
              case Err(_) => 0
              case Ok(o) => o.loops)
  }

  lemma LoopsAppend(repos: map<string, RepoState>, results: seq<Arrival>, i: nat)
    requires i < |results|
    ensures Loops(repos, results[..i + 1]) == Loops(repos, results[..i]) + Loops(repos, [results[i]])
  {
    assert results[..i + 1][..i] == results[..i];
    assert [results[i]][..0] == [];
  }

  lemma ReplyKeepsOperation(id: string, st: RepoState, reply: Reply, env: Env)
    requires HandleReply(id, st, reply, env).Ok?
    ensures HandleReply(id, st, reply, env).value.state.pushOnly == st.pushOnly
  {
    hide ValidationErrors, Contains, Merge, CapHistory;
  }

  /** A handled reply settles its repository, whether or not it adds a job. */
  lemma ReplySettles(id: string, st: RepoState, reply: Reply, env: Env, queue: seq<Job>)
    requires HandleReply(id, st, reply, env).Ok? && id !in Ids(queue)
    ensures var o := HandleReply(id, st, reply, env).value;
            && (o.job.Some? ==> o.job.value.id == id && Ids(queue + [o.job.value]) == Ids(queue) + [id]
                                && Settled(st, o.state, id, queue + [o.job.value])
                                && Handled(st, o.state, Arrival(id, reply, env), queue + [o.job.value]))
            && (o.job.None? ==> Settled(st, o.state, id, queue) && Handled(st, o.state, Arrival(id, reply, env), queue))
  {
    ReplyFinishesOrDecreases(id, st, reply, env);
    ReplyKeepsOperation(id, st, reply, env);
    hide HandleReply, Below, Worth, BarePush;
    var o := HandleReply(id, st, reply, env).value;
    if o.job.Some? {
      assert Ids(queue + [o.job.value]) == Ids(queue) + [id];
    }
  }

  lemma NoLoops(repos: map<string, RepoState>)
    ensures forall results: seq<Arrival> :: Loops(repos, results[..0]) == 0
  {
    assert forall results: seq<Arrival> :: results[..0] == [];
  }

  lemma OneLoop(repos: map<string, RepoState>, a: Arrival)
    ensures a.id !in repos ==> Loops(repos, [a]) == 0
    ensures a.id in repos && HandleReply(a.id, repos[a.id], a.reply, a.env).Ok? ==>
              Loops(repos, [a]) == HandleReply(a.id, repos[a.id], a.reply, a.env).value.loops
  {
    assert [a][..0] == [];
  }

  lemma NoIds()
    ensures Ids([]) == []
  {
  }

  /** A job for somebody else changes nothing for a repository that is settled. */
  lemma SettledStays(before: RepoState, after: RepoState, a: Arrival, queue: seq<Job>, job: Job)
    requires Settled(before, after, a.id, queue) && Handled(before, after, a, queue) && job.id != a.id
    ensures Settled(before, after, a.id, queue + [job]) && Handled(before, after, a, queue + [job])
  {
    hide HandleReply, Below, Worth;
    assert Ids(queue + [job]) == Ids(queue) + [job.id];
  }

  /**
   * One round over these results: every known repository with a result is settled, the others are not touched,
   * and every job belongs to a repository with a result.
   */
  predicate RoundDone(before: map<string, RepoState>, after: map<string, RepoState>, results: seq<Arrival>,
                      queue: seq<Job>) {
    && after.Keys == before.Keys && Distinct(Ids(queue))
    && (forall x :: x in Ids(queue) ==> x in before && exists i :: 0 <= i < |results| && results[i].id == x)
    && (forall i :: 0 <= i < |results| && results[i].id in before ==>
          && Settled(before[results[i].id], after[results[i].id], results[i].id, queue)
          && Handled(before[results[i].id], after[results[i].id], results[i], queue))
    && (forall id :: id in before && (forall i :: 0 <= i < |results| ==> results[i].id != id) ==>
        after[id] == before[id])
  }

  /** Some result earns its repository another job. */
  predicate SomeQueue(repos: map<string, RepoState>, results: seq<Arrival>) {
    exists i :: 0 <= i < |results| && results[i].id in repos && Queues(repos[results[i].id], results[i])
  }

  predicate Queues(st: RepoState, a: Arrival) {
    Replies.Retries(st, a.reply, a.env) || Replies.FallsBack(st, a.reply, a.env)
  }

  /** Every result ends its repository well, and no repository without a result had failed before. */
  predicate AllEndWell(repos: map<string, RepoState>, results: seq<Arrival>) {
    && (forall i :: 0 <= i < |results| && results[i].id in repos ==>
          Replies.EndsWell(repos[results[i].id], results[i].reply, results[i].env))
    && (forall id :: id in repos && (forall i :: 0 <= i < |results| ==> results[i].id != id) ==>
          repos[id].status != FAILED)
  }

  lemma HandledByReply(before: RepoState, after: RepoState, a: Arrival, queue: seq<Job>)
    requires Handled(before, after, a, queue)
    ensures a.id in Ids(queue) ==> Queues(before, a)
    ensures Queues(before, a) ==> queue != []
    ensures Replies.EndsWell(before, a.reply, a.env) ==> after.status == SUCCESS && !Queues(before, a)
    ensures after.status != FAILED && !Queues(before, a) ==> Replies.EndsWell(before, a.reply, a.env)
  {
    Replies.ReplyOutcome(a.id, before, a.reply, a.env);
    hide HandleReply, Ids, Replies.EndsWell, Replies.Retries, Replies.FallsBack, Replies.Costs, Replies.Remembers,
      Replies.Loops;
  }

  /** The verdict is decided by what came back. */
  lemma {:induction false} VerdictByReplies(repos: map<string, RepoState>, next: map<string, RepoState>,
                                            results: seq<Arrival>, queue: seq<Job>)
    requires RoundDone(repos, next, results, queue)
    ensures queue != [] <==> SomeQueue(repos, results)
    ensures queue == [] && !Finished(next, FAILED) <==> AllEndWell(repos, results)
  {
    hide Settled, Handled, Distinct, Queues, Replies.EndsWell;
    forall i | 0 <= i < |results| && results[i].id in repos
      ensures results[i].id in Ids(queue) ==> Queues(repos[results[i].id], results[i])
      ensures Queues(repos[results[i].id], results[i]) ==> queue != []
      ensures Replies.EndsWell(repos[results[i].id], results[i].reply, results[i].env) ==>
                next[results[i].id].status == SUCCESS && !Queues(repos[results[i].id], results[i])
      ensures next[results[i].id].status != FAILED && !Queues(repos[results[i].id], results[i]) ==>
                Replies.EndsWell(repos[results[i].id], results[i].reply, results[i].env)
    {
      HandledByReply(repos[results[i].id], next[results[i].id], results[i], queue);
    }
    if queue != [] {
      assert Ids(queue)[0] == queue[0].id && queue[0].id in Ids(queue);
    }
  }

  /** Jobs are delegated; without any the run ends, and fails if a repository failed. */
  function VerdictOn(repos: map<string, RepoState>, queue: seq<Job>): Verdict {
    if queue != [] then Delegate(queue) else if Finished(repos, FAILED) then FailRun else Done
  }

  class Phase {
    var retryJobs: seq<Job>   // the module-level queue, shared by all repositories of a round

    constructor ()
    {
      retryJobs := [];
    }

    /**
     * Leftover jobs are dropped first. Then every known repository with a result ends the round either
     * finished without a job or with exactly one job under its own id; the others are not touched. The
     * round delegates exactly the queue, and ends the run only when the queue is empty.
     */
    method Run(repos: map<string, RepoState>, results: seq<Arrival>)
      returns (r: Result<Verdict, Thrown>, next: map<string, RepoState>, loopCount: nat)
      requires OnceEach(results) && AllRouted(repos, results)
      modifies this
      ensures next.Keys == repos.Keys
      ensures r.Ok? ==> RoundDone(repos, next, results, retryJobs)
      ensures r.Ok? ==> loopCount == Loops(repos, results)
      ensures r.Ok? ==> r.value == VerdictOn(next, retryJobs)
      // The same by what came back.
      ensures r.Ok? ==> (r.value.Delegate? <==> SomeQueue(repos, results))
      ensures r.Ok? ==> (r.value.Done? <==> AllEndWell(repos, results))
    {
      hide HandleReply, Settled, Handled, Ids, Loops;
      next, loopCount := repos, 0;
      retryJobs := [];
      NoIds();
      NoLoops(repos);
      for i := 0 to |results|
        invariant next.Keys == repos.Keys
        invariant Distinct(Ids(retryJobs)) && loopCount == Loops(repos, results[..i])
        invariant forall x :: x in Ids(retryJobs) ==> x in repos && exists k :: 0 <= k < i && results[k].id == x
        invariant forall k :: 0 <= k < i && results[k].id in repos ==>
                    && Settled(repos[results[k].id], next[results[k].id], results[k].id, retryJobs)
                    && Handled(repos[results[k].id], next[results[k].id], results[k], retryJobs)
        invariant forall id :: id in repos && (forall k :: 0 <= k < i ==> results[k].id != id) ==> next[id] == repos[id]
      {
        var id := results[i].id;
        LoopsAppend(repos, results, i);
        OneLoop(repos, results[i]);
        if id !in next {
          continue;
        }
        assert next[id] == repos[id];
        var handled := HandleReply(id, next[id], results[i].reply, results[i].env);
        if handled.Err? {
          return Err(handled.error), next, loopCount;
        }
        ReplySettles(id, next[id], results[i].reply, results[i].env, retryJobs);
        var o := handled.value;
        if o.job.Some? {
          forall k | 0 <= k < i && results[k].id in repos
            ensures Settled(repos[results[k].id], next[results[k].id], results[k].id, retryJobs + [o.job.value])
            ensures Handled(repos[results[k].id], next[results[k].id], results[k], retryJobs + [o.job.value])
          {
            SettledStays(repos[results[k].id], next[results[k].id], results[k], retryJobs, o.job.value);
          }
          retryJobs := retryJobs + [o.job.value];
        }
        loopCount := loopCount + o.loops;
        next := next[id := o.state];
      }
      assert results[..|results|] == results;
      VerdictByReplies(repos, next, results, retryJobs);
      r := Ok(VerdictOn(next, retryJobs));
    }
  }

  /** What comes back for the jobs of round n: at most one result per job, and for nothing else. */
  type Answers = (nat, string) -> Option<(Reply, Env)>

  /** Answers go by the kind of the repository: see `WellRouted`. */
  ghost predicate Routed(repos: map<string, RepoState>, answer: Answers) {
    forall n, id :: answer(n, id).Some? && id in repos ==> (repos[id].pushOnly <==> answer(n, id).value.0.Checkpoint?)
  }

  function Arrivals(jobs: seq<Job>, n: nat, answer: Answers): seq<Arrival> {
    if jobs == [] then []
    else
      var last := jobs[|jobs| - 1].id;
      Arrivals(jobs[..|jobs| - 1], n, answer)
      + (match answer(n, last)
         case None => []
         case Some(a) => [Arrival(last, a.0, a.1)])
  }

  lemma LastIdIsNew(jobs: seq<Job>)
    requires jobs != [] && Distinct(Ids(jobs))
    ensures var front, last := jobs[..|jobs| - 1], jobs[|jobs| - 1].id;
            Distinct(Ids(front)) && last !in Ids(front) && forall x :: x in Ids(jobs) <==> x in Ids(front) || x == last
  {
    var front, last, ids := jobs[..|jobs| - 1], jobs[|jobs| - 1].id, Ids(jobs);
    assert ids == Ids(front) + [last];
    assert ids[|ids| - 1] == last;
    forall i | 0 <= i < |front|
      ensures Ids(front)[i] == ids[i] && ids[i] != last
    {
    }
    assert Ids(front) == ids[..|front|];
  }

  lemma {:induction false} ArrivalsComeFromJobs(jobs: seq<Job>, n: nat, answer: Answers)
    requires Distinct(Ids(jobs))
    ensures var results := Arrivals(jobs, n, answer);
            && OnceEach(results)
            && forall i :: 0 <= i < |results| ==>
                 && results[i].id in Ids(jobs)
                 && answer(n, results[i].id) == Some((results[i].reply, results[i].env))
  {
    if jobs != [] {
      var front := jobs[..|jobs| - 1];
      LastIdIsNew(jobs);
      ArrivalsComeFromJobs(front, n, answer);
      var rest, last := Arrivals(front, n, answer), jobs[|jobs| - 1].id;
      hide Ids, Distinct;
      if answer(n, last).Some? {
        assert Arrivals(jobs, n, answer) == rest + [Arrival(last, answer(n, last).value.0, answer(n, last).value.1)];
        assert forall i :: 0 <= i < |rest| ==> rest[i].id != last;
      } else {
        assert Arrivals(jobs, n, answer) == rest;
      }
    }
  }

  lemma {:induction false} NoMoreThan(ids: seq<string>, all: set<string>)
    requires Distinct(ids) && forall x :: x in ids ==> x in all
    ensures |ids| <= |all|
  {
    if ids != [] {
      var front, last := ids[..|ids| - 1], ids[|ids| - 1];
      assert ids == front + [last] && last !in front;
      NoMoreThan(front, all - {last});
    }
  }

  /** Every repository that still has a job has paid for each round so far out of its worth. */
  predicate PaidFor(start: map<string, RepoState>, now: map<string, RepoState>, jobs: seq<Job>, rounds: nat) {
    && now.Keys == start.Keys && Distinct(Ids(jobs))
    && (forall id :: id in start ==> now[id].pushOnly == start[id].pushOnly)
    && forall id :: id in Ids(jobs) ==> id in start && Worth(now[id]) + rounds <= Worth(start[id])
  }

  predicate HavePaid(start: map<string, RepoState>, now: map<string, RepoState>, results: seq<Arrival>, rounds: nat)
    requires now.Keys == start.Keys
  {
    forall i :: 0 <= i < |results| && results[i].id in start ==>
      Worth(now[results[i].id]) + rounds <= Worth(start[results[i].id])
  }

  /** One round over results whose repositories have paid for the rounds before. */
  lemma RoundIsPaid(start: map<string, RepoState>, before: map<string, RepoState>, after: map<string, RepoState>,
                    results: seq<Arrival>, queue: seq<Job>, rounds: nat)
    requires before.Keys == start.Keys && RoundDone(before, after, results, queue)
    requires forall id :: id in start ==> before[id].pushOnly == start[id].pushOnly
    requires HavePaid(start, before, results, rounds)
    ensures PaidFor(start, after, queue, rounds + 1)
  {
    hide Ids, Worth, Below, Distinct;
    forall id | id in start
      ensures after[id].pushOnly == start[id].pushOnly
    {
      if i :| 0 <= i < |results| && results[i].id == id {
        assert Settled(before[results[i].id], after[results[i].id], results[i].id, queue);
      }
    }
  }

  lemma RoundsAndJobs(start: map<string, RepoState>, now: map<string, RepoState>, queue: seq<Job>, rounds: nat)
    requires PaidFor(start, now, queue, rounds) && queue != []
    ensures rounds <= 9 && |queue| <= |start|
  {
    assert Ids(queue)[0] == queue[0].id;
    var id := queue[0].id;
    JobsAreBounded(id, start[id], []);
    hide Worth, Distinct;
    NoMoreThan(Ids(queue), start.Keys);
  }

  lemma AnswersArePaid(start: map<string, RepoState>, now: map<string, RepoState>, queue: seq<Job>, rounds: nat,
                       answer: Answers)
    requires PaidFor(start, now, queue, rounds)
    requires Routed(start, answer)
    ensures now.Keys == start.Keys && forall id :: id in start ==> now[id].pushOnly == start[id].pushOnly
    ensures OnceEach(Arrivals(queue, rounds, answer)) && AllRouted(now, Arrivals(queue, rounds, answer))
    ensures HavePaid(start, now, Arrivals(queue, rounds, answer), rounds)
  {
    ArrivalsComeFromJobs(queue, rounds, answer);
    hide Arrivals, Ids, Worth, Distinct;
  }

  /** Nothing that had landed is forgotten, and no commit is listed twice. */
  predicate Kept(before: map<string, RepoState>, after: map<string, RepoState>) {
    && before.Keys == after.Keys
    && forall id :: id in before ==>
         && before[id].committed <= after[id].committed
         && (Distinct(Shas(before[id].committed)) ==> Distinct(Shas(after[id].committed)))
  }

  lemma RoundKeeps(start: map<string, RepoState>, before: map<string, RepoState>, after: map<string, RepoState>,
                   results: seq<Arrival>, queue: seq<Job>)
    requires Kept(start, before) && RoundDone(before, after, results, queue)
    ensures Kept(start, after)
  {
    hide Shas, Ids, Worth, Below, Distinct;
    forall id | id in start
      ensures start[id].committed <= after[id].committed
      ensures Distinct(Shas(start[id].committed)) ==> Distinct(Shas(after[id].committed))
    {
      if i :| 0 <= i < |results| && results[i].id == id {
        assert Settled(before[results[i].id], after[results[i].id], results[i].id, queue);
      }
    }
  }

  /** Every repository with a first result is finished or has a job, if no job was left unanswered. */
  predicate InHand(first: seq<Arrival>, now: map<string, RepoState>, queue: seq<Job>) {
    forall i :: 0 <= i < |first| && first[i].id in now ==>
      first[i].id in Ids(queue) || now[first[i].id].status in {SUCCESS, FAILED}
  }

  ghost predicate AllAnswered(repos: map<string, RepoState>, answer: Answers) {
    forall n, id :: id in repos ==> answer(n, id).Some?
  }

  lemma {:induction false} EveryJobArrives(jobs: seq<Job>, n: nat, answer: Answers)
    requires forall x :: x in Ids(jobs) ==> answer(n, x).Some?
    ensures |Arrivals(jobs, n, answer)| == |jobs|
    ensures forall i :: 0 <= i < |jobs| ==> Arrivals(jobs, n, answer)[i].id == jobs[i].id
  {
    if jobs != [] {
      var front := jobs[..|jobs| - 1];
      assert Ids(jobs) == Ids(front) + [jobs[|jobs| - 1].id];
      EveryJobArrives(front, n, answer);
    }
  }

  lemma RoundLeavesInHand(first: seq<Arrival>, before: map<string, RepoState>, after: map<string, RepoState>,
                          jobs: seq<Job>, n: nat, answer: Answers, queue: seq<Job>)
    requires InHand(first, before, jobs) && AllAnswered(before, answer)
    requires Distinct(Ids(jobs)) && forall x :: x in Ids(jobs) ==> x in before
    requires RoundDone(before, after, Arrivals(jobs, n, answer), queue)
    ensures InHand(first, after, queue)
  {
    EveryJobArrives(jobs, n, answer);
    ArrivalsComeFromJobs(jobs, n, answer);
    var results := Arrivals(jobs, n, answer);
    hide Arrivals, Shas, Worth, Below, Distinct, AllAnswered;
    forall i | 0 <= i < |first| && first[i].id in after
      ensures first[i].id in Ids(queue) || after[first[i].id].status in {SUCCESS, FAILED}
    {
      if first[i].id in Ids(jobs) {
        var k :| 0 <= k < |jobs| && Ids(jobs)[k] == first[i].id;
        assert results[k].id == first[i].id;
      }
    }
  }

  /** Where the phase stands after so many rounds. */
  ghost predicate UnderWay(repos: map<string, RepoState>, first: seq<Arrival>, answer: Answers,
                           now: map<string, RepoState>, queue: seq<Job>, rounds: nat) {
    && PaidFor(repos, now, queue, rounds) && Kept(repos, now)
    && (AllAnswered(repos, answer) ==> InHand(first, now, queue))
  }

  lemma FirstRound(repos: map<string, RepoState>, first: seq<Arrival>, answer: Answers, now: map<string, RepoState>,
                   queue: seq<Job>)
    requires RoundDone(repos, now, first, queue)
    ensures UnderWay(repos, first, answer, now, queue, 1)
  {
    assert Kept(repos, repos);
    RoundKeeps(repos, repos, now, first, queue);
    RoundIsPaid(repos, repos, now, first, queue, 0);
    hide Kept, Ids, Worth, Below, AllAnswered, PaidFor, Distinct, Shas;
  }

  lemma NextRound(repos: map<string, RepoState>, first: seq<Arrival>, answer: Answers, now: map<string, RepoState>,
                  jobs: seq<Job>, rounds: nat, next: map<string, RepoState>, queue: seq<Job>)
    requires UnderWay(repos, first, answer, now, jobs, rounds) && Routed(repos, answer)
    requires RoundDone(now, next, Arrivals(jobs, rounds, answer), queue)
    ensures UnderWay(repos, first, answer, next, queue, rounds + 1)
  {
    var results := Arrivals(jobs, rounds, answer);
    AnswersArePaid(repos, now, jobs, rounds, answer);
    assert Distinct(Ids(jobs)) && forall x :: x in Ids(jobs) ==> x in now;
    assert AllAnswered(repos, answer) ==> AllAnswered(now, answer);
    hide Kept, Ids, Worth, Below, AllAnswered, PaidFor, Distinct, Shas, RoundDone, HavePaid, InHand, Routed;
    RoundIsPaid(repos, now, next, results, queue, rounds);
    RoundKeeps(repos, now, next, results, queue);
    if AllAnswered(repos, answer) {
      RoundLeavesInHand(first, now, next, jobs, rounds, answer, queue);
    }
  }

  lemma VerdictMeans(repos: map<string, RepoState>, queue: seq<Job>)
    ensures VerdictOn(repos, queue).Delegate? <==> queue != []
    ensures queue == [] ==> VerdictOn(repos, queue) == if Finished(repos, FAILED) then FailRun else Done
  {
  }

  lemma RoundIsShort(repos: map<string, RepoState>, first: seq<Arrival>, answer: Answers, now: map<string, RepoState>,
                     jobs: seq<Job>, rounds: nat)
    requires UnderWay(repos, first, answer, now, jobs, rounds) && Routed(repos, answer) && jobs != []
    ensures rounds <= 9 && |jobs| <= |repos|
    ensures now.Keys == repos.Keys
    ensures OnceEach(Arrivals(jobs, rounds, answer)) && AllRouted(now, Arrivals(jobs, rounds, answer))
  {
    RoundsAndJobs(repos, now, jobs, rounds);
    AnswersArePaid(repos, now, jobs, rounds, answer);
  }

  lemma NothingInHand(repos: map<string, RepoState>, first: seq<Arrival>, answer: Answers, now: map<string, RepoState>,
                      rounds: nat)
    requires UnderWay(repos, first, answer, now, [], rounds)
    ensures Kept(repos, now)
    ensures AllAnswered(repos, answer) ==>
              forall i :: 0 <= i < |first| && first[i].id in repos ==> now[first[i].id].status in {SUCCESS, FAILED}
  {
    NoIds();
    hide AllAnswered, Shas, Distinct, PaidFor;
  }

  /**
   * The whole resumed phase. Each round answers jobs of the round before, in any way and possibly not at all;
   * at most nine rounds delegate, and k repositories get at most 9k jobs altogether. No commit that had landed is
   * forgotten on the way; and if no job is left unanswered, every repository that had a result to begin with ends
   * as a success or a failure.
   */
  method RunToTheEnd(phase: Phase, repos: map<string, RepoState>, first: seq<Arrival>, answer: Answers)
    returns (r: Result<Verdict, Thrown>, final: map<string, RepoState>, rounds: nat, jobs: nat)
    requires OnceEach(first) && AllRouted(repos, first) && Routed(repos, answer)
    modifies phase
    ensures r.Ok? ==> r.value == if Finished(final, FAILED) then FailRun else Done
    ensures rounds <= 9 && jobs <= rounds * |repos|
    ensures final.Keys == repos.Keys
    ensures r.Ok? ==> Kept(repos, final)
    ensures r.Ok? && AllAnswered(repos, answer) ==>
              forall i :: 0 <= i < |first| && first[i].id in repos ==> final[first[i].id].status in {SUCCESS, FAILED}
  {
    var loops;
    rounds, jobs := 0, 0;
    r, final, loops := phase.Run(repos, first);
    hide *;
    if r.Ok? {
      FirstRound(repos, first, answer, final, phase.retryJobs);
    }
    while r.Ok? && r.value.Delegate?
      invariant final.Keys == repos.Keys && rounds <= 9 && jobs <= rounds * |repos|
      invariant r.Ok? ==> UnderWay(repos, first, answer, final, phase.retryJobs, rounds + 1)
      invariant r.Ok? ==> r.value == VerdictOn(final, phase.retryJobs)
      decreases 9 - rounds
    {
      VerdictMeans(final, phase.retryJobs);
      rounds := rounds + 1;
      ghost var queued := phase.retryJobs;
      RoundIsShort(repos, first, answer, final, queued, rounds);
      assert jobs + |queued| <= rounds * |repos| by {
        assert rounds * |repos| == (rounds - 1) * |repos| + |repos|;
      }
      jobs := jobs + |phase.retryJobs|;
      var results := Arrivals(phase.retryJobs, rounds, answer);
      var next;
      r, next, loops := phase.Run(final, results);
      if r.Ok? {
        NextRound(repos, first, answer, final, queued, rounds, next, phase.retryJobs);
      }
      final := next;
    }
    if r.Ok? {
      VerdictMeans(final, phase.retryJobs);
      NothingInHand(repos, first, answer, final, rounds + 1);
    }
  }
}
