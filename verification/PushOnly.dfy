/**
 * Resuming one durably checkpointed push-only snapshot: any number of runs, each of which may die
 * between any two remote calls, racing other writers of the same ref
 * (src/modules/git/push-only.ts, src/modules/git/push-only-checkpoint.ts).
 */
module PushOnly {
  import opened Base
  import opened Publication

  datatype Snapshot = Snapshot(head: Sha, baseline: Sha, outgoing: seq<Sha>)

  /** What the local repository and settings answer during one run, and when the run dies. */
  datatype RunEnv = RunEnv(
    checkpointed: bool,              // the checkpoint job itself succeeded
    autoPush: bool,
    ancestor: (Sha, Sha) -> bool,
    outgoingNow: seq<Sha>,           // rev-list of baseline..head as it is now
    testsAndSecretsPass: bool,
    endpointUnchanged: bool,
    worktreeUnchanged: bool,
    life: nat)                       // remote calls made before the process dies

  datatype End = Returned(shas: seq<Sha>) | Threw(transient: bool) | Died

  /** Everything checked before the remote is looked at. */
  predicate LocallyValid(env: RunEnv, snap: Snapshot) {
    && env.ancestor(snap.baseline, snap.head) && env.outgoingNow == snap.outgoing
    && env.testsAndSecretsPass && env.endpointUnchanged && env.worktreeUnchanged
  }

  /** One run's conversation: look, push only on having seen the baseline, look again. */
  predicate RunShape(acts: seq<Act>, snap: Snapshot) {
    && |acts| <= 3 && OnlyMoves(acts, Some(snap.baseline), snap.head)
    && (|acts| >= 1 ==> !acts[0].Pushed?)
    && (|acts| >= 2 ==> acts[0] == Saw(Some(snap.baseline)) && snap.baseline != snap.head && acts[1].Pushed?)
    && (|acts| >= 3 ==> !acts[2].Pushed?)
  }

  /** What one run says and does, whatever happens to it. */
  predicate RunReport(acts: seq<Act>, end: End, snap: Snapshot, env: RunEnv) {
    && RunShape(acts, snap)
    && (acts != [] <==> env.autoPush && LocallyValid(env, snap) && env.life > 0)
    && (|acts| >= 2 <==>
          acts != [] && acts[0] == Saw(Some(snap.baseline)) && snap.baseline != snap.head && env.life > 1)
    && (end.Died? <==> env.autoPush && LocallyValid(env, snap) && |acts| == env.life)
    && (end.Returned? <==>
          !end.Died? && (!env.autoPush || (acts != [] && acts[|acts| - 1] == Saw(Some(snap.head)))))
    && (end.Returned? ==> end.shas == if env.autoPush then snap.outgoing else [])
    && (acts != [] && acts[0] == Saw(Some(snap.head)) ==> |acts| == 1 && !end.Threw?)
  }

  /** The run is let through: everything local is in order, and it lives to its end. */
  predicate LetThrough(env: RunEnv, snap: Snapshot) {
    env.checkpointed && env.autoPush && LocallyValid(env, snap) && env.life > 3
  }

  /** The next three calls are calm, and the ref is where the snapshot found it or wants it. */
  predicate ClearWay(m: Remote, snap: Snapshot)
    reads m
  {
    && m.Alive() && Calm(m, m.calls) && Calm(m, m.calls + 1) && Calm(m, m.calls + 2)
    && m.Ref() in {Some(snap.baseline), Some(snap.head)}
  }

  /** What such a run does: it pushes once, unless the head is there already, and returns the whole list. */
  predicate Delivers(before: Option<Sha>, after: Option<Sha>, acts: seq<Act>, end: End, snap: Snapshot) {
    && end == Returned(snap.outgoing) && after == Some(snap.head)
    && acts == if before == Some(snap.head) then [Saw(Some(snap.head))]
               else [Saw(Some(snap.baseline)), Pushed(snap.head, Some(Some(snap.baseline))), Saw(Some(snap.head))]
  }

  /** `validateAndPushTrackedSnapshot`. */
  method ValidateAndPush(m: Remote, snap: Snapshot, env: RunEnv) returns (end: End, ghost acts: seq<Act>)
    requires m.Alive()
    modifies m
    ensures m.Alive() && m.log == old(m.log) + acts && m.calls >= old(m.calls)
    ensures RunReport(acts, end, snap, env)
    ensures old(ClearWay(m, snap)) && LetThrough(env, snap) ==> Delivers(old(m.Ref()), m.Ref(), acts, end, snap)
    // A push that is answered in peace is looked at again.
    ensures |acts| >= 2 && env.life > 2 && Calm(m, old(m.calls) + 1) ==> |acts| == 3
    ensures QuietValues(m, old(m.calls)) ==> QuietRun(old(m.values), m.values, acts, snap)
  {
    acts := [];
    if !env.autoPush {
      return Returned([]), acts;
    }
    if !LocallyValid(env, snap) {
      return Threw(false), acts;
    }
    if env.life == 0 {
      return Died, acts;
    }
    var before := m.Read();
    acts := [if before.Ok? then Saw(before.value) else ReadFailed];
    if env.life == 1 {
      return Died, acts;
    }
    if before.Err? {
      return Threw(before.error.transient), acts;
    }
    if before.value == Some(snap.head) {
      return Returned(snap.outgoing), acts;
    }
    if before.value != Some(snap.baseline) {
      return Threw(before.value.None?), acts;
    }
    var pushed := m.PushExact(snap.head, Some(snap.baseline));
    ghost var act := m.log[|m.log| - 1];
    assert m.log == old(m.log) + acts + [act];
    acts := [Saw(Some(snap.baseline)), act];
    assert MoveCount(acts[..1]) == 0 && acts[..1] == [acts[0]];
    assert MoveCount(acts) == if act.replaced.Some? then 1 else 0;
    assert RunShape(acts, snap);
    if env.life == 2 {
      return Died, acts;
    }
    if pushed.Err? {
      return Threw(pushed.error.transient), acts;
    }
    var after := m.Read();
    acts := acts + [if after.Ok? then Saw(after.value) else ReadFailed];
    if env.life == 3 {
      return Died, acts;
    }
    if after.Err? {
      return Threw(after.error.transient), acts;
    }
    if after.value != Some(snap.head) {
      return Threw(after.value.None?), acts;
    }
    end := Returned(snap.outgoing);
  }

  /** No other writer from call `from` on. */
  ghost predicate QuietValues(m: Remote, from: nat) {
    forall n :: n >= from ==> m.rivals(n) == []
  }

  /** And every call is answered. */
  ghost predicate OpenRoad(m: Remote, from: nat) {
    QuietValues(m, from) && forall n :: n >= from ==> m.fate(n).Answered?
  }

  /** Alone at the ref, a run leaves it or moves it once, from the baseline to the head. */
  predicate QuietRun(before: seq<Option<Sha>>, after: seq<Option<Sha>>, acts: seq<Act>, snap: Snapshot) {
    || (after == before && MoveCount(acts) == 0)
    || (before != [] && before[|before| - 1] == Some(snap.baseline) && snap.baseline != snap.head
        && after == before + [Some(snap.head)] && MoveCount(acts) == 1)
  }

  datatype Status = SUCCESS | FAILED

  /** What a checkpointed run reports, by how it ended; `end` is None when the run was not attempted. */
  predicate CheckpointReport(status: Option<Status>, pushed: seq<Sha>, end: Option<End>, acts: seq<Act>, snap: Snapshot,
                             env: RunEnv) {
    if !env.checkpointed || !env.autoPush then status == Some(FAILED) && pushed == [] && end == None && acts == []
    else
      && end.Some? && RunReport(acts, end.value, snap, env)
      && match end.value
         case Died => status == None && pushed == []
         case Threw(_) => status == Some(FAILED) && pushed == []
         case Returned(shas) => status == Some(SUCCESS) && pushed == shas
  }

  /** `handlePushOnlyCheckpointResult`; the status is None when the process died. */
  method HandleCheckpoint(m: Remote, snap: Snapshot, env: RunEnv)
    returns (status: Option<Status>, pushed: seq<Sha>, end: Option<End>, ghost acts: seq<Act>)
    requires m.Alive()
    modifies m
    ensures m.Alive() && m.log == old(m.log) + acts && m.calls >= old(m.calls)
    ensures CheckpointReport(status, pushed, end, acts, snap, env)
    ensures old(ClearWay(m, snap)) && LetThrough(env, snap) ==>
              && status == Some(SUCCESS) && pushed == snap.outgoing && end.Some?
              && Delivers(old(m.Ref()), m.Ref(), acts, end.value, snap)
    ensures QuietValues(m, old(m.calls)) ==> QuietRun(old(m.values), m.values, acts, snap)
  {
    pushed, end, acts := [], None, [];
    if !env.checkpointed || !env.autoPush {
      return Some(FAILED), pushed, end, acts;
    }
    var run;
    run, acts := ValidateAndPush(m, snap, env);
    end := Some(run);
    match run
    case Died => status := None;
    case Threw(_) => status := Some(FAILED);
    case Returned(shas) =>
      if shas != snap.outgoing {
        return Some(FAILED), pushed, end, acts;
      }
      status, pushed := Some(SUCCESS), shas;
  }

  /** One run of a sequence: what it reported and how it talked to the remote. */
  datatype Report = Report(status: Option<Status>, pushed: seq<Sha>, end: Option<End>, acts: seq<Act>)

  /** Everything the runs did at the remote, in order. */
  function Talk(reports: seq<Report>): seq<Act> {
    if reports == [] then [] else Talk(reports[..|reports| - 1]) + reports[|reports| - 1].acts
  }

  predicate EachReports(reports: seq<Report>, snap: Snapshot, runs: seq<RunEnv>)
    requires |reports| <= |runs|
  {
    forall k :: 0 <= k < |reports| ==>
      CheckpointReport(reports[k].status, reports[k].pushed, reports[k].end, reports[k].acts, snap, runs[k])
  }

  /**
   * Any sequence of runs of one snapshot, each of which may die anywhere. Every run for itself keeps its report:
   * it pushes only after its own checks, ancestry among them, and its own sight of the baseline; its SUCCESS
   * comes with its own sight of the head and the full outgoing list. Over all of them the tool only ever moves
   * the ref from the baseline to the validated head; and if nobody else writes, it moves the ref at most once.
   * While nobody else writes and calls are answered, every run that is let through succeeds, and after the first
   * one the head is there.
   */
  method ResumeUntilTheEnd(m: Remote, snap: Snapshot, runs: seq<RunEnv>)
    returns (ghost reports: seq<Report>, outcomes: seq<Option<Status>>)
    requires m.Alive()
    modifies m
    ensures m.Alive() && |reports| == |outcomes| == |runs| && m.log == old(m.log) + Talk(reports)
    ensures forall k :: 0 <= k < |runs| ==> outcomes[k] == reports[k].status
    ensures EachReports(reports, snap, runs)
    ensures OnlyMoves(Talk(reports), Some(snap.baseline), snap.head)
    ensures QuietValues(m, old(m.calls)) ==>
              && MoveCount(Talk(reports)) <= 1
              && (MoveCount(Talk(reports)) == 1 ==> old(m.Ref()) == Some(snap.baseline) && m.Ref() == Some(snap.head))
              && (MoveCount(Talk(reports)) == 0 ==> m.Ref() == old(m.Ref()))
    ensures OpenRoad(m, old(m.calls)) && old(m.Ref()) in {Some(snap.baseline), Some(snap.head)} ==>
              forall k :: 0 <= k < |runs| && LetThrough(runs[k], snap) ==>
                outcomes[k] == Some(SUCCESS) && m.Ref() == Some(snap.head)
  {
    reports, outcomes := [], [];
    hide OnlyMoves, MoveCount, CheckpointReport, EachReports;
    NothingSaid(snap, runs);
    for i := 0 to |runs|
      invariant m.Alive() && m.calls >= old(m.calls) && |reports| == |outcomes| == i
      invariant m.log == old(m.log) + Talk(reports)
      invariant forall k :: 0 <= k < i ==> outcomes[k] == reports[k].status
      invariant EachReports(reports, snap, runs)
      invariant OnlyMoves(Talk(reports), Some(snap.baseline), snap.head)
      invariant QuietValues(m, old(m.calls)) ==>
                  && MoveCount(Talk(reports)) <= 1
                  && (MoveCount(Talk(reports)) == 1 ==>
                        old(m.Ref()) == Some(snap.baseline) && m.Ref() == Some(snap.head))
                  && (MoveCount(Talk(reports)) == 0 ==> m.Ref() == old(m.Ref()))
      invariant OpenRoad(m, old(m.calls)) && old(m.Ref()) in {Some(snap.baseline), Some(snap.head)} ==>
                  && m.Ref() in {Some(snap.baseline), Some(snap.head)}
                  && forall k :: 0 <= k < i && LetThrough(runs[k], snap) ==>
                       outcomes[k] == Some(SUCCESS) && m.Ref() == Some(snap.head)
    {
      ghost var acts;
      var status, pushed, end;
      status, pushed, end, acts := HandleCheckpoint(m, snap, runs[i]);
      ghost var report := Report(status, pushed, end, acts);
      OneMoreReport(reports, report, snap, runs);
      reports, outcomes := reports + [report], outcomes + [status];
    }
  }

  lemma {:induction false} NothingSaid(snap: Snapshot, runs: seq<RunEnv>)
    ensures Talk([]) == [] && MoveCount([]) == 0 && OnlyMoves([], Some(snap.baseline), snap.head)
            && EachReports([], snap, runs)
  {
  }

  /** What one more run adds to the talk. */
  lemma {:induction false} OneMoreReport(reports: seq<Report>, r: Report, snap: Snapshot, runs: seq<RunEnv>)
    requires |reports| < |runs| && EachReports(reports, snap, runs)
             && OnlyMoves(Talk(reports), Some(snap.baseline), snap.head)
    requires CheckpointReport(r.status, r.pushed, r.end, r.acts, snap, runs[|reports|])
    ensures Talk(reports + [r]) == Talk(reports) + r.acts
    ensures MoveCount(Talk(reports + [r])) == MoveCount(Talk(reports)) + MoveCount(r.acts)
    ensures OnlyMoves(Talk(reports + [r]), Some(snap.baseline), snap.head) && EachReports(reports + [r], snap, runs)
  {
    hide MoveCount, OnlyMoves, CheckpointReport, Talk;
    TalkAppends(reports, r);
    MoveCountAdds(Talk(reports), r.acts);
    ReportMoves(r, snap, runs[|reports|]);
    MovesJoin(Talk(reports), r.acts, Some(snap.baseline), snap.head);
  }

  lemma {:induction false} TalkAppends(reports: seq<Report>, r: Report)
    ensures Talk(reports + [r]) == Talk(reports) + r.acts
  {
    assert (reports + [r])[..|reports|] == reports;
  }

  lemma ReportMoves(r: Report, snap: Snapshot, env: RunEnv)
    requires CheckpointReport(r.status, r.pushed, r.end, r.acts, snap, env)
    ensures OnlyMoves(r.acts, Some(snap.baseline), snap.head)
  {
    hide AllowedAct, LocallyValid;
  }

  lemma MovesJoin(a: seq<Act>, b: seq<Act>, baseline: Option<Sha>, source: Sha)
    requires OnlyMoves(a, baseline, source) && OnlyMoves(b, baseline, source)
    ensures OnlyMoves(a + b, baseline, source)
  {
    hide AllowedAct;
  }

  lemma {:induction false} MoveCountAdds(a: seq<Act>, b: seq<Act>)
    ensures MoveCount(a + b) == MoveCount(a) + MoveCount(b)
    decreases |b|
  {
    if b == [] {
      assert a + b == a;
    } else {
      assert (a + b)[..|a + b| - 1] == a + b[..|b| - 1];
      MoveCountAdds(a, b[..|b| - 1]);
    }
  }
}
