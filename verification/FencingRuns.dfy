/** Whole runs of the system of `Fencing`: what holds in every reachable state and across every step. */
module FencingRuns {
  import opened Base
  import opened ReconcilerRow
  import opened Transitions
  import opened ProcessTable
  import opened Fencing
  import opened FencingSteps

  /** The steps can be taken one after the other. */
  predicate Possible(s: Sys, run: seq<Step>)
    decreases |run|
  {
    run != [] ==> Enabled(s, run[0]) && Possible(Apply(s, run[0]), run[1..])
  }

  function After(s: Sys, run: seq<Step>): Sys
    requires Possible(s, run)
    decreases |run|
  {
    if run == [] then s else After(Apply(s, run[0]), run[1..])
  }

  /** The transition a step performs on the row, if it performs one. */
  function CallOf(s: Sys, step: Step): Option<Call>
    requires Enabled(s, step)
  {
    match step
    case TryAdmit(t, o) => Some(CallAdmit(AtPc(s, t).seen, AtPc(s, t).alive, o))
    case RuntimeFailed(t, now) => Some(CallFinish(t, s.launchers[t].pid, AtPc(s, t).generation, false, now))
    case FinishPass(t, now) => Some(CallFinish(t, s.launchers[t].pid, AtPc(s, t).generation, AtPc(s, t).success, now))
    case Record(t) => Some(CallRegister(t, s.launchers[t].pid, AtPc(s, t).generation, DescriptorOf(AtPc(s, t).b)))
    case AuthorizeStart(t) => Some(CallAuthorize(t, s.launchers[t].pid, AtPc(s, t).b.token))
    case ClearPrior(t) => Some(CallClear(t, s.launchers[t].pid, AtPc(s, t).prior.token))
    case ClearPass(t) => Some(CallClear(t, s.launchers[t].pid, AtPc(s, t).b.token))
    case ClearStopped(t) =>
      if AtPc(s, t).recorded then Some(CallClear(t, s.launchers[t].pid, AtPc(s, t).b.token)) else None
    case Leave(t) => Some(CallRelease(t, s.launchers[t].pid))
    case Beat(t, now) => Some(CallHeartbeat(t, s.launchers[t].pid, now))
    case _ => None
  }

  /** The system touches the row through the seven transitions only, with acceptable arguments and a sane clock. */
  lemma RowMovesByCalls(s: Sys, step: Step)
    requires Enabled(s, step)
    ensures match CallOf(s, step)
            case None => Apply(s, step).row == s.row
            case Some(c) =>
              AcceptableCall(c) && TimeInRange(s.row, c) && Apply(s, step).row == Transitions.After(s.row, c)
  {
    hide RegisterExecution, Authorize, Clear, Release, OwnerSeemsAlive, GroupExists, CanSpawn, ForeignGroup;
  }

  /** The operating system, admission and recovery. */
  predicate EarlyStep(step: Step) {
    step.Outsider? || step.Fork? || step.Supervise? || step.Die? || step.Crash? || step.Invoke?
    || step.Look? || step.Probe? || step.TryAdmit? || step.ReadPrior? || step.PriorGone? || step.ClearPrior?
    || step.RuntimeReady?
  }

  lemma EarlyStepInv(s: Sys, step: Step)
    requires Inv(s) && Enabled(s, step) && EarlyStep(step)
    ensures Inv(Apply(s, step))
  {
    hide Inv, Enabled, Apply;
    match step
    case Outsider(_, _, _) => OutsiderInv(s, step);
    case Fork(_, _, _) => ForkInv(s, step);
    case Supervise(_, _, _) => SuperviseInv(s, step);
    case Die(_) => DieInv(s, step);
    case Crash(_) => CrashInv(s, step);
    case Invoke(_, _, _, _) => InvokeInv(s, step);
    case Look(_) => LookInv(s, step);
    case Probe(_, _) => ProbeInv(s, step);
    case TryAdmit(_, _) => TryAdmitInv(s, step);
    case ReadPrior(_) => ReadPriorInv(s, step);
    case PriorGone(_) => PriorGoneInv(s, step);
    case ClearPrior(_) => ClearPriorInv(s, step);
    case RuntimeReady(_) => RuntimeReadyInv(s, step);
  }

  lemma LateStepInv(s: Sys, step: Step)
    requires Inv(s) && Enabled(s, step) && !EarlyStep(step)
    ensures Inv(Apply(s, step))
  {
    hide Inv, Enabled, Apply;
    match step
    case RuntimeFailed(_, _) => RuntimeFailedInv(s, step);
    case SpawnController(_, _, _, _) => SpawnControllerInv(s, step);
    case Record(_) => RecordInv(s, step);
    case AuthorizeStart(_) => AuthorizeInv(s, step);
    case SendStart(_) => SendStartInv(s, step);
    case PassGone(_, _) => PassGoneInv(s, step);
    case ClearPass(_) => ClearPassInv(s, step);
    case FinishPass(_, _) => FinishPassInv(s, step);
    case GiveUp(_) => GiveUpInv(s, step);
    case StopGone(_) => StopGoneInv(s, step);
    case ClearStopped(_) => ClearStoppedInv(s, step);
    case Abandon(_) => AbandonInv(s, step);
    case Leave(_) => LeaveInv(s, step);
    case Beat(_, _) => BeatInv(s, step);
  }

  lemma StepInv(s: Sys, step: Step)
    requires Inv(s) && Enabled(s, step)
    ensures Inv(Apply(s, step))
  {
    hide *;
    if EarlyStep(step) {
      EarlyStepInv(s, step);
    } else {
      LateStepInv(s, step);
    }
  }

  lemma {:induction false} RunInv(s: Sys, run: seq<Step>)
    requires Inv(s) && Possible(s, run)
    ensures Inv(After(s, run))
    decreases |run|
  {
    if run != [] {
      StepInv(s, run[0]);
      RunInv(Apply(s, run[0]), run[1..]);
    }
  }

  /**
   * SINGLE_LIVE_GIT_EXECUTION over every run: at most one process group is Git-capable, it is the group
   * the row records, and the row says START_AUTHORIZED for it.
   */
  lemma AtMostOneLiveExecution(run: seq<Step>, p: int, q: int)
    requires Possible(INIT, run)
    requires var t := After(INIT, run).table; p in t && t[p].role.WorkerRole? && q in t && t[q].role.WorkerRole?
    ensures var s := After(INIT, run);
            && s.table[p].role.token == s.table[q].role.token && s.table[p].group == s.table[q].group
            && s.row.execution.Some? && s.row.execution.value.state == START_AUTHORIZED
            && s.row.execution.value.token == s.table[p].role.token && s.row.execution.value.group == s.table[p].group
  {
    InitInv();
    RunInv(INIT, run);
    SingleLive(After(INIT, run), p, q);
  }

  /** No durable record, no Git: whenever the row is free of an execution, no Git-capable process exists. */
  lemma NoRecordNoGit(run: seq<Step>, p: int)
    requires Possible(INIT, run)
    requires After(INIT, run).row.execution.None?
    ensures p in After(INIT, run).table ==> !After(INIT, run).table[p].role.WorkerRole?
  {
    var s := After(INIT, run);
    if p in s.table && s.table[p].role.WorkerRole? {
      AtMostOneLiveExecution(run, p, p);
    }
  }

  /** A record disappears, or is replaced, only when the execution it names has no process left. */
  lemma RecordClearedOnlyWhenGone(s: Sys, step: Step)
    requires Inv(s) && Enabled(s, step) && s.row.execution.Some?
    ensures var token, after := s.row.execution.value.token, Apply(s, step);
            after.row.execution.None? || after.row.execution.value.token != token ==>
              && (step.ClearPrior? || step.ClearPass? || step.ClearStopped?)
              && BoundaryGone(s.table, token) && BoundaryGone(after.table, token)
  {
    hide Inv, BoundaryGone, Apply, Enabled;
    RowMovesByCalls(s, step);
    var after := Apply(s, step).row.execution;
    if after.None? || after.value.token != s.row.execution.value.token {
      OnlyClearDropsTheRecord(s.row, CallOf(s, step).value);
      ClearsFindNothingLeft(s, step);
    }
  }

  lemma OnlyClearDropsTheRecord(row: State, c: Call)
    requires row.execution.Some?
    requires var after := Transitions.After(row, c).execution;
             after.None? || after.value.token != row.execution.value.token
    ensures c.CallClear?
  {
  }

  lemma ClearsFindNothingLeft(s: Sys, step: Step)
    requires Inv(s) && Enabled(s, step) && CallOf(s, step).Some? && CallOf(s, step).value.CallClear?
    ensures step.ClearPrior? || step.ClearPass? || step.ClearStopped?
    ensures s.row.execution.Some? ==> BoundaryGone(s.table, s.row.execution.value.token)
    ensures Apply(s, step).table == s.table
  {
    hide SharedInv;
    assert LauncherInv(s, step.token);
  }

  /**
   * Ownership is taken only from nobody or from a process that is dead at that moment, although the
   * liveness verdict was formed before the transaction; and no live launcher loses it that way.
   */
  lemma OwnershipIsTakenFromTheDead(run: seq<Step>, step: Step)
    requires Possible(INIT, run) && step.TryAdmit? && Enabled(After(INIT, run), step)
    requires AtPc(Apply(After(INIT, run), step), step.token).Recovering?
    ensures var s := After(INIT, run);
            && OwnerDead(s, s.row)
            && Holds(Apply(s, step).row, step.token, s.launchers[step.token].pid)
            && forall k :: k in s.launchers ==> !OwnerPc(s.launchers[k].pc)
  {
    var s := After(INIT, run);
    InitInv();
    RunInv(INIT, run);
    AdmissionIsSafe(s, step);
  }

  /** A launcher that acts as owner is the owner the row names, for as long as it lives and has not left. */
  lemma OwnersAreCurrent(run: seq<Step>, t: string)
    requires Possible(INIT, run) && t in After(INIT, run).launchers
    ensures var s := After(INIT, run);
            OwnerPc(s.launchers[t].pc) ==> OwnerIs(s, t, s.launchers[t])
  {
    InitInv();
    RunInv(INIT, run);
    assert LauncherInv(After(INIT, run), t);
  }

  /**
   * No lost wakeup: every registered generation the row counts as completed was answered by a successful
   * pass that began after its registration had committed.
   */
  lemma NoLostWakeup(run: seq<Step>, g: int)
    requires Possible(INIT, run) && 1 <= g <= After(INIT, run).row.completed
    ensures Answered(After(INIT, run).log, g)
  {
    InitInv();
    RunInv(INIT, run);
  }

  /** Committed registrations are told 1, 2, 3, ... and `requested` is their number. */
  lemma AdmissionsCountUp(run: seq<Step>)
    requires Possible(INIT, run)
    ensures var s := After(INIT, run);
            && |Admissions(s.log)| == s.row.requested
            && forall i :: 0 <= i < |Admissions(s.log)| ==> Admissions(s.log)[i] == i + 1
  {
    InitInv();
    RunInv(INIT, run);
  }

  /** No clear of a live owner is refused: the record goes, and the owner goes on to what comes next. */
  lemma PriorIsCleared(s: Sys, step: Step)
    requires Inv(s) && Enabled(s, step) && step.ClearPrior?
    ensures var u, t := Apply(s, step), step.token;
            && s.row.execution.Some? && u.row == s.row.(execution := None)
            && u.launchers[t].pc == Preparing(AtPc(s, t).generation)
  {
    assert LauncherInv(s, step.token);
    hide SharedInv;
  }

  lemma PassIsCleared(s: Sys, step: Step)
    requires Inv(s) && Enabled(s, step) && step.ClearPass?
    ensures var u, t, pc := Apply(s, step), step.token, AtPc(s, step.token);
            && s.row.execution.Some? && u.row == s.row.(execution := None)
            && u.launchers[t].pc == Cleared(pc.generation, pc.b.token, pc.success)
  {
    assert LauncherInv(s, step.token);
    hide SharedInv;
  }

  /** A controller stopped before its registration left no record. */
  lemma StoppedIsCleared(s: Sys, step: Step)
    requires Inv(s) && Enabled(s, step) && step.ClearStopped?
    ensures var u, t, pc := Apply(s, step), step.token, AtPc(s, step.token);
            && s.row.execution.Some? == pc.recorded && u.row == s.row.(execution := None)
            && u.launchers[t].pc == Leaving
  {
    assert LauncherInv(s, step.token);
    hide SharedInv;
  }

  /** No authorisation of a live owner is refused. */
  lemma StartIsAuthorized(s: Sys, step: Step)
    requires Inv(s) && Enabled(s, step) && step.AuthorizeStart?
    ensures var u, t, pc := Apply(s, step), step.token, AtPc(s, step.token);
            && s.row.execution.Some? && u.launchers[t].pc == Authorized(pc.generation, pc.b)
            && u.row == s.row.(execution := Some(s.row.execution.value.(state := START_AUTHORIZED)))
  {
    assert LauncherInv(s, step.token);
    hide SharedInv;
  }

  /** Every beat of a live owner is written. */
  lemma BeatIsWritten(s: Sys, step: Step)
    requires Inv(s) && Enabled(s, step) && step.Beat?
    ensures var u := Apply(s, step);
            && s.row.owner.Some? && u.launchers == s.launchers
            && u.row == s.row.(owner := Some(s.row.owner.value.(heartbeat := step.now)))
  {
    assert LauncherInv(s, step.token);
    hide SharedInv;
  }

  /** An admission is given up only after the ownership changed eight times under it. */
  lemma RefusedAfterEight(s: Sys, step: Step)
    requires Inv(s) && Enabled(s, step) && step.TryAdmit?
    ensures var before, after := AtPc(s, step.token), AtPc(Apply(s, step), step.token);
            && (after.Refused? <==> before.attempt == 7 && !SameOwnership(s.row, before.seen))
            && (after.Admitting? <==> before.attempt < 7 && !SameOwnership(s.row, before.seen))
            && (after.Admitting? ==> after.attempt == before.attempt + 1)
  {
    assert LauncherInv(s, step.token);
    hide SharedInv;
  }

  /**
   * Leaving gives the row up, unless an execution is recorded: then the record and its owner stay for whoever
   * recovers them.
   */
  lemma LeavingFreesTheRow(s: Sys, step: Step)
    requires Inv(s) && Enabled(s, step) && step.Leave?
    ensures var u, t := Apply(s, step), step.token;
            && u.launchers == s.launchers[t := s.launchers[t].(pc := Done)]
            && Holds(s.row, t, s.launchers[t].pid)
            && (s.row.execution.None? ==> u.row == s.row.(owner := None))
            && (s.row.execution.Some? ==> u.row == s.row)
  {
    assert LauncherInv(s, step.token);
  }

  /** Every reachable row passes the fail-closed reader. */
  lemma {:induction false} ReachableRowsAreReadable(s: Sys, run: seq<Step>)
    requires Inv(s) && Valid(s.row) && Possible(s, run)
    ensures Valid(After(s, run).row)
    decreases |run|
  {
    if run != [] {
      StepInv(s, run[0]);
      StepKeepsReadable(s, run[0]);
      ReachableRowsAreReadable(Apply(s, run[0]), run[1..]);
    }
  }

  lemma StepKeepsReadable(s: Sys, step: Step)
    requires Inv(s) && Valid(s.row) && Enabled(s, step)
    ensures Valid(Apply(s, step).row)
  {
    RowMovesByCalls(s, step);
    var c := CallOf(s, step);
    if c.Some? {
      if step.TryAdmit? {
        assert LauncherInv(s, step.token);
      }
      CallKeepsValidIff(s.row, c.value);
    }
  }
}
