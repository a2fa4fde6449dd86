/**
 * When a request that was merged into a running owner is attended, and when it is left waiting for the next
 * invocation.
 */
module FencingCoalescing {
  import opened Base
  import opened ReconcilerRow
  import opened Transitions
  import opened ProcessTable
  import opened Fencing
  import opened FencingSteps
  import opened FencingProgress
  import Runs = FencingRuns

  /** Working: an owner's program point other than the cleanup after a cancellation or failure and the exit path. */
  predicate Working(pc: Pc) {
    OwnerPc(pc) && !pc.Stopping? && !pc.Stopped? && !pc.Leaving?
  }

  /** Some live launcher is working as the owner. */
  predicate Attended(s: Sys) {
    exists k :: k in s.launchers && Working(s.launchers[k].pc)
  }

  /** The launcher under this token is alive, working, and the owner the row names. */
  predicate Attends(s: Sys, t: string) {
    t in s.launchers && Working(s.launchers[t].pc) && s.row.owner.Some? && s.row.owner.value.token == t
  }

  /** This step merges a request into the owner the row names. */
  predicate Coalesces(s: Sys, step: Step)
    requires Enabled(s, step)
  {
    step.TryAdmit? && Admit(s.row, AtPc(s, step.token).seen, AtPc(s, step.token).alive, step.o).1.Coalesced?
  }

  /**
   * A merged request is attended by somebody if and only if the launcher whose token the row holds is alive and
   * working when the merge commits. That the owner seemed alive when probed decides nothing.
   */
  lemma CoalescedIsAttendedIff(s: Sys, step: Step)
    requires Inv(s) && Enabled(s, step) && Coalesces(s, step)
    ensures Apply(s, step).row.owner == s.row.owner
    ensures Attended(Apply(s, step)) <==> s.row.owner.Some? && Attends(s, s.row.owner.value.token)
  {
    hide SharedInv;
    var u := Apply(s, step);
    assert u.launchers == s.launchers[step.token := s.launchers[step.token].(pc := u.launchers[step.token].pc)];
    if k :| k in u.launchers && Working(u.launchers[k].pc) {
      assert LauncherInv(s, k);
    }
    if s.row.owner.Some? && Attends(s, s.row.owner.value.token) {
      var t := s.row.owner.value.token;
      assert t in u.launchers && u.launchers[t] == s.launchers[t];
    }
  }

  lemma OnlyOneWorks(s: Sys, t: string)
    requires Inv(s) && Attends(s, t)
    ensures OwnerIs(s, t, s.launchers[t])
    ensures forall k :: k in s.launchers && k != t ==> !OwnerPc(s.launchers[k].pc)
  {
    hide SharedInv;
    assert LauncherInv(s, t);
    forall k | k in s.launchers && k != t
      ensures !OwnerPc(s.launchers[k].pc)
    {
      assert LauncherInv(s, k);
    }
  }

  /** A step of this launcher's own program. */
  predicate Own(step: Step, t: string) {
    match step
    case Outsider(_, _, _) => false
    case Fork(_, _, _) => false
    case Supervise(_, _, _) => false
    case Die(_) => false
    case _ => step.token == t
  }

  /** Nobody else moves the owner, its row or what it has completed. */
  lemma SystemLeavesTheOwner(s: Sys, step: Step, t: string)
    requires Enabled(s, step) && Attends(s, t) && !Own(step, t)
    requires step.Outsider? || step.Fork? || step.Supervise? || step.Die? || step.Crash? || step.Invoke?
    ensures var u := Apply(s, step);
            && Attends(u, t) && u.row.completed == s.row.completed && u.row.requested >= s.row.requested
  {
    hide CanSpawn;
  }

  lemma NewcomersLeaveTheOwner(s: Sys, step: Step, t: string)
    requires Inv(s) && Enabled(s, step) && Attends(s, t) && !Own(step, t)
             && (step.Look? || step.Probe? || step.TryAdmit?)
    ensures var u := Apply(s, step);
            && Attends(u, t) && u.row.completed == s.row.completed && u.row.requested >= s.row.requested
  {
    if step.TryAdmit? {
      NoSuccession(s, step, t);
    }
    hide Inv, SameOwnership, OwnerSeemsAlive;
  }

  /** A step anybody may take, or one only an owner's program contains. */
  predicate Anybodys(step: Step) {
    || step.Outsider? || step.Fork? || step.Supervise? || step.Die? || step.Crash? || step.Invoke?
    || step.Look? || step.Probe? || step.TryAdmit?
  }

  lemma OwnerStepsNeedAnOwner(s: Sys, step: Step)
    requires Enabled(s, step) && !Anybodys(step)
    ensures step.token in s.launchers && OwnerPc(s.launchers[step.token].pc)
  {
    hide CanSpawn, ForeignGroup, GroupExists;
  }

  lemma OthersAreNoOwners(s: Sys, step: Step, t: string)
    requires Inv(s) && Enabled(s, step) && Attends(s, t) && !Own(step, t)
    ensures Anybodys(step)
  {
    OnlyOneWorks(s, t);
    hide Inv, Enabled, Attends, OwnerPc;
    if !Anybodys(step) {
      OwnerStepsNeedAnOwner(s, step);
    }
  }

  lemma OthersLeaveTheOwner(s: Sys, step: Step, t: string)
    requires Inv(s) && Enabled(s, step) && Attends(s, t) && !Own(step, t)
    ensures var u := Apply(s, step);
            && Attends(u, t) && u.row.completed == s.row.completed && u.row.requested >= s.row.requested
  {
    hide Inv, Enabled, Apply, Attends, Own;
    OthersAreNoOwners(s, step, t);
    if step.Look? || step.Probe? || step.TryAdmit? {
      NewcomersLeaveTheOwner(s, step, t);
    } else {
      SystemLeavesTheOwner(s, step, t);
    }
  }

  lemma NoSuccession(s: Sys, step: Step, t: string)
    requires Inv(s) && Enabled(s, step) && Attends(s, t) && step.TryAdmit?
    ensures !Admit(s.row, AtPc(s, step.token).seen, AtPc(s, step.token).alive, step.o).1.Granted?
  {
    if Admit(s.row, AtPc(s, step.token).seen, AtPc(s, step.token).alive, step.o).1.Granted? {
      hide Inv;
      AdmissionIsSafe(s, step);
      assert false;
    }
  }

  /** The coordinator does not accept the descriptor of the paused controller. */
  predicate RegistrationRefused(s: Sys, t: string, pc: Pc)
    requires t in s.launchers && pc.Paused?
  {
    RegisterExecution(s.row, t, s.launchers[t].pid, pc.generation, DescriptorOf(pc.b)).Err?
  }

  /** Killed, cancelled, or failing outside the pass itself: the owner stops working whatever is still requested. */
  predicate WalksAway(s: Sys, step: Step, t: string)
    requires Enabled(s, step)
  {
    && Own(step, t)
    && (step.Crash? || step.Abandon? || step.GiveUp?
        || (step.Record? && RegistrationRefused(s, t, AtPc(s, t))))
  }

  /** The owner finishes a failed pass, or a failed preparation. */
  predicate FinishesFailed(s: Sys, step: Step, t: string)
    requires Enabled(s, step)
  {
    Own(step, t) && (step.RuntimeFailed? || (step.FinishPass? && !AtPc(s, t).success))
  }

  /** It failed at the latest generation there is, and stops. */
  predicate FailsLast(s: Sys, step: Step, t: string)
    requires Enabled(s, step)
  {
    FinishesFailed(s, step, t) && s.row.requested == AtPc(s, t).generation
  }

  /** The owner's program points before the pass is finished keep it at work. */
  lemma OwnerStepsAlong(s: Sys, step: Step, t: string)
    requires Inv(s) && Enabled(s, step) && Attends(s, t) && Own(step, t)
    requires step.ReadPrior? || step.PriorGone? || step.RuntimeReady? || step.SpawnController? || step.SendStart?
    ensures var u := Apply(s, step);
            Attends(u, t) && u.row.completed == s.row.completed && u.row.requested >= s.row.requested
  {
    OnlyOneWorks(s, t);
    assert LauncherInv(s, t);
    hide SharedInv, LaunchersInv;
  }

  lemma OwnerSeesTheEnd(s: Sys, step: Step, t: string)
    requires Inv(s) && Enabled(s, step) && Attends(s, t) && Own(step, t) && step.PassGone?
    ensures var u := Apply(s, step);
            Attends(u, t) && u.row.completed == s.row.completed && u.row.requested >= s.row.requested
  {
    OnlyOneWorks(s, t);
    assert LauncherInv(s, t);
    hide SharedInv, LaunchersInv;
  }

  lemma OwnerBeats(s: Sys, step: Step, t: string)
    requires Inv(s) && Enabled(s, step) && Attends(s, t) && Own(step, t) && step.Beat?
    ensures var u := Apply(s, step);
            Attends(u, t) && u.row.completed == s.row.completed && u.row.requested >= s.row.requested
  {
    hide Inv;
  }

  lemma OwnerWrites(s: Sys, step: Step, t: string)
    requires Inv(s) && Enabled(s, step) && Attends(s, t) && Own(step, t)
    requires (step.Record? && !WalksAway(s, step, t)) || step.AuthorizeStart?
    ensures var u := Apply(s, step);
            Attends(u, t) && u.row.completed == s.row.completed && u.row.requested >= s.row.requested
  {
    OnlyOneWorks(s, t);
    assert LauncherInv(s, t);
    hide SharedInv, LaunchersInv;
  }

  lemma OwnerClears(s: Sys, step: Step, t: string)
    requires Inv(s) && Enabled(s, step) && Attends(s, t) && Own(step, t)
    requires step.ClearPrior? || step.ClearPass?
    ensures var u := Apply(s, step);
            Attends(u, t) && u.row.completed == s.row.completed && u.row.requested >= s.row.requested
  {
    OnlyOneWorks(s, t);
    assert LauncherInv(s, t);
    hide SharedInv, LaunchersInv;
  }

  lemma OwnerKeepsWorking(s: Sys, step: Step, t: string)
    requires Inv(s) && Enabled(s, step) && Attends(s, t) && Own(step, t)
    requires !WalksAway(s, step, t) && !step.FinishPass? && !step.RuntimeFailed?
    ensures var u := Apply(s, step);
            Attends(u, t) && u.row.completed == s.row.completed && u.row.requested >= s.row.requested
  {
    assert t in s.usedTokens;
    hide Inv, Apply;
    if step.ReadPrior? || step.PriorGone? || step.RuntimeReady? || step.SpawnController? || step.SendStart? {
      OwnerStepsAlong(s, step, t);
    } else if step.PassGone? {
      OwnerSeesTheEnd(s, step, t);
    } else if step.Beat? {
      OwnerBeats(s, step, t);
    } else if step.Record? || step.AuthorizeStart? {
      OwnerWrites(s, step, t);
    } else if step.ClearPrior? || step.ClearPass? {
      OwnerClears(s, step, t);
    }
  }

  /** A successful pass takes the owner out only when everything requested is completed. */
  lemma SuccessLeavesNothing(s: Sys, step: Step, t: string)
    requires Inv(s) && Enabled(s, step) && Attends(s, t) && Own(step, t) && step.FinishPass? && AtPc(s, t).success
    ensures var u := Apply(s, step);
            && u.row.requested == s.row.requested
            && (Attends(u, t) || (u.launchers[t].pc.Done? && u.row.completed == u.row.requested))
  {
    FinishLands(s, step);
    assert LauncherInv(s, t);
    FinishedPass(s.row, t, s.launchers[t].pid, AtPc(s, t).generation, true, step.now);
    FinishSaysSo(s, step);
    hide SharedInv, LaunchersInv, Finish;
  }

  /** A failure with more requested keeps the same owner at work, on the latest generation. */
  lemma FailureGoesOn(s: Sys, step: Step, t: string)
    requires Inv(s) && Enabled(s, step) && Attends(s, t) && FinishesFailed(s, step, t) && !FailsLast(s, step, t)
    ensures var u := Apply(s, step);
            && Attends(u, t) && u.row.completed == s.row.completed && u.row.requested == s.row.requested
            && (u.launchers[t].pc.PassReady? || u.launchers[t].pc.Preparing?)
            && u.launchers[t].pc.generation == s.row.requested > AtPc(s, t).generation
  {
    assert LauncherInv(s, t);
    FinishedPass(s.row, t, s.launchers[t].pid, AtPc(s, t).generation, false, step.now);
    hide LaunchersInv, Finish, TokensInv, BirthsInv, MembersInv, StartInv, AdmissionsInv, WakeupInv;
  }

  /** A failure that stops the owner is as late as anything requested, and a failed pass had begun after that. */
  lemma LastFailureIsLate(s: Sys, step: Step, t: string, g: int)
    requires Inv(s) && Enabled(s, step) && FailsLast(s, step, t) && g <= s.row.requested
    ensures AtPc(s, t).generation >= g
    ensures step.FinishPass? ==> Began(s.log, AtPc(s, t).generation, AtPc(s, t).token)
  {
    assert LauncherInv(s, t);
  }

  /**
   * While it is attended, a merged generation is worked towards: after any step it is completed, or the same
   * launcher still works, or that launcher has just walked away or just failed at a generation no earlier. A
   * failed pass of an earlier generation does not stop it.
   */
  lemma AttendedUntilServed(s: Sys, step: Step, t: string, g: int)
    requires Inv(s) && Enabled(s, step) && Attends(s, t) && s.row.completed < g <= s.row.requested
    ensures var u := Apply(s, step);
            || (g <= u.row.requested && (g <= u.row.completed || Attends(u, t)))
            || WalksAway(s, step, t)
            || (FailsLast(s, step, t) && AtPc(s, t).generation >= g)
  {
    hide Inv, Apply, Attends, FailsLast, WalksAway;
    if !Own(step, t) {
      OthersLeaveTheOwner(s, step, t);
    } else if FailsLast(s, step, t) {
      LastFailureIsLate(s, step, t, g);
    } else if !WalksAway(s, step, t) {
      if FinishesFailed(s, step, t) {
        FailureGoesOn(s, step, t);
      } else if step.FinishPass? {
        SuccessLeavesNothing(s, step, t);
      } else {
        OwnerKeepsWorking(s, step, t);
      }
    }
  }

  /**
   * Somewhere in the run the owner under this token walks away, or fails for the last time at a generation of at
   * least g.
   */
  predicate StopsWorking(s: Sys, run: seq<Step>, t: string, g: int)
    requires Runs.Possible(s, run)
    decreases |run|
  {
    && run != []
    && (|| WalksAway(s, run[0], t)
        || (FailsLast(s, run[0], t) && AtPc(s, t).generation >= g)
        || StopsWorking(Apply(s, run[0]), run[1..], t, g))
  }

  /**
   * Over every continuation, a merged generation is completed or still attended, unless the owner was killed or
   * cancelled, or ran a pass or a preparation of at least that generation and failed.
   */
  lemma {:induction false} AttendedOverRuns(s: Sys, run: seq<Step>, t: string, g: int)
    requires Inv(s) && Runs.Possible(s, run) && Attends(s, t) && g <= s.row.requested
    ensures g <= Runs.After(s, run).row.completed || Attends(Runs.After(s, run), t) || StopsWorking(s, run, t, g)
    decreases |run|
  {
    if run != [] {
      hide Inv, Enabled, Apply, Attends, WalksAway, FailsLast;
      var u := Apply(s, run[0]);
      Runs.StepInv(s, run[0]);
      if g <= s.row.completed {
        CompletedStays(s, run, g);
      } else if !StopsWorking(s, run, t, g) {
        AttendedUntilServed(s, run[0], t, g);
        if g <= u.row.completed {
          CompletedStays(u, run[1..], g);
        } else {
          AttendedOverRuns(u, run[1..], t, g);
        }
      }
    }
  }

  lemma {:induction false} CompletedStays(s: Sys, run: seq<Step>, g: int)
    requires Inv(s) && Runs.Possible(s, run) && g <= s.row.completed
    ensures g <= Runs.After(s, run).row.completed
    decreases |run|
  {
    if run != [] {
      CompletedNeverFalls(s, run[0]);
      Runs.StepInv(s, run[0]);
      hide Inv, Enabled, Apply;
      CompletedStays(Apply(s, run[0]), run[1..], g);
    }
  }

  lemma CompletedNeverFalls(s: Sys, step: Step)
    requires Inv(s) && Enabled(s, step)
    ensures Apply(s, step).row.completed >= s.row.completed
  {
    Runs.RowMovesByCalls(s, step);
    if Runs.CallOf(s, step).Some? {
      CallCounts(s.row, Runs.CallOf(s, step).value);
    }
  }
}
