/**
 * The runs of `Fencing` with every pass played out as in `SupervisorPass`: what a completed generation says
 * about the supervisor that answered it.
 */
module FencingOutcomes {
  import opened Transitions
  import opened Fencing
  import Runs = FencingRuns
  import Pass = SupervisorPass

  /** What happened between the launcher and the controller of each execution, by execution token. */
  type Passes = string -> seq<Pass.Move>

  /** `start` returned with this verdict. */
  predicate Returned(passes: Passes, x: string, success: bool) {
    && Pass.CanAll(Pass.Begin(x), passes(x))
    && var end := Pass.MadeAll(Pass.Begin(x), passes(x));
       end.returned.Some? && Pass.PassSucceeded(end.returned.value) == success
  }

  /** The launcher goes on with the verdict that its own `start` returned. */
  predicate TakesTheVerdict(s: Sys, step: Step, passes: Passes)
    requires Enabled(s, step)
  {
    step.PassGone? ==> Returned(passes, AtPc(s, step.token).b.token, step.success)
  }

  predicate TakesVerdicts(s: Sys, run: seq<Step>, passes: Passes)
    requires Runs.Possible(s, run)
    decreases |run|
  {
    run != [] ==> TakesTheVerdict(s, run[0], passes) && TakesVerdicts(Apply(s, run[0]), run[1..], passes)
  }

  predicate PcVerdict(pc: Pc, passes: Passes) {
    match pc
    case Gone(_, b, success) => Returned(passes, b.token, success)
    case Cleared(_, x, success) => Returned(passes, x, success)
    case _ => true
  }

  predicate EventVerdict(e: Event, passes: Passes) {
    e.PassSucceeded? ==> Returned(passes, e.token, true)
  }

  /** Every verdict under way, and every success written down, is what `start` returned. */
  predicate Verdicts(s: Sys, passes: Passes) {
    && (forall t :: t in s.launchers ==> PcVerdict(s.launchers[t].pc, passes))
    && (forall i :: 0 <= i < |s.log| ==> EventVerdict(s.log[i], passes))
  }

  lemma EarlyStepsKeepVerdicts(s: Sys, step: Step, passes: Passes)
    requires Enabled(s, step) && Verdicts(s, passes) && Runs.EarlyStep(step)
    ensures Verdicts(Apply(s, step), passes)
  {
    hide Returned, CanSpawn, Admit, Clear;
  }

  predicate EndsPass(step: Step) {
    step.RuntimeFailed? || step.FinishPass? || step.PassGone? || step.ClearPass?
  }

  lemma OwnersKeepVerdicts(s: Sys, step: Step, passes: Passes)
    requires Enabled(s, step) && Verdicts(s, passes) && !Runs.EarlyStep(step) && !EndsPass(step)
    ensures Verdicts(Apply(s, step), passes)
  {
    hide Returned, CanSpawn, Clear;
  }

  lemma EndsKeepVerdicts(s: Sys, step: Step, passes: Passes)
    requires Enabled(s, step) && Verdicts(s, passes) && TakesTheVerdict(s, step, passes)
    requires step.PassGone? || step.ClearPass?
    ensures Verdicts(Apply(s, step), passes)
  {
    hide Returned, Clear;
  }

  lemma FinishesKeepVerdicts(s: Sys, step: Step, passes: Passes)
    requires Enabled(s, step) && Verdicts(s, passes) && (step.RuntimeFailed? || step.FinishPass?)
    ensures Verdicts(Apply(s, step), passes)
  {
    hide Returned;
  }

  lemma {:induction false} RunKeepsVerdicts(s: Sys, run: seq<Step>, passes: Passes)
    requires Runs.Possible(s, run) && TakesVerdicts(s, run, passes) && Verdicts(s, passes)
    ensures Verdicts(Runs.After(s, run), passes)
    decreases |run|
  {
    if run != [] {
      var step := run[0];
      hide Enabled, Apply, Verdicts;
      if step.PassGone? || step.ClearPass? {
        EndsKeepVerdicts(s, step, passes);
      } else if EndsPass(step) {
        FinishesKeepVerdicts(s, step, passes);
      } else if Runs.EarlyStep(step) {
        EarlyStepsKeepVerdicts(s, step, passes);
      } else {
        OwnersKeepVerdicts(s, step, passes);
      }
      RunKeepsVerdicts(Apply(s, step), run[1..], passes);
    }
  }

  /** A pass of this execution that `start` called successful had a supervisor that exited 0, or its channel closed. */
  predicate Truly(passes: Passes, x: string) {
    && Pass.CanAll(Pass.Begin(x), passes(x))
    && var end := Pass.MadeAll(Pass.Begin(x), passes(x));
       Pass.SupervisorSucceeded(end) || (!end.ctl.connected && end.received.None?)
  }

  lemma SuccessIsReal(passes: Passes, x: string)
    requires Returned(passes, x, true)
    ensures Truly(passes, x)
  {
    Pass.OpenChannelTellsTheTruth(x, passes(x));
    Pass.FalseSuccessIff(x, passes(x));
  }

  /** `Answered`, by a supervisor that exited 0 unless the channel to its controller had closed without a RESULT. */
  ghost predicate ReallyAnswered(log: seq<Event>, g: int, passes: Passes) {
    exists j: nat, k: nat, n: int, x: string ::
      && BeganAt(log, j, n, x) && j < k < |log| && log[k] == PassSucceeded(n, x) && n >= g && Truly(passes, x)
  }

  /**
   * No lost wakeup, down to the supervisor: in every run whose launchers take the verdicts of their own passes, a
   * completed generation was answered by a pass that began after its registration and whose supervisor exited 0,
   * or whose channel had closed before any RESULT was received.
   */
  lemma CompletedWorkWasDone(run: seq<Step>, passes: Passes, g: int)
    requires Runs.Possible(INIT, run) && TakesVerdicts(INIT, run, passes)
    requires 1 <= g <= Runs.After(INIT, run).row.completed
    ensures ReallyAnswered(Runs.After(INIT, run).log, g, passes)
  {
    var log := Runs.After(INIT, run).log;
    assert Verdicts(INIT, passes);
    RunKeepsVerdicts(INIT, run, passes);
    Runs.NoLostWakeup(run, g);
    hide Returned, Truly;
    var j: nat, k: nat, n: int, x: string :|
      BeganAt(log, j, n, x) && j < k < |log| && log[k] == PassSucceeded(n, x) && n >= g;
    assert EventVerdict(log[k], passes);
    SuccessIsReal(passes, x);
  }
}
