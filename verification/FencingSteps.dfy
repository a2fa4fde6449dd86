/** Every step of every launcher and of the operating system keeps the invariant of `Fencing`. */
module FencingSteps {
  import opened Base
  import opened ReconcilerRow
  import opened Transitions
  import opened ProcessTable
  import opened Fencing

  /** Nothing is ever unsaid by writing more into the log. */
  lemma LogGrows(log: seq<Event>, e: Event)
    ensures Admissions(log + [e]) == Admissions(log) + (if e.Admitted? then [e.generation] else [])
    ensures forall g, x :: Began(log, g, x) ==> Began(log + [e], g, x)
    ensures forall g :: Answered(log, g) ==> Answered(log + [e], g)
  {
    assert (log + [e])[..|log|] == log;
    forall g, x | Began(log, g, x)
      ensures Began(log + [e], g, x)
    {
      var j: nat :| BeganAt(log, j, g, x);
      assert (log + [e])[..j] == log[..j];
      assert BeganAt(log + [e], j, g, x);
    }
    forall g | Answered(log, g)
      ensures Answered(log + [e], g)
    {
      var j: nat, k: nat, n: int, x: string :|
        BeganAt(log, j, n, x) && j < k < |log| && log[k] == PassSucceeded(n, x) && n >= g;
      assert (log + [e])[..j] == log[..j];
      assert BeganAt(log + [e], j, n, x) && (log + [e])[k] == PassSucceeded(n, x);
    }
  }

  /**
   * A change of the process table alone: dead processes and dead boundaries stay dead, and a launcher
   * that is still there keeps its own process.
   */
  ghost predicate TableStep(s: Sys, u: Sys) {
    && u == s.(table := u.table, born := u.born)
    && s.born <= u.born
    && (forall p, id :: (p, id) in s.born && SameProcess(u.table, p, id) ==> SameProcess(s.table, p, id))
    && (forall x :: x in s.groupOf && BoundaryGone(s.table, x) ==> BoundaryGone(u.table, x))
  }

  lemma TableStepKeepsPc(s: Sys, u: Sys, t: string, l: Launcher)
    requires TokensInv(s) && BirthsInv(s) && TableStep(s, u) && PcInv(s, t, l)
    ensures PcInv(u, t, l)
  {
  }

  /** A process that joins the table under a fresh birth: an outsider, a worker of a live boundary, or a launcher. */
  lemma JoinIsTableStep(s: Sys, pid: int, p: Process)
    requires Inv(s) && CanSpawn(s, pid, p.identity)
    requires p.role.ControllerRole? ==> p.role.token !in s.groupOf
    requires p.role.WorkerRole? ==> !BoundaryGone(s.table, p.role.token)
    ensures TableStep(s, AddProcess(s, pid, p))
  {
    var u := AddProcess(s, pid, p);
    forall x | x in s.groupOf && BoundaryGone(s.table, x)
      ensures BoundaryGone(u.table, x)
    {
    }
  }

  /** A table step that keeps every launcher's own process keeps the launchers' part of the invariant. */
  lemma TableStepKeepsLaunchers(s: Sys, u: Sys)
    requires Inv(s) && TableStep(s, u)
    requires forall t :: t in s.launchers ==>
               s.launchers[t].pid in u.table && u.table[s.launchers[t].pid] == s.table[s.launchers[t].pid]
    ensures LaunchersInv(u) && StartInv(u)
  {
    forall t | t in u.launchers
      ensures LauncherInv(u, t)
    {
      assert LauncherInv(s, t);
      TableStepKeepsPc(s, u, t, s.launchers[t]);
    }
  }

  lemma OutsiderInv(s: Sys, step: Step)
    requires Inv(s) && step.Outsider? && Enabled(s, step)
    ensures Inv(Apply(s, step))
  {
    JoinIsTableStep(s, step.pid, Process(step.identity, step.group, Unrelated));
    TableStepKeepsLaunchers(s, Apply(s, step));
  }

  lemma ForkInv(s: Sys, step: Step)
    requires Inv(s) && step.Fork? && Enabled(s, step)
    ensures Inv(Apply(s, step))
  {
    assert BelongsTo(s.table[step.parent], s.table[step.parent].role.token);
    JoinIsTableStep(s, step.pid, s.table[step.parent].(identity := step.identity));
    TableStepKeepsLaunchers(s, Apply(s, step));
  }

  lemma SuperviseInv(s: Sys, step: Step)
    requires Inv(s) && step.Supervise? && Enabled(s, step)
    ensures Inv(Apply(s, step))
  {
    var c := s.table[step.controller];
    assert BelongsTo(c, c.role.token);
    JoinIsTableStep(s, step.pid, Process(step.identity, c.group, WorkerRole(c.role.token)));
    TableStepKeepsLaunchers(s, Apply(s, step));
  }

  lemma DieInv(s: Sys, step: Step)
    requires Inv(s) && step.Die? && Enabled(s, step)
    ensures Inv(Apply(s, step))
  {
    assert forall t :: t in s.launchers ==> LauncherInv(s, t);
    TableStepKeepsLaunchers(s, Apply(s, step));
  }

  lemma CrashInv(s: Sys, step: Step)
    requires Inv(s) && step.Crash? && Enabled(s, step)
    ensures Inv(Apply(s, step))
  {
    var rest := s.(launchers := s.launchers - {step.token});
    assert LauncherInv(s, step.token);
    forall t | t in rest.launchers
      ensures LauncherInv(rest, t) && s.launchers[t].pid != s.launchers[step.token].pid
    {
      assert LauncherInv(s, t);
    }
    assert Inv(rest);
    TableStepKeepsLaunchers(rest, Apply(s, step));
  }

  lemma InvokeInv(s: Sys, step: Step)
    requires Inv(s) && step.Invoke? && Enabled(s, step)
    ensures Inv(Apply(s, step))
  {
    var p := Process(step.identity, step.group, LauncherRole(step.token));
    var mid := AddProcess(s, step.pid, p);
    JoinIsTableStep(s, step.pid, p);
    TableStepKeepsLaunchers(s, mid);
    var u := Apply(s, step);
    SharedInvFrame(mid, u);
    forall t | t in u.launchers
      ensures LauncherInv(u, t)
    {
      if t == step.token {
        NewcomerInv(s, u, t);
      } else {
        assert LauncherInv(mid, t);
        SharedFrame(mid, u, t, u.launchers[t]);
      }
    }
  }

  lemma NewcomerInv(s: Sys, u: Sys, t: string)
    requires RefersTo(s.row, s.usedTokens) && t !in s.usedTokens && t in u.launchers && u.row == s.row
    requires u.launchers[t].pc == Admitting(0)
    ensures PcInv(u, t, u.launchers[t])
  {
  }

  /** What a launcher knows does not depend on who else is running. */
  lemma SharedFrame(s: Sys, u: Sys, t: string, l: Launcher)
    requires u == s.(launchers := u.launchers, usedTokens := u.usedTokens)
    ensures PcInv(u, t, l) == PcInv(s, t, l)
  {
  }

  lemma SharedInvFrame(s: Sys, u: Sys)
    requires SharedInv(s) && u == s.(launchers := u.launchers, usedTokens := u.usedTokens)
             && s.usedTokens <= u.usedTokens
    ensures SharedInv(u)
  {
  }

  /** A step that only moves one program counter. */
  lemma GotoInv(s: Sys, t: string, pc: Pc)
    requires Inv(s) && t in s.launchers && PcInv(s, t, s.launchers[t].(pc := pc))
    ensures Inv(Goto(s, t, pc))
  {
    var u := Goto(s, t, pc);
    SharedInvFrame(s, u);
    forall k | k in u.launchers
      ensures LauncherInv(u, k)
    {
      assert LauncherInv(s, k);
      SharedFrame(s, u, k, u.launchers[k]);
    }
  }

  lemma LookInv(s: Sys, step: Step)
    requires Inv(s) && step.Look? && Enabled(s, step)
    ensures Inv(Apply(s, step))
  {
    assert LauncherInv(s, step.token);
    GotoInv(s, step.token, Looked(AtPc(s, step.token).attempt, s.row));
  }

  lemma ProbeInv(s: Sys, step: Step)
    requires Inv(s) && step.Probe? && Enabled(s, step)
    ensures Inv(Apply(s, step))
  {
    assert LauncherInv(s, step.token);
    var pc := AtPc(s, step.token);
    GotoInv(s, step.token, Probed(pc.attempt, pc.seen, OwnerSeemsAlive(s.table, pc.seen, step.unreadable)));
  }

  lemma ReadPriorInv(s: Sys, step: Step)
    requires Inv(s) && step.ReadPrior? && Enabled(s, step)
    ensures Inv(Apply(s, step))
  {
    assert LauncherInv(s, step.token);
    GotoInv(s, step.token, AtPc(Apply(s, step), step.token));
  }

  /** Absence of the group is absence of the execution: all its processes carry its group number. */
  lemma AbsentGroupIsGone(s: Sys, x: string, group: int)
    requires MembersInv(s) && x in s.groupOf && s.groupOf[x] == group && !GroupExists(s.table, group)
    ensures BoundaryGone(s.table, x)
  {
  }

  lemma PriorGoneInv(s: Sys, step: Step)
    requires Inv(s) && step.PriorGone? && Enabled(s, step)
    ensures Inv(Apply(s, step))
  {
    assert LauncherInv(s, step.token);
    var prior := AtPc(s, step.token).prior;
    AbsentGroupIsGone(s, prior.token, prior.group);
    GotoInv(s, step.token, AtPc(Apply(s, step), step.token));
  }

  lemma PassGoneInv(s: Sys, step: Step)
    requires Inv(s) && step.PassGone? && Enabled(s, step)
    ensures Inv(Apply(s, step))
  {
    assert LauncherInv(s, step.token);
    AbsentGroupIsGone(s, AtPc(s, step.token).b.token, AtPc(s, step.token).b.pid);
    GotoInv(s, step.token, AtPc(Apply(s, step), step.token));
  }

  lemma StopGoneInv(s: Sys, step: Step)
    requires Inv(s) && step.StopGone? && Enabled(s, step)
    ensures Inv(Apply(s, step))
  {
    assert LauncherInv(s, step.token);
    AbsentGroupIsGone(s, AtPc(s, step.token).b.token, AtPc(s, step.token).b.pid);
    GotoInv(s, step.token, AtPc(Apply(s, step), step.token));
  }

  lemma RuntimeReadyInv(s: Sys, step: Step)
    requires Inv(s) && step.RuntimeReady? && Enabled(s, step)
    ensures Inv(Apply(s, step))
  {
    assert LauncherInv(s, step.token);
    GotoInv(s, step.token, PassReady(AtPc(s, step.token).generation));
  }

  lemma GiveUpInv(s: Sys, step: Step)
    requires Inv(s) && step.GiveUp? && Enabled(s, step)
    ensures Inv(Apply(s, step))
  {
    assert LauncherInv(s, step.token);
    var pc := AtPc(s, step.token);
    GotoInv(s, step.token, Stopping(pc.generation, pc.b, !pc.Paused?));
  }

  lemma AbandonInv(s: Sys, step: Step)
    requires Inv(s) && step.Abandon? && Enabled(s, step)
    ensures Inv(Apply(s, step))
  {
    assert LauncherInv(s, step.token);
    GotoInv(s, step.token, Leaving);
  }

  /**
   * A step in which the owner changes the row, its own program counter and what it has sent: no other
   * launcher is at an owner's program point, so nobody else's knowledge is disturbed.
   */
  ghost predicate OwnerStep(s: Sys, u: Sys, t: string) {
    && t in s.launchers && t in u.launchers
    && u == s.(row := u.row, startSent := u.startSent, log := u.log, groupOf := u.groupOf, usedTokens := u.usedTokens,
               launchers := s.launchers[t := u.launchers[t]])
    && u.launchers[t] == s.launchers[t].(pc := u.launchers[t].pc)
    && OwnerIs(s, t, s.launchers[t])
    && (u.row.owner.Some? ==> OwnerIs(u, t, s.launchers[t]))
    && (u.row.execution.Some? ==>
          || u.row.execution.value.ownerToken == t
          || (s.row.execution.Some? && u.row.execution.value.ownerToken == s.row.execution.value.ownerToken))
  }

  lemma OwnerStepKeepsLaunchers(s: Sys, u: Sys, t: string)
    requires LaunchersInv(s) && OwnerStep(s, u, t) && PcInv(u, t, u.launchers[t])
    ensures LaunchersInv(u)
  {
    forall k | k in u.launchers
      ensures LauncherInv(u, k)
    {
      assert LauncherInv(s, k);
    }
  }

  lemma RecordMovesTheOwner(s: Sys, step: Step)
    requires Inv(s) && step.Record? && Enabled(s, step)
    ensures OwnerStep(s, Apply(s, step), step.token)
    ensures PcInv(Apply(s, step), step.token, Apply(s, step).launchers[step.token])
  {
    hide SharedInv, InRange;
    assert LauncherInv(s, step.token);
  }

  lemma RecordKeepsShared(s: Sys, step: Step)
    requires Inv(s) && step.Record? && Enabled(s, step)
    ensures SharedInv(Apply(s, step))
  {
    var t := step.token;
    assert LauncherInv(s, t);
    CallKeepsRanges(s.row, CallRegister(t, s.launchers[t].pid, AtPc(s, t).generation, DescriptorOf(AtPc(s, t).b)));
    hide InRange, LaunchersInv;
  }

  lemma RecordInv(s: Sys, step: Step)
    requires Inv(s) && step.Record? && Enabled(s, step)
    ensures Inv(Apply(s, step))
  {
    hide SharedInv, LaunchersInv, PcInv, OwnerStep;
    RecordMovesTheOwner(s, step);
    RecordKeepsShared(s, step);
    OwnerStepKeepsLaunchers(s, Apply(s, step), step.token);
  }

  lemma AuthorizeMovesTheOwner(s: Sys, step: Step)
    requires Inv(s) && step.AuthorizeStart? && Enabled(s, step)
    ensures OwnerStep(s, Apply(s, step), step.token)
    ensures PcInv(Apply(s, step), step.token, Apply(s, step).launchers[step.token])
  {
    hide SharedInv, InRange;
    assert LauncherInv(s, step.token);
  }

  lemma AuthorizeKeepsShared(s: Sys, step: Step)
    requires Inv(s) && step.AuthorizeStart? && Enabled(s, step)
    ensures SharedInv(Apply(s, step))
  {
    var t := step.token;
    assert LauncherInv(s, t);
    CallKeepsRanges(s.row, CallAuthorize(t, s.launchers[t].pid, AtPc(s, t).b.token));
    hide InRange, LaunchersInv;
  }

  lemma AuthorizeInv(s: Sys, step: Step)
    requires Inv(s) && step.AuthorizeStart? && Enabled(s, step)
    ensures Inv(Apply(s, step))
  {
    hide SharedInv, LaunchersInv, PcInv, OwnerStep;
    AuthorizeMovesTheOwner(s, step);
    AuthorizeKeepsShared(s, step);
    OwnerStepKeepsLaunchers(s, Apply(s, step), step.token);
  }

  lemma SendStartInv(s: Sys, step: Step)
    requires Inv(s) && step.SendStart? && Enabled(s, step)
    ensures Inv(Apply(s, step))
  {
    assert LauncherInv(s, step.token);
    OwnerStepKeepsLaunchers(s, Apply(s, step), step.token);
  }

  /** The record may go when its boundary is gone: every START ever sent under it is then harmless. */
  lemma ClearKeepsShared(s: Sys, row: State)
    requires SharedInv(s) && s.row.execution.Some? && BoundaryGone(s.table, s.row.execution.value.token)
    requires row == s.row.(execution := None)
    ensures SharedInv(s.(row := row))
  {
  }

  /** A clear that found its boundary gone. */
  lemma ClearedInv(s: Sys, u: Sys, t: string)
    requires Inv(s) && OwnerStep(s, u, t) && PcInv(u, t, u.launchers[t])
    requires s.row.execution.Some? && BoundaryGone(s.table, s.row.execution.value.token)
    requires u.row == s.row.(execution := None) && u == s.(row := u.row, launchers := u.launchers)
    ensures Inv(u)
  {
    hide SharedInv, LaunchersInv, PcInv;
    ClearKeepsShared(s, u.row);
    SharedInvFrame(s.(row := u.row), u);
    OwnerStepKeepsLaunchers(s, u, t);
  }

  lemma ClearPriorMovesTheOwner(s: Sys, step: Step)
    requires Inv(s) && step.ClearPrior? && Enabled(s, step)
    ensures OwnerStep(s, Apply(s, step), step.token)
    ensures PcInv(Apply(s, step), step.token, Apply(s, step).launchers[step.token])
    ensures s.row.execution.Some? && BoundaryGone(s.table, s.row.execution.value.token)
    ensures Apply(s, step).row == s.row.(execution := None)
    ensures Apply(s, step) == s.(row := Apply(s, step).row, launchers := Apply(s, step).launchers)
  {
    hide SharedInv, InRange;
    assert LauncherInv(s, step.token);
  }

  lemma ClearPriorInv(s: Sys, step: Step)
    requires Inv(s) && step.ClearPrior? && Enabled(s, step)
    ensures Inv(Apply(s, step))
  {
    hide *;
    ClearPriorMovesTheOwner(s, step);
    ClearedInv(s, Apply(s, step), step.token);
  }

  lemma ClearPassSucceeds(s: Sys, step: Step)
    requires Inv(s) && step.ClearPass? && Enabled(s, step)
    ensures s.row.execution.Some? && BoundaryGone(s.table, s.row.execution.value.token)
    ensures Apply(s, step) == Goto(s.(row := s.row.(execution := None)), step.token,
                                   Cleared(AtPc(s, step.token).generation, AtPc(s, step.token).b.token,
                                           AtPc(s, step.token).success))
  {
    hide SharedInv, InRange;
    assert LauncherInv(s, step.token);
  }

  lemma ClearPassMovesTheOwner(s: Sys, step: Step)
    requires Inv(s) && step.ClearPass? && Enabled(s, step)
    ensures OwnerStep(s, Apply(s, step), step.token)
    ensures PcInv(Apply(s, step), step.token, Apply(s, step).launchers[step.token])
    ensures s.row.execution.Some? && BoundaryGone(s.table, s.row.execution.value.token)
    ensures Apply(s, step).row == s.row.(execution := None)
    ensures Apply(s, step) == s.(row := Apply(s, step).row, launchers := Apply(s, step).launchers)
  {
    hide SharedInv, InRange, Apply, BoundaryGone;
    ClearPassSucceeds(s, step);
    assert LauncherInv(s, step.token);
  }

  lemma ClearPassInv(s: Sys, step: Step)
    requires Inv(s) && step.ClearPass? && Enabled(s, step)
    ensures Inv(Apply(s, step))
  {
    hide *;
    ClearPassMovesTheOwner(s, step);
    ClearedInv(s, Apply(s, step), step.token);
  }

  lemma ClearStoppedSucceeds(s: Sys, step: Step)
    requires Inv(s) && step.ClearStopped? && Enabled(s, step) && AtPc(s, step.token).recorded
    ensures s.row.execution.Some? && BoundaryGone(s.table, s.row.execution.value.token)
    ensures Apply(s, step) == Goto(s.(row := s.row.(execution := None)), step.token,
                                   Leaving)
  {
    hide SharedInv, InRange;
    assert LauncherInv(s, step.token);
  }

  lemma ClearStoppedMovesTheOwner(s: Sys, step: Step)
    requires Inv(s) && step.ClearStopped? && Enabled(s, step) && AtPc(s, step.token).recorded
    ensures OwnerStep(s, Apply(s, step), step.token)
    ensures PcInv(Apply(s, step), step.token, Apply(s, step).launchers[step.token])
    ensures s.row.execution.Some? && BoundaryGone(s.table, s.row.execution.value.token)
    ensures Apply(s, step).row == s.row.(execution := None)
    ensures Apply(s, step) == s.(row := Apply(s, step).row, launchers := Apply(s, step).launchers)
  {
    hide SharedInv, InRange, Apply, BoundaryGone;
    ClearStoppedSucceeds(s, step);
    assert LauncherInv(s, step.token);
  }

  lemma NothingRecordedInv(s: Sys, step: Step)
    requires Inv(s) && step.ClearStopped? && Enabled(s, step) && !AtPc(s, step.token).recorded
    ensures Inv(Apply(s, step))
  {
    assert LauncherInv(s, step.token);
    GotoInv(s, step.token, Leaving);
  }

  lemma ClearStoppedInv(s: Sys, step: Step)
    requires Inv(s) && step.ClearStopped? && Enabled(s, step)
    ensures Inv(Apply(s, step))
  {
    hide Inv, OwnerStep, PcInv, BoundaryGone;
    if AtPc(s, step.token).recorded {
      ClearStoppedMovesTheOwner(s, step);
      ClearedInv(s, Apply(s, step), step.token);
    } else {
      NothingRecordedInv(s, step);
    }
  }

  lemma BeatMovesTheOwner(s: Sys, step: Step)
    requires Inv(s) && step.Beat? && Enabled(s, step)
    ensures OwnerStep(s, Apply(s, step), step.token)
    ensures PcInv(Apply(s, step), step.token, Apply(s, step).launchers[step.token])
  {
    hide SharedInv, InRange;
    assert LauncherInv(s, step.token);
  }

  lemma BeatKeepsShared(s: Sys, step: Step)
    requires Inv(s) && step.Beat? && Enabled(s, step)
    ensures SharedInv(Apply(s, step))
  {
    var t := step.token;
    assert LauncherInv(s, t);
    CallKeepsRanges(s.row, CallHeartbeat(t, s.launchers[t].pid, step.now));
    hide InRange, LaunchersInv;
  }

  lemma BeatInv(s: Sys, step: Step)
    requires Inv(s) && step.Beat? && Enabled(s, step)
    ensures Inv(Apply(s, step))
  {
    hide SharedInv, LaunchersInv, PcInv, OwnerStep;
    BeatMovesTheOwner(s, step);
    BeatKeepsShared(s, step);
    OwnerStepKeepsLaunchers(s, Apply(s, step), step.token);
  }

  lemma LeaveMovesTheOwner(s: Sys, step: Step)
    requires Inv(s) && step.Leave? && Enabled(s, step)
    ensures OwnerStep(s, Apply(s, step), step.token)
    ensures PcInv(Apply(s, step), step.token, Apply(s, step).launchers[step.token])
  {
    hide SharedInv, InRange;
    assert LauncherInv(s, step.token);
  }

  lemma LeaveKeepsShared(s: Sys, step: Step)
    requires Inv(s) && step.Leave? && Enabled(s, step)
    ensures SharedInv(Apply(s, step))
  {
    var t := step.token;
    assert LauncherInv(s, t);
    CallKeepsRanges(s.row, CallRelease(t, s.launchers[t].pid));
    hide InRange, LaunchersInv;
  }

  lemma LeaveInv(s: Sys, step: Step)
    requires Inv(s) && step.Leave? && Enabled(s, step)
    ensures Inv(Apply(s, step))
  {
    hide SharedInv, LaunchersInv, PcInv, OwnerStep;
    LeaveMovesTheOwner(s, step);
    LeaveKeepsShared(s, step);
    OwnerStepKeepsLaunchers(s, Apply(s, step), step.token);
  }

  lemma RuntimeFailedInv(s: Sys, step: Step)
    requires Inv(s) && step.RuntimeFailed? && Enabled(s, step)
    ensures Inv(Apply(s, step))
  {
    var t := step.token;
    assert LauncherInv(s, t);
    var g := AtPc(s, t).generation;
    CallKeepsRanges(s.row, CallFinish(t, s.launchers[t].pid, g, false, step.now));
    FinishedPass(s.row, t, s.launchers[t].pid, g, false, step.now);
    OwnerStepKeepsLaunchers(s, Apply(s, step), t);
  }

  /** A success answers every generation up to its own. */
  lemma SuccessAnswers(log: seq<Event>, g: int, x: string)
    requires Began(log, g, x)
    ensures forall i :: 1 <= i <= g ==> Answered(log + [PassSucceeded(g, x)], i)
  {
    var j: nat :| BeganAt(log, j, g, x);
    var after := log + [PassSucceeded(g, x)];
    assert after[..j] == log[..j];
    assert BeganAt(after, j, g, x) && after[|log|] == PassSucceeded(g, x);
  }

  /** Writing down a success does not disturb the owner who is about to move on. */
  lemma FinishKeepsShared(s: Sys, u: Sys, t: string, g: int, x: string, success: bool, now: int)
    requires SharedInv(s) && Began(s.log, g, x) && SafeNonNegative(now)
    requires t in s.launchers && Finish(s.row, t, s.launchers[t].pid, g, success, now).Ok?
    requires u == s.(row := Finish(s.row, t, s.launchers[t].pid, g, success, now).value.0,
                     log := if success then s.log + [PassSucceeded(g, x)] else s.log)
    ensures SharedInv(u)
  {
    CallKeepsRanges(s.row, CallFinish(t, s.launchers[t].pid, g, success, now));
    FinishedPass(s.row, t, s.launchers[t].pid, g, success, now);
    if success {
      LogGrows(s.log, PassSucceeded(g, x));
      SuccessAnswers(s.log, g, x);
    }
  }

  /** Where a finish call leaves the launcher: on to the latest generation as the same owner, or out. */
  lemma FinishLands(s: Sys, step: Step)
    requires Inv(s) && step.FinishPass? && Enabled(s, step)
    ensures var u, t, l := Apply(s, step), step.token, s.launchers[step.token];
            && u == s.(row := u.row, log := u.log, launchers := u.launchers)
            && u.row.execution == None && OwnerIs(s, t, l)
            && (u.row.owner.Some? ==> OwnerIs(u, t, l))
            && (u.launchers == s.launchers[t := l.(pc := Done)]
                || (u.row.owner.Some?
                    && u.launchers == s.launchers[t := l.(pc := PassReady(u.row.owner.value.running))]))
  {
    var t := step.token;
    assert LauncherInv(s, t);
    FinishedPass(s.row, t, s.launchers[t].pid, AtPc(s, t).generation, AtPc(s, t).success, step.now);
    hide SharedInv, InRange, LaunchersInv;
  }

  lemma FinishMovesTheOwner(s: Sys, step: Step)
    requires Inv(s) && step.FinishPass? && Enabled(s, step)
    ensures OwnerStep(s, Apply(s, step), step.token)
    ensures PcInv(Apply(s, step), step.token, Apply(s, step).launchers[step.token])
  {
    FinishLands(s, step);
    hide Inv, Finish;
  }

  lemma FinishPassInv(s: Sys, step: Step)
    requires Inv(s) && step.FinishPass? && Enabled(s, step)
    ensures Inv(Apply(s, step))
  {
    var t := step.token;
    var pc := AtPc(s, t);
    var u := Apply(s, step);
    FinishMovesTheOwner(s, step);
    OwnerStepKeepsLaunchers(s, u, t);
    FinishSaysSo(s, step);
    FinishKeepsShared(s, u.(launchers := s.launchers), t, pc.generation, pc.token, pc.success, step.now);
    SharedInvFrame(u.(launchers := s.launchers), u);
  }

  /** A launcher's finish call is never fenced, and a success is written down. */
  lemma FinishSaysSo(s: Sys, step: Step)
    requires Inv(s) && step.FinishPass? && Enabled(s, step)
    ensures var pc := AtPc(s, step.token);
            var r := Finish(s.row, step.token, s.launchers[step.token].pid, pc.generation, pc.success, step.now);
            && r.Ok? && Apply(s, step).row == r.value.0 && Began(s.log, pc.generation, pc.token)
            && Apply(s, step).log == if pc.success then s.log + [PassSucceeded(pc.generation, pc.token)] else s.log
  {
    var t := step.token;
    assert LauncherInv(s, t);
    FinishedPass(s.row, t, s.launchers[t].pid, AtPc(s, t).generation, AtPc(s, t).success, step.now);
  }

  lemma {:induction false} AdmittedInLog(log: seq<Event>, i: nat)
    requires i < |Admissions(log)|
    ensures Admitted(Admissions(log)[i]) in log
  {
    var front := log[..|log| - 1];
    if i < |Admissions(front)| {
      AdmittedInLog(front, i);
    }
  }

  /** A pass begun now begins after every registration the row has counted. */
  lemma BeginsAfterAll(s: Sys, g: int, x: string)
    requires AdmissionsInv(s) && g <= s.row.requested
    ensures Began(s.log + [PassBegan(g, x)], g, x)
  {
    var log := s.log + [PassBegan(g, x)];
    assert log[..|s.log|] == s.log;
    forall i | 1 <= i <= g
      ensures Admitted(i) in s.log
    {
      AdmittedInLog(s.log, i - 1);
    }
    assert BeganAt(log, |s.log|, g, x);
  }

  lemma SpawnKeepsShared(s: Sys, u: Sys, g: int, x: string, pid: int, identity: string)
    requires SharedInv(s) && g <= s.row.requested && x !in s.usedTokens
    requires u == AddProcess(s, pid, Process(identity, pid, ControllerRole(x)))
                  .(usedTokens := s.usedTokens + {x}, groupOf := s.groupOf[x := pid], log := s.log + [PassBegan(g, x)])
    requires StartInv(s.(table := u.table)) && CanSpawn(s, pid, identity)
    ensures SharedInv(u)
  {
    LogGrows(s.log, PassBegan(g, x));
  }

  lemma SpawnMovesTheOwner(s: Sys, mid: Sys, step: Step)
    requires Inv(s) && step.SpawnController? && Enabled(s, step)
    requires mid == AddProcess(s, step.pid, Process(step.identity, step.pid, ControllerRole(step.execToken)))
    ensures OwnerStep(mid, Apply(s, step), step.token)
    ensures PcInv(Apply(s, step), step.token, Apply(s, step).launchers[step.token])
  {
    assert LauncherInv(s, step.token);
    BeginsAfterAll(s, AtPc(s, step.token).generation, step.execToken);
  }

  lemma SpawnControllerInv(s: Sys, step: Step)
    requires Inv(s) && step.SpawnController? && Enabled(s, step)
    ensures Inv(Apply(s, step))
  {
    var t := step.token;
    var p := Process(step.identity, step.pid, ControllerRole(step.execToken));
    var mid := AddProcess(s, step.pid, p);
    JoinIsTableStep(s, step.pid, p);
    TableStepKeepsLaunchers(s, mid);
    var u := Apply(s, step);
    assert LauncherInv(s, t);
    SpawnKeepsShared(s, u.(launchers := s.launchers), AtPc(s, t).generation, step.execToken, step.pid, step.identity);
    SharedInvFrame(u.(launchers := s.launchers), u);
    SpawnMovesTheOwner(s, mid, step);
    OwnerStepKeepsLaunchers(mid, u, t);
  }

  /** Ownership moves only from nobody, or from a process that is dead. */
  lemma AdmissionIsSafe(s: Sys, step: Step)
    requires Inv(s) && step.TryAdmit? && Enabled(s, step)
    requires Admit(s.row, AtPc(s, step.token).seen, AtPc(s, step.token).alive, step.o).1.Granted?
    ensures OwnerDead(s, s.row)
    ensures forall k :: k in s.launchers ==> !OwnerPc(s.launchers[k].pc)
  {
    assert LauncherInv(s, step.token);
    forall k | k in s.launchers
      ensures !OwnerPc(s.launchers[k].pc)
    {
      assert LauncherInv(s, k);
    }
  }

  lemma AdmissionKeepsShared(s: Sys, u: Sys, c: Call)
    requires SharedInv(s) && c.CallAdmit? && AcceptableCall(c) && Registers(s.row, c)
    requires s.row.requested < MAX_SAFE_INTEGER
    requires Installs(s.row, c) && s.row.execution.Some? ==> s.row.execution.value.ownerToken != c.registrant.token
    requires c.registrant.token in s.usedTokens && (c.registrant.pid, c.registrant.identity) in s.born
    requires u == s.(row := After(s.row, c), log := s.log + [Admitted(s.row.requested + 1)])
    ensures SharedInv(u)
  {
    LogGrows(s.log, Admitted(s.row.requested + 1));
    CallKeepsRanges(s.row, c);
  }

  /** While the owner stays, an admission only raises `requested`. */
  lemma CoalescingKeepsPc(s: Sys, u: Sys, k: string, l: Launcher)
    requires PcInv(s, k, l)
             && u == s.(row := s.row.(requested := u.row.requested), log := u.log, launchers := u.launchers)
    requires forall g, x :: Began(s.log, g, x) ==> Began(u.log, g, x)
    ensures PcInv(u, k, l)
  {
  }

  /** A new owner, when nobody is at an owner's program point, surprises nobody. */
  lemma SuccessionKeepsPc(s: Sys, u: Sys, k: string, l: Launcher)
    requires PcInv(s, k, l) && !OwnerPc(l.pc)
    requires u.table == s.table && u.born == s.born && u.row.execution == s.row.execution
    requires u.row.owner.Some? && u.row.owner.value.token != k
    ensures PcInv(u, k, l)
  {
  }

  lemma LostAttemptInv(s: Sys, step: Step)
    requires Inv(s) && step.TryAdmit? && Enabled(s, step)
    requires Admit(s.row, AtPc(s, step.token).seen, AtPc(s, step.token).alive, step.o).1.OwnerChanged?
    ensures Inv(Apply(s, step))
  {
    assert LauncherInv(s, step.token);
    GotoInv(s, step.token, AtPc(Apply(s, step), step.token));
  }

  lemma AdmittedKeepsShared(s: Sys, step: Step)
    requires Inv(s) && step.TryAdmit? && Enabled(s, step)
    requires !Admit(s.row, AtPc(s, step.token).seen, AtPc(s, step.token).alive, step.o).1.OwnerChanged?
    ensures SharedInv(Apply(s, step)) && Apply(s, step).launchers.Keys <= Apply(s, step).usedTokens
  {
    var t := step.token;
    assert LauncherInv(s, t);
    hide SharedInv, InRange;
    var u := Apply(s, step);
    var shared := u.(launchers := s.launchers);
    AdmissionKeepsShared(s, shared, CallAdmit(AtPc(s, t).seen, AtPc(s, t).alive, step.o));
    SharedInvFrame(shared, u);
  }

  lemma TryAdmitInv(s: Sys, step: Step)
    requires Inv(s) && step.TryAdmit? && Enabled(s, step)
    ensures Inv(Apply(s, step))
  {
    hide SharedInv, LaunchersInv, Admit, Apply;
    var answer := Admit(s.row, AtPc(s, step.token).seen, AtPc(s, step.token).alive, step.o).1;
    if answer.OwnerChanged? {
      LostAttemptInv(s, step);
    } else {
      AdmittedKeepsShared(s, step);
      if answer.Coalesced? {
        CoalescedInv(s, step);
      } else {
        GrantedInv(s, step);
      }
    }
  }

  lemma CoalescedInv(s: Sys, step: Step)
    requires Inv(s) && step.TryAdmit? && Enabled(s, step)
    requires Admit(s.row, AtPc(s, step.token).seen, AtPc(s, step.token).alive, step.o).1.Coalesced?
    ensures LaunchersInv(Apply(s, step))
  {
    var u := Apply(s, step);
    LogGrows(s.log, Admitted(u.row.requested));
    forall k | k in u.launchers
      ensures LauncherInv(u, k)
    {
      assert LauncherInv(s, k);
      if k != step.token {
        CoalescingKeepsPc(s, u, k, s.launchers[k]);
      }
    }
  }

  lemma GrantedInv(s: Sys, step: Step)
    requires Inv(s) && step.TryAdmit? && Enabled(s, step)
    requires Admit(s.row, AtPc(s, step.token).seen, AtPc(s, step.token).alive, step.o).1.Granted?
    ensures LaunchersInv(Apply(s, step))
  {
    var u := Apply(s, step);
    AdmissionIsSafe(s, step);
    forall k | k in u.launchers
      ensures LauncherInv(u, k)
    {
      assert LauncherInv(s, k);
      if k != step.token {
        SuccessionKeepsPc(s, u, k, s.launchers[k]);
      }
    }
  }
}
