/**
 * No state of the protocol is a dead end: whatever crashed, whatever is recorded and whatever processes are about,
 * everything requested so far can still be served.
 */
module FencingRecovery {
  import opened Base
  import opened ReconcilerRow
  import opened Transitions
  import opened ProcessTable
  import opened Fencing
  import opened FencingSteps
  import opened FencingProgress
  import Runs = FencingRuns

  /** A process that is a launcher is one of the live launchers. */
  predicate LaunchersKnown(s: Sys) {
    forall p :: p in s.table && s.table[p].role.LauncherRole? ==>
      s.table[p].role.token in s.launchers && s.launchers[s.table[p].role.token].pid == p
  }

  /** Neither the table nor who the launchers are changes. */
  predicate SamePeople(s: Sys, u: Sys) {
    u.table == s.table && u.launchers.Keys == s.launchers.Keys
    && forall t :: t in s.launchers ==> u.launchers[t].pid == s.launchers[t].pid
  }

  predicate ChangesPeople(step: Step) {
    step.Outsider? || step.Fork? || step.Supervise? || step.Die? || step.Crash? || step.Invoke? || step.SpawnController?
  }

  lemma NewcomersKeepPeople(s: Sys, step: Step)
    requires Enabled(s, step) && !ChangesPeople(step) && Runs.EarlyStep(step)
    ensures SamePeople(s, Apply(s, step))
  {
    hide Admit, Clear, OwnerSeemsAlive, GroupExists, CanSpawn, ForeignGroup, AcceptableRegistrant;
  }

  lemma FinishKeepsPeople(s: Sys, t: string, g: int, success: bool, now: int, next: int -> Pc)
    requires t in s.launchers
    ensures SamePeople(s, AfterFinish(s, t, g, success, now, next))
  {
    hide Finish;
  }

  lemma ClearKeepsPeople(s: Sys, t: string, execToken: string, cleared: Pc, refused: Pc)
    requires t in s.launchers
    ensures SamePeople(s, AfterClear(s, t, execToken, cleared, refused))
  {
    hide Clear;
  }

  lemma EndsKeepPeople(s: Sys, step: Step)
    requires Enabled(s, step)
    requires step.RuntimeFailed? || step.FinishPass? || step.ClearPass? || step.ClearStopped?
    ensures SamePeople(s, Apply(s, step))
  {
    var t, pc := step.token, AtPc(s, step.token);
    if step.RuntimeFailed? {
      FinishKeepsPeople(s, t, pc.generation, false, step.now, g => Preparing(g));
    } else if step.FinishPass? {
      FinishKeepsPeople(s, t, pc.generation, pc.success, step.now, g => PassReady(g));
    } else if step.ClearPass? {
      var next := Cleared(pc.generation, pc.b.token, pc.success);
      ClearKeepsPeople(s, t, pc.b.token, next, Stopping(pc.generation, pc.b, true));
    } else if pc.recorded {
      ClearKeepsPeople(s, t, pc.b.token, Leaving, Leaving);
    }
    hide AfterFinish, AfterClear;
  }

  lemma OwnersKeepPeople(s: Sys, step: Step)
    requires Enabled(s, step) && !ChangesPeople(step) && !Runs.EarlyStep(step)
    ensures SamePeople(s, Apply(s, step))
  {
    if step.RuntimeFailed? || step.FinishPass? || step.ClearPass? || step.ClearStopped? {
      EndsKeepPeople(s, step);
    } else {
      hide AfterFinish, AfterClear, RegisterExecution, Authorize, Release, Heartbeat, GroupExists, CanSpawn,
        DescriptorOf;
    }
  }

  lemma OthersKeepPeople(s: Sys, step: Step)
    requires Enabled(s, step) && !ChangesPeople(step)
    ensures SamePeople(s, Apply(s, step))
  {
    hide *;
    if Runs.EarlyStep(step) {
      NewcomersKeepPeople(s, step);
    } else {
      OwnersKeepPeople(s, step);
    }
  }

  lemma StepKnowsLaunchers(s: Sys, step: Step)
    requires Inv(s) && Enabled(s, step) && LaunchersKnown(s)
    ensures LaunchersKnown(Apply(s, step))
  {
    if ChangesPeople(step) {
      assert step.Crash? ==> LauncherInv(s, step.token);
      hide SharedInv;
    } else {
      OthersKeepPeople(s, step);
      hide Inv, Enabled, Apply;
    }
  }

  lemma {:induction false} RunKnowsLaunchers(s: Sys, run: seq<Step>)
    requires Inv(s) && LaunchersKnown(s) && Runs.Possible(s, run)
    ensures LaunchersKnown(Runs.After(s, run)) && Inv(Runs.After(s, run))
    decreases |run|
  {
    if run != [] {
      hide Inv, Enabled, Apply, LaunchersKnown;
      StepKnowsLaunchers(s, run[0]);
      Runs.StepInv(s, run[0]);
      RunKnowsLaunchers(Apply(s, run[0]), run[1..]);
    }
  }

  // ---------------------------------------------------------------------------------------------
  // The worst that can happen: every process dies.

  lemma LeadsFrom(s: Sys, step: Step, u: Sys)
    requires Enabled(s, step) && Leads(Apply(s, step), u)
    ensures Leads(s, u)
  {
    hide Enabled, Apply;
    var run :| Runs.Possible(Apply(s, step), run) && Runs.After(Apply(s, step), run) == u;
    assert ([step] + run)[1..] == run;
    assert Runs.Possible(s, [step] + run) && Runs.After(s, [step] + run) == u;
  }

  lemma LeadsNowhere(s: Sys)
    ensures Leads(s, s)
  {
    assert Runs.Possible(s, []) && Runs.After(s, []) == s;
  }

  /** One process less. */
  lemma OneDies(s: Sys, p: int) returns (step: Step)
    requires Inv(s) && LaunchersKnown(s) && p in s.table
    ensures Enabled(s, step)
    ensures var u := Apply(s, step);
            u == s.(table := s.table - {p}, launchers := u.launchers) && u.launchers.Keys <= s.launchers.Keys
  {
    step := if s.table[p].role.LauncherRole? then Crash(s.table[p].role.token) else Die(p);
  }

  lemma {:induction false} AllDie(s: Sys) returns (u: Sys)
    requires Inv(s) && LaunchersKnown(s)
    ensures Leads(s, u) && u == s.(table := map[], launchers := map[])
    decreases |s.table|
  {
    if |s.table| > 0 {
      var p := SomeoneIn(s.table);
      var step := OneDies(s, p);
      var v := Apply(s, step);
      StepKnowsLaunchers(s, step);
      Runs.StepInv(s, step);
      assert v.table == s.table - {p};
      Fewer(s.table, p);
      hide Inv, Enabled, Apply, LaunchersKnown, Leads;
      u := AllDie(v);
      LeadsFrom(s, step, u);
    } else {
      u := s;
      LeadsNowhere(s);
      NobodyWithoutAProcess(s);
    }
  }

  lemma Fewer(t: Table, p: int)
    requires p in t
    ensures |t - {p}| < |t|
  {
    assert (t - {p}).Keys == t.Keys - {p};
    assert |(t - {p}).Keys| == |t - {p}| && |t.Keys| == |t|;
  }

  lemma SomeoneIn(t: Table) returns (p: int)
    requires |t| > 0
    ensures p in t
  {
    EmptyOrNot(t.Keys);
    p :| p in t.Keys;
  }

  lemma EmptyOrNot(keys: set<int>)
    ensures keys == {} || exists q :: q in keys
  {
    if forall q :: q !in keys {
      assert keys == {};
    }
  }

  lemma NobodyWithoutAProcess(s: Sys)
    requires Inv(s) && s.table == map[]
    ensures s.launchers == map[]
  {
    hide SharedInv;
    forall t
      ensures t !in s.launchers
    {
      assert t in s.launchers ==> LauncherInv(s, t);
    }
  }

  // ---------------------------------------------------------------------------------------------
  // Names nobody has used.

  lemma {:induction false} LongName(used: set<string>) returns (x: string)
    ensures NonBlank(x) && forall y :: y in used ==> |y| < |x|
    decreases |used|
  {
    if used == {} {
      x := "x";
      assert !IsSpace(x[0]);
    } else {
      var y :| y in used;
      var z := LongName(used - {y});
      x := z + y;
      var i :| 0 <= i < |z| && !IsSpace(z[i]);
      assert x[i] == z[i];
      assert forall w :: w in used ==> w == y || w in used - {y};
    }
  }

  /** Fresh names for one execution, in a world without processes. */
  lemma FreshNames(s: Sys, avoid: int) returns (f: Fresh)
    requires s.table == map[]
    ensures Available(s, f) && f.launcher != avoid && SafePositive(f.launcher)
  {
    var token := LongName(s.usedTokens);
    var execToken := LongName(s.usedTokens + {token});
    var identities := set b | b in s.born :: b.1;
    var identity := LongName(identities);
    forall p
      ensures (p, identity) !in s.born
    {
      assert (p, identity) in s.born ==> (p, identity).1 in identities;
    }
    f := Fresh(token, execToken, if avoid == 1 then 2 else 1, 3, 4, identity);
  }

  predicate Apart(f: Fresh) {
    f.controller != f.launcher && f.launcher != f.supervisor && f.supervisor != f.controller
  }

  // ---------------------------------------------------------------------------------------------
  // One launcher alone: it takes over, recovers, works, and completes everything.

  /** Nobody else is alive; `others` are the processes besides the launcher. */
  predicate Alone(s: Sys, f: Fresh, pc: Pc, others: Table) {
    && s.launchers == map[f.token := Launcher(f.launcher, f.identity, pc)]
    && s.table == others + map[f.launcher := Process(f.identity, f.launcher, LauncherRole(f.token))]
  }

  /** It looks and finds no owner that is alive. */
  lemma FindsADeadOwner(s: Sys, f: Fresh) returns (v: Sys, step: Step)
    requires Alone(s, f, Looked(0, s.row), map[]) && Spare(s, f)
    requires s.row.owner.Some? ==> (s.row.owner.value.pid, s.row.owner.value.identity) != (f.launcher, f.identity)
    ensures Enabled(s, step) && v == Apply(s, step)
    ensures Alone(v, f, Probed(0, s.row, false), map[]) && v.row == s.row && Spare(v, f)
  {
    step := Probe(f.token, false);
    v := Apply(s, step);
  }

  /** It becomes the owner, whatever execution is recorded. */
  lemma Succeeds(s: Sys, f: Fresh) returns (v: Sys, step: Step)
    requires Alone(s, f, Probed(0, s.row, false), map[]) && Spare(s, f) && SafePositive(f.launcher)
    requires 0 <= s.row.requested < MAX_SAFE_INTEGER
    ensures Enabled(s, step) && v == Apply(s, step)
    ensures Alone(v, f, Recovering(s.row.requested + 1), map[]) && Spare(v, f)
    ensures Owns(v, f, s.row.requested + 1)
    ensures v.row == s.row.(owner := v.row.owner, requested := s.row.requested + 1)
  {
    step := TryAdmit(f.token, Registrant(f.token, f.launcher, 0, f.identity, f.identity, f.identity, None, 0));
    v := Apply(s, step);
  }

  lemma ReadsPrior(s: Sys, f: Fresh, g: int) returns (v: Sys, step: Step)
    requires Alone(s, f, Recovering(g), map[]) && Spare(s, f)
    ensures Enabled(s, step) && v == Apply(s, step) && v.row == s.row && Spare(v, f)
    ensures Alone(v, f, if s.row.execution.None? then Preparing(g) else RecoverWait(g, s.row.execution.value), map[])
  {
    step := ReadPrior(f.token);
    v := Apply(s, step);
  }

  lemma PriorIsGone(s: Sys, f: Fresh, g: int, e: Execution) returns (v: Sys, step: Step)
    requires Alone(s, f, RecoverWait(g, e), map[]) && Spare(s, f) && e.group != f.launcher
    ensures Enabled(s, step) && v == Apply(s, step) && v.row == s.row && Spare(v, f)
    ensures Alone(v, f, RecoverGone(g, e), map[])
  {
    step := PriorGone(f.token);
    v := Apply(s, step);
  }

  lemma PriorIsCleared(s: Sys, f: Fresh, g: int, e: Execution) returns (v: Sys, step: Step)
    requires Alone(s, f, RecoverGone(g, e), map[]) && Spare(s, f) && Owns(s, f, g) && s.row.execution == Some(e)
    ensures Enabled(s, step) && v == Apply(s, step) && v.row == s.row.(execution := None) && Spare(v, f)
    ensures Alone(v, f, Preparing(g), map[]) && Owns(v, f, g)
  {
    step := ClearPrior(f.token);
    v := Apply(s, step);
  }

  lemma IsReady(s: Sys, f: Fresh, g: int) returns (v: Sys, step: Step)
    requires Alone(s, f, Preparing(g), map[]) && Spare(s, f)
    ensures Enabled(s, step) && v == Apply(s, step) && v.row == s.row && Spare(v, f)
    ensures Alone(v, f, PassReady(g), map[])
  {
    step := RuntimeReady(f.token);
    v := Apply(s, step);
  }

  function ControllerOf(f: Fresh): Table {
    map[f.controller := Process(f.identity, f.controller, ControllerRole(f.execToken))]
  }

  lemma HasController(s: Sys, f: Fresh, g: int) returns (v: Sys, step: Step)
    requires Alone(s, f, PassReady(g), map[]) && Spare(s, f) && f.controller != f.launcher
    ensures Enabled(s, step) && v == Apply(s, step) && v.row == s.row && Inert(v, f)
    ensures Alone(v, f, Paused(g, BoundaryFor(f)), ControllerOf(f))
  {
    step := SpawnController(f.token, f.execToken, f.controller, f.identity);
    v := Apply(s, step);
  }

  lemma HasRecord(s: Sys, f: Fresh, g: int) returns (v: Sys, step: Step)
    requires Alone(s, f, Paused(g, BoundaryFor(f)), ControllerOf(f)) && Inert(s, f) && Owns(s, f, g)
    requires s.row.execution.None?
    ensures Enabled(s, step) && v == Apply(s, step) && Inert(v, f) && v.row == s.row.(execution := v.row.execution)
    ensures Alone(v, f, Recorded(g, BoundaryFor(f)), ControllerOf(f))
    ensures RecordsBoundary(v, f.token, g, BoundaryFor(f)) && v.row.execution.value.state == REGISTERED
  {
    step := Record(f.token);
    v := Apply(s, step);
  }

  lemma HasStart(s: Sys, f: Fresh, g: int) returns (v: Sys, step: Step)
    requires Alone(s, f, Recorded(g, BoundaryFor(f)), ControllerOf(f)) && Inert(s, f) && Owns(s, f, g)
    requires RecordsBoundary(s, f.token, g, BoundaryFor(f)) && s.row.execution.value.state == REGISTERED
    ensures Enabled(s, step) && v == Apply(s, step) && Inert(v, f) && v.row == s.row.(execution := v.row.execution)
    ensures Alone(v, f, Authorized(g, BoundaryFor(f)), ControllerOf(f))
    ensures RecordsBoundary(v, f.token, g, BoundaryFor(f))
  {
    step := AuthorizeStart(f.token);
    v := Apply(s, step);
  }

  lemma IsRunning(s: Sys, f: Fresh, g: int) returns (v: Sys, step: Step)
    requires Alone(s, f, Authorized(g, BoundaryFor(f)), ControllerOf(f)) && Inert(s, f)
    ensures Enabled(s, step) && v == Apply(s, step) && Inert(v, f) && v.row == s.row
    ensures Alone(v, f, Running(g, BoundaryFor(f)), ControllerOf(f)) && f.execToken in v.startSent
  {
    step := SendStart(f.token);
    v := Apply(s, step);
  }

  function WorkerOf(f: Fresh): Table {
    map[f.supervisor := Process(f.identity, f.controller, WorkerRole(f.execToken))]
  }

  lemma IsWorking(s: Sys, f: Fresh, g: int) returns (v: Sys, step: Step)
    requires Alone(s, f, Running(g, BoundaryFor(f)), ControllerOf(f)) && Inert(s, f) && f.execToken in s.startSent
    requires f.supervisor != f.launcher
    ensures Enabled(s, step) && v == Apply(s, step) && v.row == s.row
    ensures Alone(v, f, Running(g, BoundaryFor(f)), ControllerOf(f) + WorkerOf(f)) && GitCapable(v.table, f.execToken)
  {
    step := Supervise(f.controller, f.supervisor, f.identity);
    v := Apply(s, step);
    assert v.table[f.supervisor].role == WorkerRole(f.execToken);
  }

  lemma WorkerEnds(s: Sys, f: Fresh, g: int) returns (v: Sys, step: Step)
    requires Alone(s, f, Running(g, BoundaryFor(f)), ControllerOf(f) + WorkerOf(f)) && Apart(f)
    ensures Enabled(s, step) && v == Apply(s, step) && v.row == s.row
    ensures Alone(v, f, Running(g, BoundaryFor(f)), ControllerOf(f))
  {
    step := Die(f.supervisor);
    v := Apply(s, step);
    assert v.table == ControllerOf(f) + map[f.launcher := Process(f.identity, f.launcher, LauncherRole(f.token))];
  }

  lemma ControllerEnds(s: Sys, f: Fresh, g: int) returns (v: Sys, step: Step)
    requires Alone(s, f, Running(g, BoundaryFor(f)), ControllerOf(f)) && f.controller != f.launcher
    ensures Enabled(s, step) && v == Apply(s, step) && v.row == s.row
    ensures Alone(v, f, Running(g, BoundaryFor(f)), map[])
  {
    step := Die(f.controller);
    v := Apply(s, step);
    assert v.table == map[] + map[f.launcher := Process(f.identity, f.launcher, LauncherRole(f.token))];
  }

  lemma GroupIsGone(s: Sys, f: Fresh, g: int) returns (v: Sys, step: Step)
    requires Alone(s, f, Running(g, BoundaryFor(f)), map[]) && f.controller != f.launcher
    ensures Enabled(s, step) && v == Apply(s, step) && v.row == s.row
    ensures Alone(v, f, Gone(g, BoundaryFor(f), true), map[])
  {
    step := PassGone(f.token, true);
    v := Apply(s, step);
  }

  lemma PassIsCleared(s: Sys, f: Fresh, g: int) returns (v: Sys, step: Step)
    requires Alone(s, f, Gone(g, BoundaryFor(f), true), map[]) && Owns(s, f, g)
    requires RecordsBoundary(s, f.token, g, BoundaryFor(f))
    ensures Enabled(s, step) && v == Apply(s, step) && v.row == s.row.(execution := None)
    ensures Alone(v, f, Cleared(g, f.execToken, true), map[])
  {
    step := ClearPass(f.token);
    v := Apply(s, step);
  }

  lemma PassIsFinished(s: Sys, f: Fresh, g: int) returns (v: Sys, step: Step)
    requires Alone(s, f, Cleared(g, f.execToken, true), map[]) && Owns(s, f, g)
    requires s.row.execution.None? && s.row.requested == g
    ensures Enabled(s, step) && v == Apply(s, step) && v.row == State(g, g, None, None)
    ensures Alone(v, f, Done, map[])
  {
    step := FinishPass(f.token, 0);
    v := Apply(s, step);
  }

  // ---------------------------------------------------------------------------------------------
  // All of it.

  /** In an empty world a new launcher takes the row over. */
  lemma LeadsToTakeover(s: Sys, empty: Sys, f: Fresh) returns (u: Sys)
    requires Leads(s, empty) && empty.table == map[] && empty.launchers == map[] && Available(empty, f)
    requires 0 <= empty.row.requested < MAX_SAFE_INTEGER && SafePositive(f.launcher)
    requires empty.row.owner.Some? ==>
               (empty.row.owner.value.pid, empty.row.owner.value.identity) != (f.launcher, f.identity)
    ensures Leads(s, u) && Alone(u, f, Recovering(empty.row.requested + 1), map[]) && Spare(u, f)
    ensures Owns(u, f, empty.row.requested + 1)
    ensures u.row == empty.row.(owner := u.row.owner, requested := empty.row.requested + 1)
  {
    hide Enabled, Apply, Leads, Spare;
    var a, b, c, step;
    a, step := Enters(empty, f);
    LeadsOn(s, empty, step);
    assert Alone(a, f, Admitting(0), map[]);
    b, step := Looks(a, f);
    LeadsOn(s, a, step);
    c, step := FindsADeadOwner(b, f);
    LeadsOn(s, b, step);
    u, step := Succeeds(c, f);
    LeadsOn(s, c, step);
  }

  /** It clears what its predecessor left recorded, and gets ready. */
  lemma LeadsToPrepared(s: Sys, owner: Sys, f: Fresh, g: int) returns (u: Sys)
    requires Leads(s, owner) && Alone(owner, f, Recovering(g), map[]) && Spare(owner, f) && Owns(owner, f, g)
    requires owner.row.execution.Some? ==> owner.row.execution.value.group != f.launcher
    ensures Leads(s, u) && Alone(u, f, PassReady(g), map[]) && Spare(u, f) && Owns(u, f, g)
    ensures u.row == owner.row.(execution := None)
  {
    hide Enabled, Apply, Leads, Spare, Alone;
    var a, b, step;
    u, step := ReadsPrior(owner, f, g);
    LeadsOn(s, owner, step);
    if owner.row.execution.Some? {
      var e := owner.row.execution.value;
      a, step := PriorIsGone(u, f, g, e);
      LeadsOn(s, u, step);
      u, step := PriorIsCleared(a, f, g, e);
      LeadsOn(s, a, step);
    }
    b := u;
    u, step := IsReady(b, f, g);
    LeadsOn(s, b, step);
  }

  /** It has a supervisor at work. */
  lemma LeadsToWork(s: Sys, ready: Sys, f: Fresh, g: int) returns (u: Sys)
    requires Leads(s, ready) && Alone(ready, f, PassReady(g), map[]) && Spare(ready, f) && Owns(ready, f, g)
    requires ready.row.execution.None? && Apart(f)
    ensures Leads(s, u) && Alone(u, f, Running(g, BoundaryFor(f)), ControllerOf(f) + WorkerOf(f))
    ensures GitCapable(u.table, f.execToken)
    ensures u.row == ready.row.(execution := u.row.execution) && RecordsBoundary(u, f.token, g, BoundaryFor(f))
  {
    hide Enabled, Apply, Leads, Spare, Alone, Inert, GitCapable;
    var a, b, c, d, step;
    a, step := HasController(ready, f, g);
    LeadsOn(s, ready, step);
    b, step := HasRecord(a, f, g);
    LeadsOn(s, a, step);
    c, step := HasStart(b, f, g);
    LeadsOn(s, b, step);
    d, step := IsRunning(c, f, g);
    LeadsOn(s, c, step);
    u, step := IsWorking(d, f, g);
    LeadsOn(s, d, step);
  }

  /** The work ends, and the pass is finished. */
  lemma LeadsToDone(s: Sys, busy: Sys, f: Fresh, g: int) returns (u: Sys)
    requires Leads(s, busy) && Alone(busy, f, Running(g, BoundaryFor(f)), ControllerOf(f) + WorkerOf(f))
    requires Owns(busy, f, g) && RecordsBoundary(busy, f.token, g, BoundaryFor(f)) && busy.row.requested == g
    requires Apart(f)
    ensures Leads(s, u) && u.row == State(g, g, None, None)
  {
    hide Enabled, Apply, Leads, Alone;
    var a, b, c, d, step;
    a, step := WorkerEnds(busy, f, g);
    LeadsOn(s, busy, step);
    b, step := ControllerEnds(a, f, g);
    LeadsOn(s, a, step);
    c, step := GroupIsGone(b, f, g);
    LeadsOn(s, b, step);
    d, step := PassIsCleared(c, f, g);
    LeadsOn(s, c, step);
    u, step := PassIsFinished(d, f, g);
    LeadsOn(s, d, step);
  }

  /** Everybody dies, and there are names for a new launcher. */
  lemma LeadsToNobody(run: seq<Step>) returns (empty: Sys, f: Fresh)
    requires Runs.Possible(INIT, run)
    ensures var s := Runs.After(INIT, run);
            && Leads(s, empty) && empty == s.(table := map[], launchers := map[]) && 0 <= s.row.requested
            && Available(empty, f) && Apart(f) && SafePositive(f.launcher) && f.execToken !in s.usedTokens
            && (s.row.owner.Some? ==>
                  (s.row.owner.value.pid, s.row.owner.value.identity) != (f.launcher, f.identity))
            && (s.row.execution.Some? ==> s.row.execution.value.group != f.launcher)
  {
    var s := Runs.After(INIT, run);
    InitInv();
    RunKnowsLaunchers(INIT, run);
    hide LaunchersInv, Apply, Enabled;
    empty := AllDie(s);
    f := FreshNames(empty, if s.row.execution.Some? then s.row.execution.value.group else 0);
  }

  /**
   * From every reachable state, whatever is recorded, whoever owns the row, dead or alive, there is a way on in which
   * a Git-capable execution starts and then everything requested is completed and the row is free: no sequence of
   * crashes, cancellations, failures and reused pids leaves the protocol stuck.
   */
  lemma EverythingCanBeServed(run: seq<Step>) returns (working: Sys, served: Sys, execToken: string)
    requires Runs.Possible(INIT, run) && Runs.After(INIT, run).row.requested < MAX_SAFE_INTEGER
    ensures var s, g := Runs.After(INIT, run), Runs.After(INIT, run).row.requested + 1;
            && Leads(s, working) && GitCapable(working.table, execToken) && execToken !in s.usedTokens
            && Leads(s, served) && served.row == State(g, g, None, None)
  {
    var s := Runs.After(INIT, run);
    var empty, f := LeadsToNobody(run);
    execToken := f.execToken;
    hide *;
    var g := s.row.requested + 1;
    var owner := LeadsToTakeover(s, empty, f);
    var ready := LeadsToPrepared(s, owner, f, g);
    working := LeadsToWork(s, ready, f, g);
    served := LeadsToDone(s, working, f, g);
  }
}
