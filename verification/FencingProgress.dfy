/**
 * The protocol does start executions: whenever the row has no owner and no recorded execution, a newly
 * invoked launcher can go all the way to a Git-capable process.
 */
module FencingProgress {
  import opened Base
  import opened ReconcilerRow
  import opened Transitions
  import opened ProcessTable
  import opened Fencing
  import Runs = FencingRuns

  /** Fresh names and numbers for one execution. */
  datatype Fresh = Fresh(token: string, execToken: string, launcher: int, controller: int, supervisor: int,
                         identity: string)

  /** The names and numbers the execution will need are still unused. */
  predicate Spare(s: Sys, f: Fresh) {
    && NonBlank(f.token) && NonBlank(f.execToken) && f.execToken !in s.usedTokens
    && CanSpawn(s, f.controller, f.identity) && CanSpawn(s, f.supervisor, f.identity) && f.controller != f.supervisor
  }

  /** A launcher may be invoked as well. */
  predicate Available(s: Sys, f: Fresh) {
    && Spare(s, f) && f.token !in s.usedTokens && f.token != f.execToken
    && CanSpawn(s, f.launcher, f.identity) && f.launcher != f.controller && f.launcher != f.supervisor
  }

  predicate Free(row: State) {
    row.owner.None? && row.execution.None? && 0 <= row.requested < MAX_SAFE_INTEGER
  }

  predicate At(s: Sys, f: Fresh, pc: Pc) {
    f.token in s.launchers && s.launchers[f.token] == Launcher(f.launcher, f.identity, pc)
  }

  /** The launcher owns the row under this generation. */
  predicate Owns(s: Sys, f: Fresh, g: int) {
    && SafePositive(f.launcher) && SafePositive(g)
    && Holds(s.row, f.token, f.launcher) && s.row.owner.value.running == g
  }

  function BoundaryFor(f: Fresh): Boundary {
    Boundary(f.execToken, f.controller, f.identity)
  }

  ghost predicate Leads(s: Sys, u: Sys) {
    exists run :: Runs.Possible(s, run) && Runs.After(s, run) == u
  }

  lemma {:induction false} Appends(s: Sys, run: seq<Step>, step: Step)
    requires Runs.Possible(s, run) && Enabled(Runs.After(s, run), step)
    ensures Runs.Possible(s, run + [step]) && Runs.After(s, run + [step]) == Apply(Runs.After(s, run), step)
    decreases |run|
  {
    hide Enabled, Apply;
    if run == [] {
      var u := Apply(s, step);
      assert (run + [step])[1..] == [];
      assert Runs.Possible(u, []) && Runs.After(u, []) == u;
    } else {
      assert (run + [step])[1..] == run[1..] + [step];
      Appends(Apply(s, run[0]), run[1..], step);
    }
  }

  lemma LeadsOn(s: Sys, u: Sys, step: Step)
    requires Leads(s, u) && Enabled(u, step)
    ensures Leads(s, Apply(u, step))
  {
    hide Enabled, Apply;
    var run :| Runs.Possible(s, run) && Runs.After(s, run) == u;
    Appends(s, run, step);
  }

  /** A step of the launcher that creates no process. */
  predicate OnlyMoves(s: Sys, v: Sys, t: string) {
    && t in s.launchers && t in v.launchers
    && v == s.(row := v.row, launchers := v.launchers, log := v.log, startSent := v.startSent)
    && v.launchers == s.launchers[t := s.launchers[t].(pc := v.launchers[t].pc)]
  }

  lemma Enters(s: Sys, f: Fresh) returns (v: Sys, step: Step)
    requires Available(s, f)
    ensures Enabled(s, step) && v == Apply(s, step)
    ensures At(v, f, Admitting(0)) && v.row == s.row && Spare(v, f)
    ensures v.launchers == s.launchers[f.token := Launcher(f.launcher, f.identity, Admitting(0))]
    ensures v.usedTokens == s.usedTokens + {f.token}
    ensures v.table == s.table[f.launcher := Process(f.identity, f.launcher, LauncherRole(f.token))]
    ensures v.born == s.born + {(f.launcher, f.identity)}
  {
    step := Invoke(f.token, f.launcher, f.identity, f.launcher);
    v := Apply(s, step);
  }

  lemma Looks(s: Sys, f: Fresh) returns (v: Sys, step: Step)
    requires At(s, f, Admitting(0)) && Spare(s, f)
    ensures Enabled(s, step) && v == Apply(s, step)
    ensures At(v, f, Looked(0, s.row)) && v.row == s.row && Spare(v, f)
    ensures OnlyMoves(s, v, f.token)
  {
    step := Look(f.token);
    v := Apply(s, step);
  }

  lemma Probes(s: Sys, f: Fresh) returns (v: Sys, step: Step)
    requires At(s, f, Looked(0, s.row)) && Spare(s, f) && Free(s.row)
    ensures Enabled(s, step) && v == Apply(s, step)
    ensures At(v, f, Probed(0, s.row, false)) && v.row == s.row && Spare(v, f)
    ensures OnlyMoves(s, v, f.token)
  {
    step := Probe(f.token, false);
    v := Apply(s, step);
  }

  lemma TakesOver(s: Sys, f: Fresh) returns (v: Sys, step: Step)
    requires At(s, f, Probed(0, s.row, false)) && Spare(s, f) && Free(s.row) && SafePositive(f.launcher)
    ensures Enabled(s, step) && v == Apply(s, step)
    ensures At(v, f, Recovering(s.row.requested + 1)) && Spare(v, f)
    ensures v.row.execution.None? && Owns(v, f, s.row.requested + 1)
    ensures OnlyMoves(s, v, f.token)
    ensures v.row.owner.Some? && v.row.owner.value.identity == f.identity
    ensures v.row == s.row.(owner := v.row.owner, requested := s.row.requested + 1)
  {
    step := TryAdmit(f.token, Registrant(f.token, f.launcher, 0, f.identity, f.identity, f.identity, None, 0));
    v := Apply(s, step);
  }

  lemma FindsNoPrior(s: Sys, f: Fresh, g: int) returns (v: Sys, step: Step)
    requires At(s, f, Recovering(g)) && Spare(s, f) && s.row.execution.None? && Owns(s, f, g)
    ensures Enabled(s, step) && v == Apply(s, step)
    ensures At(v, f, Preparing(g)) && Spare(v, f) && v.row == s.row
    ensures OnlyMoves(s, v, f.token)
  {
    step := ReadPrior(f.token);
    v := Apply(s, step);
  }

  lemma Prepares(s: Sys, f: Fresh, g: int) returns (v: Sys, step: Step)
    requires At(s, f, Preparing(g)) && Spare(s, f)
    ensures Enabled(s, step) && v == Apply(s, step)
    ensures At(v, f, PassReady(g)) && Spare(v, f) && v.row == s.row
    ensures OnlyMoves(s, v, f.token)
  {
    step := RuntimeReady(f.token);
    v := Apply(s, step);
  }

  /** The controller is there, inert; its supervisor can still be born. */
  predicate Inert(s: Sys, f: Fresh) {
    && NonBlank(f.token) && NonBlank(f.execToken) && NonBlank(f.identity) && SafePositive(f.controller)
    && f.controller in s.table
    && s.table[f.controller] == Process(f.identity, f.controller, ControllerRole(f.execToken))
    && CanSpawn(s, f.supervisor, f.identity)
  }

  lemma Spawns(s: Sys, f: Fresh, g: int) returns (v: Sys, step: Step)
    requires At(s, f, PassReady(g)) && Spare(s, f)
    ensures Enabled(s, step) && v == Apply(s, step)
    ensures At(v, f, Paused(g, BoundaryFor(f))) && Inert(v, f) && v.row == s.row
    ensures v.launchers == s.launchers[f.token := Launcher(f.launcher, f.identity, Paused(g, BoundaryFor(f)))]
    ensures v.usedTokens == s.usedTokens + {f.execToken}
    ensures v.table == s.table[f.controller := Process(f.identity, f.controller, ControllerRole(f.execToken))]
    ensures v.born == s.born + {(f.controller, f.identity)}
  {
    step := SpawnController(f.token, f.execToken, f.controller, f.identity);
    v := Apply(s, step);
  }

  lemma Records(s: Sys, f: Fresh, g: int) returns (v: Sys, step: Step)
    requires At(s, f, Paused(g, BoundaryFor(f))) && Inert(s, f) && Owns(s, f, g) && s.row.execution.None?
    ensures Enabled(s, step) && v == Apply(s, step)
    ensures At(v, f, Recorded(g, BoundaryFor(f))) && Inert(v, f) && Owns(v, f, g)
    ensures RecordsBoundary(v, f.token, g, BoundaryFor(f)) && v.row.execution.value.state == REGISTERED
    ensures OnlyMoves(s, v, f.token)
    ensures v.row == s.row.(execution := v.row.execution)
  {
    step := Record(f.token);
    v := Apply(s, step);
  }

  lemma IsAuthorized(s: Sys, f: Fresh, g: int) returns (v: Sys, step: Step)
    requires At(s, f, Recorded(g, BoundaryFor(f))) && Inert(s, f) && Owns(s, f, g)
    requires RecordsBoundary(s, f.token, g, BoundaryFor(f)) && s.row.execution.value.state == REGISTERED
    ensures Enabled(s, step) && v == Apply(s, step)
    ensures At(v, f, Authorized(g, BoundaryFor(f))) && Inert(v, f)
  {
    step := AuthorizeStart(f.token);
    v := Apply(s, step);
  }

  lemma Starts(s: Sys, f: Fresh, g: int) returns (v: Sys, step: Step)
    requires At(s, f, Authorized(g, BoundaryFor(f))) && Inert(s, f)
    ensures Enabled(s, step) && v == Apply(s, step)
    ensures Inert(v, f) && f.execToken in v.startSent
  {
    step := SendStart(f.token);
    v := Apply(s, step);
  }

  lemma Works(s: Sys, f: Fresh) returns (v: Sys, step: Step)
    requires Inert(s, f) && f.execToken in s.startSent
    ensures Enabled(s, step) && v == Apply(s, step)
    ensures GitCapable(v.table, f.execToken)
  {
    step := Supervise(f.controller, f.supervisor, f.identity);
    v := Apply(s, step);
    assert v.table[f.supervisor].role == WorkerRole(f.execToken);
  }

  lemma OnlyMovesOn(s: Sys, u: Sys, v: Sys, t: string)
    requires OnlyMoves(s, u, t) && OnlyMoves(u, v, t)
    ensures OnlyMoves(s, v, t)
  {
  }

  /** A launcher that has entered a free row takes it over. */
  lemma LeadsToOwner(s: Sys, entered: Sys, f: Fresh) returns (u: Sys)
    requires Leads(s, entered) && At(entered, f, Admitting(0)) && Spare(entered, f) && SafePositive(f.launcher)
    requires Free(entered.row)
    ensures Leads(s, u) && OnlyMoves(entered, u, f.token) && At(u, f, Recovering(entered.row.requested + 1))
            && Spare(u, f)
    ensures u.row == entered.row.(owner := u.row.owner, requested := entered.row.requested + 1)
    ensures Owns(u, f, entered.row.requested + 1) && u.row.owner.value.identity == f.identity
  {
    hide Enabled, Apply, Leads, Spare, OnlyMoves;
    var a, b, step;
    a, step := Looks(entered, f);
    LeadsOn(s, entered, step);
    b, step := Probes(a, f);
    LeadsOn(s, a, step);
    OnlyMovesOn(entered, a, b, f.token);
    u, step := TakesOver(b, f);
    LeadsOn(s, b, step);
    OnlyMovesOn(entered, b, u, f.token);
  }

  /** From any free row, a new launcher can reach a Git-capable execution of its own. */
  lemma ExecutionsHappen(s: Sys, f: Fresh) returns (u: Sys)
    requires Available(s, f) && Free(s.row)
    ensures Leads(s, u) && GitCapable(u.table, f.execToken)
  {
    assert Leads(s, s) by {
      assert Runs.Possible(s, []) && Runs.After(s, []) == s;
    }
    assert SafePositive(f.launcher);
    hide Enabled, Apply, Leads, Spare, Inert, RecordsBoundary, GitCapable, OnlyMoves;
    var g := s.row.requested + 1;
    var step;
    u, step := Enters(s, f);
    LeadsOn(s, s, step);
    u := LeadsToReady(s, u, f, g);
    u := LeadsToStart(s, u, f, g);
    var started := u;
    u, step := Works(started, f);
    LeadsOn(s, started, step);
  }

  lemma LeadsToReady(s: Sys, entered: Sys, f: Fresh, g: int) returns (u: Sys)
    requires Leads(s, entered) && At(entered, f, Admitting(0)) && Spare(entered, f) && SafePositive(f.launcher)
    requires Free(entered.row) && g == entered.row.requested + 1
    ensures Leads(s, u) && At(u, f, PassReady(g)) && Spare(u, f) && u.row.execution.None? && Owns(u, f, g)
  {
    hide Enabled, Apply, Leads, Spare, OnlyMoves;
    var a, b, c, d, step;
    a, step := Looks(entered, f);
    LeadsOn(s, entered, step);
    b, step := Probes(a, f);
    LeadsOn(s, a, step);
    c, step := TakesOver(b, f);
    LeadsOn(s, b, step);
    d, step := FindsNoPrior(c, f, g);
    LeadsOn(s, c, step);
    u, step := Prepares(d, f, g);
    LeadsOn(s, d, step);
  }

  lemma LeadsToStart(s: Sys, ready: Sys, f: Fresh, g: int) returns (u: Sys)
    requires Leads(s, ready) && At(ready, f, PassReady(g)) && Spare(ready, f)
    requires ready.row.execution.None? && Owns(ready, f, g)
    ensures Leads(s, u) && Inert(u, f) && f.execToken in u.startSent
  {
    hide Enabled, Apply, Leads, Spare, Inert, RecordsBoundary, OnlyMoves;
    var a, b, c, step;
    a, step := Spawns(ready, f, g);
    LeadsOn(s, ready, step);
    b, step := Records(a, f, g);
    LeadsOn(s, a, step);
    c, step := IsAuthorized(b, f, g);
    LeadsOn(s, b, step);
    u, step := Starts(c, f, g);
    LeadsOn(s, c, step);
  }
}
