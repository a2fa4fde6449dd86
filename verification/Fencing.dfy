/**
 * Any number of launchers around one coordinator row and one process table: every public invocation
 * runs the program of src/modules/reconciliation/public-launcher.ts and owned-reconciliation-loop.ts,
 * one step at a time, interleaved with every other launcher and with the operating system, and may be
 * killed between any two steps.
 *
 * The environment is assumed to keep these rules and no others: a coordinator transaction is atomic;
 * tokens are fresh; a pid never gets the same birth identity twice, and a process keeps its own; a pid is
 * not handed out while it names a process or a group; descendants of an execution stay in its group and no outsider
 * joins it; fewer than 2^53 - 1 registrations are made.
 */
module Fencing {
  import opened Base
  import opened ReconcilerRow
  import opened Transitions
  import opened ProcessTable

  /** A prepared controller: it leads its own group, so its pid is the group number. */
  datatype Boundary = Boundary(token: string, pid: int, identity: string)

  /** Where a launcher stands in its program. */
  datatype Pc =
    | Admitting(attempt: nat)                            // about to read the row
    | Looked(attempt: nat, seen: State)                  // row read, owner not probed yet
    | Probed(attempt: nat, seen: State, alive: bool)     // about to open the admission transaction
    | Refused                                            // eight attempts lost
    | Joined(generation: int)                            // coalesced into a live owner
    | Recovering(generation: int)                        // owner; must look at the previous execution
    | RecoverWait(generation: int, prior: Execution)     // terminating the previous execution
    | RecoverGone(generation: int, prior: Execution)     // its group was observed absent
    | Preparing(generation: int)                         // optional runtime preparation
    | PassReady(generation: int)
    | Paused(generation: int, b: Boundary)               // controller READY, inert
    | Recorded(generation: int, b: Boundary)             // descriptor committed as REGISTERED
    | Authorized(generation: int, b: Boundary)           // START_AUTHORIZED committed
    | Running(generation: int, b: Boundary)              // START sent
    | Gone(generation: int, b: Boundary, success: bool)  // group observed absent, result known
    | Cleared(generation: int, token: string, success: bool)
    | Stopping(generation: int, b: Boundary, recorded: bool)  // terminating after cancellation or failure
    | Stopped(generation: int, b: Boundary, recorded: bool)
    | Leaving                                            // best-effort release, then exit
    | Done

  datatype Launcher = Launcher(pid: int, identity: string, pc: Pc)

  /** What an outside observer of commits would have written down. */
  datatype Event =
    | Admitted(generation: int)
    | PassBegan(generation: int, token: string)
    | PassSucceeded(generation: int, token: string)

  datatype Sys = Sys(
    row: State,
    table: Table,
    launchers: map<string, Launcher>,   // live launchers by owner token
    usedTokens: set<string>,
    born: set<(int, string)>,           // every (pid, birth identity) that ever existed
    groupOf: map<string, int>,          // group of every controller ever spawned, by execution token
    startSent: set<string>,             // execution tokens whose START was sent
    log: seq<Event>)

  const INIT: Sys := Sys(INITIAL, map[], map[], {}, {}, map[], {}, [])

  datatype Step =
    // the operating system
    | Outsider(pid: int, identity: string, group: int)
    | Fork(parent: int, pid: int, identity: string)
    | Supervise(controller: int, pid: int, identity: string)
    | Die(pid: int)
    | Crash(token: string)
    // a launcher
    | Invoke(token: string, pid: int, identity: string, group: int)
    | Look(token: string)
    | Probe(token: string, unreadable: bool)
    | TryAdmit(token: string, o: Registrant)
    | ReadPrior(token: string)
    | PriorGone(token: string)
    | ClearPrior(token: string)
    | RuntimeReady(token: string)
    | RuntimeFailed(token: string, now: int)
    | SpawnController(token: string, execToken: string, pid: int, identity: string)
    | Record(token: string)
    | AuthorizeStart(token: string)
    | SendStart(token: string)
    | PassGone(token: string, success: bool)
    | ClearPass(token: string)
    | FinishPass(token: string, now: int)
    | GiveUp(token: string)
    | StopGone(token: string)
    | ClearStopped(token: string)
    | Abandon(token: string)
    | Leave(token: string)
    | Beat(token: string, now: int)

  function AtPc(s: Sys, t: string): Pc
    requires t in s.launchers
  {
    s.launchers[t].pc
  }

  function Goto(s: Sys, t: string, pc: Pc): Sys
    requires t in s.launchers
  {
    s.(launchers := s.launchers[t := s.launchers[t].(pc := pc)])
  }

  /** A new process under a fresh identity on a free pid. */
  predicate CanSpawn(s: Sys, pid: int, identity: string) {
    PidFree(s.table, pid) && SafePositive(pid) && NonBlank(identity) && (pid, identity) !in s.born
  }

  function AddProcess(s: Sys, pid: int, p: Process): Sys {
    s.(table := s.table[pid := p], born := s.born + {(pid, p.identity)})
  }

  /** The group is not the group of an execution that still has members. */
  predicate ForeignGroup(t: Table, group: int) {
    forall p :: p in t && t[p].group == group ==> !t[p].role.ControllerRole? && !t[p].role.WorkerRole?
  }

  /** `ownerIsAlive`: unreadable metadata of a live pid counts as alive. */
  predicate OwnerSeemsAlive(t: Table, seen: State, unreadable: bool) {
    && seen.owner.Some?
    && seen.owner.value.pid in t
    && (unreadable || t[seen.owner.value.pid].identity == seen.owner.value.identity)
  }

  /** The program points at which a launcher acts as the owner. */
  predicate OwnerPc(pc: Pc) {
    !pc.Admitting? && !pc.Looked? && !pc.Probed? && !pc.Refused? && !pc.Joined? && !pc.Done?
  }

  predicate NewcomerPc(pc: Pc) {
    pc.Admitting? || pc.Looked? || pc.Probed?
  }

  function DescriptorOf(b: Boundary): Descriptor {
    Descriptor(b.token, b.pid, b.identity, b.pid, BOUNDARY_KIND)
  }

  predicate Enabled(s: Sys, step: Step) {
    match step
    case Outsider(pid, id, group) => CanSpawn(s, pid, id) && ForeignGroup(s.table, group)
    case Fork(parent, pid, id) => parent in s.table && s.table[parent].role.WorkerRole? && CanSpawn(s, pid, id)
    case Supervise(c, pid, id) =>
      c in s.table && s.table[c].role.ControllerRole? && s.table[c].role.token in s.startSent && CanSpawn(s, pid, id)
    case Die(pid) => pid in s.table && !s.table[pid].role.LauncherRole?
    case Crash(t) => t in s.launchers
    case Invoke(t, pid, id, group) =>
      t !in s.usedTokens && NonBlank(t) && CanSpawn(s, pid, id) && ForeignGroup(s.table, group)
    case Look(t) => t in s.launchers && AtPc(s, t).Admitting?
    case Probe(t, _) => t in s.launchers && AtPc(s, t).Looked?
    case TryAdmit(t, o) =>
      && t in s.launchers && AtPc(s, t).Probed? && AcceptableRegistrant(o)
      && o.token == t && o.pid == s.launchers[t].pid && o.identity == s.launchers[t].identity
      && s.row.requested < MAX_SAFE_INTEGER
    case ReadPrior(t) => t in s.launchers && AtPc(s, t).Recovering?
    case PriorGone(t) => t in s.launchers && AtPc(s, t).RecoverWait? && !GroupExists(s.table, AtPc(s, t).prior.group)
    case ClearPrior(t) => t in s.launchers && AtPc(s, t).RecoverGone?
    case RuntimeReady(t) => t in s.launchers && AtPc(s, t).Preparing?
    case RuntimeFailed(t, now) => t in s.launchers && AtPc(s, t).Preparing? && SafeNonNegative(now)
    case SpawnController(t, x, pid, id) =>
      t in s.launchers && AtPc(s, t).PassReady? && x !in s.usedTokens && NonBlank(x) && CanSpawn(s, pid, id)
    case Record(t) => t in s.launchers && AtPc(s, t).Paused?
    case AuthorizeStart(t) => t in s.launchers && AtPc(s, t).Recorded?
    case SendStart(t) => t in s.launchers && AtPc(s, t).Authorized?
    case PassGone(t, _) => t in s.launchers && AtPc(s, t).Running? && !GroupExists(s.table, AtPc(s, t).b.pid)
    case ClearPass(t) => t in s.launchers && AtPc(s, t).Gone?
    case FinishPass(t, now) => t in s.launchers && AtPc(s, t).Cleared? && SafeNonNegative(now)
    case GiveUp(t) =>
      t in s.launchers && (AtPc(s, t).Paused? || AtPc(s, t).Recorded? || AtPc(s, t).Authorized? || AtPc(s, t).Running?
                           || AtPc(s, t).Gone?)
    case StopGone(t) => t in s.launchers && AtPc(s, t).Stopping? && !GroupExists(s.table, AtPc(s, t).b.pid)
    case ClearStopped(t) => t in s.launchers && AtPc(s, t).Stopped?
    case Abandon(t) => t in s.launchers && OwnerPc(AtPc(s, t))
    case Leave(t) => t in s.launchers && AtPc(s, t).Leaving?
    case Beat(t, now) => t in s.launchers && OwnerPc(AtPc(s, t)) && SafeNonNegative(now)
  }

  /** The launcher after a finish call: on to the next generation, out, or fenced. */
  function AfterFinish(s: Sys, t: string, g: int, success: bool, now: int, next: int -> Pc): Sys
    requires t in s.launchers
  {
    match Finish(s.row, t, s.launchers[t].pid, g, success, now)
    case Err(_) => Goto(s, t, Leaving)
    case Ok(r) => Goto(s.(row := r.0), t, if r.1.Continue? then next(r.1.generation) else Done)
  }

  function AfterClear(s: Sys, t: string, execToken: string, cleared: Pc, refused: Pc): Sys
    requires t in s.launchers
  {
    match Clear(s.row, t, s.launchers[t].pid, execToken)
    case Err(_) => Goto(s, t, refused)
    case Ok(r) => Goto(s.(row := r.0), t, if r.1 then cleared else refused)
  }

  function Apply(s: Sys, step: Step): Sys
    requires Enabled(s, step)
  {
    match step
    case Outsider(pid, id, group) => AddProcess(s, pid, Process(id, group, Unrelated))
    case Fork(parent, pid, id) => AddProcess(s, pid, s.table[parent].(identity := id))
    case Supervise(c, pid, id) =>
      AddProcess(s, pid, Process(id, s.table[c].group, WorkerRole(s.table[c].role.token)))
    case Die(pid) => s.(table := s.table - {pid})
    case Crash(t) => s.(table := s.table - {s.launchers[t].pid}, launchers := s.launchers - {t})
    case Invoke(t, pid, id, group) =>
      AddProcess(s, pid, Process(id, group, LauncherRole(t)))
      .(usedTokens := s.usedTokens + {t}, launchers := s.launchers[t := Launcher(pid, id, Admitting(0))])
    case Look(t) => Goto(s, t, Looked(AtPc(s, t).attempt, s.row))
    case Probe(t, unreadable) =>
      var pc := AtPc(s, t);
      Goto(s, t, Probed(pc.attempt, pc.seen, OwnerSeemsAlive(s.table, pc.seen, unreadable)))
    case TryAdmit(t, o) =>
      var pc := AtPc(s, t);
      var (row, answer) := Admit(s.row, pc.seen, pc.alive, o);
      (match answer
       case OwnerChanged => Goto(s, t, if pc.attempt + 1 < 8 then Admitting(pc.attempt + 1) else Refused)
       case Coalesced(g, _, _) => Goto(s.(row := row, log := s.log + [Admitted(g)]), t, Joined(g))
       case Granted(g, _, _, _, _) => Goto(s.(row := row, log := s.log + [Admitted(g)]), t, Recovering(g)))
    case ReadPrior(t) =>
      Goto(s, t, if s.row.execution.None? then Preparing(AtPc(s, t).generation)
           else RecoverWait(AtPc(s, t).generation, s.row.execution.value))
    case PriorGone(t) => Goto(s, t, RecoverGone(AtPc(s, t).generation, AtPc(s, t).prior))
    case ClearPrior(t) =>
      AfterClear(s, t, AtPc(s, t).prior.token, Preparing(AtPc(s, t).generation), Leaving)
    case RuntimeReady(t) => Goto(s, t, PassReady(AtPc(s, t).generation))
    case RuntimeFailed(t, now) => AfterFinish(s, t, AtPc(s, t).generation, false, now, g => Preparing(g))
    case SpawnController(t, x, pid, id) =>
      var g := AtPc(s, t).generation;
      Goto(AddProcess(s, pid, Process(id, pid, ControllerRole(x)))
           .(usedTokens := s.usedTokens + {x}, groupOf := s.groupOf[x := pid], log := s.log + [PassBegan(g, x)]),
           t, Paused(g, Boundary(x, pid, id)))
    case Record(t) =>
      var pc := AtPc(s, t);
      (match RegisterExecution(s.row, t, s.launchers[t].pid, pc.generation, DescriptorOf(pc.b))
       case Err(_) => Goto(s, t, Stopping(pc.generation, pc.b, false))
       case Ok(row) => Goto(s.(row := row), t, Recorded(pc.generation, pc.b)))
    case AuthorizeStart(t) =>
      var pc := AtPc(s, t);
      (match Authorize(s.row, t, s.launchers[t].pid, pc.b.token)
       case Err(_) => Goto(s, t, Stopping(pc.generation, pc.b, true))
       case Ok(r) =>
         Goto(s.(row := r.0), t, if r.1 then Authorized(pc.generation, pc.b) else Stopping(pc.generation, pc.b, true)))
    case SendStart(t) =>
      var pc := AtPc(s, t);
      Goto(s.(startSent := s.startSent + {pc.b.token}), t, Running(pc.generation, pc.b))
    case PassGone(t, success) => Goto(s, t, Gone(AtPc(s, t).generation, AtPc(s, t).b, success))
    case ClearPass(t) =>
      var pc := AtPc(s, t);
      AfterClear(s, t, pc.b.token, Cleared(pc.generation, pc.b.token, pc.success), Stopping(pc.generation, pc.b, true))
    case FinishPass(t, now) =>
      var pc := AtPc(s, t);
      var after := AfterFinish(s, t, pc.generation, pc.success, now, g => PassReady(g));
      if pc.success && after.row.completed == pc.generation
      then after.(log := s.log + [PassSucceeded(pc.generation, pc.token)]) else after
    case GiveUp(t) =>
      Goto(s, t, Stopping(AtPc(s, t).generation, AtPc(s, t).b, !AtPc(s, t).Paused?))
    case StopGone(t) => Goto(s, t, Stopped(AtPc(s, t).generation, AtPc(s, t).b, AtPc(s, t).recorded))
    case ClearStopped(t) =>
      var pc := AtPc(s, t);
      if pc.recorded then AfterClear(s, t, pc.b.token, Leaving, Leaving) else Goto(s, t, Leaving)
    case Abandon(t) => Goto(s, t, Leaving)
    case Leave(t) => Goto(s.(row := Release(s.row, t, s.launchers[t].pid).0), t, Done)
    case Beat(t, now) => s.(row := Heartbeat(s.row, t, s.launchers[t].pid, now).0)
  }

  // ---------------------------------------------------------------------------------------------
  // The inductive invariant.

  predicate TokensInv(s: Sys) {
    && s.groupOf.Keys <= s.usedTokens
    && s.startSent <= s.groupOf.Keys
    && RefersTo(s.row, s.usedTokens)
    && (s.row.execution.Some? ==>
          && s.row.execution.value.token in s.groupOf
          && s.groupOf[s.row.execution.value.token] == s.row.execution.value.group)
  }

  predicate BirthsInv(s: Sys) {
    && (forall p :: p in s.table ==> (p, s.table[p].identity) in s.born)
    && (s.row.owner.Some? ==> (s.row.owner.value.pid, s.row.owner.value.identity) in s.born)
  }

  /** Processes of an execution are where the history says they are; workers exist only after START. */
  predicate MembersInv(s: Sys) {
    forall p :: p in s.table && (s.table[p].role.ControllerRole? || s.table[p].role.WorkerRole?) ==>
      && s.table[p].role.token in s.groupOf
      && s.table[p].group == s.groupOf[s.table[p].role.token]
      && (s.table[p].role.WorkerRole? ==> s.table[p].role.token in s.startSent)
  }

  /** A sent START is either recorded as authorized right now, or its execution is entirely dead. */
  predicate StartInv(s: Sys) {
    forall x :: x in s.startSent ==>
      || BoundaryGone(s.table, x)
      || (s.row.execution.Some? && s.row.execution.value.token == x && s.row.execution.value.state == START_AUTHORIZED)
  }

  /** Every generation the row counts has its admission in the log. */
  predicate AdmissionsInv(s: Sys) {
    && |Admissions(s.log)| == s.row.requested
    && forall i :: 0 <= i < |Admissions(s.log)| ==> Admissions(s.log)[i] == i + 1
  }

  function Admissions(log: seq<Event>): seq<int> {
    if log == [] then []
    else
      var last := log[|log| - 1];
      Admissions(log[..|log| - 1]) + (if last.Admitted? then [last.generation] else [])
  }

  /** A pass of generation g that began after every registration up to g. */
  ghost predicate BeganAt(log: seq<Event>, j: nat, g: int, token: string) {
    && j < |log| && log[j] == PassBegan(g, token)
    && forall i :: 1 <= i <= g ==> Admitted(i) in log[..j]
  }

  ghost predicate Began(log: seq<Event>, g: int, token: string) {
    exists j: nat :: BeganAt(log, j, g, token)
  }

  /** Some pass of a generation at least g began after g was registered, and then succeeded. */
  ghost predicate Answered(log: seq<Event>, g: int) {
    exists j: nat, k: nat, n: int, token: string ::
      && BeganAt(log, j, n, token) && j < k < |log| && log[k] == PassSucceeded(n, token) && n >= g
  }

  ghost predicate WakeupInv(s: Sys) {
    forall g :: 1 <= g <= s.row.completed ==> Answered(s.log, g)
  }

  predicate OwnerIs(s: Sys, t: string, l: Launcher) {
    Holds(s.row, t, l.pid) && s.row.owner.value.identity == l.identity
  }

  predicate Rerun(s: Sys, g: int) {
    s.row.owner.Some? && s.row.owner.value.running == g
  }

  /** The row records exactly this boundary, in this state, under this owner. */
  predicate RecordsBoundary(s: Sys, t: string, g: int, b: Boundary) {
    && s.row.execution.Some?
    && var e := s.row.execution.value;
       e.token == b.token && e.pid == b.pid && e.group == b.pid && e.identity == b.identity && e.ownerToken == t
       && e.generation == g
  }

  predicate KnownBoundary(s: Sys, b: Boundary) {
    b.token in s.groupOf && s.groupOf[b.token] == b.pid
  }

  predicate OwnerKnown(s: Sys, seen: State) {
    seen.owner.Some? ==> (seen.owner.value.pid, seen.owner.value.identity) in s.born
  }

  predicate OwnerDead(s: Sys, seen: State) {
    seen.owner.Some? ==> !SameProcess(s.table, seen.owner.value.pid, seen.owner.value.identity)
  }

  ghost predicate PcInv(s: Sys, t: string, l: Launcher) {
    && (OwnerPc(l.pc) ==> OwnerIs(s, t, l))
    && (NewcomerPc(l.pc) ==>
          && (s.row.owner.Some? ==> s.row.owner.value.token != t)
          && (s.row.execution.Some? ==> s.row.execution.value.ownerToken != t)
          && l.pc.attempt < 8)
    && match l.pc
       case Looked(_, seen) => OwnerKnown(s, seen)
       case Probed(_, seen, alive) => OwnerKnown(s, seen) && (!alive ==> OwnerDead(s, seen))
       case Recovering(g) => Rerun(s, g)
       case RecoverWait(g, e) => Rerun(s, g) && s.row.execution == Some(e)
       case RecoverGone(g, e) => Rerun(s, g) && s.row.execution == Some(e) && BoundaryGone(s.table, e.token)
       case Preparing(g) => Rerun(s, g) && s.row.execution.None?
       case PassReady(g) => Rerun(s, g) && s.row.execution.None?
       case Paused(g, b) =>
         && Rerun(s, g) && s.row.execution.None? && KnownBoundary(s, b) && b.token !in s.startSent
         && Began(s.log, g, b.token)
       case Recorded(g, b) =>
         && Rerun(s, g) && RecordsBoundary(s, t, g, b) && s.row.execution.value.state == REGISTERED
         && Began(s.log, g, b.token)
       case Authorized(g, b) =>
         && Rerun(s, g) && RecordsBoundary(s, t, g, b) && s.row.execution.value.state == START_AUTHORIZED
         && Began(s.log, g, b.token)
       case Running(g, b) =>
         && Rerun(s, g) && RecordsBoundary(s, t, g, b) && s.row.execution.value.state == START_AUTHORIZED
         && Began(s.log, g, b.token)
       case Gone(g, b, _) =>
         Rerun(s, g) && RecordsBoundary(s, t, g, b) && BoundaryGone(s.table, b.token) && Began(s.log, g, b.token)
       case Cleared(g, x, _) => Rerun(s, g) && s.row.execution.None? && Began(s.log, g, x)
       case Stopping(g, b, recorded) =>
         if recorded then RecordsBoundary(s, t, g, b) else s.row.execution.None? && KnownBoundary(s, b)
       case Stopped(g, b, recorded) =>
         && (if recorded then RecordsBoundary(s, t, g, b) else s.row.execution.None? && KnownBoundary(s, b))
         && BoundaryGone(s.table, b.token)
       case _ => true
  }

  ghost predicate LauncherInv(s: Sys, t: string)
    requires t in s.launchers
  {
    var l := s.launchers[t];
    && l.pid in s.table && s.table[l.pid].role == LauncherRole(t) && s.table[l.pid].identity == l.identity
    && PcInv(s, t, l)
  }

  ghost predicate LaunchersInv(s: Sys) {
    forall t :: t in s.launchers ==> LauncherInv(s, t)
  }

  ghost predicate SharedInv(s: Sys) {
    && InRange(s.row)
    && TokensInv(s) && BirthsInv(s) && MembersInv(s) && StartInv(s)
    && AdmissionsInv(s) && WakeupInv(s)
  }

  ghost predicate Inv(s: Sys) {
    SharedInv(s) && s.launchers.Keys <= s.usedTokens && LaunchersInv(s)
  }

  // ---------------------------------------------------------------------------------------------
  // What the invariant says.

  /**
   * SINGLE_LIVE_GIT_EXECUTION: two Git-capable processes are in one and the same process group, which is
   * the one the row records, and the row says START_AUTHORIZED.
   */
  lemma SingleLive(s: Sys, p: int, q: int)
    requires Inv(s)
    requires p in s.table && s.table[p].role.WorkerRole?
    requires q in s.table && s.table[q].role.WorkerRole?
    ensures s.table[p].role.token == s.table[q].role.token && s.table[p].group == s.table[q].group
    ensures s.row.execution.Some? && s.row.execution.value.state == START_AUTHORIZED
    ensures s.row.execution.value.token == s.table[p].role.token && s.row.execution.value.group == s.table[p].group
  {
    assert BelongsTo(s.table[p], s.table[p].role.token);
    assert BelongsTo(s.table[q], s.table[q].role.token);
  }

  lemma InitInv()
    ensures Inv(INIT)
  {
  }
}
