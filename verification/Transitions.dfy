/**
 * The seven row transitions of src/modules/reconciliation/reconciler.ts and active-execution-state.ts as
 * functions on validated states, and what every interleaving of them keeps.
 */
module Transitions {
  import opened Base
  import opened ReconcilerRow

  /** Everything one public invocation presents for admission. */
  datatype Registrant = Registrant(
    token: string, pid: int, boot: int, identity: string, caller: string, origin: string,
    session: Option<string>, now: int)

  predicate AcceptableRegistrant(o: Registrant) {
    && NonBlank(o.token) && SafePositive(o.pid) && SafeNonNegative(o.boot) && NonBlank(o.identity)
    && NonBlank(o.caller) && NonBlank(o.origin) && (o.session.Some? ==> NonBlank(o.session.value))
    && SafeNonNegative(o.now)
  }

  datatype Admission =
    | Granted(generation: int, completed: int, recovered: bool, previousPid: Option<int>, needsRecovery: bool)
    | Coalesced(generation: int, ownerPid: Option<int>, ownerCaller: Option<string>)
    | OwnerChanged

  /** The identity part of an owner record; the heartbeat and descriptive fields do not take part. */
  function OwnerKey(s: State): Option<(string, int, string, int)> {
    if s.owner.None? then None
    else Some((s.owner.value.token, s.owner.value.pid, s.owner.value.identity, s.owner.value.running))
  }

  predicate SameOwnership(current: State, observed: State) {
    OwnerKey(current) == OwnerKey(observed) && current.execution == observed.execution
  }

  /** The transaction body of one admission attempt, given what was observed before it. */
  function Admit(s: State, observed: State, ownerAlive: bool, o: Registrant): (State, Admission) {
    if !SameOwnership(s, observed) then (s, OwnerChanged)
    else
      var next := s.requested + 1;
      if ownerAlive then
        (s.(requested := next),
         Coalesced(next,
                   if s.owner.Some? then Some(s.owner.value.pid) else None,
                   if s.owner.Some? then Some(s.owner.value.caller) else None))
      else
        (s.(requested := next,
            owner := Some(Owner(o.token, o.pid, o.boot, o.identity, o.caller, o.origin, o.session, o.now, next))),
         Granted(next, s.completed, s.owner.Some?,
                 if s.owner.Some? then Some(s.owner.value.pid) else None, s.execution.Some?))
  }

  /** Owner authority: both the random token and the pid must match the row. */
  predicate Holds(s: State, token: string, pid: int) {
    s.owner.Some? && s.owner.value.token == token && s.owner.value.pid == pid
  }

  datatype Decision =
    | Continue(generation: int, completed: int)
    | StopSuccess(completed: int)
    | StopFailed(completed: int)

  datatype Refusal = NotOwner | ExecutionRecorded | GenerationMismatch | BadArgument

  function Finish(s: State, token: string, pid: int, generation: int, success: bool, now: int)
    : Result<(State, Decision), Refusal>
  {
    if !Holds(s, token, pid) then Err(NotOwner)
    else if s.execution.Some? then Err(ExecutionRecorded)
    else if s.owner.value.running != generation then Err(GenerationMismatch)
    else
      var completed := if success then generation else s.completed;
      if s.requested > generation then
        Ok((s.(completed := completed, owner := Some(s.owner.value.(running := s.requested, heartbeat := now))),
            Continue(s.requested, completed)))
      else
        Ok((s.(completed := completed, owner := None),
            if success then StopSuccess(completed) else StopFailed(completed)))
  }

  function Heartbeat(s: State, token: string, pid: int, now: int): (State, bool) {
    if Holds(s, token, pid) then (s.(owner := Some(s.owner.value.(heartbeat := now))), true) else (s, false)
  }

  function Release(s: State, token: string, pid: int): (State, bool) {
    if Holds(s, token, pid) && s.execution.None? then (s.(owner := None), true) else (s, false)
  }

  /** What a launcher records about one prepared controller. */
  datatype Descriptor = Descriptor(token: string, pid: int, identity: string, group: int, kind: string)

  predicate AcceptableDescriptor(d: Descriptor, generation: int) {
    && NonBlank(d.token) && NonBlank(d.identity) && SafePositive(d.pid) && SafePositive(d.group)
    && d.pid == d.group && d.kind == BOUNDARY_KIND && SafePositive(generation)
  }

  function RegisterExecution(s: State, token: string, pid: int, generation: int, d: Descriptor)
    : Result<State, Refusal>
  {
    if !NonBlank(token) || !SafePositive(pid) || !AcceptableDescriptor(d, generation) then Err(BadArgument)
    else if !Holds(s, token, pid) then Err(NotOwner)
    else if s.owner.value.running != generation then Err(GenerationMismatch)
    else if s.execution.Some? then Err(ExecutionRecorded)
    else Ok(s.(execution := Some(Execution(d.token, generation, d.pid, d.identity, d.group, d.kind, token,
                                           REGISTERED))))
  }

  function Authorize(s: State, token: string, pid: int, execToken: string): Result<(State, bool), Refusal> {
    if !Holds(s, token, pid) then Err(NotOwner)
    else if s.execution.None? || s.execution.value.token != execToken || s.execution.value.ownerToken != token
         || s.execution.value.state != REGISTERED then
      Ok((s, false))
    else Ok((s.(execution := Some(s.execution.value.(state := START_AUTHORIZED))), true))
  }

  function Clear(s: State, token: string, pid: int, execToken: string): Result<(State, bool), Refusal> {
    if !Holds(s, token, pid) then Err(NotOwner)
    else if s.execution.None? || s.execution.value.token != execToken then Ok((s, false))
    else Ok((s.(execution := None), true))
  }

  // ---------------------------------------------------------------------------------------------
  // One call by anybody, with any arguments that pass the callee's own argument checks. Registration checks its
  // time; a finish and a heartbeat take theirs as it comes.

  datatype Call =
    | CallAdmit(observed: State, ownerAlive: bool, registrant: Registrant)
    | CallFinish(token: string, pid: int, generation: int, success: bool, now: int)
    | CallHeartbeat(token: string, pid: int, now: int)
    | CallRelease(token: string, pid: int)
    | CallRegister(token: string, pid: int, generation: int, descriptor: Descriptor)
    | CallAuthorize(token: string, pid: int, execToken: string)
    | CallClear(token: string, pid: int, execToken: string)

  function After(s: State, c: Call): State {
    match c
    case CallAdmit(observed, alive, o) => Admit(s, observed, alive, o).0
    case CallFinish(token, pid, g, success, now) =>
      (match Finish(s, token, pid, g, success, now) case Ok(r) => r.0 case Err(_) => s)
    case CallHeartbeat(token, pid, now) => Heartbeat(s, token, pid, now).0
    case CallRelease(token, pid) => Release(s, token, pid).0
    case CallRegister(token, pid, g, d) =>
      (match RegisterExecution(s, token, pid, g, d) case Ok(r) => r case Err(_) => s)
    case CallAuthorize(token, pid, x) => (match Authorize(s, token, pid, x) case Ok(r) => r.0 case Err(_) => s)
    case CallClear(token, pid, x) => (match Clear(s, token, pid, x) case Ok(r) => r.0 case Err(_) => s)
  }

  predicate AcceptableCall(c: Call) {
    c.CallAdmit? ==> AcceptableRegistrant(c.registrant)
  }

  /** Whether the call commits a registration. */
  predicate Registers(s: State, c: Call) {
    c.CallAdmit? && !Admit(s, c.observed, c.ownerAlive, c.registrant).1.OwnerChanged?
  }

  /** Whether the call installs a new owner. */
  predicate Installs(s: State, c: Call) {
    c.CallAdmit? && Admit(s, c.observed, c.ownerAlive, c.registrant).1.Granted?
  }

  /** Whether the call writes a time nobody has checked: the owner's heartbeat, or a finish that goes on. */
  predicate Beats(s: State, c: Call) {
    match c
    case CallFinish(token, pid, g, success, now) =>
      var r := Finish(s, token, pid, g, success, now);
      r.Ok? && r.value.1.Continue?
    case CallHeartbeat(token, pid, _) => Holds(s, token, pid)
    case _ => false
  }

  predicate TimeInRange(s: State, c: Call) {
    Beats(s, c) ==> SafeNonNegative(c.now)
  }

  /**
   * When a call leaves a readable row. It fails to in exactly three ways: the generation counter leaves
   * the safe-integer range, a new owner presents the very token that registered the execution still
   * recorded, or a heartbeat or a continuing finish writes a time out of range.
   */
  lemma CallKeepsValidIff(s: State, c: Call)
    requires Valid(s) && AcceptableCall(c)
    ensures Valid(After(s, c)) <==>
            && (Registers(s, c) ==> s.requested < MAX_SAFE_INTEGER)
            && (Installs(s, c) && s.execution.Some? ==> s.execution.value.ownerToken != c.registrant.token)
            && TimeInRange(s, c)
  {
    match c
    case CallAdmit(_, _, _) =>
    case CallFinish(_, _, _, _, _) =>
    case CallHeartbeat(_, _, _) =>
    case CallRelease(_, _) =>
    case CallRegister(_, _, _, _) =>
    case CallAuthorize(_, _, _) =>
    case CallClear(_, _, _) =>
  }

  /** The numeric half of the same statement, from numeric assumptions alone. */
  lemma CallKeepsRanges(s: State, c: Call)
    requires InRange(s) && AcceptableCall(c) && TimeInRange(s, c)
    requires Registers(s, c) ==> s.requested < MAX_SAFE_INTEGER
    requires Installs(s, c) && s.execution.Some? ==> s.execution.value.ownerToken != c.registrant.token
    ensures InRange(After(s, c))
  {
  }

  /** Apart from registration, a call without current owner authority leaves the row alone. */
  lemma OnlyTheOwnerChangesTheRow(s: State, c: Call)
    requires c.CallAdmit? || !Holds(s, c.token, c.pid)
    ensures !c.CallAdmit? ==> After(s, c) == s
    ensures c.CallAdmit? ==>
              && After(s, c).completed == s.completed && After(s, c).execution == s.execution
              && (After(s, c) != s <==> Registers(s, c))
  {
    if c.CallAdmit? {
      assert After(s, c).requested == s.requested ==> !Registers(s, c);
    }
  }

  /**
   * Giving up ownership. A successful stop is exactly the case with nothing left to do; every other way
   * to stop being the owner without a successor leaves a requested generation above the completed one.
   */
  lemma GivingUpOwnership(s: State, c: Call)
    requires Valid(s) && AcceptableCall(c) && s.owner.Some? && After(s, c).owner.None?
    ensures After(s, c).execution.None? && s.execution.None?
    ensures After(s, c).completed <= After(s, c).requested
    ensures After(s, c).completed == After(s, c).requested <==>
            c.CallFinish? && c.success && Finish(s, c.token, c.pid, c.generation, c.success, c.now).value.1.StopSuccess?
  {
    match c
    case CallFinish(_, _, _, _, _) =>
    case CallRelease(_, _) =>
    case _ =>
  }

  /** A finished pass either stops, or hands on the latest generation that was asked for. */
  lemma FinishedPass(s: State, token: string, pid: int, generation: int, success: bool, now: int)
    requires InRange(s)
    ensures Finish(s, token, pid, generation, success, now).Ok? <==>
            Holds(s, token, pid) && s.execution.None? && s.owner.value.running == generation
    ensures Finish(s, token, pid, generation, success, now).Ok? ==>
              var (t, d) := Finish(s, token, pid, generation, success, now).value;
              && t.requested == s.requested
              && t.completed == d.completed
              && (success ==> t.completed == generation > s.completed)
              && (!success ==> t.completed == s.completed < generation)
              && (d.Continue? <==> t.owner.Some?)
              && (d.Continue? <==> s.requested > generation)
              && (d.Continue? ==> Holds(t, token, pid) && t.owner.value.running == d.generation == t.requested)
              && (d.StopSuccess? <==> t.completed == t.requested)
  {
  }

  // ---------------------------------------------------------------------------------------------
  // Whole runs.

  function Run(s: State, calls: seq<Call>): State
    decreases |calls|
  {
    if calls == [] then s else Run(After(s, calls[0]), calls[1..])
  }

  function Registrations(s: State, calls: seq<Call>): nat
    decreases |calls|
  {
    if calls == [] then 0
    else (if Registers(s, calls[0]) then 1 else 0) + Registrations(After(s, calls[0]), calls[1..])
  }

  /** Tokens are fresh: nobody is ever installed under a token in `used` or installed earlier in the run. */
  predicate FreshTokens(used: set<string>, s: State, calls: seq<Call>)
    decreases |calls|
  {
    calls != [] ==>
      && (Installs(s, calls[0]) ==> calls[0].registrant.token !in used)
      && FreshTokens(if Installs(s, calls[0]) then used + {calls[0].registrant.token} else used,
                     After(s, calls[0]), calls[1..])
  }

  /** Every call of the run that writes a time writes one in range. */
  predicate TimesInRange(s: State, calls: seq<Call>)
    decreases |calls|
  {
    calls != [] ==> TimeInRange(s, calls[0]) && TimesInRange(After(s, calls[0]), calls[1..])
  }

  /** The tokens a row refers to have all been installed at some time. */
  predicate RefersTo(s: State, used: set<string>) {
    && (s.owner.Some? ==> s.owner.value.token in used)
    && (s.execution.Some? ==> s.execution.value.ownerToken in used)
  }

  lemma CallRefersTo(s: State, c: Call, used: set<string>)
    requires InRange(s) && RefersTo(s, used)
    ensures RefersTo(After(s, c), if Installs(s, c) then used + {c.registrant.token} else used)
  {
  }

  /**
   * The row invariant over whole runs, from any valid row: every interleaving of calls that use fresh
   * tokens and write times in range stays readable, `completed` never decreases, and `requested` counts
   * committed registrations.
   */
  lemma {:induction false} RunsStayValid(used: set<string>, s: State, calls: seq<Call>)
    requires Valid(s) && RefersTo(s, used) && FreshTokens(used, s, calls)
    requires TimesInRange(s, calls) && forall i :: 0 <= i < |calls| ==> AcceptableCall(calls[i])
    requires s.requested + Registrations(s, calls) <= MAX_SAFE_INTEGER
    ensures Valid(Run(s, calls))
    ensures Run(s, calls).completed >= s.completed
    ensures Run(s, calls).requested == s.requested + Registrations(s, calls)
    decreases |calls|
  {
    if calls != [] {
      var c := calls[0];
      CallKeepsValidIff(s, c);
      CallRefersTo(s, c, used);
      assert After(s, c).requested == s.requested + (if Registers(s, c) then 1 else 0)
          && After(s, c).completed >= s.completed by { CallCounts(s, c); }
      RunsStayValid(if Installs(s, c) then used + {c.registrant.token} else used, After(s, c), calls[1..]);
    }
  }

  lemma CallCounts(s: State, c: Call)
    requires InRange(s)
    ensures After(s, c).requested == s.requested + (if Registers(s, c) then 1 else 0)
    ensures After(s, c).completed >= s.completed
    ensures Registers(s, c) ==>
              Admit(s, c.observed, c.ownerAlive, c.registrant).1.generation == After(s, c).requested
  {
  }

  /** The n-th committed registration of a run from the initial row is told generation n. */
  lemma RegistrationsAreNumberedInOrder(before: seq<Call>, c: Call)
    requires FreshTokens({}, INITIAL, before) && TimesInRange(INITIAL, before)
    requires forall i :: 0 <= i < |before| ==> AcceptableCall(before[i])
    requires Registrations(INITIAL, before) <= MAX_SAFE_INTEGER
    requires Registers(Run(INITIAL, before), c)
    ensures var s := Run(INITIAL, before);
            Admit(s, c.observed, c.ownerAlive, c.registrant).1.generation == Registrations(INITIAL, before) + 1
  {
    RunsStayValid({}, INITIAL, before);
    CallCounts(Run(INITIAL, before), c);
  }

  /** The counter bound is real: at the largest safe integer one more registration makes the row unreadable. */
  lemma CounterOverflowIsFatal(o: Registrant)
    requires AcceptableRegistrant(o)
    ensures var s := State(MAX_SAFE_INTEGER, MAX_SAFE_INTEGER, None, None);
            && Valid(s)
            && Admit(s, s, false, o).1.Granted?
            && Read(Encode(Admit(s, s, false, o).0)) == Err(RequestedInvalid)
  {
  }
}
