/**
 * The singleton coordinator row and its fail-closed reader
 * (src/modules/reconciliation/reconciler-state.ts).
 *
 * `RawRow` has one field per nullable column. `State` is what a reader may rely on: owner metadata and
 * the execution descriptor are each present or absent as a whole.
 */
module ReconcilerRow {
  import opened Base

  const MAX_SAFE_INTEGER: int := 9007199254740991

  const BOUNDARY_KIND := "posix-session-process-group-v1"

  datatype RawRow = RawRow(
    requested: int,
    completed: int,
    running: Option<int>,
    ownerToken: Option<string>,
    ownerPid: Option<int>,
    ownerBoot: Option<int>,
    ownerIdentity: Option<string>,
    ownerCaller: Option<string>,
    ownerOrigin: Option<string>,
    ownerSession: Option<string>,
    heartbeat: Option<int>,
    execToken: Option<string>,
    execGeneration: Option<int>,
    execPid: Option<int>,
    execIdentity: Option<string>,
    execGroup: Option<int>,
    execKind: Option<string>,
    execOwner: Option<string>,
    execState: Option<string>)

  datatype ExecState = REGISTERED | START_AUTHORIZED

  datatype Owner = Owner(
    token: string, pid: int, boot: int, identity: string, caller: string, origin: string,
    session: Option<string>, heartbeat: int, running: int)

  datatype Execution = Execution(
    token: string, generation: int, pid: int, identity: string, group: int, kind: string,
    ownerToken: string, state: ExecState)

  datatype State = State(requested: int, completed: int, owner: Option<Owner>, execution: Option<Execution>)

  const INITIAL: State := State(0, 0, None, None)

  /** Every way a stored row is refused, in the order the reader looks for them. */
  datatype Violation =
    | RequestedInvalid
    | CompletedInvalid
    | RequestedBelowCompleted
    | OwnerFieldsMixed
    | SessionWithoutOwner
    | RunningOutOfRange
    | OwnerMetadataInvalid
    | HeartbeatWithoutOwner
    | ExecutionFieldsMixed
    | ExecutionWithoutOwner
    | ExecutionGenerationOutOfRange
    | ExecutionPidInvalid
    | ExecutionTextBlank
    | BoundaryUnsupported
    | ExecutionStateInvalid
    | OwnerGenerationDisagree

  predicate SafeNonNegative(n: int) {
    0 <= n <= MAX_SAFE_INTEGER
  }

  predicate SafePositive(n: int) {
    0 < n <= MAX_SAFE_INTEGER
  }

  predicate PresentText(v: Option<string>) {
    v.Some? && NonBlank(v.value)
  }

  predicate PresentNonNegative(v: Option<int>) {
    v.Some? && SafeNonNegative(v.value)
  }

  predicate PresentPositive(v: Option<int>) {
    v.Some? && SafePositive(v.value)
  }

  function StateName(state: ExecState): string {
    match state
    case REGISTERED => "REGISTERED"
    case START_AUTHORIZED => "START_AUTHORIZED"
  }

  /** The execution columns, given what the owner columns already said. */
  function ReadExecution(row: RawRow): Result<Option<Execution>, Violation> {
    var present := [row.execToken.Some?, row.execGeneration.Some?, row.execPid.Some?, row.execIdentity.Some?,
                    row.execGroup.Some?, row.execKind.Some?, row.execOwner.Some?, row.execState.Some?];
    if true !in present then Ok(None)
    else if false in present then Err(ExecutionFieldsMixed)
    else if row.ownerToken.None? || row.running.None? then Err(ExecutionWithoutOwner)
    else if !PresentNonNegative(row.execGeneration) || row.execGeneration.value <= row.completed
         || row.execGeneration.value > row.running.value then
      Err(ExecutionGenerationOutOfRange)
    else if !PresentPositive(row.execPid) || !PresentPositive(row.execGroup)
         || row.execPid.value != row.execGroup.value then
      Err(ExecutionPidInvalid)
    else if !PresentText(row.execToken) || !PresentText(row.execIdentity) || !PresentText(row.execOwner) then
      Err(ExecutionTextBlank)
    else if row.execKind.value != BOUNDARY_KIND then Err(BoundaryUnsupported)
    else if row.execState.value != "REGISTERED" && row.execState.value != "START_AUTHORIZED" then
      Err(ExecutionStateInvalid)
    else if (row.execOwner.value == row.ownerToken.value) != (row.execGeneration.value == row.running.value) then
      Err(OwnerGenerationDisagree)
    else
      Ok(Some(Execution(
                row.execToken.value, row.execGeneration.value, row.execPid.value, row.execIdentity.value,
                row.execGroup.value, row.execKind.value, row.execOwner.value,
                if row.execState.value == "REGISTERED" then REGISTERED else START_AUTHORIZED)))
  }

  /** The whole reader. */
  function Read(row: RawRow): Result<State, Violation> {
    var hasRunning := row.running.Some?;
    if !SafeNonNegative(row.requested) then Err(RequestedInvalid)
    else if !SafeNonNegative(row.completed) then Err(CompletedInvalid)
    else if row.requested < row.completed then Err(RequestedBelowCompleted)
    else if row.ownerToken.Some? != hasRunning || row.ownerPid.Some? != hasRunning
         || row.ownerBoot.Some? != hasRunning || row.ownerIdentity.Some? != hasRunning
         || row.ownerCaller.Some? != hasRunning || row.ownerOrigin.Some? != hasRunning then
      Err(OwnerFieldsMixed)
    else if !hasRunning && row.ownerSession.Some? then Err(SessionWithoutOwner)
    else if hasRunning && (!PresentNonNegative(row.running) || row.running.value <= row.completed
                           || row.running.value > row.requested) then
      Err(RunningOutOfRange)
    else if hasRunning && (!PresentNonNegative(row.ownerBoot) || !PresentPositive(row.ownerPid)
                           || !PresentNonNegative(row.heartbeat) || !PresentText(row.ownerToken)
                           || !PresentText(row.ownerIdentity) || !PresentText(row.ownerCaller)
                           || !PresentText(row.ownerOrigin)
                           || (row.ownerSession.Some? && !PresentText(row.ownerSession))) then
      Err(OwnerMetadataInvalid)
    else if !hasRunning && row.heartbeat.Some? then Err(HeartbeatWithoutOwner)
    else
      match ReadExecution(row)
      case Err(v) => Err(v)
      case Ok(execution) =>
        Ok(State(
             row.requested, row.completed,
             if hasRunning then
               Some(Owner(row.ownerToken.value, row.ownerPid.value, row.ownerBoot.value, row.ownerIdentity.value,
                          row.ownerCaller.value, row.ownerOrigin.value, row.ownerSession, row.heartbeat.value,
                          row.running.value))
             else None,
             execution))
  }

  /** The generations and numbers of a state are in order. */
  predicate InRange(s: State) {
    && 0 <= s.completed <= s.requested <= MAX_SAFE_INTEGER
    && (s.owner.Some? ==>
          var o := s.owner.value;
          && s.completed < o.running <= s.requested && SafePositive(o.pid)
          && SafeNonNegative(o.boot) && SafeNonNegative(o.heartbeat))
    && (s.execution.Some? ==>
          var e := s.execution.value;
          && s.owner.Some?
          && s.completed < e.generation <= s.owner.value.running
          && SafePositive(e.pid) && e.pid == e.group
          // Either the current owner's execution of the current generation, or an older one under recovery.
          && (e.ownerToken == s.owner.value.token <==> e.generation == s.owner.value.running))
  }

  /** Tokens, identities and names say something, and the boundary kind is the supported one. */
  predicate TextsPresent(s: State) {
    && (s.owner.Some? ==>
          var o := s.owner.value;
          && NonBlank(o.token) && NonBlank(o.identity) && NonBlank(o.caller) && NonBlank(o.origin)
          && (o.session.Some? ==> NonBlank(o.session.value)))
    && (s.execution.Some? ==>
          var e := s.execution.value;
          NonBlank(e.token) && NonBlank(e.identity) && NonBlank(e.ownerToken) && e.kind == BOUNDARY_KIND)
  }

  /** The durable-state rules of specs/reconciliation.md, stated on whole records. */
  predicate Valid(s: State) {
    InRange(s) && TextsPresent(s)
  }

  /** The columns that store a state. */
  function Encode(s: State): RawRow {
    var o := s.owner;
    var e := s.execution;
    RawRow(
      s.requested, s.completed,
      if o.Some? then Some(o.value.running) else None,
      if o.Some? then Some(o.value.token) else None,
      if o.Some? then Some(o.value.pid) else None,
      if o.Some? then Some(o.value.boot) else None,
      if o.Some? then Some(o.value.identity) else None,
      if o.Some? then Some(o.value.caller) else None,
      if o.Some? then Some(o.value.origin) else None,
      if o.Some? then o.value.session else None,
      if o.Some? then Some(o.value.heartbeat) else None,
      if e.Some? then Some(e.value.token) else None,
      if e.Some? then Some(e.value.generation) else None,
      if e.Some? then Some(e.value.pid) else None,
      if e.Some? then Some(e.value.identity) else None,
      if e.Some? then Some(e.value.group) else None,
      if e.Some? then Some(e.value.kind) else None,
      if e.Some? then Some(e.value.ownerToken) else None,
      if e.Some? then Some(StateName(e.value.state)) else None)
  }

  lemma ExecutionColumnsDecode(s: State, row: RawRow)
    requires Valid(s)
    requires row == Encode(s)
    ensures ReadExecution(row) == Ok(s.execution)
  {
    if s.execution.Some? {
      var e := s.execution.value;
      assert StateName(REGISTERED) != StateName(START_AUTHORIZED) by {
        assert |StateName(REGISTERED)| != |StateName(START_AUTHORIZED)|;
      }
      assert row.execState == Some(StateName(e.state));
    }
  }

  /**
   * The reader accepts exactly the encodings of valid states and returns the state that was encoded:
   * nothing malformed gets through, nothing well-formed is refused, and no two states share a row.
   */
  lemma ReadAcceptsExactlyValid(row: RawRow, s: State)
    ensures Read(row) == Ok(s) <==> Valid(s) && row == Encode(s)
  {
    if Valid(s) && row == Encode(s) {
      ExecutionColumnsDecode(s, row);
    }
  }
}
