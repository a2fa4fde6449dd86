/**
 * The seven transitions as the UPDATE statements that store them: which columns each writes, under which
 * conditions on the columns, and what it answers (src/modules/reconciliation/reconciler.ts,
 * active-execution-state.ts).
 */
module RowUpdates {
  import opened Base
  import opened ReconcilerRow
  import opened Transitions

  /** The stored row names this token and pid as its owner. */
  predicate Fenced(row: RawRow, token: string, pid: int) {
    row.ownerToken == Some(token) && row.ownerPid == Some(pid)
  }

  function WithoutOwner(row: RawRow): RawRow {
    row.(running := None, ownerToken := None, ownerPid := None, ownerBoot := None, ownerIdentity := None,
         ownerCaller := None, ownerOrigin := None, ownerSession := None, heartbeat := None)
  }

  /** Ownership and execution columns that an admission compares with what it observed. */
  predicate SameColumns(a: RawRow, b: RawRow) {
    && a.ownerToken == b.ownerToken && a.ownerPid == b.ownerPid && a.ownerIdentity == b.ownerIdentity
    && a.running == b.running
    && a.execToken == b.execToken && a.execGeneration == b.execGeneration && a.execPid == b.execPid
    && a.execIdentity == b.execIdentity && a.execGroup == b.execGroup && a.execKind == b.execKind
    && a.execOwner == b.execOwner && a.execState == b.execState
  }

  /** A merge raises one column; a takeover writes ten; a changed owner writes nothing. */
  lemma AdmitWrites(row: RawRow, seen: RawRow, s: State, observed: State, alive: bool, o: Registrant)
    requires Read(row) == Ok(s) && Read(seen) == Ok(observed)
    ensures var (t, answer) := Admit(s, observed, alive, o);
            if !SameColumns(row, seen) then answer == OwnerChanged && Encode(t) == row
            else if alive then
              && Encode(t) == row.(requested := row.requested + 1)
              && answer == Coalesced(row.requested + 1, row.ownerPid, row.ownerCaller)
            else
              && Encode(t) == row.(requested := row.requested + 1, running := Some(row.requested + 1),
                                   ownerToken := Some(o.token), ownerPid := Some(o.pid), ownerBoot := Some(o.boot),
                                   ownerIdentity := Some(o.identity), ownerCaller := Some(o.caller),
                                   ownerOrigin := Some(o.origin), ownerSession := o.session, heartbeat := Some(o.now))
              && answer == Granted(row.requested + 1, row.completed, row.ownerToken.Some?, row.ownerPid,
                                   row.execToken.Some?)
  {
    ReadAcceptsExactlyValid(row, s);
    ReadAcceptsExactlyValid(seen, observed);
    SameColumnsIff(row, seen, s, observed);
    hide Read;
  }

  lemma SameColumnsIff(row: RawRow, seen: RawRow, s: State, observed: State)
    requires Valid(s) && row == Encode(s) && Valid(observed) && seen == Encode(observed)
    ensures SameColumns(row, seen) <==> SameOwnership(s, observed)
  {
    assert StateName(REGISTERED) != StateName(START_AUTHORIZED) by {
      assert |StateName(REGISTERED)| != |StateName(START_AUTHORIZED)|;
    }
  }

  /** A finish is refused by fence, recorded execution and generation in this order; then it goes on or stops. */
  lemma FinishWrites(row: RawRow, s: State, token: string, pid: int, generation: int, success: bool, now: int)
    requires Read(row) == Ok(s)
    ensures var r := Finish(s, token, pid, generation, success, now);
            var completed := if success then generation else row.completed;
            if !Fenced(row, token, pid) then r == Err(NotOwner)
            else if row.execToken.Some? then r == Err(ExecutionRecorded)
            else if row.running != Some(generation) then r == Err(GenerationMismatch)
            else if row.requested > generation then
              && r.Ok? && r.value.1 == Continue(row.requested, completed)
              && Encode(r.value.0) ==
                 row.(completed := completed, running := Some(row.requested), heartbeat := Some(now))
            else
              && r.Ok? && r.value.1 == (if success then StopSuccess(completed) else StopFailed(completed))
              && Encode(r.value.0) == WithoutOwner(row.(completed := completed))
  {
    ReadAcceptsExactlyValid(row, s);
    hide Read;
  }

  lemma HeartbeatWrites(row: RawRow, s: State, token: string, pid: int, now: int)
    requires Read(row) == Ok(s)
    ensures var (t, beaten) := Heartbeat(s, token, pid, now);
            && (beaten <==> Fenced(row, token, pid))
            && Encode(t) == if beaten then row.(heartbeat := Some(now)) else row
  {
    ReadAcceptsExactlyValid(row, s);
    hide Read;
  }

  /** A release by the owner of an execution-free row clears the nine owner columns; any other writes nothing. */
  lemma ReleaseWrites(row: RawRow, s: State, token: string, pid: int)
    requires Read(row) == Ok(s)
    ensures var (t, released) := Release(s, token, pid);
            && (released <==> Fenced(row, token, pid) && row.execToken.None?)
            && Encode(t) == if released then WithoutOwner(row) else row
  {
    ReadAcceptsExactlyValid(row, s);
    hide Read;
  }

  lemma RegisterWrites(row: RawRow, s: State, token: string, pid: int, generation: int, d: Descriptor)
    requires Read(row) == Ok(s)
    ensures var r := RegisterExecution(s, token, pid, generation, d);
            var acceptable := && NonBlank(token) && SafePositive(pid) && NonBlank(d.token) && NonBlank(d.identity)
                              && SafePositive(d.pid) && d.pid == d.group && d.kind == BOUNDARY_KIND
                              && SafePositive(generation);
            if !acceptable then r == Err(BadArgument)
            else if !Fenced(row, token, pid) then r == Err(NotOwner)
            else if row.running != Some(generation) then r == Err(GenerationMismatch)
            else if row.execToken.Some? then r == Err(ExecutionRecorded)
            else
              && r.Ok?
              && Encode(r.value) == row.(execToken := Some(d.token), execGeneration := Some(generation),
                                         execPid := Some(d.pid), execIdentity := Some(d.identity),
                                         execGroup := Some(d.pid), execKind := Some("posix-session-process-group-v1"),
                                         execOwner := Some(token), execState := Some("REGISTERED"))
  {
    ReadAcceptsExactlyValid(row, s);
    hide Read;
  }

  lemma AuthorizeWrites(row: RawRow, s: State, token: string, pid: int, execToken: string)
    requires Read(row) == Ok(s)
    ensures var r := Authorize(s, token, pid, execToken);
            var mine := row.execToken == Some(execToken) && row.execOwner == Some(token)
                        && row.execState == Some("REGISTERED");
            if !Fenced(row, token, pid) then r == Err(NotOwner)
            else
              && r.Ok? && r.value.1 == mine
              && Encode(r.value.0) == if mine then row.(execState := Some("START_AUTHORIZED")) else row
  {
    ReadAcceptsExactlyValid(row, s);
    assert |"REGISTERED"| != |"START_AUTHORIZED"|;
    hide Read;
  }

  lemma ClearWrites(row: RawRow, s: State, token: string, pid: int, execToken: string)
    requires Read(row) == Ok(s)
    ensures var r := Clear(s, token, pid, execToken);
            if !Fenced(row, token, pid) then r == Err(NotOwner)
            else
              && r.Ok? && (r.value.1 <==> row.execToken == Some(execToken))
              && Encode(r.value.0) ==
                 if r.value.1
                 then row.(execToken := None, execGeneration := None, execPid := None, execIdentity := None,
                           execGroup := None, execKind := None, execOwner := None, execState := None)
                 else row
  {
    ReadAcceptsExactlyValid(row, s);
    hide Read;
  }
}
