/**
 * The coordinator database as the code works on it: one row of nullable columns, changed column by
 * column inside an immediate transaction that commits or puts the old row back
 * (src/modules/reconciliation/reconciler-transaction.ts). Each operation is proved to read, decide and
 * write exactly as the corresponding transition on validated states.
 */
module Coordinator {
  import opened Base
  import opened ReconcilerRow
  import opened Transitions

  datatype Failure =
    | Unreadable(violation: Violation)
    | Fenced(why: Refusal)
    | InvalidOptions
    | AdmissionContended
    | StorageFault

  /**
   * The world around one admission: what rivals leave in the row, whom a look at the owner finds alive, whether
   * storage commits.
   */
  datatype Surroundings = Surroundings(
    seen: nat -> RawRow,         // the row at the k-th observation after the first
    rival: nat -> RawRow,        // the row at the k-th transaction
    alive: nat -> bool,
    storage: nat -> bool)

  /** What the k-th observation of an admission sees. */
  function Seen(initial: RawRow, w: Surroundings, k: nat): RawRow {
    if k == 0 then initial else w.seen(k)
  }

  /** Attempt k could read the row both times and found a different owner or execution than it had observed. */
  predicate Contended(initial: RawRow, w: Surroundings, k: nat) {
    && Read(Seen(initial, w, k)).Ok? && Read(w.rival(k)).Ok?
    && !SameOwnership(Read(w.rival(k)).value, Read(Seen(initial, w, k)).value)
  }

  /** What one attempt makes of the row inside its transaction, given what it observed before. */
  function Attempted(row: RawRow, observed: State, alive: bool, o: Registrant, storageOk: bool)
    : (Result<Admission, Failure>, RawRow)
  {
    match Read(row)
    case Err(v) => (Err(Unreadable(v)), row)
    case Ok(s) =>
      var (t, a) := Admit(s, observed, alive, o);
      if a.OwnerChanged? then (Ok(OwnerChanged), row)
      else if storageOk then (Ok(a), Encode(t))
      else (Err(StorageFault), row)
  }

  /** How an admission ends whose last attempt is the k-th. */
  function Ended(initial: RawRow, w: Surroundings, k: nat, o: Registrant): (Result<Admission, Failure>, RawRow) {
    match Read(Seen(initial, w, k))
    case Err(v) => (Err(Unreadable(v)), Seen(initial, w, k))
    case Ok(observed) =>
      if Contended(initial, w, k) then (Err(AdmissionContended), w.rival(k))
      else Attempted(w.rival(k), observed, w.alive(k), o, w.storage(k))
  }

  /**
   * An admission writes if and only if its last attempt could read what it looked at and what it met, found the
   * same ownership, and storage commits; then it does what one atomic admission does.
   */
  lemma AdmissionWritesIff(initial: RawRow, w: Surroundings, k: nat, o: Registrant)
    ensures var (r, row) := Ended(initial, w, k, o);
            && (r.Ok? <==>
                  && Read(Seen(initial, w, k)).Ok? && Read(w.rival(k)).Ok? && !Contended(initial, w, k) && w.storage(k))
            && (r.Ok? ==>
                  var (t, answer) := Admit(Read(w.rival(k)).value, Read(Seen(initial, w, k)).value, w.alive(k), o);
                  r.value == answer && !answer.OwnerChanged? && row == Encode(t))
            && (r.Err? ==> row == if Read(Seen(initial, w, k)).Err? then Seen(initial, w, k) else w.rival(k))
  {
    hide Read;
  }

  lemma EndsUnread(initial: RawRow, w: Surroundings, k: nat, o: Registrant)
    requires Read(Seen(initial, w, k)).Err?
    ensures Ended(initial, w, k, o) == (Err(Unreadable(Read(Seen(initial, w, k)).error)), Seen(initial, w, k))
    ensures !Contended(initial, w, k)
  {
  }

  lemma OwnerChangedIffContended(initial: RawRow, w: Surroundings, k: nat, o: Registrant)
    requires Read(Seen(initial, w, k)).Ok?
    ensures var (r, row) := Attempted(w.rival(k), Read(Seen(initial, w, k)).value, w.alive(k), o, w.storage(k));
            && (r == Ok(OwnerChanged) <==> Contended(initial, w, k))
            && (r == Ok(OwnerChanged) ==>
                  row == w.rival(k) && Ended(initial, w, k, o) == (Err(AdmissionContended), row))
            && (r != Ok(OwnerChanged) ==> Ended(initial, w, k, o) == (r, row))
            && r != Err(InvalidOptions)
  {
    hide Read;
  }

  /** One attempt on the columns: the row goes from `before` to `after`. */
  predicate Admitted(before: RawRow, after: RawRow, r: Result<Admission, Failure>, observed: State, ownerAlive: bool,
                     o: Registrant, storageOk: bool) {
    match Read(before)
    case Err(v) => r == Err(Unreadable(v)) && after == before
    case Ok(s) =>
      if !SameOwnership(s, observed) then r == Ok(OwnerChanged) && after == before
      else if !storageOk then r == Err(StorageFault) && after == before
      else if ownerAlive then
        && r == Ok(Coalesced(before.requested + 1, before.ownerPid, before.ownerCaller))
        && after == before.(requested := before.requested + 1)
      else
        && r.Ok? && r.value.Granted? && r.value.generation == before.requested + 1
        && after.ownerToken == Some(o.token) && after.ownerPid == Some(o.pid)
        && after.running == Some(after.requested) && after.requested == before.requested + 1
  }

  class Database {
    var row: RawRow
    var image: Option<RawRow>  // the row as it was at BEGIN, while a transaction is open

    constructor ()
      ensures row == Encode(INITIAL) && image == None
    {
      row := Encode(INITIAL);
      image := None;
    }

    method Begin()
      requires image.None?
      modifies this
      ensures row == old(row) && image == Some(row)
    {
      image := Some(row);
    }

    /** COMMIT; when storage refuses, the row as of BEGIN comes back. */
    method Commit(storageOk: bool)
      requires image.Some?
      modifies this
      ensures image.None? && row == if storageOk then old(row) else old(image).value
    {
      if !storageOk {
        row := image.value;
      }
      image := None;
    }

    method Rollback()
      requires image.Some?
      modifies this
      ensures image.None? && row == old(image).value
    {
      row := image.value;
      image := None;
    }

    /** Columns cleared together whenever ownership ends. */
    method ClearOwnerColumns()
      modifies this`row
      ensures row == old(row).(running := None, ownerToken := None, ownerPid := None, ownerBoot := None,
                               ownerIdentity := None, ownerCaller := None, ownerOrigin := None,
                               ownerSession := None, heartbeat := None)
    {
      row := row.(running := None, ownerToken := None, ownerPid := None, ownerBoot := None);
      row := row.(ownerIdentity := None, ownerCaller := None, ownerOrigin := None);
      row := row.(ownerSession := None, heartbeat := None);
    }

    /**
     * One admission attempt, after the owner was observed outside the transaction. An `OwnerChanged`
     * outcome is the exception the loop below catches: the transaction is rolled back.
     */
    method AdmitOnce(observed: State, ownerAlive: bool, o: Registrant, storageOk: bool)
      returns (r: Result<Admission, Failure>)
      requires image.None?
      modifies this
      ensures image.None?
      ensures (r, row) == Attempted(old(row), observed, ownerAlive, o, storageOk)
      ensures Admitted(old(row), row, r, observed, ownerAlive, o, storageOk)
    {
      Begin();
      var current := Read(row);
      if current.Err? {
        Rollback();
        return Err(Unreadable(current.error));
      }
      var s := current.value;
      ReadAcceptsExactlyValid(row, s);
      if !SameOwnership(s, observed) {
        Rollback();
        return Ok(OwnerChanged);
      }
      var next := s.requested + 1;
      var answer: Admission;
      if ownerAlive {
        row := row.(requested := next);
        answer := Coalesced(next, row.ownerPid, row.ownerCaller);
      } else {
        answer := Granted(next, s.completed, row.ownerToken.Some?, row.ownerPid, s.execution.Some?);
        row := row.(requested := next, running := Some(next), ownerToken := Some(o.token), ownerPid := Some(o.pid));
        row := row.(ownerBoot := Some(o.boot), ownerIdentity := Some(o.identity), ownerCaller := Some(o.caller));
        row := row.(ownerOrigin := Some(o.origin), ownerSession := o.session, heartbeat := Some(o.now));
      }
      Commit(storageOk);
      r := if storageOk then Ok(answer) else Err(StorageFault);
    }

    /**
     * `registerReconciliationRequest`. At most eight attempts are made, every one but the last found the
     * ownership changed, and only the last can write: it does to the row as its rivals left it what one atomic
     * admission does, given the owner seen just before. Anything unreadable, and a refusing storage, ends it.
     */
    method Register(o: Registrant, w: Surroundings) returns (r: Result<Admission, Failure>, attempts: nat)
      requires image.None?
      modifies this
      ensures image.None?
      ensures r == Err(InvalidOptions) <==> !AcceptableRegistrant(o)
      ensures r == Err(InvalidOptions) ==> row == old(row) && attempts == 0
      ensures r != Err(InvalidOptions) ==> 1 <= attempts <= 8
      ensures forall k :: 0 <= k < attempts - 1 ==> Contended(old(row), w, k)
      ensures r != Err(InvalidOptions) ==>
                && (Contended(old(row), w, attempts - 1) ==> attempts == 8)
                && (r, row) == Ended(old(row), w, attempts - 1, o)
    {
      attempts := 0;
      if !AcceptableRegistrant(o) {
        return Err(InvalidOptions), attempts;
      }
      ghost var initial := row;
      hide Read, Attempted, Admitted, Contended, Ended, AcceptableRegistrant;
      while attempts < 8
        invariant attempts <= 8 && image.None?
        invariant row == if attempts == 0 then initial else w.rival(attempts - 1)
        invariant forall k :: 0 <= k < attempts ==> Contended(initial, w, k)
        invariant attempts > 0 ==> Read(Seen(initial, w, attempts - 1)).Ok?
      {
        row := if attempts == 0 then row else w.seen(attempts);   // rivals act before the next look
        assert row == Seen(initial, w, attempts);
        var observed := Read(row);
        attempts := attempts + 1;
        if observed.Err? {
          EndsUnread(initial, w, attempts - 1, o);
          return Err(Unreadable(observed.error)), attempts;
        }
        OwnerChangedIffContended(initial, w, attempts - 1, o);
        row := w.rival(attempts - 1);
        r := AdmitOnce(observed.value, w.alive(attempts - 1), o, w.storage(attempts - 1));
        if r != Ok(OwnerChanged) {
          return;
        }
      }
      r := Err(AdmissionContended);
    }

    /** `finishReconciliationPass`. */
    method FinishPass(token: string, pid: int, generation: int, success: bool, now: int, storageOk: bool)
      returns (r: Result<Decision, Failure>)
      requires image.None?
      modifies this
      ensures image.None?
      ensures r.Err? ==> row == old(row)
      ensures Read(old(row)).Err? <==> r.Err? && r.error.Unreadable?
      ensures Read(old(row)).Ok? ==>
                match Finish(Read(old(row)).value, token, pid, generation, success, now)
                case Err(why) => r == Err(Fenced(why))
                case Ok(t) => if storageOk then r == Ok(t.1) && row == Encode(t.0) else r == Err(StorageFault)
    {
      Begin();
      var current := Read(row);
      if current.Err? {
        Rollback();
        return Err(Unreadable(current.error));
      }
      var s := current.value;
      ReadAcceptsExactlyValid(row, s);
      if row.ownerToken != Some(token) || row.ownerPid != Some(pid) {
        Rollback();
        return Err(Fenced(NotOwner));
      }
      if s.execution.Some? {
        Rollback();
        return Err(Fenced(ExecutionRecorded));
      }
      if row.running != Some(generation) {
        Rollback();
        return Err(Fenced(GenerationMismatch));
      }
      var completed := if success then generation else row.completed;
      var decision: Decision;
      if row.requested > generation {
        row := row.(completed := completed, running := Some(row.requested), heartbeat := Some(now));
        decision := Continue(row.requested, completed);
      } else {
        row := row.(completed := completed);
        ClearOwnerColumns();
        decision := if success then StopSuccess(completed) else StopFailed(completed);
      }
      Commit(storageOk);
      r := if storageOk then Ok(decision) else Err(StorageFault);
    }

    /**
     * `heartbeatReconciler`, which is not a transaction: it validates the row, another launcher may act
     * (`rival`), and then one conditional UPDATE runs, which validates nothing.
     */
    method BeatHeart(token: string, pid: int, now: int, rival: RawRow) returns (r: Result<bool, Failure>)
      modifies this`row
      ensures Read(old(row)).Err? ==> r == Err(Unreadable(Read(old(row)).error)) && row == old(row)
      ensures Read(old(row)).Ok? && !Holds(Read(old(row)).value, token, pid) ==> r == Ok(false) && row == old(row)
      ensures Read(old(row)).Ok? && Holds(Read(old(row)).value, token, pid) ==>
                var mine := rival.ownerToken == Some(token) && rival.ownerPid == Some(pid);
                r == Ok(mine) && row == if mine then rival.(heartbeat := Some(now)) else rival
      ensures Read(old(row)).Ok? && Holds(Read(old(row)).value, token, pid) && Read(rival).Ok? ==>
                (Encode(Heartbeat(Read(rival).value, token, pid, now).0),
                 Heartbeat(Read(rival).value, token, pid, now).1) == (row, r.value)
    {
      var current := Read(row);
      if current.Err? {
        return Err(Unreadable(current.error));
      }
      ReadAcceptsExactlyValid(row, current.value);
      if row.ownerToken != Some(token) || row.ownerPid != Some(pid) {
        return Ok(false);
      }
      if Read(rival).Ok? {
        ReadAcceptsExactlyValid(rival, Read(rival).value);
      }
      row := rival;
      if row.ownerToken == Some(token) && row.ownerPid == Some(pid) {
        row := row.(heartbeat := Some(now));
        return Ok(true);
      }
      r := Ok(false);
    }

    /** `releaseReconciliationOwnership`. */
    method ReleaseOwnership(token: string, pid: int, storageOk: bool) returns (r: Result<bool, Failure>)
      requires image.None?
      modifies this
      ensures image.None?
      ensures Read(old(row)).Err? <==> r.Err? && r.error.Unreadable?
      ensures Read(old(row)).Err? ==> row == old(row)
      // On the columns.
      ensures Read(old(row)).Ok? ==>
                if old(row).ownerToken != Some(token) || old(row).ownerPid != Some(pid) || old(row).execToken.Some? then
                  r == Ok(false) && row == old(row)
                else if !storageOk then r == Err(StorageFault) && row == old(row)
                else
                  && r == Ok(true)
                  && row == old(row).(running := None, ownerToken := None, ownerPid := None, ownerBoot := None,
                                      ownerIdentity := None, ownerCaller := None, ownerOrigin := None,
                                      ownerSession := None, heartbeat := None)
      // On the state.
      ensures Read(old(row)).Ok? ==>
                var (t, released) := Release(Read(old(row)).value, token, pid);
                if storageOk || !released then r == Ok(released) && row == Encode(t) else r == Err(StorageFault)
    {
      Begin();
      var current := Read(row);
      if current.Err? {
        Rollback();
        return Err(Unreadable(current.error));
      }
      var s := current.value;
      ReadAcceptsExactlyValid(row, s);
      if row.ownerToken != Some(token) || row.ownerPid != Some(pid) || s.execution.Some? {
        Commit(true);
        return Ok(false);
      }
      ClearOwnerColumns();
      Commit(storageOk);
      r := if storageOk then Ok(true) else Err(StorageFault);
    }

    /** `registerActiveExecution`: one paused execution, before it can become Git-capable. */
    method RecordExecution(token: string, pid: int, generation: int, d: Descriptor, storageOk: bool)
      returns (r: Result<Execution, Failure>)
      requires image.None?
      modifies this
      ensures image.None?
      ensures r.Err? ==> row == old(row)
      ensures var acceptable := NonBlank(token) && SafePositive(pid) && AcceptableDescriptor(d, generation);
              && (!acceptable ==> r == Err(Fenced(BadArgument)))
              && (acceptable ==> (Read(old(row)).Err? <==> r.Err? && r.error.Unreadable?))
      ensures Read(old(row)).Ok? ==>
                match RegisterExecution(Read(old(row)).value, token, pid, generation, d)
                case Err(why) => r == Err(Fenced(why))
                case Ok(t) =>
                  if storageOk then r == Ok(t.execution.value) && row == Encode(t) else r == Err(StorageFault)
    {
      if !NonBlank(token) || !SafePositive(pid) || !AcceptableDescriptor(d, generation) {
        return Err(Fenced(BadArgument));
      }
      Begin();
      var current := Read(row);
      if current.Err? {
        Rollback();
        return Err(Unreadable(current.error));
      }
      var s := current.value;
      ReadAcceptsExactlyValid(row, s);
      if row.ownerToken != Some(token) || row.ownerPid != Some(pid) {
        Rollback();
        return Err(Fenced(NotOwner));
      }
      if row.running != Some(generation) {
        Rollback();
        return Err(Fenced(GenerationMismatch));
      }
      if s.execution.Some? {
        Rollback();
        return Err(Fenced(ExecutionRecorded));
      }
      row := row.(execToken := Some(d.token), execGeneration := Some(generation), execPid := Some(d.pid));
      row := row.(execIdentity := Some(d.identity), execGroup := Some(d.group), execKind := Some(d.kind));
      row := row.(execOwner := Some(token), execState := Some("REGISTERED"));
      var t := RegisterExecution(s, token, pid, generation, d).value;
      assert Valid(t) by {
        CallKeepsValidIff(s, CallRegister(token, pid, generation, d));
      }
      ReadAcceptsExactlyValid(row, t);
      var registered := Read(row).value.execution.value;
      Commit(storageOk);
      r := if storageOk then Ok(registered) else Err(StorageFault);
    }

    /** `authorizeActiveExecutionStart`: durable before START is sent. */
    method AuthorizeStart(token: string, pid: int, execToken: string, storageOk: bool)
      returns (r: Result<bool, Failure>)
      requires image.None?
      modifies this
      ensures image.None?
      ensures r.Err? || r == Ok(false) ==> row == old(row)
      ensures Read(old(row)).Err? <==> r.Err? && r.error.Unreadable?
      ensures Read(old(row)).Ok? ==>
                match Authorize(Read(old(row)).value, token, pid, execToken)
                case Err(why) => r == Err(Fenced(why))
                case Ok(t) => if storageOk || !t.1 then r == Ok(t.1) && row == Encode(t.0) else r == Err(StorageFault)
    {
      Begin();
      var current := Read(row);
      if current.Err? {
        Rollback();
        return Err(Unreadable(current.error));
      }
      var s := current.value;
      ReadAcceptsExactlyValid(row, s);
      if row.ownerToken != Some(token) || row.ownerPid != Some(pid) {
        Rollback();
        return Err(Fenced(NotOwner));
      }
      if row.execToken != Some(execToken) || row.execOwner != Some(token)
         || s.execution.value.state != REGISTERED {
        Commit(true);
        return Ok(false);
      }
      row := row.(execState := Some("START_AUTHORIZED"));
      Commit(storageOk);
      r := if storageOk then Ok(true) else Err(StorageFault);
    }

    /** `clearActiveExecution`: the execution columns are cleared together, under both fences. */
    method ClearExecution(token: string, pid: int, execToken: string, storageOk: bool)
      returns (r: Result<bool, Failure>)
      requires image.None?
      modifies this
      ensures image.None?
      ensures r.Err? || r == Ok(false) ==> row == old(row)
      ensures Read(old(row)).Err? <==> r.Err? && r.error.Unreadable?
      ensures Read(old(row)).Ok? ==>
                match Clear(Read(old(row)).value, token, pid, execToken)
                case Err(why) => r == Err(Fenced(why))
                case Ok(t) => if storageOk || !t.1 then r == Ok(t.1) && row == Encode(t.0) else r == Err(StorageFault)
    {
      Begin();
      var current := Read(row);
      if current.Err? {
        Rollback();
        return Err(Unreadable(current.error));
      }
      var s := current.value;
      ReadAcceptsExactlyValid(row, s);
      if row.ownerToken != Some(token) || row.ownerPid != Some(pid) {
        Rollback();
        return Err(Fenced(NotOwner));
      }
      if row.execToken != Some(execToken) {
        Commit(true);
        return Ok(false);
      }
      row := row.(execToken := None, execGeneration := None, execPid := None, execIdentity := None);
      row := row.(execGroup := None, execKind := None, execOwner := None, execState := None);
      Commit(storageOk);
      r := if storageOk then Ok(true) else Err(StorageFault);
    }
  }
}
