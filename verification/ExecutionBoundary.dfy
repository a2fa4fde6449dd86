/**
 * Terminating one recorded execution and proving its process group absent
 * (src/modules/reconciliation/execution-boundary-process.ts).
 *
 * `world(t)` is the process table at instant t. It is arbitrary: between two observations processes may
 * die, pids may be reused and groups may be re-created. Every system call takes one instant.
 */
module ExecutionBoundary {
  import opened Base
  import opened ReconcilerRow
  import opened ProcessTable

  datatype Liveness = AliveExact | Dead | Ambiguous

  datatype SignalName = SIGTERM | SIGKILL

  datatype Delivery = Delivery(at: nat, group: int, name: SignalName)

  datatype BoundaryError = IdentityLost | SurvivedKill | KillDenied

  datatype Unit = Unit

  class Kernel {
    const world: nat -> Table
    const unreadable: nat -> bool   // process metadata cannot be read at this instant
    const denied: nat -> bool       // kill fails at this instant with an error other than ESRCH
    const supported: bool           // POSIX groups are available on this platform
    var now: nat
    var deliveries: seq<Delivery>

    constructor (world: nat -> Table, unreadable: nat -> bool, denied: nat -> bool, supported: bool)
      ensures this.world == world && this.unreadable == unreadable && this.denied == denied
      ensures this.supported == supported && now == 0 && deliveries == []
    {
      this.world, this.unreadable, this.denied, this.supported := world, unreadable, denied, supported;
      now, deliveries := 0, [];
    }

    method ProcessGroupExists(group: int) returns (b: bool)
      modifies this`now
      ensures now == old(now) + 1 && b == GroupExists(world(old(now)), group)
    {
      b := GroupExists(world(now), group);
      now := now + 1;
    }

    method IsProcessAlive(pid: int) returns (b: bool)
      modifies this`now
      ensures now == old(now) + 1 && b == (pid in world(old(now)))
    {
      b := pid in world(now);
      now := now + 1;
    }

    method ReadIdentity(pid: int) returns (r: Option<string>)
      modifies this`now
      ensures now == old(now) + 1
      ensures r == if pid in world(old(now)) && !unreadable(old(now)) then Some(world(old(now))[pid].identity) else None
    {
      r := if pid in world(now) && !unreadable(now) then Some(world(now)[pid].identity) else None;
      now := now + 1;
    }

    method ReadGroup(pid: int) returns (r: Option<int>)
      modifies this`now
      ensures now == old(now) + 1
      ensures r == if pid in world(old(now)) && !unreadable(old(now)) then Some(world(old(now))[pid].group) else None
    {
      r := if pid in world(now) && !unreadable(now) then Some(world(now)[pid].group) else None;
      now := now + 1;
    }
  }

  /** The four observations that make a boundary `alive-exact`, starting at instant t. */
  ghost predicate ExactAt(k: Kernel, t: nat, e: Execution) {
    && k.supported
    && GroupExists(k.world(t), e.group)
    && e.pid in k.world(t + 1)
    && e.pid in k.world(t + 2) && k.world(t + 2)[e.pid].identity == e.identity
    && e.pid in k.world(t + 3) && k.world(t + 3)[e.pid].group == e.group
    && !k.unreadable(t + 2) && !k.unreadable(t + 3)
  }

  /** The observations that make it `dead`: no group, and then either no such pid or another process on it. */
  ghost predicate DeadAt(k: Kernel, t: nat, e: Execution) {
    && k.supported
    && !GroupExists(k.world(t), e.group)
    && (|| e.pid !in k.world(t + 1)
        || (e.pid in k.world(t + 2) && !k.unreadable(t + 2) && k.world(t + 2)[e.pid].identity != e.identity))
  }

  method Classify(k: Kernel, e: Execution) returns (r: Liveness)
    modifies k`now
    ensures r == AliveExact <==> ExactAt(k, old(k.now), e)
    ensures r == Dead <==> DeadAt(k, old(k.now), e)
    ensures old(k.now) <= k.now <= old(k.now) + 4
    ensures r == AliveExact ==> k.now == old(k.now) + 4
    ensures r == Dead ==> k.now > old(k.now)
  {
    if !k.supported {
      return Ambiguous;
    }
    var groupExists := k.ProcessGroupExists(e.group);
    var alive := k.IsProcessAlive(e.pid);
    if !alive {
      return if groupExists then Ambiguous else Dead;
    }
    var identity := k.ReadIdentity(e.pid);
    if identity.None? {
      return Ambiguous;
    }
    if identity.value != e.identity {
      return if groupExists then Ambiguous else Dead;
    }
    var group := k.ReadGroup(e.pid);
    if group.None? || group.value != e.group {
      return Ambiguous;
    }
    r := if groupExists then AliveExact else Ambiguous;
  }

  /** Some instant in [from, to) at which the group had no member. */
  ghost predicate SeenAbsent(k: Kernel, from: nat, to: nat, group: int) {
    exists t :: from <= t < to && !GroupExists(k.world(t), group)
  }

  /** `waitForGroupAbsence`: poll until the group is gone or `patience` polls have found it. */
  method WaitForAbsence(k: Kernel, group: int, patience: nat) returns (absent: bool)
    modifies k`now
    ensures old(k.now) < k.now <= old(k.now) + patience + 1
    ensures absent ==> SeenAbsent(k, old(k.now), k.now, group)
    ensures absent <==> SeenAbsent(k, old(k.now), old(k.now) + patience + 1, group)
    ensures !absent ==> k.now == old(k.now) + patience + 1
    ensures !absent ==> SeenThroughout(k, old(k.now), patience + 1, group)
  {
    var deadline := k.now + patience;
    var present := k.ProcessGroupExists(group);
    while present
      invariant old(k.now) < k.now <= deadline + 1
      invariant present <==> GroupExists(k.world(k.now - 1), group)
      invariant forall t :: old(k.now) <= t < k.now - 1 ==> GroupExists(k.world(t), group)
      decreases deadline + 1 - k.now
    {
      if k.now > deadline {
        return false;
      }
      present := k.ProcessGroupExists(group);
    }
    assert !GroupExists(k.world(k.now - 1), group);
    absent := true;
  }

  /** A signal sent for `e`: the four exact observations end at the instant before it. */
  ghost predicate Justified(k: Kernel, d: Delivery, e: Execution) {
    d.group == e.group && d.at >= 4 && ExactAt(k, d.at - 4, e)
  }

  datatype SignalOutcome = Signalled | AlreadyDead

  /** The boundary is exact at instant c, and the signal of the instant after the classification reaches the group. */
  ghost predicate Reaches(k: Kernel, c: nat, e: Execution) {
    ExactAt(k, c, e) && GroupExists(k.world(c + 4), e.group) && !k.denied(c + 4)
  }

  /** It is exact at c, and the kill that follows is refused for another reason than that nobody is left. */
  ghost predicate Refused(k: Kernel, c: nat, e: Execution) {
    ExactAt(k, c, e) && GroupExists(k.world(c + 4), e.group) && k.denied(c + 4)
  }

  /** Nobody is left to signal: seen by the classification at c, or by the kill that follows an exact one. */
  ghost predicate NobodyLeft(k: Kernel, c: nat, e: Execution) {
    DeadAt(k, c, e) || (ExactAt(k, c, e) && !GroupExists(k.world(c + 4), e.group))
  }

  ghost predicate AmbiguousAt(k: Kernel, c: nat, e: Execution) {
    !ExactAt(k, c, e) && !DeadAt(k, c, e)
  }

  /** `signalVerifiedGroup`. */
  method SignalVerified(k: Kernel, e: Execution, name: SignalName) returns (r: Result<SignalOutcome, BoundaryError>)
    modifies k
    ensures k.now >= old(k.now)
    ensures r == Ok(AlreadyDead) <==> NobodyLeft(k, old(k.now), e)
    ensures r == Ok(AlreadyDead) ==> SeenAbsent(k, old(k.now), k.now, e.group)
    ensures r == Ok(Signalled) <==> Reaches(k, old(k.now), e)
    ensures r == Ok(Signalled) ==> k.now == old(k.now) + 5
    ensures r == Err(IdentityLost) <==> AmbiguousAt(k, old(k.now), e)
    ensures r == Err(KillDenied) <==> Refused(k, old(k.now), e)
    ensures r != Err(SurvivedKill)
    ensures k.deliveries == old(k.deliveries)
              + (if r == Ok(Signalled) then [Delivery(old(k.now) + 4, e.group, name)] else [])
  {
    var liveness := Classify(k, e);
    if liveness == Dead {
      assert !GroupExists(k.world(old(k.now)), e.group);
      return Ok(AlreadyDead);
    }
    if liveness != AliveExact {
      return Err(IdentityLost);
    }
    var at := k.now;
    k.now := k.now + 1;
    if !GroupExists(k.world(at), e.group) {
      return Ok(AlreadyDead);
    }
    if k.denied(at) {
      return Err(KillDenied);
    }
    k.deliveries := k.deliveries + [Delivery(at, e.group, name)];
    r := Ok(Signalled);
  }

  /** A member was seen at each of `count` instants from `from`. */
  ghost predicate SeenThroughout(k: Kernel, from: nat, count: nat, group: int) {
    forall t :: from <= t < from + count ==> GroupExists(k.world(t), group)
  }

  /** A signal sent after the classification at c, and a full wait after it that still found a member. */
  ghost predicate Outlives(k: Kernel, c: nat, e: Execution, patience: nat) {
    Reaches(k, c, e) && SeenThroughout(k, c + 5, patience + 1, e.group)
  }

  /** One rung from the classification at c proves the group gone: nobody to signal, or nobody left at some poll. */
  ghost predicate Ends(k: Kernel, c: nat, e: Execution, patience: nat) {
    NobodyLeft(k, c, e) || (Reaches(k, c, e) && SeenAbsent(k, c + 5, c + 6 + patience, e.group))
  }

  /** One rung of the ladder: signal a verified group, then wait for it to disappear. */
  method SignalAndWait(k: Kernel, e: Execution, name: SignalName, patience: nat)
    returns (gone: Result<bool, BoundaryError>)
    modifies k
    ensures k.now >= old(k.now)
    ensures gone == Ok(true) <==> Ends(k, old(k.now), e, patience)
    ensures gone == Ok(true) ==> SeenAbsent(k, old(k.now), k.now, e.group)
    ensures gone == Ok(false) <==> Outlives(k, old(k.now), e, patience)
    ensures gone == Ok(false) ==> k.now == old(k.now) + 6 + patience
    ensures gone == Err(IdentityLost) <==> AmbiguousAt(k, old(k.now), e)
    ensures gone == Err(KillDenied) <==> Refused(k, old(k.now), e)
    ensures gone != Err(SurvivedKill)
    ensures k.deliveries == old(k.deliveries)
              + (if Reaches(k, old(k.now), e) then [Delivery(old(k.now) + 4, e.group, name)] else [])
  {
    hide ExactAt, DeadAt;
    var sent := SignalVerified(k, e, name);
    if sent.Err? {
      return Err(sent.error);
    }
    if sent.value == AlreadyDead {
      return Ok(true);
    }
    var absent := WaitForAbsence(k, e.group, patience);
    gone := Ok(absent);
  }

  /** When the classification of the second rung begins, for a call that began at instant c. */
  function SecondRung(c: nat, graceful: nat): nat {
    c + 4 + 6 + graceful
  }

  /**
   * `terminateExecutionBoundary`, decided by the world alone. Returning normally is a proof of death: the group
   * was observed absent during the call. It returns so exactly when the first look or one of the two rungs finds
   * nobody; the other outcomes are an ambiguous look, a refused kill, and two signals with two full waits. SIGKILL
   * is sent only after SIGTERM and a full wait, each signal only on the heels of an exact classification.
   */
  method Terminate(k: Kernel, e: Execution, graceful: nat, confirmation: nat) returns (r: Result<Unit, BoundaryError>)
    modifies k
    ensures k.now >= old(k.now)
    ensures r.Ok? ==> SeenAbsent(k, old(k.now), k.now, e.group)
    ensures var a, b, c := old(k.now), old(k.now) + 4, SecondRung(old(k.now), graceful);
            var again := ExactAt(k, a, e) && Outlives(k, b, e, graceful);
            && (r == Ok(Unit) <==>
                  || DeadAt(k, a, e) || (ExactAt(k, a, e) && Ends(k, b, e, graceful))
                  || (again && Ends(k, c, e, confirmation)))
            && (r == Err(IdentityLost) <==>
                  AmbiguousAt(k, a, e) || (ExactAt(k, a, e) && AmbiguousAt(k, b, e)) || (again && AmbiguousAt(k, c, e)))
            && (r == Err(KillDenied) <==> (ExactAt(k, a, e) && Refused(k, b, e)) || (again && Refused(k, c, e)))
            && (r == Err(SurvivedKill) <==> again && Outlives(k, c, e, confirmation))
            && k.deliveries == old(k.deliveries)
                 + (if ExactAt(k, a, e) && Reaches(k, b, e) then [Delivery(b + 4, e.group, SIGTERM)] else [])
                 + (if again && Reaches(k, c, e) then [Delivery(c + 4, e.group, SIGKILL)] else [])
  {
    hide ExactAt, DeadAt, Reaches, Refused, NobodyLeft, SeenAbsent, SeenThroughout;
    OneOfFour(k, old(k.now), e, 0);
    OneOfFour(k, old(k.now) + 4, e, graceful);
    OneOfFour(k, SecondRung(old(k.now), graceful), e, confirmation);
    var initial := Classify(k, e);
    if initial == Dead {
      SeenDead(k, old(k.now), k.now, e);
      return Ok(Unit);
    }
    if initial == Ambiguous {
      return Err(IdentityLost);
    }
    var gone := SignalAndWait(k, e, SIGTERM, graceful);
    if gone.Err? {
      return Err(gone.error);
    }
    if gone.value {
      SeenSooner(k, old(k.now), old(k.now) + 4, k.now, e.group);
      return Ok(Unit);
    }
    gone := SignalAndWait(k, e, SIGKILL, confirmation);
    if gone.Err? {
      return Err(gone.error);
    }
    if gone.value {
      SeenSooner(k, old(k.now), SecondRung(old(k.now), graceful), k.now, e.group);
      return Ok(Unit);
    }
    r := Err(SurvivedKill);
  }

  lemma SeenSooner(k: Kernel, from: nat, later: nat, to: nat, group: int)
    requires from <= later && SeenAbsent(k, later, to, group)
    ensures SeenAbsent(k, from, to, group)
  {
  }

  lemma SeenDead(k: Kernel, from: nat, to: nat, e: Execution)
    requires from < to && DeadAt(k, from, e)
    ensures SeenAbsent(k, from, to, e.group)
  {
  }

  /** Whatever the world does, a rung meets exactly one of its four ends. */
  lemma OneOfFour(k: Kernel, c: nat, e: Execution, patience: nat)
    ensures Ends(k, c, e, patience) || Outlives(k, c, e, patience) || AmbiguousAt(k, c, e) || Refused(k, c, e)
    ensures Ends(k, c, e, patience) ==> !Outlives(k, c, e, patience) && !AmbiguousAt(k, c, e) && !Refused(k, c, e)
    ensures Outlives(k, c, e, patience) ==> !AmbiguousAt(k, c, e) && !Refused(k, c, e)
    ensures AmbiguousAt(k, c, e) ==> !Refused(k, c, e)
    ensures ExactAt(k, c, e) ==> !DeadAt(k, c, e) && !AmbiguousAt(k, c, e)
    ensures Outlives(k, c, e, patience) ==> Reaches(k, c, e)
  {
  }

  /** Every signal a termination sends is sent on the heels of four exact observations. */
  lemma SignalsAreJustified(k: Kernel, c: nat, e: Execution, name: SignalName)
    requires Reaches(k, c, e)
    ensures Justified(k, Delivery(c + 4, e.group, name), e)
  {
  }

  /**
   * A boundary that is exact when termination begins and again before SIGTERM, that may be signalled, and whose
   * last member goes within the graceful wait, is terminated.
   */
  lemma GracefulEnds(k: Kernel, a: nat, e: Execution, graceful: nat, at: nat)
    requires ExactAt(k, a, e) && ExactAt(k, a + 4, e) && !k.denied(a + 8)
    requires a + 9 <= at <= a + 9 + graceful && !GroupExists(k.world(at), e.group)
    ensures Ends(k, a + 4, e, graceful)
  {
  }

  /** The same for SIGKILL after a graceful wait in vain. */
  lemma HardEnds(k: Kernel, a: nat, e: Execution, graceful: nat, confirmation: nat, at: nat)
    requires ExactAt(k, a, e) && Outlives(k, a + 4, e, graceful)
    requires var c := SecondRung(a, graceful);
             && ExactAt(k, c, e) && !k.denied(c + 4)
             && c + 5 <= at <= c + 5 + confirmation && !GroupExists(k.world(at), e.group)
    ensures Ends(k, SecondRung(a, graceful), e, confirmation)
  {
  }

  /**
   * Why pid reuse cannot redirect a signal: while the table stands still from the first observation to
   * the signal, the group that receives it is the one led by the recorded process.
   */
  lemma SignalReachesTheRecordedGroup(k: Kernel, d: Delivery, e: Execution)
    requires Justified(k, d, e)
    requires forall t: nat :: d.at - 4 <= t <= d.at ==> k.world(t) == k.world(d.at)
    ensures e.pid in k.world(d.at) && k.world(d.at)[e.pid].identity == e.identity
            && k.world(d.at)[e.pid].group == d.group
  {
    assert k.world(d.at - 2) == k.world(d.at);
    assert k.world(d.at - 1) == k.world(d.at);
  }
}
