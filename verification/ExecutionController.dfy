/**
 * One execution controller: its variables, its message, signal, disconnect and close handlers, and how its
 * process ends (src/entrypoints/execution-controller.ts).
 *
 * Every `await` of a handler is a point at which other events may be handled first. The poll and force
 * timers do not keep the process alive, so it ends by itself when nothing else does.
 */
module ExecutionController {
  import opened Base

  datatype LauncherMessage = PREPARE(token: string) | START(token: string) | Malformed

  /** What `close` reported for the supervisor. */
  datatype Observation = Observation(exitCode: Option<int>, signal: Option<string>, spawnError: Option<string>)

  datatype ControllerMessage =
    | READY(token: string)
    | STARTED(token: string)
    | RESULT(token: string, observation: Observation)

  /** The controller's variables, what it has sent, and how it ended. */
  datatype Ctl = Ctl(
    token: Option<string>,
    spawns: nat,                         // supervisors spawned so far; the variable is null while zero
    observation: Option<Observation>,
    terminationStarted: bool,
    resultCode: Option<int>,             // RESULT is being sent; exit with this code once it is
    connected: bool,
    readyPending: bool,                  // PREPARE handler suspended at its await
    startsPending: nat,                  // START handlers past their guard, suspended before the spawn
    startedPending: nat,                 // START handlers suspended between the spawn and STARTED
    listening: nat,                      // supervisors whose close is listened to
    disconnectPending: bool,             // disconnect handler suspended at its await
    sent: seq<ControllerMessage>,
    exit: Option<int>)                   // the process has ended with this code

  const FRESH: Ctl := Ctl(None, 0, None, false, None, true, false, 0, 0, 0, false, [], None)

  function Exit(c: Ctl, code: int): Ctl {
    if c.exit.Some? then c else c.(exit := Some(code))
  }

  function ResultCode(c: Ctl): int {
    if c.observation.Some? && c.observation.value.exitCode.Some? then c.observation.value.exitCode.value else 1
  }

  /** `finishWhenQuiescent`; `alone` is the verdict of the group listing, None when it could not be made. */
  function Poll(c: Ctl, alone: Option<bool>): Ctl {
    if !c.terminationStarted || c.exit.Some? || c.resultCode.Some? || alone != Some(true) then c
    else if c.observation.Some? && c.token.Some? && c.connected then
      c.(resultCode := Some(ResultCode(c)), sent := c.sent + [RESULT(c.token.value, c.observation.value)])
    else Exit(c, ResultCode(c))
  }

  /** `beginTermination`: SIGTERM to the own group, then a first look at who is left. */
  function Terminate(c: Ctl, alone: Option<bool>): Ctl {
    if c.terminationStarted || c.exit.Some? then c else Poll(c.(terminationStarted := true), alone)
  }

  function OnMessage(c: Ctl, m: LauncherMessage, identityOk: bool, alone: Option<bool>): Ctl {
    match m
    case Malformed => if c.spawns == 0 then Exit(c, 2) else Terminate(c, alone)
    case PREPARE(t) =>
      if c.token.Some? || c.spawns > 0 then Exit(c, 2)
      else if !identityOk then Exit(c.(token := Some(t)), 2)
      else c.(token := Some(t), readyPending := true)
    case START(t) =>
      if c.token != Some(t) || c.spawns > 0 || c.terminationStarted then Exit(c, 2)
      else c.(startsPending := c.startsPending + 1)
  }

  function ResumeReady(c: Ctl): Ctl
    requires c.readyPending
  {
    var d := c.(readyPending := false);
    if !d.connected || d.exit.Some? || d.token.None? then d else d.(sent := d.sent + [READY(d.token.value)])
  }

  /** A START handler past its guard can still spawn. */
  predicate Open(c: Ctl) {
    c.connected && c.exit.None? && !c.terminationStarted && c.token.Some?
  }

  /** The START handler up to the spawn: it does not look again whether a supervisor exists already. */
  function ResumeStart(c: Ctl, hasPid: bool): Ctl
    requires c.startsPending > 0
  {
    var d := c.(startsPending := c.startsPending - 1);
    if !Open(d) then d
    else if hasPid then d.(spawns := d.spawns + 1, startedPending := d.startedPending + 1)
    else d.(spawns := d.spawns + 1, listening := d.listening + 1)
  }

  /** Its rest, in one go: STARTED is sent, or termination begins when it cannot be, and the close is listened to. */
  function ResumeStarted(c: Ctl, alone: Option<bool>): Ctl
    requires c.startedPending > 0
  {
    var d := c.(startedPending := c.startedPending - 1, listening := c.listening + 1);
    if d.connected && d.token.Some? then d.(sent := d.sent + [STARTED(d.token.value)]) else Terminate(d, alone)
  }

  function OnDisconnect(c: Ctl): Ctl {
    var d := c.(connected := false);
    if d.spawns == 0 then Exit(d, 0) else d.(disconnectPending := true)
  }

  function ResumeDisconnect(c: Ctl, alone: Option<bool>): Ctl {
    Terminate(c.(disconnectPending := false), alone)
  }

  function OnSupervisorClosed(c: Ctl, o: Observation, alone: Option<bool>): Ctl {
    Terminate(c.(observation := Some(o)), alone)
  }

  /**
   * What a look at the group can do: nothing but note that termination has begun, send RESULT, or exit with
   * the supervisor's code; the latter two only on a listing that shows nobody else.
   */
  predicate WindsDown(c: Ctl, d: Ctl, alone: Option<bool>) {
    || d == c.(terminationStarted := d.terminationStarted)
    || (&& alone == Some(true) && c.resultCode.None? && c.exit.None?
        && (|| (c.observation.Some? && c.token.Some? && c.connected
                && d == c.(terminationStarted := true, resultCode := Some(ResultCode(c)),
                           sent := c.sent + [RESULT(c.token.value, c.observation.value)]))
            || d == c.(terminationStarted := true, exit := Some(ResultCode(c)))))
  }

  lemma TerminateWindsDown(c: Ctl, alone: Option<bool>)
    ensures WindsDown(c, Terminate(c, alone), alone)
    ensures WindsDown(c, Poll(c, alone), alone)
    ensures c.terminationStarted ==> Terminate(c, alone).terminationStarted && Poll(c, alone).terminationStarted
  {
  }

  /** Nothing of the controller's own keeps the process alive: no channel, no suspended handler, nothing in flight. */
  predicate Idle(c: Ctl) {
    && !c.connected && !c.readyPending && c.startsPending == 0 && c.startedPending == 0 && !c.disconnectPending
    && c.resultCode.None?
  }

  /** Everything that can happen to a controller. */
  datatype Occurrence =
    | Message(m: LauncherMessage, identityOk: bool, alone: Option<bool>)
    | GoReady
    | ReadyLost                                     // READY could not be sent after all
    | GoStart(hasPid: bool)
    | GoStarted(alone: Option<bool>)
    | Drop                                          // the launcher died or closed the channel
    | GoDisconnect(alone: Option<bool>)
    | Signal(alone: Option<bool>)                   // SIGINT or SIGTERM, or STARTED could not be sent after all
    | Closed(o: Observation, alone: Option<bool>)   // the close of a supervisor that is listened to
    | Tick(alone: Option<bool>)                     // the 20 ms poll
    | ResultFlushed                                 // the callback of the RESULT message
    | RunDry                                        // nothing keeps the process alive any more

  predicate CanOccur(c: Ctl, e: Occurrence) {
    && c.exit.None?
    && match e
       case Message(_, _, _) => c.connected
       case GoReady => c.readyPending
       case ReadyLost => exists m :: m in c.sent && m.READY?
       case GoStart(_) => c.startsPending > 0
       case GoStarted(_) => c.startedPending > 0
       case Drop => c.connected
       case GoDisconnect(_) => c.disconnectPending
       case Signal(_) => true
       case Closed(_, _) => c.listening > 0
       case Tick(_) => c.terminationStarted
       case ResultFlushed => c.resultCode.Some?
       case RunDry => Idle(c)
  }

  function On(c: Ctl, e: Occurrence): Ctl
    requires CanOccur(c, e)
  {
    match e
    case Message(m, identityOk, alone) => OnMessage(c, m, identityOk, alone)
    case GoReady => ResumeReady(c)
    case ReadyLost => Exit(c, 2)
    case GoStart(hasPid) => ResumeStart(c, hasPid)
    case GoStarted(alone) => ResumeStarted(c, alone)
    case Drop => OnDisconnect(c)
    case GoDisconnect(alone) => ResumeDisconnect(c, alone)
    case Signal(alone) => Terminate(c, alone)
    case Closed(o, alone) => OnSupervisorClosed(c, o, alone)
    case Tick(alone) => Poll(c, alone)
    case ResultFlushed => Exit(c, c.resultCode.value)
    case RunDry => Exit(c, 0)
  }

  /** The controller as the source has it: an object whose handlers assign its variables. */
  class Controller {
    var executionToken: Option<string>
    var supervisors: nat
    var supervisorObservation: Option<Observation>
    var terminationStarted: bool
    var resultCode: Option<int>
    var connected: bool
    var readyPending: bool
    var startsPending: nat
    var startedPending: nat
    var listening: nat
    var disconnectPending: bool
    var sent: seq<ControllerMessage>
    var exitCode: Option<int>

    function View(): Ctl
      reads this
    {
      Ctl(executionToken, supervisors, supervisorObservation, terminationStarted, resultCode, connected,
          readyPending, startsPending, startedPending, listening, disconnectPending, sent, exitCode)
    }

    constructor ()
      ensures View() == FRESH
    {
      executionToken, supervisors, supervisorObservation := None, 0, None;
      terminationStarted, resultCode, connected := false, None, true;
      readyPending, startsPending, startedPending, listening, disconnectPending := false, 0, 0, 0, false;
      sent, exitCode := [], None;
    }

    method ExitController(code: int)
      modifies this`exitCode
      ensures View() == Exit(old(View()), code)
    {
      if exitCode.Some? {
        return;
      }
      exitCode := Some(code);
    }

    method FinishWhenQuiescent(alone: Option<bool>)
      modifies this
      ensures View() == Poll(old(View()), alone)
    {
      if !terminationStarted || exitCode.Some? || resultCode.Some? {
        return;
      }
      if alone.None? || !alone.value {
        return;
      }
      var code := 1;
      if supervisorObservation.Some? && supervisorObservation.value.exitCode.Some? {
        code := supervisorObservation.value.exitCode.value;
      }
      if supervisorObservation.Some? && executionToken.Some? && connected {
        resultCode := Some(code);
        sent := sent + [RESULT(executionToken.value, supervisorObservation.value)];
        return;
      }
      ExitController(code);
    }

    method BeginTermination(alone: Option<bool>)
      modifies this
      ensures View() == Terminate(old(View()), alone)
    {
      if terminationStarted || exitCode.Some? {
        return;
      }
      terminationStarted := true;
      FinishWhenQuiescent(alone);
    }

    method Receive(m: LauncherMessage, identityOk: bool, alone: Option<bool>)
      modifies this
      ensures View() == OnMessage(old(View()), m, identityOk, alone)
    {
      match m
      case Malformed =>
        if supervisors == 0 {
          ExitController(2);
        } else {
          BeginTermination(alone);
        }
      case PREPARE(token) =>
        if executionToken.Some? || supervisors > 0 {
          ExitController(2);
          return;
        }
        executionToken := Some(token);
        if !identityOk {
          ExitController(2);
          return;
        }
        readyPending := true;
      case START(token) =>
        if executionToken != Some(token) || supervisors > 0 || terminationStarted {
          ExitController(2);
          return;
        }
        startsPending := startsPending + 1;
    }

    method ContinueReady()
      requires readyPending
      modifies this
      ensures View() == ResumeReady(old(View()))
    {
      readyPending := false;
      if !connected || exitCode.Some? || executionToken.None? {
        return;
      }
      sent := sent + [READY(executionToken.value)];
    }

    method ContinueStart(hasPid: bool)
      requires startsPending > 0
      modifies this
      ensures View() == ResumeStart(old(View()), hasPid)
    {
      startsPending := startsPending - 1;
      if !connected || exitCode.Some? || terminationStarted || executionToken.None? {
        return;
      }
      supervisors := supervisors + 1;
      if hasPid {
        startedPending := startedPending + 1;
        return;
      }
      listening := listening + 1;
    }

    method ContinueStarted(alone: Option<bool>)
      requires startedPending > 0
      modifies this
      ensures View() == ResumeStarted(old(View()), alone)
    {
      startedPending, listening := startedPending - 1, listening + 1;
      if connected && executionToken.Some? {
        sent := sent + [STARTED(executionToken.value)];
      } else {
        BeginTermination(alone);
      }
    }

    method Disconnected()
      modifies this
      ensures View() == OnDisconnect(old(View()))
    {
      connected := false;
      if supervisors == 0 {
        ExitController(0);
        return;
      }
      disconnectPending := true;
    }

    method ContinueDisconnect(alone: Option<bool>)
      modifies this
      ensures View() == ResumeDisconnect(old(View()), alone)
    {
      disconnectPending := false;
      BeginTermination(alone);
    }

    method SupervisorClosed(o: Observation, alone: Option<bool>)
      modifies this
      ensures View() == OnSupervisorClosed(old(View()), o, alone)
      ensures supervisorObservation == Some(o)
      ensures old(exitCode).None? ==> terminationStarted
      // The first look already finds nobody else: RESULT goes out, or the process ends, with the supervisor's code.
      ensures old(exitCode).None? && !old(terminationStarted) && old(resultCode).None? && alone == Some(true) ==>
                var code := if o.exitCode.Some? then o.exitCode.value else 1;
                if executionToken.Some? && connected
                then sent == old(sent) + [RESULT(executionToken.value, o)] && resultCode == Some(code)
                else exitCode == Some(code)
    {
      supervisorObservation := Some(o);
      BeginTermination(alone);
    }

    /** The event loop: every occurrence runs its handler. */
    method Handle(e: Occurrence)
      requires CanOccur(View(), e)
      modifies this
      ensures View() == On(old(View()), e)
    {
      hide OnMessage, ResumeReady, ResumeStart, ResumeStarted, OnDisconnect, ResumeDisconnect, OnSupervisorClosed,
        Terminate, Poll, Idle;
      match e
      case Message(m, identityOk, alone) => Receive(m, identityOk, alone);
      case GoReady => ContinueReady();
      case ReadyLost => ExitController(2);
      case GoStart(hasPid) => ContinueStart(hasPid);
      case GoStarted(alone) => ContinueStarted(alone);
      case Drop => Disconnected();
      case GoDisconnect(alone) => ContinueDisconnect(alone);
      case Signal(alone) => BeginTermination(alone);
      case Closed(o, alone) => SupervisorClosed(o, alone);
      case Tick(alone) => FinishWhenQuiescent(alone);
      case ResultFlushed => ExitController(resultCode.value);
      case RunDry => ExitController(0);
    }
  }

  // ---------------------------------------------------------------------------------------------
  // Effects and their causes.

  /** The occurrence makes the controller begin termination: a signal, a lost channel, a close, nonsense, no STARTED. */
  predicate CallsForTheEnd(c: Ctl, e: Occurrence) {
    || e.Signal? || e.GoDisconnect? || e.Closed?
    || (e.Message? && e.m.Malformed? && c.spawns > 0)
    || (e.GoStarted? && !(c.connected && c.token.Some?))
  }

  /** A message that the controller has no use for, before it has work. */
  predicate Unwelcome(c: Ctl, e: Occurrence) {
    && e.Message?
    && match e.m
       case Malformed => c.spawns == 0
       case PREPARE(_) => c.token.Some? || c.spawns > 0 || !e.identityOk
       case START(t) => c.token != Some(t) || c.spawns > 0 || c.terminationStarted
  }

  /** The first PREPARE. */
  predicate TakesToken(c: Ctl, e: Occurrence) {
    e.Message? && e.m.PREPARE? && c.token.None? && c.spawns == 0
  }

  /** A START under the right token, before a supervisor exists and before termination. */
  predicate Admits(c: Ctl, e: Occurrence) {
    e.Message? && e.m.START? && c.token == Some(e.m.token) && c.spawns == 0 && !c.terminationStarted
  }

  /** What the group listing of an occurrence says, if it makes one. */
  function ListingOf(e: Occurrence): Option<bool> {
    match e
    case Message(_, _, alone) => alone
    case GoStarted(alone) => alone
    case GoDisconnect(alone) => alone
    case Signal(alone) => alone
    case Closed(_, alone) => alone
    case Tick(alone) => alone
    case _ => None
  }

  /** The first look of a termination that begins now, or a later one, finds nobody else. */
  predicate FindsNobody(c: Ctl, e: Occurrence) {
    && c.resultCode.None? && ListingOf(e) == Some(true)
    && ((CallsForTheEnd(c, e) && !c.terminationStarted) || (e.Tick? && c.terminationStarted))
  }

  /** Its variables: the token comes from the first PREPARE, and the suspended handlers move on. */
  predicate Proceeds(c: Ctl, e: Occurrence, d: Ctl) {
    && d.token == (if TakesToken(c, e) then Some(e.m.token) else c.token)
    && d.readyPending == (if TakesToken(c, e) && e.identityOk then true else c.readyPending && !e.GoReady?)
    && d.startsPending == c.startsPending + (if Admits(c, e) then 1 else 0) - (if e.GoStart? then 1 else 0)
    && d.startedPending == c.startedPending + (if e.GoStart? && Open(c) && e.hasPid then 1 else 0)
                           - (if e.GoStarted? then 1 else 0)
    && d.listening == c.listening + (if e.GoStarted? || (e.GoStart? && Open(c) && !e.hasPid) then 1 else 0)
    && (d.disconnectPending <==> (c.disconnectPending && !e.GoDisconnect?) || (e.Drop? && c.spawns > 0))
    && (d.connected <==> c.connected && !e.Drop?)
    && d.spawns == c.spawns + (if e.GoStart? && Open(c) then 1 else 0)
    && d.observation == (if e.Closed? then Some(e.o) else c.observation)
  }

  /** Its effects: termination, messages and the end of the process, each exactly by what brings it about. */
  predicate Acts(c: Ctl, e: Occurrence, d: Ctl) {
    var observed := if e.Closed? then Some(e.o) else c.observation;
    var code := if observed.Some? && observed.value.exitCode.Some? then observed.value.exitCode.value else 1;
    var reports := FindsNobody(c, e) && observed.Some? && c.token.Some? && c.connected;
    && (d.terminationStarted <==> c.terminationStarted || CallsForTheEnd(c, e))
    && d.resultCode == (if reports then Some(code) else c.resultCode)
    && d.sent == c.sent
         + (if e.GoReady? && c.connected && c.token.Some? then [READY(c.token.value)] else [])
         + (if e.GoStarted? && c.connected && c.token.Some? then [STARTED(c.token.value)] else [])
         + (if reports then [RESULT(c.token.value, observed.value)] else [])
    && d.exit == (if Unwelcome(c, e) || e.ReadyLost? then Some(2)
                  else if (e.Drop? && c.spawns == 0) || e.RunDry? then Some(0)
                  else if e.ResultFlushed? then c.resultCode
                  else if FindsNobody(c, e) && !reports then Some(code)
                  else None)
  }

  lemma NonsenseProceeds(c: Ctl, e: Occurrence)
    requires CanOccur(c, e) && e.Message? && e.m.Malformed?
    ensures Proceeds(c, e, On(c, e))
  {
    TerminateWindsDown(c, e.alone);
    hide Terminate, Poll, ResultCode, Idle;
  }

  lemma MessagesProceed(c: Ctl, e: Occurrence)
    requires CanOccur(c, e) && e.Message? && !e.m.Malformed?
    ensures Proceeds(c, e, On(c, e))
  {
    hide Terminate, Poll, ResultCode, Idle;
  }

  lemma LooksProceed(c: Ctl, e: Occurrence)
    requires CanOccur(c, e) && (e.GoDisconnect? || e.Signal? || e.Tick? || e.Closed?)
    ensures Proceeds(c, e, On(c, e))
  {
    TerminateWindsDown(c.(observation := if e.Closed? then Some(e.o) else c.observation,
                          disconnectPending := if e.GoDisconnect? then false else c.disconnectPending), e.alone);
    hide Terminate, Poll, ResultCode, Idle;
  }

  lemma OthersProceed(c: Ctl, e: Occurrence)
    requires CanOccur(c, e) && !e.Message? && !e.GoDisconnect? && !e.Signal? && !e.Tick? && !e.Closed?
    ensures Proceeds(c, e, On(c, e))
  {
    if e.GoStarted? {
      TerminateWindsDown(c.(startedPending := c.startedPending - 1, listening := c.listening + 1), e.alone);
    }
    hide Terminate, Poll, ResultCode, Idle;
  }

  /** Every handler does to the controller's variables what its occurrence says, and nothing else. */
  lemma VariablesAndCauses(c: Ctl, e: Occurrence)
    requires CanOccur(c, e)
    ensures Proceeds(c, e, On(c, e))
  {
    hide Proceeds, On, CanOccur;
    if e.Message? {
      if e.m.Malformed? {
        NonsenseProceeds(c, e);
      } else {
        MessagesProceed(c, e);
      }
    } else if e.GoDisconnect? || e.Signal? || e.Tick? || e.Closed? {
      LooksProceed(c, e);
    } else {
      OthersProceed(c, e);
    }
  }

  lemma MessageActs(c: Ctl, e: Occurrence)
    requires CanOccur(c, e) && e.Message?
    ensures Acts(c, e, On(c, e))
  {
  }

  lemma ContinuationActs(c: Ctl, e: Occurrence)
    requires CanOccur(c, e) && (e.GoReady? || e.GoStart? || e.GoStarted?)
    ensures Acts(c, e, On(c, e))
  {
  }

  lemma LookActs(c: Ctl, e: Occurrence)
    requires CanOccur(c, e) && (e.GoDisconnect? || e.Signal? || e.Tick?)
    ensures Acts(c, e, On(c, e))
  {
  }

  lemma CloseActs(c: Ctl, e: Occurrence)
    requires CanOccur(c, e) && e.Closed?
    ensures Acts(c, e, On(c, e))
  {
  }

  lemma EndActs(c: Ctl, e: Occurrence)
    requires CanOccur(c, e) && (e.ReadyLost? || e.Drop? || e.ResultFlushed? || e.RunDry?)
    ensures Acts(c, e, On(c, e))
  {
  }

  /** Every effect a handler can have, and exactly what brings it about. */
  lemma EffectsAndCauses(c: Ctl, e: Occurrence)
    requires CanOccur(c, e)
    ensures Acts(c, e, On(c, e))
  {
    hide Acts, On, CanOccur;
    match e
    case Message(_, _, _) => MessageActs(c, e);
    case GoStarted(_) => ContinuationActs(c, e);
    case GoDisconnect(_) => LookActs(c, e);
    case Signal(_) => LookActs(c, e);
    case Closed(_, _) => CloseActs(c, e);
    case Tick(_) => LookActs(c, e);
    case GoReady => ContinuationActs(c, e);
    case GoStart(_) => ContinuationActs(c, e);
    case _ => EndActs(c, e);
  }

  // ---------------------------------------------------------------------------------------------
  // The controller alone.

  predicate CanOccurAll(c: Ctl, es: seq<Occurrence>)
    decreases |es|
  {
    es != [] ==> CanOccur(c, es[0]) && CanOccurAll(On(c, es[0]), es[1..])
  }

  function OnAll(c: Ctl, es: seq<Occurrence>): Ctl
    requires CanOccurAll(c, es)
    decreases |es|
  {
    if es == [] then c else OnAll(On(c, es[0]), es[1..])
  }

  /** A START handler past its guard knows the token. */
  predicate Guarded(c: Ctl) {
    c.startsPending > 0 ==> c.token.Some?
  }

  /** The most START handlers that ever waited past their guard while nothing had been spawned. */
  function MostWaiting(c: Ctl, es: seq<Occurrence>): nat
    requires CanOccurAll(c, es)
    decreases |es|
  {
    var here := if c.spawns == 0 then c.startsPending else 0;
    var later := if es == [] then 0 else MostWaiting(On(c, es[0]), es[1..]);
    if here > later then here else later
  }

  lemma OccurrenceSpawns(c: Ctl, e: Occurrence)
    requires CanOccur(c, e) && Guarded(c)
    ensures Guarded(On(c, e)) && On(c, e).spawns >= c.spawns
    ensures c.spawns > 0 || !e.Message? ==> On(c, e).spawns + On(c, e).startsPending <= c.spawns + c.startsPending
    ensures On(c, e).spawns > c.spawns ==> On(c, e).spawns + On(c, e).startsPending == c.spawns + c.startsPending
  {
    VariablesAndCauses(c, e);
    EffectsAndCauses(c, e);
    hide On, FindsNobody, Unwelcome, Idle;
  }

  lemma OccurrenceOpens(c: Ctl, e: Occurrence)
    requires CanOccur(c, e)
    ensures On(c, e).spawns > c.spawns ==> Open(c)
    ensures Open(On(c, e)) && !e.Message? ==> Open(c)
  {
    VariablesAndCauses(c, e);
    EffectsAndCauses(c, e);
    hide On, FindsNobody, Unwelcome, Idle;
  }

  /** Once a supervisor exists, every further spawn was past its guard before the first one. */
  lemma {:induction false} SpawnsWereWaiting(c: Ctl, es: seq<Occurrence>)
    requires CanOccurAll(c, es) && Guarded(c)
    ensures var most, end := MostWaiting(c, es), OnAll(c, es);
            end.spawns <= (if c.spawns == 0 then most else c.spawns + c.startsPending)
    ensures c.spawns > 0 ==> OnAll(c, es).spawns + OnAll(c, es).startsPending <= c.spawns + c.startsPending
    decreases |es|
  {
    if es != [] {
      hide On, CanOccur;
      OccurrenceSpawns(c, es[0]);
      SpawnsWereWaiting(On(c, es[0]), es[1..]);
    }
  }

  /** From here, without another message, some schedule spawns a second supervisor. */
  ghost predicate MaySpawnTwice(c: Ctl) {
    exists es :: SpawnsTwice(c, es)
  }

  predicate SpawnsTwice(c: Ctl, es: seq<Occurrence>) {
    CanOccurAll(c, es) && (forall e :: e in es ==> !e.Message?) && OnAll(c, es).spawns >= 2
  }

  lemma {:induction false} WithoutMessages(c: Ctl, es: seq<Occurrence>)
    requires CanOccurAll(c, es) && Guarded(c) && forall e :: e in es ==> !e.Message?
    ensures OnAll(c, es).spawns <= c.spawns + c.startsPending
    ensures OnAll(c, es).spawns > c.spawns ==> Open(c)
    decreases |es|
  {
    if es != [] {
      hide On, CanOccur, Open;
      OccurrenceSpawns(c, es[0]);
      OccurrenceOpens(c, es[0]);
      WithoutMessages(On(c, es[0]), es[1..]);
    }
  }

  /**
   * A second supervisor can be spawned exactly when one exists already, or two handlers are past the guard
   * (counting the one that has spawned) and the controller still takes work.
   */
  lemma SecondSpawnIff(c: Ctl)
    requires Guarded(c)
    ensures MaySpawnTwice(c) <==> c.spawns >= 2 || (Open(c) && c.spawns + c.startsPending >= 2)
  {
    if MaySpawnTwice(c) {
      var es :| SpawnsTwice(c, es);
      WithoutMessages(c, es);
    }
    if c.spawns >= 2 {
      assert SpawnsTwice(c, []);
    } else if Open(c) && c.spawns + c.startsPending >= 2 {
      var d := On(c, GoStart(true));
      assert CanOccurAll(d, []) && OnAll(d, []) == d;
      if c.spawns == 1 {
        assert [GoStart(true)][1..] == [];
        assert SpawnsTwice(c, [GoStart(true)]);
      } else {
        var f := On(d, GoStart(true));
        var two := [GoStart(true), GoStart(true)];
        assert CanOccurAll(f, []) && OnAll(f, []) == f;
        assert two[1..] == [GoStart(true)] && two[1..][1..] == [];
        assert SpawnsTwice(c, two);
      }
    }
  }

  /** Both directions are met: a single waiting START is safe, two are not. */
  lemma TwoStartsSpawnTwice(t: string)
    ensures var es := [Message(PREPARE(t), true, None), GoReady, Message(START(t), true, None),
                       Message(START(t), true, None)];
            && CanOccurAll(FRESH, es[..3]) && !MaySpawnTwice(OnAll(FRESH, es[..3]))
            && CanOccurAll(FRESH, es) && MaySpawnTwice(OnAll(FRESH, es))
  {
    var es := [Message(PREPARE(t), true, None), GoReady, Message(START(t), true, None), Message(START(t), true, None)];
    var a := On(FRESH, es[0]);
    var b := On(a, GoReady);
    var c := On(b, es[2]);
    var d := On(c, es[3]);
    assert es[1..][0] == GoReady && es[2..][0] == es[2] && es[3..][0] == es[3];
    assert CanOccurAll(d, []) && OnAll(d, []) == d && es[3..][1..] == [];
    assert CanOccurAll(c, es[3..]) && OnAll(c, es[3..]) == d;
    assert es[2..][1..] == es[3..] && CanOccurAll(b, es[2..]) && OnAll(b, es[2..]) == d;
    assert es[1..][1..] == es[2..] && CanOccurAll(a, es[1..]) && OnAll(a, es[1..]) == d;
    assert OnAll(FRESH, es) == d;
    var s := es[..3];
    assert s[1..][0] == GoReady && s[2..][0] == es[2] && s[2..][1..] == [];
    assert CanOccurAll(c, []) && OnAll(c, []) == c;
    assert CanOccurAll(b, s[2..]) && OnAll(b, s[2..]) == c;
    assert s[1..][1..] == s[2..] && CanOccurAll(a, s[1..]) && OnAll(a, s[1..]) == c;
    assert OnAll(FRESH, s) == c;
    SecondSpawnIff(c);
    SecondSpawnIff(d);
  }
}
