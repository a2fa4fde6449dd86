/**
 * One execution controller and the launcher that talks to it: `prepareSupervisorPass` and its single-use
 * `start` (src/modules/reconciliation/supervisor-pass.ts) over an ordered IPC channel that may close at any
 * time, with the supervisor and its descendants in the controller's process group.
 */
module SupervisorPass {
  import opened Base
  import opened ExecutionController

  datatype Closing = Closing(exitCode: Option<int>, signal: Option<string>)

  /** `SupervisorPassResult`, with the fields success depends on. */
  datatype PassResult = PassResult(exitCode: Option<int>, signal: Option<string>, spawnError: Option<string>)

  predicate PassSucceeded(r: PassResult) {
    r.spawnError.None? && r.signal.None? && r.exitCode == Some(0)
  }

  function OrElse<T>(first: Option<T>, second: Option<T>): Option<T> {
    if first.Some? then first else second
  }

  /** What `start` makes of the RESULT it received, if any, and of the controller's close. */
  function ResultOf(result: Option<Observation>, closed: Closing): PassResult {
    PassResult(OrElse(if result.Some? then result.value.exitCode else None, closed.exitCode),
               OrElse(if result.Some? then result.value.signal else None, closed.signal),
               if result.Some? then result.value.spawnError else None)
  }

  datatype Comp = Comp(
    ctl: Ctl,
    killed: Option<string>,          // signal that killed the controller, if one did
    supervisorAlive: bool,
    supervisorEnd: Option<Observation>,  // how the supervisor of this execution really ended
    closeEmitted: bool,              // its `close` event has been emitted
    heard: bool,                     // and the controller was listening
    descendants: nat,                // other members of the controller's group
    pipe: seq<LauncherMessage>,      // sent by the launcher, not yet delivered
    token: string,                   // the launcher's execution token
    prepareSent: bool,
    started: bool,                   // `start` has been called: it is single-use
    received: Option<Observation>,   // the RESULT the launcher has received
    returned: Option<PassResult>,
    droppedEarly: bool,              // the channel closed before any supervisor was spawned
    ranDry: bool)                    // the controller's event loop ran empty

  function Begin(token: string): Comp {
    Comp(FRESH, None, false, None, false, false, 0, [], token, false, false, None, None, false, false)
  }

  predicate ControllerAlive(s: Comp) {
    s.killed.None? && s.ctl.exit.None?
  }

  /** The controller is the only member of its group. */
  predicate Alone(s: Comp) {
    !s.supervisorAlive && s.descendants == 0
  }

  predicate GroupAbsent(s: Comp) {
    !ControllerAlive(s) && Alone(s)
  }

  /** A group listing fails or tells the truth. */
  predicate Truthful(s: Comp, alone: Option<bool>) {
    alone.Some? ==> alone.value == Alone(s)
  }

  datatype Move =
    | SendPrepare
    | CallStart
    | Deliver(identityOk: bool, alone: Option<bool>)
    | Spawn(failure: Option<int>)                   // the START handler resumes; the errno when no process came up
    | SupervisorCloses(alone: Option<bool>)         // the close event is emitted
    | Own(e: Occurrence)                            // any other occurrence at the controller
    | SupervisorForks
    | DescendantForks
    | DescendantDies
    | SupervisorDies(o: Observation)
    | KillController(signal: string)
    | ReceiveResult(at: nat)
    | Return

  /** What a move is to the controller; a close nobody listens to yet is nothing to it. */
  function OccurrenceOf(s: Comp, m: Move): Option<Occurrence> {
    match m
    case Deliver(identityOk, alone) => if s.pipe == [] then None else Some(Message(s.pipe[0], identityOk, alone))
    case Spawn(failure) => Some(GoStart(failure.None?))
    case SupervisorCloses(alone) =>
      if s.ctl.listening > 0 && s.supervisorEnd.Some? then Some(Closed(s.supervisorEnd.value, alone)) else None
    case Own(e) => Some(e)
    case _ => None
  }

  function Listing(e: Occurrence): Option<bool> {
    match e
    case Message(_, _, alone) => alone
    case GoStarted(alone) => alone
    case GoDisconnect(alone) => alone
    case Signal(alone) => alone
    case Closed(_, alone) => alone
    case Tick(alone) => alone
    case _ => None
  }

  predicate CanMove(s: Comp, m: Move) {
    && (OccurrenceOf(s, m).Some? ==>
          s.killed.None? && CanOccur(s.ctl, OccurrenceOf(s, m).value) && Truthful(s, Listing(OccurrenceOf(s, m).value)))
    && match m
       case SendPrepare => !s.prepareSent && s.ctl.connected
       case CallStart => s.prepareSent && !s.started && s.ctl.connected && READY(s.token) in s.ctl.sent
       case Deliver(_, _) => s.pipe != []
       case Spawn(failure) => failure.Some? ==> failure.value < 0
       case SupervisorCloses(_) => ControllerAlive(s) && s.supervisorEnd.Some? && !s.closeEmitted
       // The supervisor's handle keeps the process alive until its close has been emitted.
       case Own(e) =>
         && !e.Message? && !e.GoStart? && !e.Closed? && (e.RunDry? ==> s.ctl.spawns > 0 ==> s.closeEmitted)
         // A READY that the launcher has acted on was not lost.
         && (e.ReadyLost? ==> !s.started)
       case SupervisorForks => s.supervisorAlive
       case DescendantForks => s.descendants > 0
       case DescendantDies => s.descendants > 0
       // Node reports either an exit code or a signal.
       case SupervisorDies(o) => s.supervisorAlive && (o.exitCode.Some? <==> o.signal.None?) && o.spawnError.None?
       case KillController(_) => ControllerAlive(s)
       case ReceiveResult(at) =>
         s.started && s.returned.None? && at < |s.ctl.sent| && s.ctl.sent[at].RESULT? && s.ctl.sent[at].token == s.token
       case Return => s.started && s.returned.None? && GroupAbsent(s)
  }

  /** What the launcher sees of the controller's end. */
  function ClosingOf(s: Comp): Closing {
    if s.killed.Some? then Closing(None, s.killed) else Closing(s.ctl.exit, None)
  }

  /** What a move does outside the controller, which goes from `s.ctl` to `c`. */
  function Outside(s: Comp, m: Move, c: Ctl): Comp
    requires m.ReceiveResult? ==> m.at < |s.ctl.sent| && s.ctl.sent[m.at].RESULT?
  {
    match m
    case SendPrepare => s.(prepareSent := true, pipe := s.pipe + [PREPARE(s.token)])
    case CallStart => s.(started := true, pipe := s.pipe + [START(s.token)])
    case Deliver(_, _) => s.(pipe := if s.pipe == [] then [] else s.pipe[1..])
    case Spawn(failure) =>
      if c.spawns == s.ctl.spawns then s
      else if failure.None? then s.(supervisorAlive := true)
      else s.(supervisorEnd := Some(Observation(failure, None, Some("spawn failed"))))
    case SupervisorCloses(_) => s.(closeEmitted := true, heard := s.ctl.listening > 0)
    case Own(e) =>
      if e.Drop? then s.(droppedEarly := s.ctl.spawns == 0) else if e.RunDry? then s.(ranDry := true) else s
    case SupervisorForks => s.(descendants := s.descendants + 1)
    case DescendantForks => s.(descendants := s.descendants + 1)
    case DescendantDies => s.(descendants := if s.descendants == 0 then 0 else s.descendants - 1)
    case SupervisorDies(o) => s.(supervisorAlive := false, supervisorEnd := Some(o))
    case KillController(signal) => s.(killed := Some(signal))
    case ReceiveResult(at) => s.(received := Some(s.ctl.sent[at].observation))
    case Return => s.(returned := Some(ResultOf(s.received, ClosingOf(s))))
  }

  /** The controller after a move. */
  function Within(s: Comp, m: Move): Ctl
    requires CanMove(s, m)
  {
    if OccurrenceOf(s, m).Some? then On(s.ctl, OccurrenceOf(s, m).value) else s.ctl
  }

  function Made(s: Comp, m: Move): Comp
    requires CanMove(s, m)
  {
    Outside(s, m, Within(s, m)).(ctl := Within(s, m), token := s.token)
  }

  predicate CanAll(s: Comp, ms: seq<Move>)
    decreases |ms|
  {
    ms != [] ==> CanMove(s, ms[0]) && CanAll(Made(s, ms[0]), ms[1..])
  }

  function MadeAll(s: Comp, ms: seq<Move>): Comp
    requires CanAll(s, ms)
    decreases |ms|
  {
    if ms == [] then s else MadeAll(Made(s, ms[0]), ms[1..])
  }

  /** The composition played out on a real controller object. */
  method Play(token: string, ms: seq<Move>) returns (c: Controller, s: Comp)
    requires CanAll(Begin(token), ms)
    ensures s == MadeAll(Begin(token), ms) && fresh(c) && c.View() == s.ctl
  {
    c := new Controller();
    s := Begin(token);
    for i := 0 to |ms|
      invariant fresh(c) && c.View() == s.ctl
      invariant CanAll(s, ms[i..]) && MadeAll(s, ms[i..]) == MadeAll(Begin(token), ms)
    {
      assert ms[i..][0] == ms[i] && ms[i..][1..] == ms[i + 1..];
      MadeAtTheController(s, ms[i]);
      var e := OccurrenceOf(s, ms[i]);
      if e.Some? {
        c.Handle(e.value);
      }
      s := Made(s, ms[i]);
    }
  }

  lemma MadeAtTheController(s: Comp, m: Move)
    requires CanMove(s, m)
    ensures Made(s, m).ctl == if OccurrenceOf(s, m).Some? then On(s.ctl, OccurrenceOf(s, m).value) else s.ctl
    ensures OccurrenceOf(s, m).Some? ==> CanOccur(s.ctl, OccurrenceOf(s, m).value)
    ensures Made(s, m).token == s.token
  {
    hide On, CanOccur, Outside, Truthful, Listing, OccurrenceOf, GroupAbsent, ControllerAlive;
  }

  function Starts(pipe: seq<LauncherMessage>): nat {
    if pipe == [] then 0 else (if pipe[0].START? then 1 else 0) + Starts(pipe[1..])
  }

  function Results(sent: seq<ControllerMessage>): nat {
    if sent == [] then 0
    else Results(sent[..|sent| - 1]) + (if sent[|sent| - 1].RESULT? then 1 else 0)
  }

  /** One START, wherever it is, and one token. */
  predicate StartsInv(s: Comp) {
    && Starts(s.pipe) + s.ctl.startsPending + s.ctl.spawns <= (if s.started then 1 else 0)
    && (forall m :: m in s.pipe ==> !m.Malformed? && m.token == s.token)
    && (s.ctl.token.Some? ==> s.ctl.token.value == s.token)
    && (s.ctl.startsPending + s.ctl.spawns > 0 ==> s.ctl.token == Some(s.token))
    && s.ctl.startedPending + s.ctl.listening == s.ctl.spawns
  }

  /** What the launcher sent is under way or has been taken in: PREPARE as the token, START as a handler or a spawn. */
  predicate PipeInv(s: Comp) {
    && (s.started ==> s.prepareSent)
    && |s.pipe| + (if s.ctl.token.Some? then 1 else 0) + s.ctl.startsPending + s.ctl.spawns
       <= (if s.prepareSent then 1 else 0) + (if s.started then 1 else 0)
  }

  /** A supervisor that lives or has ended was spawned, and what the controller observed is how it ended. */
  predicate EndsInv(s: Comp) {
    && (s.supervisorAlive || s.descendants > 0 || s.supervisorEnd.Some? ==> s.ctl.spawns == 1)
    && (s.supervisorAlive ==> s.supervisorEnd.None?)
    && (s.supervisorEnd.Some? ==> (s.supervisorEnd.value.exitCode.Some? <==> s.supervisorEnd.value.signal.None?))
    && (s.closeEmitted ==> s.supervisorEnd.Some?)
    && (s.ctl.observation.Some? ==> s.ctl.observation == s.supervisorEnd && s.closeEmitted)
    && (s.heard <==> s.ctl.observation.Some?)
    && (s.supervisorEnd.Some? && s.supervisorEnd.value.spawnError.Some? ==>
          s.supervisorEnd.value.exitCode.Some? && s.supervisorEnd.value.exitCode.value < 0)
  }

  /** RESULT is sent once, by a terminating controller that is alone and will stay alone. */
  predicate ResultInv(s: Comp) {
    && Results(s.ctl.sent) == (if s.ctl.resultCode.Some? then 1 else 0)
    && (s.ctl.resultCode.Some? ==>
          && s.ctl.terminationStarted && Alone(s) && s.ctl.observation.Some?
          && s.ctl.resultCode.value == ResultCode(s.ctl))
    && (forall i :: 0 <= i < |s.ctl.sent| && s.ctl.sent[i].RESULT? ==>
          s.ctl.resultCode.Some? && Some(s.ctl.sent[i].observation) == s.ctl.observation)
    && (s.received.Some? ==> s.received == s.ctl.observation && s.ctl.resultCode.Some?)
  }

  /** Exit code 0 is the supervisor's own, or the answer to an early drop, or a loop that ran empty after a late one. */
  predicate ExitInv(s: Comp) {
    && (!s.ctl.connected && s.ctl.exit.None? ==> s.ctl.spawns > 0)
    && (s.droppedEarly ==> s.ctl.exit == Some(0) && s.ctl.spawns == 0 && !s.ctl.connected)
    && (s.ranDry ==>
          && s.ctl.exit == Some(0) && s.ctl.resultCode.None? && s.ctl.spawns > 0
          && !s.ctl.connected && s.closeEmitted)
    && (s.ctl.exit == Some(0) ==>
          s.droppedEarly || s.ranDry || (s.ctl.observation.Some? && s.ctl.observation.value.exitCode == Some(0)))
    && (s.heard && s.ctl.exit.Some? ==> s.ranDry || s.ctl.exit.value == ResultCode(s.ctl))
    && (s.killed.Some? ==> s.ctl.exit.None?)
    && (s.returned.Some? ==> GroupAbsent(s) && s.started && s.returned.value == ResultOf(s.received, ClosingOf(s)))
  }

  predicate CompInv(s: Comp) {
    StartsInv(s) && PipeInv(s) && EndsInv(s) && ResultInv(s) && ExitInv(s)
  }

  lemma ResultsAppend(sent: seq<ControllerMessage>, m: ControllerMessage)
    ensures Results(sent + [m]) == Results(sent) + (if m.RESULT? then 1 else 0)
  {
    assert (sent + [m])[..|sent|] == sent;
  }

  lemma {:induction false} StartsAppend(pipe: seq<LauncherMessage>, m: LauncherMessage)
    ensures Starts(pipe + [m]) == Starts(pipe) + (if m.START? then 1 else 0)
  {
    if pipe != [] {
      assert (pipe + [m])[1..] == pipe[1..] + [m];
      StartsAppend(pipe[1..], m);
    }
  }

  /** Looking at the group keeps everything: the listing proves the controller alone, for good. */
  lemma WindDownKeepsInv(s: Comp, d: Ctl, alone: Option<bool>)
    requires CompInv(s) && ControllerAlive(s) && Truthful(s, alone) && WindsDown(s.ctl, d, alone)
    requires s.ctl.terminationStarted ==> d.terminationStarted
    ensures CompInv(s.(ctl := d))
  {
    if s.ctl.observation.Some? && s.ctl.token.Some? {
      ResultsAppend(s.ctl.sent, RESULT(s.ctl.token.value, s.ctl.observation.value));
    }
  }

  lemma SendKeepsInv(s: Comp, m: Move)
    requires CompInv(s) && (m.SendPrepare? || m.CallStart?) && CanMove(s, m)
    ensures CompInv(Made(s, m))
  {
    StartsAppend(s.pipe, PREPARE(s.token));
    StartsAppend(s.pipe, START(s.token));
  }

  lemma DeliverKeepsInv(s: Comp, m: Move)
    requires CompInv(s) && m.Deliver? && CanMove(s, m)
    ensures CompInv(Made(s, m))
  {
    hide Terminate, Poll;
    assert s.pipe[0] in s.pipe;
    assert Starts(s.pipe) == (if s.pipe[0].START? then 1 else 0) + Starts(s.pipe[1..]);
  }

  lemma SpawnKeepsInv(s: Comp, m: Move)
    requires CompInv(s) && m.Spawn? && CanMove(s, m)
    ensures CompInv(Made(s, m))
  {
  }

  lemma ClosesKeepsInv(s: Comp, m: Move)
    requires CompInv(s) && m.SupervisorCloses? && CanMove(s, m)
    ensures CompInv(Made(s, m))
  {
    hide Terminate, Poll;
    if s.ctl.listening > 0 {
      var u := s.(ctl := s.ctl.(observation := s.supervisorEnd), closeEmitted := true, heard := true);
      TerminateWindsDown(u.ctl, m.alone);
      WindDownKeepsInv(u, Terminate(u.ctl, m.alone), m.alone);
    }
  }

  /** READY and STARTED change nothing about RESULT. */
  lemma SayingKeepsInv(s: Comp, m: ControllerMessage)
    requires CompInv(s) && !m.RESULT?
    ensures CompInv(s.(ctl := s.ctl.(sent := s.ctl.sent + [m])))
  {
    ResultsAppend(s.ctl.sent, m);
  }

  lemma ListeningKeepsInv(s: Comp)
    requires CompInv(s) && s.ctl.startedPending > 0
    ensures CompInv(s.(ctl := s.ctl.(startedPending := s.ctl.startedPending - 1, listening := s.ctl.listening + 1)))
  {
  }

  lemma StartedKeepsInv(s: Comp, alone: Option<bool>)
    requires CompInv(s) && CanMove(s, Own(GoStarted(alone))) && s.ctl.connected
    ensures CompInv(Made(s, Own(GoStarted(alone))))
  {
    assert s.ctl.token.Some?;
    var u := s.(ctl := s.ctl.(startedPending := s.ctl.startedPending - 1, listening := s.ctl.listening + 1));
    ListeningKeepsInv(s);
    hide CompInv;
    SayingKeepsInv(u, STARTED(s.ctl.token.value));
  }

  lemma StartedTooLateKeepsInv(s: Comp, alone: Option<bool>)
    requires CompInv(s) && CanMove(s, Own(GoStarted(alone))) && !s.ctl.connected
    ensures CompInv(Made(s, Own(GoStarted(alone))))
  {
    hide Terminate, Poll;
    var u := s.(ctl := s.ctl.(startedPending := s.ctl.startedPending - 1, listening := s.ctl.listening + 1));
    ListeningKeepsInv(s);
    hide CompInv;
    TerminateWindsDown(u.ctl, alone);
    WindDownKeepsInv(u, Terminate(u.ctl, alone), alone);
  }

  lemma DisconnectKeepsInv(s: Comp, alone: Option<bool>)
    requires CompInv(s) && CanMove(s, Own(GoDisconnect(alone)))
    ensures CompInv(Made(s, Own(GoDisconnect(alone))))
  {
    hide Terminate, Poll;
    var u := s.(ctl := s.ctl.(disconnectPending := false));
    TerminateWindsDown(u.ctl, alone);
    WindDownKeepsInv(u, Terminate(u.ctl, alone), alone);
  }

  lemma LookKeepsInv(s: Comp, m: Move)
    requires CompInv(s) && m.Own? && (m.e.Signal? || m.e.Tick?) && CanMove(s, m)
    ensures CompInv(Made(s, m))
  {
    hide Terminate, Poll;
    TerminateWindsDown(s.ctl, m.e.alone);
    WindDownKeepsInv(s, if m.e.Signal? then Terminate(s.ctl, m.e.alone) else Poll(s.ctl, m.e.alone), m.e.alone);
  }

  lemma ReadyKeepsInv(s: Comp)
    requires CompInv(s) && CanMove(s, Own(GoReady))
    ensures CompInv(Made(s, Own(GoReady)))
  {
    var u := s.(ctl := s.ctl.(readyPending := false));
    assert CompInv(u);
    hide CompInv;
    if u.ctl.token.Some? {
      SayingKeepsInv(u, READY(u.ctl.token.value));
    }
  }

  lemma DropKeepsInv(s: Comp)
    requires CompInv(s) && CanMove(s, Own(Drop))
    ensures CompInv(Made(s, Own(Drop)))
  {
  }

  lemma ExitKeepsInv(s: Comp, m: Move)
    requires CompInv(s) && m.Own? && CanMove(s, m) && (m.e.ReadyLost? || m.e.ResultFlushed? || m.e.RunDry?)
    ensures CompInv(Made(s, m))
  {
  }

  lemma OutsideKeepsInv(s: Comp, m: Move)
    requires CompInv(s) && CanMove(s, m)
    requires m.SupervisorForks? || m.DescendantForks? || m.DescendantDies? || m.SupervisorDies?
    ensures CompInv(Made(s, m))
  {
    hide Results, Starts, ResultOf, PassSucceeded;
  }

  lemma EndKeepsInv(s: Comp, m: Move)
    requires CompInv(s) && CanMove(s, m) && (m.KillController? || m.ReceiveResult? || m.Return?)
    ensures CompInv(Made(s, m))
  {
    hide Results, Starts, PassSucceeded;
  }

  /** Every move keeps the composition's invariant. */
  lemma MoveKeepsInv(s: Comp, m: Move)
    requires CompInv(s) && CanMove(s, m)
    ensures CompInv(Made(s, m))
  {
    hide CompInv, Made, OccurrenceOf;
    match m
    case SendPrepare => SendKeepsInv(s, m);
    case CallStart => SendKeepsInv(s, m);
    case Deliver(_, _) => DeliverKeepsInv(s, m);
    case Spawn(_) => SpawnKeepsInv(s, m);
    case SupervisorCloses(_) => ClosesKeepsInv(s, m);
    case Own(GoReady) => ReadyKeepsInv(s);
    case Own(Drop) => DropKeepsInv(s);
    case Own(GoStarted(alone)) =>
      if s.ctl.connected {
        StartedKeepsInv(s, alone);
      } else {
        StartedTooLateKeepsInv(s, alone);
      }
    case Own(GoDisconnect(alone)) => DisconnectKeepsInv(s, alone);
    case Own(Signal(_)) => LookKeepsInv(s, m);
    case Own(Tick(_)) => LookKeepsInv(s, m);
    case Own(_) => ExitKeepsInv(s, m);
    case SupervisorForks => OutsideKeepsInv(s, m);
    case DescendantForks => OutsideKeepsInv(s, m);
    case DescendantDies => OutsideKeepsInv(s, m);
    case SupervisorDies(_) => OutsideKeepsInv(s, m);
    case _ => EndKeepsInv(s, m);
  }

  lemma {:induction false} RunKeepsInv(s: Comp, ms: seq<Move>)
    requires CompInv(s) && CanAll(s, ms)
    ensures CompInv(MadeAll(s, ms)) && MadeAll(s, ms).token == s.token
    decreases |ms|
  {
    if ms != [] {
      hide CompInv, Made, CanMove;
      MoveKeepsInv(s, ms[0]);
      MadeAtTheController(s, ms[0]);
      RunKeepsInv(Made(s, ms[0]), ms[1..]);
    }
  }

  /**
   * Every interleaving: the supervisor is spawned at most once, and only by a controller that was prepared
   * and started under the launcher's own token; at most one RESULT is ever sent, by a controller that was
   * then the last member of its group and remains so; and `start` returns only after the group is absent.
   */
  lemma Containment(token: string, ms: seq<Move>)
    requires CanAll(Begin(token), ms)
    ensures var s := MadeAll(Begin(token), ms);
            && s.ctl.spawns <= 1
            && (s.ctl.spawns == 1 ==> s.started && s.ctl.token == Some(token))
            && Results(s.ctl.sent) <= 1
            && (Results(s.ctl.sent) == 1 ==> Alone(s))
            && (s.returned.Some? ==> GroupAbsent(s))
  {
    RunKeepsInv(Begin(token), ms);
  }

  /** The supervisor of this execution was spawned and ended with exit code 0. */
  predicate SupervisorSucceeded(s: Comp) {
    s.supervisorEnd.Some? && s.supervisorEnd.value.exitCode == Some(0)
  }

  /**
   * A returned pass is reported successful without a supervisor that exited 0 in exactly two cases: the
   * channel closed before any supervisor was spawned, or it closed later, the controller's event loop ran
   * empty, and the supervisor had failed. In both the report does not depend on the supervisor at all.
   */
  lemma FalseSuccessIff(token: string, ms: seq<Move>)
    requires CanAll(Begin(token), ms) && MadeAll(Begin(token), ms).returned.Some?
    ensures var s := MadeAll(Begin(token), ms);
            && (PassSucceeded(s.returned.value) && !SupervisorSucceeded(s) <==>
                s.droppedEarly || (s.ranDry && !SupervisorSucceeded(s)))
            && (s.droppedEarly || s.ranDry ==> PassSucceeded(s.returned.value))
            && (s.droppedEarly ==> s.ctl.spawns == 0)
            && (s.ranDry ==> s.ctl.spawns == 1)
  {
    RunKeepsInv(Begin(token), ms);
  }

  /**
   * What a returned pass says, exactly. It is reported successful if and only if the controller was not killed and
   * either its supervisor's close was heard and the supervisor had exited 0, or one of the two channel cases
   * happened. A RESULT that was received speaks for the supervisor: its exit code, its signal, its spawn error; the
   * controller's own end shows only where the supervisor's says nothing.
   */
  lemma ReturnedPass(token: string, ms: seq<Move>)
    requires CanAll(Begin(token), ms) && MadeAll(Begin(token), ms).returned.Some?
    ensures var s := MadeAll(Begin(token), ms);
            && (PassSucceeded(s.returned.value) <==>
                  s.killed.None? && ((s.heard && SupervisorSucceeded(s)) || s.droppedEarly || s.ranDry))
            && (s.heard ==> s.ctl.observation == s.supervisorEnd && s.supervisorEnd.Some?)
            && (s.received.Some? ==>
                  && s.heard && s.received == s.supervisorEnd
                  && var (end, said) := (s.supervisorEnd.value, s.returned.value);
                     && said.spawnError == end.spawnError
                     && said.signal == (if end.signal.Some? then end.signal else s.killed)
                     && said.exitCode == (if end.exitCode.Some? then end.exitCode
                                          else if s.killed.None? then Some(1) else None))
  {
    RunKeepsInv(Begin(token), ms);
  }

  /** While the channel is open until RESULT is through, a reported success is real. */
  lemma OpenChannelTellsTheTruth(token: string, ms: seq<Move>)
    requires CanAll(Begin(token), ms) && MadeAll(Begin(token), ms).returned.Some?
    ensures var s := MadeAll(Begin(token), ms);
            && (s.droppedEarly || s.ranDry ==> !s.ctl.connected && s.received.None?)
            && (PassSucceeded(s.returned.value) && (s.ctl.connected || s.received.Some?) ==> SupervisorSucceeded(s))
  {
    RunKeepsInv(Begin(token), ms);
  }

  /** One more move at the end of a list that is played front to back. */
  lemma {:induction false} Appended(s: Comp, ms: seq<Move>, m: Move)
    requires CanAll(s, ms) && CanMove(MadeAll(s, ms), m)
    ensures CanAll(s, ms + [m]) && MadeAll(s, ms + [m]) == Made(MadeAll(s, ms), m)
    decreases |ms|
  {
    hide CanMove, Made;
    if ms == [] {
      var u := Made(s, m);
      assert (ms + [m])[1..] == [];
      assert CanAll(u, []) && MadeAll(u, []) == u;
    } else {
      assert (ms + [m])[1..] == ms[1..] + [m];
      Appended(Made(s, ms[0]), ms[1..], m);
    }
  }

  const OPENING: seq<Move> := [SendPrepare, Deliver(true, None), Own(GoReady), CallStart]

  /** The controller is ready, START is under way. */
  lemma OpeningPlayed(token: string)
    ensures CanAll(Begin(token), OPENING)
    ensures MadeAll(Begin(token), OPENING) ==
            Begin(token).(ctl := FRESH.(token := Some(token), sent := [READY(token)]), pipe := [START(token)],
                          prepareSent := true, started := true)
  {
    var s0 := Begin(token);
    assert CanAll(s0, []) && MadeAll(s0, []) == s0;
    Appended(s0, [], SendPrepare);
    var a := [] + [SendPrepare];
    Appended(s0, a, Deliver(true, None));
    var b := a + [Deliver(true, None)];
    assert MadeAll(s0, b).ctl == FRESH.(token := Some(token), readyPending := true);
    Appended(s0, b, Own(GoReady));
    var c := b + [Own(GoReady)];
    assert MadeAll(s0, c).ctl.sent == [READY(token)];
    Appended(s0, c, CallStart);
    assert c + [CallStart] == OPENING;
  }

  /** The first case happens: the controller exits 0 on that close, and without a RESULT `start` believes it. */
  lemma EarlyCloseLooksLikeSuccess(token: string)
    ensures var ms := OPENING + [Own(Drop)] + [Return];
            && CanAll(Begin(token), ms)
            && var s := MadeAll(Begin(token), ms);
               s.droppedEarly && s.returned.Some? && PassSucceeded(s.returned.value)
  {
    OpeningPlayed(token);
    Appended(Begin(token), OPENING, Own(Drop));
    Appended(Begin(token), OPENING + [Own(Drop)], Return);
  }

  const LATE: seq<Move> := [Deliver(true, None), Spawn(None), Own(GoStarted(None)), Own(Drop), Own(GoDisconnect(None))]

  lemma LateDropPlayed(token: string)
    ensures CanAll(Begin(token), OPENING + LATE)
    ensures var s := MadeAll(Begin(token), OPENING + LATE);
            && s.ctl == FRESH.(token := Some(token), sent := [READY(token), STARTED(token)], spawns := 1,
                               listening := 1, connected := false, terminationStarted := true)
            && s == Begin(token).(ctl := s.ctl, prepareSent := true, started := true, supervisorAlive := true)
  {
    hide CanAll, MadeAll;
    var s0 := Begin(token);
    OpeningPlayed(token);
    Appended(s0, OPENING, LATE[0]);
    var a := OPENING + [LATE[0]];
    Appended(s0, a, LATE[1]);
    var b := a + [LATE[1]];
    Appended(s0, b, LATE[2]);
    var c := b + [LATE[2]];
    assert MadeAll(s0, c).ctl.sent == [READY(token), STARTED(token)];
    Appended(s0, c, LATE[3]);
    var d := c + [LATE[3]];
    Appended(s0, d, LATE[4]);
    assert d + [LATE[4]] == OPENING + LATE;
  }

  /** After the late drop the supervisor ends, and its close finds termination begun already. */
  lemma LateEndPlayed(token: string, o: Observation)
    requires (o.exitCode.Some? <==> o.signal.None?) && o.spawnError.None?
    ensures var ms := OPENING + LATE + [SupervisorDies(o)] + [SupervisorCloses(None)];
            && CanAll(Begin(token), ms)
            && var s := MadeAll(Begin(token), ms);
               && s == Begin(token).(ctl := s.ctl, prepareSent := true, started := true, supervisorEnd := Some(o),
                                     closeEmitted := true, heard := true)
               && s.ctl.spawns == 1 && Idle(s.ctl) && s.ctl.exit.None?
  {
    hide CanAll, MadeAll;
    LateDropPlayed(token);
    Appended(Begin(token), OPENING + LATE, SupervisorDies(o));
    Appended(Begin(token), OPENING + LATE + [SupervisorDies(o)], SupervisorCloses(None));
  }

  /** So does the second, however the supervisor ended: only the unref'd timers were left to look again. */
  lemma LateCloseLooksLikeSuccess(token: string, o: Observation)
    requires (o.exitCode.Some? <==> o.signal.None?) && o.spawnError.None?
    ensures var ms := OPENING + LATE + [SupervisorDies(o)] + [SupervisorCloses(None)] + [Own(RunDry)] + [Return];
            && CanAll(Begin(token), ms)
            && var s := MadeAll(Begin(token), ms);
               s.ranDry && s.supervisorEnd == Some(o) && s.returned.Some? && PassSucceeded(s.returned.value)
  {
    hide CanAll, MadeAll;
    LateEndPlayed(token, o);
    var ms := OPENING + LATE + [SupervisorDies(o)] + [SupervisorCloses(None)];
    Appended(Begin(token), ms, Own(RunDry));
    Appended(Begin(token), ms + [Own(RunDry)], Return);
  }

  const SERVED: seq<Move> := [Deliver(true, None), Spawn(None), Own(GoStarted(None))]

  lemma SupervisorPlayed(token: string)
    ensures CanAll(Begin(token), OPENING + SERVED)
    ensures var s := MadeAll(Begin(token), OPENING + SERVED);
            && s.ctl == FRESH.(token := Some(token), sent := [READY(token), STARTED(token)], spawns := 1,
                               listening := 1)
            && s == Begin(token).(ctl := s.ctl, prepareSent := true, started := true, supervisorAlive := true)
  {
    hide CanAll, MadeAll;
    var s0 := Begin(token);
    OpeningPlayed(token);
    Appended(s0, OPENING, SERVED[0]);
    var a := OPENING + [SERVED[0]];
    Appended(s0, a, SERVED[1]);
    var b := a + [SERVED[1]];
    Appended(s0, b, SERVED[2]);
    assert b + [SERVED[2]] == OPENING + SERVED;
    assert MadeAll(s0, OPENING + SERVED).ctl.sent == [READY(token), STARTED(token)];
  }

  const REPORTED: seq<Move> := [SupervisorCloses(Some(true)), ReceiveResult(2), Own(ResultFlushed), Return]

  /** The close is heard, nobody else is left, and RESULT goes out. */
  lemma ClosePlayed(token: string, o: Observation)
    requires (o.exitCode.Some? <==> o.signal.None?) && o.spawnError.None?
    ensures var ms := OPENING + SERVED + [SupervisorDies(o)] + [REPORTED[0]];
            && CanAll(Begin(token), ms)
            && var s := MadeAll(Begin(token), ms);
               && s.ctl == FRESH.(token := Some(token), sent := [READY(token), STARTED(token), RESULT(token, o)],
                                  spawns := 1, listening := 1, observation := Some(o), terminationStarted := true,
                                  resultCode := Some(if o.exitCode.Some? then o.exitCode.value else 1))
               && s == Begin(token).(ctl := s.ctl, prepareSent := true, started := true, supervisorEnd := Some(o),
                                     closeEmitted := true, heard := true)
  {
    hide CanAll, MadeAll;
    var s0 := Begin(token);
    SupervisorPlayed(token);
    var a := OPENING + SERVED;
    Appended(s0, a, SupervisorDies(o));
    Appended(s0, a + [SupervisorDies(o)], REPORTED[0]);
    var s := MadeAll(s0, a + [SupervisorDies(o)] + [REPORTED[0]]);
    assert s.ctl.sent == [READY(token), STARTED(token), RESULT(token, o)];
  }

  /**
   * The pass as it is meant to go, however the supervisor ends: its close is heard, RESULT carries its end to the
   * launcher, and the pass is successful exactly when the supervisor exited 0.
   */
  lemma OpenPassReports(token: string, o: Observation)
    requires (o.exitCode.Some? <==> o.signal.None?) && o.spawnError.None?
    ensures var ms := OPENING + SERVED + [SupervisorDies(o)] + REPORTED;
            && CanAll(Begin(token), ms)
            && var s := MadeAll(Begin(token), ms);
               && s.supervisorEnd == Some(o) && s.received == Some(o) && s.returned.Some?
               && s.ctl.exit == Some(if o.exitCode.Some? then o.exitCode.value else 1)
               && (PassSucceeded(s.returned.value) <==> o.exitCode == Some(0))
  {
    var s0 := Begin(token);
    ClosePlayed(token, o);
    var c := OPENING + SERVED + [SupervisorDies(o)] + [REPORTED[0]];
    assert MadeAll(s0, c).ctl.sent[2] == RESULT(token, o);
    ResultTaken(token, c, o);
    assert c + [REPORTED[1]] + [REPORTED[2]] + [REPORTED[3]] == OPENING + SERVED + [SupervisorDies(o)] + REPORTED;
  }

  /** A RESULT under way is received, flushed, and returned. */
  lemma ResultTaken(token: string, ms: seq<Move>, o: Observation)
    requires CanAll(Begin(token), ms)
    requires var s := MadeAll(Begin(token), ms);
             && s.token == token && s.started && s.returned.None? && s.killed.None? && Alone(s)
             && |s.ctl.sent| == 3 && s.ctl.sent[2] == RESULT(token, o)
             && s.ctl.exit.None? && s.ctl.resultCode == Some(if o.exitCode.Some? then o.exitCode.value else 1)
    ensures var all, s := ms + [REPORTED[1]] + [REPORTED[2]] + [REPORTED[3]], MadeAll(Begin(token), ms);
            && CanAll(Begin(token), all)
            && var u := MadeAll(Begin(token), all);
               && u.supervisorEnd == s.supervisorEnd && u.received == Some(o)
               && u.ctl == s.ctl.(exit := s.ctl.resultCode)
               && u.returned == Some(ResultOf(Some(o), Closing(s.ctl.resultCode, None)))
  {
    var s0 := Begin(token);
    TakenFrom(MadeAll(s0, ms), o);
    hide CanAll, MadeAll, CanMove, Made;
    Appended(s0, ms, REPORTED[1]);
    Appended(s0, ms + [REPORTED[1]], REPORTED[2]);
    Appended(s0, ms + [REPORTED[1]] + [REPORTED[2]], REPORTED[3]);
  }

  lemma TakenFrom(s: Comp, o: Observation)
    requires s.started && s.returned.None? && s.killed.None? && Alone(s)
    requires |s.ctl.sent| == 3 && s.ctl.sent[2] == RESULT(s.token, o)
    requires s.ctl.exit.None? && s.ctl.resultCode.Some?
    ensures CanMove(s, REPORTED[1]) && CanMove(Made(s, REPORTED[1]), REPORTED[2])
    ensures CanMove(Made(Made(s, REPORTED[1]), REPORTED[2]), REPORTED[3])
    ensures var u := Made(Made(Made(s, REPORTED[1]), REPORTED[2]), REPORTED[3]);
            && u.supervisorEnd == s.supervisorEnd && u.received == Some(o)
            && u.ctl == s.ctl.(exit := s.ctl.resultCode)
            && u.returned == Some(ResultOf(Some(o), Closing(s.ctl.resultCode, None)))
  {
    var a := Made(s, REPORTED[1]);
    assert a == s.(received := Some(o));
    var b := Made(a, REPORTED[2]);
    assert b == a.(ctl := a.ctl.(exit := a.ctl.resultCode));
  }
}
