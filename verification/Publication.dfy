/**
 * Publishing one exact commit to one frozen remote ref: leased pushes, lost acknowledgements and
 * concurrent writers (src/modules/git/push.ts), and the idempotent push-only snapshot
 * (src/modules/git/push-only.ts, push-only-checkpoint.ts).
 */
module Publication {
  import opened Base

  type Sha = string

  /** What the network does to one call. */
  datatype Fate =
    | Answered
    | AnswerLost(transient: bool)    // the remote did its part, the caller sees a failure
    | NeverArrived(transient: bool)

  /** What this tool did or saw at the remote, in order. */
  datatype Act =
    | Pushed(source: Sha, replaced: Option<Option<Sha>>)   // the value it replaced, if it moved the ref
    | Saw(value: Option<Sha>)
    | ReadFailed

  datatype NetError = NetError(transient: bool)

  datatype Unit = Unit

  /**
   * The remote end. Before call n the other writers perform `rivals(n)`, call n meets `fate(n)`, and a
   * refused lease is reported as transient or not as `refusalTransient(n)` says.
   */
  class Remote {
    const rivals: nat -> seq<Option<Sha>>
    const fate: nat -> Fate
    const refusalTransient: nat -> bool
    var calls: nat
    var values: seq<Option<Sha>>   // every value the ref has had, the current one last
    var log: seq<Act>

    constructor (initial: Option<Sha>, rivals: nat -> seq<Option<Sha>>, fate: nat -> Fate,
                 refusalTransient: nat -> bool)
      ensures this.rivals == rivals && this.fate == fate && this.refusalTransient == refusalTransient
      ensures calls == 0 && values == [initial] && log == []
    {
      this.rivals, this.fate, this.refusalTransient := rivals, fate, refusalTransient;
      calls, values, log := 0, [initial], [];
    }

    /** No other writer acts just before call n. */
    predicate Undisturbed(n: nat) {
      rivals(n) == []
    }

    predicate Alive()
      reads this
    {
      values != []
    }

    function Ref(): Option<Sha>
      reads this
      requires Alive()
    {
      values[|values| - 1]
    }

    /** The ref as call n meets it, when it was `ref` before the others acted. */
    function Met(n: nat, ref: Option<Sha>): Option<Sha> {
      if rivals(n) == [] then ref else rivals(n)[|rivals(n)| - 1]
    }

    /** What a leased push hears as call n, meeting this ref. */
    function Heard(n: nat, met: Option<Sha>, baseline: Option<Sha>, source: Sha): Result<Unit, NetError> {
      if fate(n).NeverArrived? then Err(NetError(fate(n).transient))
      else if met !in {baseline, Some(source)} then Err(NetError(refusalTransient(n)))
      else if fate(n).AnswerLost? then Err(NetError(fate(n).transient))
      else Ok(Unit)
    }

    method OthersAct() returns (fate: Fate)
      requires Alive()
      modifies this
      ensures Alive() && log == old(log) && calls == old(calls) + 1
      ensures values == old(values) + rivals(old(calls)) && fate == this.fate(old(calls))
    {
      values := values + rivals(calls);
      fate := this.fate(calls);
      calls := calls + 1;
    }

    /** `readOptionalDestinationSha`. */
    method Read() returns (r: Result<Option<Sha>, NetError>)
      requires Alive()
      modifies this
      ensures Alive() && calls == old(calls) + 1 && values == old(values) + rivals(old(calls))
      ensures r.Ok? <==> fate(old(calls)).Answered?
      ensures Ref() == Met(old(calls), old(Ref()))
      ensures r.Ok? ==> r.value == Ref() && log == old(log) + [Saw(r.value)]
      ensures r.Err? ==> log == old(log) + [ReadFailed] && r.error == NetError(fate(old(calls)).transient)
    {
      var fate := OthersAct();
      if !fate.Answered? {
        log := log + [ReadFailed];
        return Err(NetError(fate.transient));
      }
      log := log + [Saw(Ref())];
      r := Ok(Ref());
    }

    /**
     * `pushExact`: a push with a lease on `baseline`. A ref already at the source needs no update; any
     * other value than the baseline refuses the lease.
     */
    method PushExact(source: Sha, baseline: Option<Sha>) returns (r: Result<Unit, NetError>)
      requires Alive()
      modifies this
      ensures Alive() && calls == old(calls) + 1
      ensures |log| == |old(log)| + 1 && log[..|old(log)|] == old(log)
      ensures var act := log[|old(log)|];
              && act.Pushed? && act.source == source
              && (act.replaced.Some? ==> act.replaced.value == baseline && Ref() == Some(source))
              && values == old(values) + rivals(old(calls)) + (if act.replaced.Some? then [Some(source)] else [])
      ensures var met := Met(old(calls), old(Ref()));
              && r == Heard(old(calls), met, baseline, source)
              && (log[|old(log)|].replaced.Some? <==>
                    !fate(old(calls)).NeverArrived? && met == baseline && met != Some(source))
              && Ref() == if log[|old(log)|].replaced.Some? then Some(source) else met
      ensures r.Ok? ==> Ref() == Some(source)
      ensures fate(old(calls)).NeverArrived? ==> r == Err(NetError(fate(old(calls)).transient))
      ensures Undisturbed(old(calls)) && old(Ref()) in {baseline, Some(source)} && !fate(old(calls)).NeverArrived? ==>
                && Ref() == Some(source)
                && r == if fate(old(calls)).Answered? then Ok(Unit) else Err(NetError(fate(old(calls)).transient))
    {
      var fate := OthersAct();
      if fate.NeverArrived? {
        log := log + [Pushed(source, None)];
        return Err(NetError(fate.transient));
      }
      if Ref() == Some(source) {
        log := log + [Pushed(source, None)];
      } else if Ref() == baseline {
        log := log + [Pushed(source, Some(baseline))];
        values := values + [Some(source)];
      } else {
        log := log + [Pushed(source, None)];
        return Err(NetError(refusalTransient(calls - 1)));
      }
      if fate.AnswerLost? {
        return Err(NetError(fate.transient));
      }
      r := Ok(Unit);
    }
  }

  datatype PushError = PushError(transient: bool, retryCount: nat)

  /** The ref had this value at some moment since `values` was `from` long. */
  predicate HeldSince(values: seq<Option<Sha>>, from: nat, x: Sha) {
    exists i :: 0 < from <= i + 1 <= |values| && values[i] == Some(x)
  }

  function PushCount(log: seq<Act>): nat {
    if log == [] then 0 else PushCount(log[..|log| - 1]) + (if log[|log| - 1].Pushed? then 1 else 0)
  }

  /** How often the tool itself moved the ref. */
  function MoveCount(log: seq<Act>): nat {
    if log == [] then 0
    else
      var last := log[|log| - 1];
      MoveCount(log[..|log| - 1]) + (if last.Pushed? && last.replaced.Some? then 1 else 0)
  }

  lemma LogCounts(log: seq<Act>, act: Act)
    ensures PushCount(log + [act]) == PushCount(log) + (if act.Pushed? then 1 else 0)
    ensures MoveCount(log + [act]) == MoveCount(log) + (if act.Pushed? && act.replaced.Some? then 1 else 0)
  {
    assert (log + [act])[..|log|] == log;
  }

  /** Every push is for this source, and replaced this baseline or nothing. */
  predicate OnlyMoves(acts: seq<Act>, baseline: Option<Sha>, source: Sha) {
    forall i :: 0 <= i < |acts| ==> AllowedAct(acts[i], baseline, source)
  }

  predicate AllowedAct(act: Act, baseline: Option<Sha>, source: Sha) {
    act.Pushed? ==> act.source == source && (act.replaced.Some? ==> act.replaced.value == baseline)
  }

  /** Once the source was seen at the ref, nothing more is pushed. */
  predicate QuietOnceSeen(acts: seq<Act>, source: Sha) {
    forall i, j :: 0 <= i < j < |acts| && acts[i] == Saw(Some(source)) ==> !acts[j].Pushed?
  }

  /**
   * The conversation of one frozen-endpoint publication: push, look, push again only after seeing the baseline,
   * look.
   */
  predicate TwoTries(acts: seq<Act>, baseline: Option<Sha>, source: Sha) {
    && 1 <= |acts| <= 4 && OnlyMoves(acts, baseline, source)
    && acts[0].Pushed?
    && (|acts| >= 2 ==> !acts[1].Pushed?)
    && (|acts| >= 3 ==> acts[1] == Saw(baseline) && baseline != Some(source) && acts[2].Pushed?)
    && (|acts| >= 4 ==> !acts[3].Pushed?)
  }

  lemma TwoTriesAreQuiet(acts: seq<Act>, baseline: Option<Sha>, source: Sha)
    requires TwoTries(acts, baseline, source)
    ensures QuietOnceSeen(acts, source)
    ensures 1 <= PushCount(acts) <= 2
  {
    assert PushCount(acts[..1]) == 1 by {
      assert acts[..1] == [] + [acts[0]];
      LogCounts([], acts[0]);
    }
    if |acts| >= 2 {
      assert acts[..2] == acts[..1] + [acts[1]];
      LogCounts(acts[..1], acts[1]);
    }
    if |acts| >= 3 {
      assert acts[..3] == acts[..2] + [acts[2]];
      LogCounts(acts[..2], acts[2]);
    }
    if |acts| >= 4 {
      assert acts[..4] == acts[..3] + [acts[3]];
      LogCounts(acts[..3], acts[3]);
    }
    assert acts == acts[..|acts|];
  }

  /** Nobody interferes with a push from the baseline or the source, and its answer comes back. */
  predicate LandsAtOnce(m: Remote, call: nat, ref: Option<Sha>, baseline: Option<Sha>, source: Sha) {
    m.Undisturbed(call) && m.fate(call).Answered? && ref in {baseline, Some(source)}
  }

  /** The same, but the answer is lost; the following read is answered. */
  predicate LandsUnacknowledged(m: Remote, call: nat, ref: Option<Sha>, baseline: Option<Sha>, source: Sha) {
    && m.Undisturbed(call) && m.fate(call) == AnswerLost(true) && ref in {baseline, Some(source)}
    && m.Undisturbed(call + 1) && m.fate(call + 1).Answered?
  }

  /**
   * `publishWithFrozenEndpoint`. At most two leased pushes, the second only after the baseline was seen
   * again and none after the source was seen; no other value than the baseline is ever replaced; and a
   * normal return means that the ref held the source during the call. A push that landed although its
   * answer was lost is recognised without pushing again.
   */
  method PublishWithFrozenEndpoint(m: Remote, baseline: Option<Sha>, source: Sha)
    returns (r: Result<nat, PushError>, ghost acts: seq<Act>)
    requires m.Alive()
    modifies m
    ensures m.Alive() && m.log == old(m.log) + acts && old(m.values) <= m.values
    ensures TwoTries(acts, baseline, source)
    ensures r.Ok? ==> r.value <= 1 && HeldSince(m.values, |old(m.values)|, source)
    ensures r == Ok(0) <==> |acts| == 1 && r.Ok?
    ensures r.Err? ==> r.error.retryCount <= 1
    ensures acts[|acts| - 1] == Saw(Some(source)) ==> r == Ok(1)
    // When it goes on, and when it has succeeded.
    ensures var first := m.Heard(old(m.calls), m.Met(old(m.calls), old(m.Ref())), baseline, source);
            && (|acts| == 1 <==> first.Ok? || !first.error.transient)
            && (|acts| >= 2 ==> (acts[1].Saw? <==> m.fate(old(m.calls) + 1).Answered?))
            && (|acts| >= 3 <==> |acts| >= 2 && acts[1] == Saw(baseline) && baseline != Some(source))
            && (r.Ok? <==> first.Ok? || |acts| == 3 || acts[|acts| - 1] == Saw(Some(source)))
            && (|acts| >= 3 && Calm(m, old(m.calls) + 2) ==> |acts| == 3)
            && (|acts| >= 3 && !m.fate(old(m.calls) + 2).Answered? ==> |acts| == 4)
    ensures Silent(m, old(m.calls)) ==> r.Err? && r.error.retryCount == 1
    ensures LandsAtOnce(m, old(m.calls), old(m.Ref()), baseline, source) ==>
              r == Ok(0) && m.calls == old(m.calls) + 1 && m.Ref() == Some(source)
    ensures LandsUnacknowledged(m, old(m.calls), old(m.Ref()), baseline, source) ==>
              r == Ok(1) && |acts| == 2 && m.calls == old(m.calls) + 2 && m.Ref() == Some(source)
  {
    var first := m.PushExact(source, baseline);
    acts := [m.log[|old(m.log)|]];
    if first.Ok? {
      assert m.values[|m.values| - 1] == Some(source);
      return Ok(0), acts;
    }
    if !first.error.transient {
      return Err(PushError(false, 0)), acts;
    }
    var observed := m.Read();
    acts := acts + [if observed.Ok? then Saw(observed.value) else ReadFailed];
    if observed.Err? {
      return Err(PushError(observed.error.transient, 1)), acts;
    }
    if observed.value == Some(source) {
      assert m.values[|m.values| - 1] == Some(source);
      return Ok(1), acts;
    }
    if observed.value != baseline {
      return Err(PushError(false, 1)), acts;
    }
    r, acts := SecondTry(m, baseline, source, acts);
  }

  /** The bounded retry: one more leased push and, if it fails, one more look. */
  method SecondTry(m: Remote, baseline: Option<Sha>, source: Sha, ghost before: seq<Act>)
    returns (r: Result<nat, PushError>, ghost acts: seq<Act>)
    requires m.Alive() && TwoTries(before, baseline, source) && |before| == 2
    requires before[1] == Saw(baseline) && baseline != Some(source)
    modifies m
    ensures m.Alive() && before <= acts && m.log == old(m.log) + acts[2..] && old(m.values) <= m.values
    ensures TwoTries(acts, baseline, source) && |acts| >= 3
    ensures acts[..2] == before
    ensures |acts| == 3 <==> m.Heard(old(m.calls), m.Met(old(m.calls), old(m.Ref())), baseline, source).Ok?
    ensures r.Ok? <==> |acts| == 3 || acts[|acts| - 1] == Saw(Some(source))
    ensures r.Ok? ==> r.value == 1 && HeldSince(m.values, |old(m.values)|, source)
    ensures r.Err? ==> r.error.retryCount == 1
    ensures acts[|acts| - 1] == Saw(Some(source)) ==> r == Ok(1)
  {
    var second := m.PushExact(source, baseline);
    acts := before + [m.log[|old(m.log)|]];
    if second.Ok? {
      assert m.values[|m.values| - 1] == Some(source);
      return Ok(1), acts;
    }
    var final := m.Read();
    acts := acts + [if final.Ok? then Saw(final.value) else ReadFailed];
    if final.Err? {
      return Err(PushError(final.error.transient, 1)), acts;
    }
    if final.value == Some(source) {
      assert m.values[|m.values| - 1] == Some(source);
      return Ok(1), acts;
    }
    r := Err(if final.value == baseline then PushError(second.error.transient, 1) else PushError(false, 1));
  }

  // ---------------------------------------------------------------------------------------------
  // executePush.

  datatype Destination = Unresolvable | Nowhere | Somewhere(establishUpstream: bool)

  /** What the local repository answers during one push. */
  datatype Local = Local(
    autoPush: bool,
    destination: Destination,
    endpointResolves: bool,
    head: Option<Sha>,
    ancestor: (Sha, Sha) -> bool,
    upstreamOk: bool)

  /** The tracking branch, where one is to be set up, can be. */
  predicate UpstreamWorks(local: Local) {
    local.destination.Somewhere? && local.destination.establishUpstream ==> local.upstreamOk
  }

  /** Nobody else writes before call n, and its answer comes back. */
  predicate Calm(m: Remote, n: nat) {
    m.Undisturbed(n) && m.fate(n).Answered?
  }

  /** Everything the push needs of the local side, for a ref that HEAD may replace. */
  predicate Pushable(local: Local, baseline: Option<Sha>) {
    && local.autoPush && local.destination.Somewhere? && local.endpointResolves && local.head.Some?
    && UpstreamWorks(local) && FastForward(local, baseline, local.head.value)
  }

  /**
   * Pushes from call c on that cannot fail, and the retries they report: nowhere to push to; every call calm, from
   * an absent, older or equal ref; and one lost acknowledgement on the way.
   */
  function BoundToSucceed(m: Remote, c: nat, ref: Option<Sha>, local: Local): Option<nat> {
    if !local.autoPush || local.destination == Nowhere then Some(0)
    else if !Pushable(local, ref) || !Calm(m, c) then None
    else if Calm(m, c + 1) && (ref == local.head || Calm(m, c + 2)) then Some(0)
    else if && ref != local.head && m.Undisturbed(c + 1) && m.fate(c + 1) == AnswerLost(true)
            && Calm(m, c + 2) && Calm(m, c + 3)
    then Some(1)
    else None
  }

  predicate FastForward(local: Local, baseline: Option<Sha>, source: Sha) {
    baseline.None? || baseline == Some(source) || local.ancestor(baseline.value, source)
  }

  /** The whole conversation of an `executePush`: preflight, at most one publication, postflight reads. */
  predicate PushConversation(acts: seq<Act>, local: Local) {
    acts != [] ==>
      && local.autoPush && local.destination.Somewhere? && local.head.Some?
      && (acts[0] == ReadFailed ==> |acts| == 1)
      && (acts[0] != ReadFailed ==> acts[0].Saw? && QuietOnceSeen(acts, local.head.value)
                                    && OnlyMoves(acts[1..], acts[0].value, local.head.value))
      && (PushCount(acts) > 0 ==>
            acts[0].Saw? && acts[0].value != local.head && FastForward(local, acts[0].value, local.head.value))
      && PushCount(acts) <= 2
  }

  lemma {:induction false} PushCountAdds(a: seq<Act>, b: seq<Act>)
    ensures PushCount(a + b) == PushCount(a) + PushCount(b)
    decreases |b|
  {
    if b == [] {
      assert a + b == a;
    } else {
      assert (a + b)[..|a + b| - 1] == a + b[..|b| - 1];
      PushCountAdds(a, b[..|b| - 1]);
    }
  }

  lemma ConversationBegins(act: Act, local: Local)
    requires local.autoPush && local.destination.Somewhere? && local.head.Some? && !act.Pushed?
    ensures PushConversation([], local) && PushConversation([act], local)
  {
    LogCounts([], act);
    assert [] + [act] == [act];
  }

  /** Reading more changes nothing about what was pushed. */
  lemma ReadExtends(acts: seq<Act>, act: Act, local: Local)
    requires PushConversation(acts, local) && |acts| > 0 && acts[0].Saw? && !act.Pushed?
    ensures PushConversation(acts + [act], local)
  {
    LogCounts(acts, act);
    assert (acts + [act])[1..] == acts[1..] + [act];
  }

  /** The preflight read followed by one publication. */
  lemma PublicationExtends(baseline: Option<Sha>, acts: seq<Act>, local: Local)
    requires local.autoPush && local.destination.Somewhere? && local.head.Some? && baseline != local.head
    requires TwoTries(acts, baseline, local.head.value) && FastForward(local, baseline, local.head.value)
    ensures PushConversation([Saw(baseline)] + acts, local)
  {
    TwoTriesAreQuiet(acts, baseline, local.head.value);
    PushCountAdds([Saw(baseline)], acts);
    LogCounts([], Saw(baseline));
    assert [] + [Saw(baseline)] == [Saw(baseline)];
    assert ([Saw(baseline)] + acts)[1..] == acts;
  }

  /** A push that meets silence: neither it nor the look after it reaches the remote. */
  predicate Silent(m: Remote, call: nat) {
    m.fate(call) == NeverArrived(true) && m.fate(call + 1).NeverArrived?
  }

  /** Two ways for a push to fail for certain, and the retries it then reports. */
  function BoundToFail(m: Remote, c: nat, ref: Option<Sha>, local: Local): Option<nat> {
    if !local.autoPush then None
    else if local.destination.Unresolvable? then Some(0)
    else if && local.destination.Somewhere? && local.endpointResolves && local.head.Some?
            && m.Undisturbed(c) && m.fate(c).Answered? && ref.None? && Silent(m, c + 1)
    then Some(1)
    else None
  }

  /** What can be said of a push before it is made. */
  datatype Forecast = Sure(retries: nat) | Doomed(retries: nat) | Open

  function Outlook(m: Remote, c: nat, ref: Option<Sha>, local: Local): Forecast {
    var sure, doomed := BoundToSucceed(m, c, ref, local), BoundToFail(m, c, ref, local);
    if sure.Some? then Sure(sure.value) else if doomed.Some? then Doomed(doomed.value) else Open
  }

  /**
   * `executePush`. Nothing is pushed unless the remote was seen at an ancestor of HEAD. A push with a destination
   * reports success, after at most one retry, if and only if its conversation went beyond the first look and ended
   * with a read of the ref equal to HEAD, and the tracking branch works.
   */
  method ExecutePush(m: Remote, local: Local) returns (r: Result<nat, PushError>, ghost acts: seq<Act>)
    requires m.Alive()
    modifies m
    ensures m.Alive() && m.log == old(m.log) + acts
    ensures PushConversation(acts, local)
    ensures !local.autoPush || local.destination == Nowhere ==> r == Ok(0) && acts == []
    ensures r.Ok? && acts != [] ==>
              && r.value <= 1 && acts[|acts| - 1] == Saw(local.head) && m.Ref() == local.head
              && acts[0].Saw? && FastForward(local, acts[0].value, local.head.value)
    ensures r.Ok? <==>
              || !local.autoPush || local.destination == Nowhere
              || (|acts| >= 2 && acts[|acts| - 1] == Saw(local.head) && UpstreamWorks(local))
    ensures r.Err? ==> r.error.retryCount <= 1
    ensures match Outlook(m, old(m.calls), old(m.Ref()), local)
            case Sure(retries) =>
              r == Ok(retries) && (local.autoPush && local.destination != Nowhere ==> m.Ref() == local.head)
            case Doomed(retries) => r.Err? && r.error.retryCount == retries
            case Open => true
  {
    acts := [];
    assert PushConversation(acts, local);
    hide PushConversation, TwoTries, PushCount, LandsAtOnce, LandsUnacknowledged;
    if !local.autoPush || local.destination == Nowhere {
      return Ok(0), acts;
    }
    if local.destination == Unresolvable || !local.endpointResolves || local.head.None? {
      return Err(PushError(false, 0)), acts;
    }
    var source := local.head.value;
    var preflight := m.Read();
    acts := [if preflight.Ok? then Saw(preflight.value) else ReadFailed];
    ConversationBegins(acts[0], local);
    assert m.log == old(m.log) + acts;
    if preflight.Err? {
      return Err(PushError(preflight.error.transient, 0)), acts;
    }
    var baseline := preflight.value;
    if baseline.Some? && baseline.value != source && !local.ancestor(baseline.value, source) {
      return Err(PushError(false, 0)), acts;
    }
    ghost var more;
    r, more := PublishAndCheck(m, baseline, local);
    acts := acts + more;
  }

  /** Everything after a preflight read at an ancestor of HEAD. */
  method PublishAndCheck(m: Remote, baseline: Option<Sha>, local: Local)
    returns (r: Result<nat, PushError>, ghost acts: seq<Act>)
    requires m.Alive() && local.autoPush && local.destination.Somewhere? && local.head.Some?
    requires FastForward(local, baseline, local.head.value)
    modifies m
    ensures m.Alive() && m.log == old(m.log) + acts
    ensures PushConversation([Saw(baseline)] + acts, local)
    ensures acts != []
    ensures r.Ok? <==> acts[|acts| - 1] == Saw(local.head) && UpstreamWorks(local)
    ensures r.Ok? ==> r.value <= 1 && m.Ref() == local.head
    ensures r.Err? ==> r.error.retryCount <= 1
    ensures (&& UpstreamWorks(local) && old(m.Ref()) == baseline && Calm(m, old(m.calls))
             && (baseline == local.head || Calm(m, old(m.calls) + 1))) ==>
              r == Ok(0)
    ensures (&& UpstreamWorks(local) && old(m.Ref()) == baseline != local.head
             && m.Undisturbed(old(m.calls)) && m.fate(old(m.calls)) == AnswerLost(true)
             && Calm(m, old(m.calls) + 1) && Calm(m, old(m.calls) + 2)) ==>
              r == Ok(1)
    ensures baseline != local.head && Silent(m, old(m.calls)) ==> r.Err? && r.error.retryCount == 1
  {
    hide PushConversation, PushCount;
    var published;
    published, acts := PublishUnlessThere(m, baseline, local);
    if published.Err? {
      return Err(published.error), acts;
    }
    ghost var last;
    ghost var before := [Saw(baseline)] + acts;
    r, last := Postflight(m, local, published.value, before);
    assert before + last == [Saw(baseline)] + (acts + last);
    acts := acts + last;
  }

  /** The publication itself, skipped when the preflight read found HEAD there already. */
  method PublishUnlessThere(m: Remote, baseline: Option<Sha>, local: Local)
    returns (r: Result<nat, PushError>, ghost acts: seq<Act>)
    requires m.Alive() && local.autoPush && local.destination.Somewhere? && local.head.Some?
    requires FastForward(local, baseline, local.head.value)
    modifies m
    ensures m.Alive() && m.log == old(m.log) + acts
    ensures PushConversation([Saw(baseline)] + acts, local)
    ensures baseline == local.head ==> r == Ok(0) && acts == [] && m.calls == old(m.calls) && m.Ref() == old(m.Ref())
    ensures acts == [] ==> r.Ok?
    ensures acts != [] && acts[|acts| - 1] == Saw(local.head) ==> r.Ok?
    ensures baseline != local.head && old(m.Ref()) == baseline && Calm(m, old(m.calls)) ==>
              r == Ok(0) && m.calls == old(m.calls) + 1 && m.Ref() == local.head
    ensures (&& baseline != local.head && old(m.Ref()) == baseline && m.Undisturbed(old(m.calls))
             && m.fate(old(m.calls)) == AnswerLost(true) && Calm(m, old(m.calls) + 1)) ==>
              r == Ok(1) && m.calls == old(m.calls) + 2 && m.Ref() == local.head
    ensures baseline != local.head && Silent(m, old(m.calls)) ==> r.Err? && r.error.retryCount == 1
    ensures r.Ok? ==> r.value <= 1
    ensures r.Err? ==> r.error.retryCount <= 1
  {
    ConversationBegins(Saw(baseline), local);
    hide PushConversation, TwoTries, PushCount, LandsAtOnce, LandsUnacknowledged;
    if baseline == local.head {
      acts := [];
      assert [Saw(baseline)] + acts == [Saw(baseline)];
      return Ok(0), acts;
    }
    r, acts := PublishWithFrozenEndpoint(m, baseline, local.head.value);
    PublicationExtends(baseline, acts, local);
  }

  /** The first final read fails in a way that is worth one more. */
  predicate WorthAnother(m: Remote, call: nat, spent: nat) {
    spent == 0 && !m.fate(call).Answered? && m.fate(call).transient
  }

  /**
   * The final read, repeated once after a transient failure when no retry was spent yet. The push has succeeded if
   * and only if the read that decides sees HEAD and the tracking branch works.
   */
  method Postflight(m: Remote, local: Local, spent: nat, ghost before: seq<Act>)
    returns (r: Result<nat, PushError>, ghost acts: seq<Act>)
    requires m.Alive() && spent <= 1 && PushConversation(before, local) && before != [] && before[0].Saw?
    modifies m
    ensures m.Alive() && m.log == old(m.log) + acts
    ensures |acts| == if WorthAnother(m, old(m.calls), spent) then 2 else 1
    ensures forall k :: 0 <= k < |acts| ==>
              if m.fate(old(m.calls) + k).Answered? then acts[k].Saw? else acts[k] == ReadFailed
    ensures Calm(m, old(m.calls)) ==> acts == [Saw(old(m.Ref()))] && m.Ref() == old(m.Ref())
    ensures PushConversation(before + acts, local)
    ensures r.Ok? <==> acts[|acts| - 1] == Saw(local.head) && UpstreamWorks(local)
    ensures r.Ok? ==> r.value == (if |acts| == 2 then 1 else spent) && m.Ref() == local.head
    ensures r.Err? ==> r.error.retryCount <= 1
  {
    hide PushConversation;
    var retries := spent;
    var seen := m.Read();
    acts := [if seen.Ok? then Saw(seen.value) else ReadFailed];
    ReadExtends(before, acts[0], local);
    if seen.Err? {
      if !seen.error.transient || retries > 0 {
        return Err(PushError(seen.error.transient, retries)), acts;
      }
      retries := 1;
      seen := m.Read();
      acts := acts + [if seen.Ok? then Saw(seen.value) else ReadFailed];
      ReadExtends(before + [ReadFailed], acts[1], local);
      assert before + acts == before + [ReadFailed] + [acts[1]];
      if seen.Err? {
        return Err(PushError(seen.error.transient, retries)), acts;
      }
    }
    if seen.value != local.head {
      return Err(PushError(false, retries)), acts;
    }
    if local.destination.Somewhere? && local.destination.establishUpstream && !local.upstreamOk {
      return Err(PushError(false, 0)), acts;
    }
    r := Ok(retries);
  }
}
