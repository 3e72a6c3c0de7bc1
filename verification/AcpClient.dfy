/** The ACP client of `client.ts`: JSON-RPC 2.0 requests over a WebSocket that is replaced by a
    reconnect loop.  Every handler runs without interruption up to its next `await`, so a run is a
    sequence of such steps in any order the event loop may choose.
*/
module AcpClient {
  import opened Wrappers

  datatype Ready = Open | Closing | Closed

  datatype Frame = InitializeFrame(id: nat) | RequestFrame(id: nat) | OtherFrame

  datatype Socket = Socket(ready: Ready, frames: seq<Frame>)

  datatype Reason = Answered | Refused | TimedOut | SendFailed | ConnectionLost

  datatype Connection = Connected | Connecting | Disconnected

  /** Where a reconnect loop stands.  `Done` is a loop that has returned or thrown. */
  datatype Phase = Sleeping | Opening | Initializing(id: nat) | Done

  datatype Loop = Loop(phase: Phase, attempt: nat, delay: nat, slept: nat, tries: nat)

  /** `settled` counts how often each request's promise was settled, `outcomes` says how. */
  datatype State = State(
    reqId: nat, pending: set<nat>, timers: set<nat>, settled: multiset<nat>, outcomes: map<nat, Reason>,
    disconnected: bool, closing: bool, connection: Connection,
    ws: nat, sockets: seq<Socket>, reconnecting: Option<nat>, loops: seq<Loop>)

  const MAX_ATTEMPTS := 20

  // ----- primitives -----

  predicate IsConnected(s: State) {
    !s.disconnected && s.ws < |s.sockets| && s.sockets[s.ws].ready.Open?
  }

  /** One frame on the current socket. */
  function Write(s: State, f: Frame): State
    requires s.ws < |s.sockets|
  {
    s.(sockets := s.sockets[s.ws := s.sockets[s.ws].(frames := s.sockets[s.ws].frames + [f])])
  }

  function Settle(s: State, id: nat, reason: Reason): State {
    s.(pending := s.pending - {id}, timers := s.timers - {id},
       settled := s.settled + multiset{id}, outcomes := s.outcomes[id := reason])
  }

  function Lost(ids: set<nat>): map<nat, Reason> {
    map id | id in ids :: ConnectionLost
  }

  function RejectPending(s: State): State {
    s.(pending := {}, timers := s.timers - s.pending,
       settled := s.settled + multiset(s.pending),
       outcomes := s.outcomes + Lost(s.pending))
  }

  function Registered(s: State, timer: bool): State {
    var id := s.reqId + 1;
    s.(reqId := id, pending := s.pending + {id}, timers := if timer then s.timers + {id} else s.timers)
  }

  /** The part of `request` that runs after the connection was ensured: take an id, register it, and
      send; a failure to send takes the registration back. */
  function Issue(s: State, initialize: bool, timer: bool, encodes: bool): State {
    var id := s.reqId + 1;
    if IsConnected(s) && encodes then
      Write(Registered(s, timer), if initialize then InitializeFrame(id) else RequestFrame(id))
    else s.(reqId := id, settled := s.settled + multiset{id}, outcomes := s.outcomes[id := SendFailed])
  }

  // ----- the reconnect loop -----

  function NextDelay(delay: nat): nat {
    if delay * 2 < 2000 then delay * 2 else 2000
  }

  function SetLoop(s: State, l: nat, loop: Loop): State
    requires l < |s.loops|
  {
    s.(loops := s.loops[l := loop])
  }

  /** The head of the loop: sleep for the delay, or give up. */
  function Attempt(s: State, l: nat, loop: Loop): State
    requires l < |s.loops|
  {
    if loop.attempt <= MAX_ATTEMPTS && !s.closing then
      SetLoop(s, l, loop.(phase := Sleeping, slept := loop.slept + loop.delay))
    else SetLoop(s, l, loop.(phase := Done)).(connection := Disconnected)
  }

  function NextAttempt(s: State, l: nat): State
    requires l < |s.loops|
  {
    var loop := s.loops[l];
    Attempt(s, l, loop.(attempt := loop.attempt + 1, delay := NextDelay(loop.delay)))
  }

  /** At most one loop at a time: a second caller gets the first caller's promise. */
  function Reconnect(s: State): State {
    if IsConnected(s) || s.reconnecting.Some? then s
    else
      var l := |s.loops|;
      var first := Loop(Sleeping, 1, 250, 0, 0);
      Attempt(s.(connection := Connecting, loops := s.loops + [first], reconnecting := Some(l)), l, first)
  }

  function MarkDisconnected(s: State): State {
    if s.disconnected then s
    else Reconnect(RejectPending(s).(disconnected := true, connection := Connecting))
  }

  function Adopted(s: State, ready: Ready): State {
    s.(ws := |s.sockets|, sockets := s.sockets + [Socket(ready, [])], disconnected := false)
  }

  /** A new socket takes over and `initialize` goes out on it at once; if it is already gone, the
      attempt has failed. */
  function Replace(s: State, l: nat, ready: Ready): State
    requires l < |s.loops|
  {
    var s1 := Adopted(s, ready);
    if ready.Open? then
      SetLoop(Issue(s1, true, true, true), l, s.loops[l].(phase := Initializing(s.reqId + 1)))
    else NextAttempt(s1, l)
  }

  // ----- steps -----

  datatype Event =
    | Request(timer: bool, encodes: bool)
    | Notify
    | EnsureConnected
    | Response(sock: nat, id: nat, isError: bool)
    | Timeout(id: nat)
    | SocketChanges(sock: nat, ready: Ready)
    | CloseEvent(sock: nat)
    | ErrorEvent(sock: nat)
    | HealthTick
    | CloseClient
    | LoopWakes(l: nat)
    | SocketOpens(l: nat, ready: Ready)
    | OpenFails(l: nat)
    | InitializeSettled(l: nat)
    | FinallyRuns(l: nat)

  predicate InPhase(s: State, l: nat, phase: Phase) {
    l < |s.loops| && s.loops[l].phase == phase
  }

  /** A socket never opens again. */
  function Later(a: Ready, b: Ready): Ready {
    if a.Open? || (a.Closing? && b.Closed?) then b else a
  }

  function RouteResponse(s: State, id: nat, isError: bool): State {
    if id in s.pending then Settle(s, id, if isError then Refused else Answered) else s
  }

  function CloseSocket(s: State): State {
    s.(sockets := if s.ws < |s.sockets|
                  then s.sockets[s.ws := s.sockets[s.ws].(ready := Later(s.sockets[s.ws].ready, Closing))]
                  else s.sockets,
       closing := true, connection := Disconnected)
  }

  function ShutDown(s: State): State {
    RejectPending(CloseSocket(s))
  }

  function FinishInitialize(s: State, l: nat): State {
    if l < |s.loops| && s.loops[l].phase.Initializing? && s.loops[l].phase.id in s.outcomes then
      if s.outcomes[s.loops[l].phase.id].Answered?
      then SetLoop(s, l, s.loops[l].(phase := Done)).(connection := Connected)
      else NextAttempt(s, l)
    else s
  }

  function OnNotify(s: State): State {
    if IsConnected(s) then Write(s, OtherFrame) else s
  }

  function OnEnsure(s: State): State {
    if IsConnected(s) || s.closing then s else Reconnect(s)
  }

  /** Only the current socket's messages are heard. */
  function OnResponse(s: State, sock: nat, id: nat, isError: bool): State {
    if sock != s.ws then s else RouteResponse(s, id, isError)
  }

  function OnTimeout(s: State, id: nat): State {
    if id in s.timers then Settle(s, id, TimedOut) else s
  }

  function OnSocketChange(s: State, sock: nat, ready: Ready): State {
    if sock < |s.sockets|
    then s.(sockets := s.sockets[sock := s.sockets[sock].(ready := Later(s.sockets[sock].ready, ready))])
    else s
  }

  function OnClose(s: State, sock: nat): State {
    if sock != s.ws then s else if s.closing then RejectPending(s) else MarkDisconnected(s)
  }

  function OnError(s: State, sock: nat): State {
    if sock != s.ws || s.closing then s else MarkDisconnected(s)
  }

  function OnHealthTick(s: State): State {
    if s.disconnected || s.closing || IsConnected(s) then s else MarkDisconnected(s)
  }

  function OnWake(s: State, l: nat): State {
    if !InPhase(s, l, Sleeping) then s
    else if s.closing then SetLoop(s, l, s.loops[l].(phase := Done)).(connection := Disconnected)
    else SetLoop(s, l, s.loops[l].(phase := Opening, tries := s.loops[l].tries + 1))
  }

  function OnOpen(s: State, l: nat, ready: Ready): State {
    if InPhase(s, l, Opening) then Replace(s, l, ready) else s
  }

  function OnOpenFailure(s: State, l: nat): State {
    if InPhase(s, l, Opening) then NextAttempt(s, l) else s
  }

  function OnFinally(s: State, l: nat): State {
    if InPhase(s, l, Done) && s.reconnecting == Some(l) then s.(reconnecting := None) else s
  }

  /** The effect of one step; an event that cannot happen now has none. */
  function Step(s: State, e: Event): State {
    match e
    case Request(timer, encodes) => Issue(s, false, timer, encodes)
    case Notify => OnNotify(s)
    case EnsureConnected => OnEnsure(s)
    case Response(sock, id, isError) => OnResponse(s, sock, id, isError)
    case Timeout(id) => OnTimeout(s, id)
    case SocketChanges(sock, ready) => OnSocketChange(s, sock, ready)
    case CloseEvent(sock) => OnClose(s, sock)
    case ErrorEvent(sock) => OnError(s, sock)
    case HealthTick => OnHealthTick(s)
    case CloseClient => ShutDown(s)
    case LoopWakes(l) => OnWake(s, l)
    case SocketOpens(l, ready) => OnOpen(s, l, ready)
    case OpenFails(l) => OnOpenFailure(s, l)
    case InitializeSettled(l) => FinishInitialize(s, l)
    case FinallyRuns(l) => OnFinally(s, l)
  }

  function Run(s: State, es: seq<Event>): State {
    if es == [] then s else Step(Run(s, es[..|es| - 1]), es[|es| - 1])
  }

  /** The client right after `connect` has sent `initialize` on its first socket. */
  const START := State(1, {1}, {1}, multiset{}, map[], false, false, Connected,
                       0, [Socket(Open, [InitializeFrame(1)])], None, [])

  // ----- requests -----

  /** Every id handed out is pending or settled exactly once, and no other id is known; a running
      timer belongs to a pending request; a disconnected client has nothing pending. */
  ghost predicate Requests(s: State) {
    && (forall id: nat :: s.settled[id] + (if id in s.pending then 1 else 0) == if 1 <= id <= s.reqId then 1 else 0)
    && s.timers <= s.pending
    && (forall id: nat :: id in s.outcomes <==> s.settled[id] > 0)
    && (s.disconnected ==> s.pending == {})
  }

  lemma SettleRequests(s: State, id: nat, reason: Reason)
    requires Requests(s) && id in s.pending
    ensures Requests(Settle(s, id, reason))
  {}

  lemma RejectRequests(s: State)
    requires Requests(s)
    ensures Requests(RejectPending(s)) && RejectPending(s).pending == {}
    ensures Requests(RejectPending(s).(disconnected := true))
  {}

  lemma IssueRequests(s: State, initialize: bool, timer: bool, encodes: bool)
    requires Requests(s)
    ensures Requests(Issue(s, initialize, timer, encodes))
  {
    var id := s.reqId + 1;
    assert s.settled[id] == 0 && id !in s.pending;
  }

  /** The parts of the state the request table does not depend on. */
  predicate SameRequests(a: State, b: State) {
    && a.reqId == b.reqId && a.pending == b.pending && a.timers == b.timers
    && a.settled == b.settled && a.outcomes == b.outcomes && (b.disconnected ==> a.disconnected)
  }

  lemma SameKeepsRequests(a: State, b: State)
    requires Requests(a) && SameRequests(a, b)
    ensures Requests(b)
  {}

  lemma MarkRequests(s: State)
    requires Requests(s)
    ensures Requests(MarkDisconnected(s))
  {
    if !s.disconnected {
      RejectRequests(s);
      var s1 := RejectPending(s).(disconnected := true);
      SameKeepsRequests(s1, MarkDisconnected(s));
    }
  }

  lemma ReplaceRequests(s: State, l: nat, ready: Ready)
    requires Requests(s) && l < |s.loops|
    ensures Requests(Replace(s, l, ready))
  {
    var s1 := Adopted(s, ready);
    SameKeepsRequests(s, s1);
    if ready.Open? {
      IssueRequests(s1, true, true, true);
      SameKeepsRequests(Issue(s1, true, true, true), Replace(s, l, ready));
    } else {
      SameKeepsRequests(s1, Replace(s, l, ready));
    }
  }

  lemma ShutDownRequests(s: State)
    requires Requests(s)
    ensures Requests(ShutDown(s))
  {
    var s1 := CloseSocket(s);
    SameKeepsRequests(s, s1);
    RejectRequests(s1);
  }

  lemma SettlingSteps(s: State, e: Event)
    requires Requests(s) && (e.Response? || e.Timeout? || e.Request?)
    ensures Requests(Step(s, e))
  {
    match e {
      case Request(timer, encodes) => IssueRequests(s, false, timer, encodes);
      case Response(_, id, isError) =>
        if id in s.pending {
          SettleRequests(s, id, if isError then Refused else Answered);
        }
      case Timeout(id) =>
        if id in s.timers {
          SettleRequests(s, id, TimedOut);
        }
    }
  }

  lemma LossRequests(s: State, e: Event)
    requires Requests(s) && (e.CloseEvent? || e.ErrorEvent? || e.HealthTick?)
    ensures Requests(Step(s, e))
  {
    match e {
      case CloseEvent(sock) =>
        if sock == s.ws {
          if s.closing {
            RejectRequests(s);
          } else {
            MarkRequests(s);
          }
        }
      case ErrorEvent(sock) =>
        if sock == s.ws && !s.closing {
          MarkRequests(s);
        }
      case HealthTick =>
        if !s.disconnected && !s.closing && !IsConnected(s) {
          MarkRequests(s);
        }
    }
  }

  /** Steps that touch the request table only by rejecting everything, or by `initialize`. */
  lemma ConnectionSteps(s: State, e: Event)
    requires Requests(s)
    requires e.CloseEvent? || e.ErrorEvent? || e.HealthTick? || e.CloseClient? || e.SocketOpens?
    ensures Requests(Step(s, e))
  {
    match e {
      case CloseClient => ShutDownRequests(s);
      case SocketOpens(l, ready) =>
        if InPhase(s, l, Opening) {
          ReplaceRequests(s, l, ready);
        }
      case _ => LossRequests(s, e);
    }
  }

  predicate IsQuiet(e: Event) {
    || e.Notify? || e.EnsureConnected? || e.SocketChanges? || e.LoopWakes? || e.OpenFails?
    || e.InitializeSettled? || e.FinallyRuns?
  }

  lemma QuietSteps(s: State, e: Event)
    requires IsQuiet(e)
    ensures SameRequests(s, Step(s, e))
  {}

  /** Every step keeps the request table right. */
  lemma StepRequests(s: State, e: Event)
    requires Requests(s)
    ensures Requests(Step(s, e))
  {
    if IsQuiet(e) {
      QuietSteps(s, e);
      SameKeepsRequests(s, Step(s, e));
    } else if e.Response? || e.Timeout? || e.Request? {
      SettlingSteps(s, e);
    } else {
      ConnectionSteps(s, e);
    }
  }

  // ----- reconnect loops -----

  /** The delay before the n-th attempt of a loop: doubled each time, up to two seconds. */
  function DelayAt(n: nat): nat {
    if n <= 1 then 250 else NextDelay(DelayAt(n - 1))
  }

  function TotalDelay(n: nat): nat {
    if n == 0 then 0 else TotalDelay(n - 1) + DelayAt(n)
  }

  lemma {:induction false} DelayIsCapped(n: nat)
    requires n >= 4
    ensures DelayAt(n) == 2000
    ensures TotalDelay(n) == 1750 + 2000 * (n - 3)
  {
    if n == 4 {
      assert DelayAt(2) == 500 && DelayAt(3) == 1000;
      assert TotalDelay(1) == 250 && TotalDelay(3) == 1750;
    } else {
      DelayIsCapped(n - 1);
    }
  }

  /** A loop that is not done is within its twenty attempts and has slept the delays so far. */
  ghost predicate LoopOk(loop: Loop) {
    if loop.phase.Done? then loop.tries <= MAX_ATTEMPTS && loop.slept <= 35750
    else
      && 1 <= loop.attempt <= MAX_ATTEMPTS
      && loop.delay == DelayAt(loop.attempt) && loop.slept == TotalDelay(loop.attempt)
      && loop.tries == if loop.phase.Sleeping? then loop.attempt - 1 else loop.attempt
  }

  /** Only the loop behind the `reconnecting` promise can be unfinished. */
  ghost predicate LoopsOk(s: State) {
    && (s.reconnecting.Some? ==> s.reconnecting.value < |s.loops|)
    && (forall l :: 0 <= l < |s.loops| ==> LoopOk(s.loops[l]))
    && (forall l :: 0 <= l < |s.loops| && !s.loops[l].phase.Done? ==> s.reconnecting == Some(l))
  }

  /** Twenty attempts sleep 35,750 ms in total. */
  lemma TotalDelayBound(n: nat)
    requires n <= MAX_ATTEMPTS
    ensures TotalDelay(n) <= 35750
  {
    if n >= 4 {
      DelayIsCapped(n);
    } else {
      assert DelayAt(2) == 500 && DelayAt(3) == 1000;
    }
  }

  lemma SetLoopOk(s: State, l: nat, loop: Loop)
    requires LoopsOk(s) && l < |s.loops| && LoopOk(loop)
    requires !loop.phase.Done? ==> s.reconnecting == Some(l)
    ensures LoopsOk(SetLoop(s, l, loop))
  {}

  /** What a loop has behind it at its head. */
  ghost predicate AtHead(loop: Loop) {
    && 1 <= loop.attempt <= MAX_ATTEMPTS + 1 && loop.delay == DelayAt(loop.attempt)
    && loop.slept == TotalDelay(loop.attempt - 1) && loop.tries == loop.attempt - 1
  }

  lemma SleepOk(loop: Loop)
    requires AtHead(loop) && loop.attempt <= MAX_ATTEMPTS
    ensures LoopOk(loop.(phase := Sleeping, slept := loop.slept + loop.delay))
  {}

  lemma GiveUpOk(loop: Loop)
    requires AtHead(loop)
    ensures LoopOk(loop.(phase := Done))
  {
    TotalDelayBound(loop.attempt - 1);
  }

  lemma AttemptOk(s: State, l: nat, loop: Loop)
    requires LoopsOk(s) && l < |s.loops| && s.reconnecting == Some(l) && AtHead(loop)
    ensures LoopsOk(Attempt(s, l, loop))
  {
    hide LoopsOk, LoopOk, AtHead;
    if loop.attempt <= MAX_ATTEMPTS && !s.closing {
      SleepOk(loop);
      SetLoopOk(s, l, loop.(phase := Sleeping, slept := loop.slept + loop.delay));
    } else {
      GiveUpOk(loop);
      SetLoopOk(s, l, loop.(phase := Done));
      SameKeepsLoops(SetLoop(s, l, loop.(phase := Done)), Attempt(s, l, loop));
    }
  }

  lemma NextAttemptOk(s: State, l: nat)
    requires LoopsOk(s) && l < |s.loops| && (s.loops[l].phase.Opening? || s.loops[l].phase.Initializing?)
    ensures LoopsOk(NextAttempt(s, l))
  {
    var loop := s.loops[l];
    assert LoopOk(loop) && s.reconnecting == Some(l);
    AttemptOk(s, l, loop.(attempt := loop.attempt + 1, delay := NextDelay(loop.delay)));
  }

  lemma ReconnectOk(s: State)
    requires LoopsOk(s)
    ensures LoopsOk(Reconnect(s))
  {
    if !IsConnected(s) && s.reconnecting.None? {
      var l := |s.loops|;
      var first := Loop(Sleeping, 1, 250, 0, 0);
      var finished := first.(phase := Done);
      var s1 := s.(loops := s.loops + [finished], reconnecting := Some(l));
      assert LoopsOk(s1);
      AttemptOk(s1, l, first);
      assert s1.loops[l := Attempt(s1, l, first).loops[l]] == Reconnect(s).loops;
    }
  }

  predicate SameLoops(a: State, b: State) {
    a.loops == b.loops && a.reconnecting == b.reconnecting
  }

  lemma SameKeepsLoops(a: State, b: State)
    requires LoopsOk(a) && SameLoops(a, b)
    ensures LoopsOk(b)
  {}

  lemma MarkLoops(s: State)
    requires LoopsOk(s)
    ensures LoopsOk(MarkDisconnected(s))
  {
    if !s.disconnected {
      var s1 := RejectPending(s).(disconnected := true, connection := Connecting);
      SameKeepsLoops(s, s1);
      ReconnectOk(s1);
    }
  }

  lemma ReplaceLoops(s: State, l: nat, ready: Ready)
    requires LoopsOk(s) && InPhase(s, l, Opening)
    ensures LoopsOk(Replace(s, l, ready))
  {
    var s1 := Adopted(s, ready);
    SameKeepsLoops(s, s1);
    if ready.Open? {
      var s2 := Issue(s1, true, true, true);
      SameKeepsLoops(s1, s2);
      assert LoopOk(s.loops[l]);
      SetLoopOk(s2, l, s.loops[l].(phase := Initializing(s.reqId + 1)));
    } else {
      NextAttemptOk(s1, l);
    }
  }

  lemma WakeLoops(s: State, l: nat)
    requires LoopsOk(s) && InPhase(s, l, Sleeping)
    ensures LoopsOk(OnWake(s, l))
  {
    var loop := s.loops[l];
    assert LoopOk(loop);
    TotalDelayBound(loop.attempt);
    if s.closing {
      SetLoopOk(s, l, loop.(phase := Done));
      SameKeepsLoops(SetLoop(s, l, loop.(phase := Done)), OnWake(s, l));
    } else {
      SetLoopOk(s, l, loop.(phase := Opening, tries := loop.tries + 1));
    }
  }

  lemma InitializeLoops(s: State, l: nat)
    requires LoopsOk(s)
    ensures LoopsOk(FinishInitialize(s, l))
  {
    if l < |s.loops| && s.loops[l].phase.Initializing? && s.loops[l].phase.id in s.outcomes {
      if s.outcomes[s.loops[l].phase.id].Answered? {
        var loop := s.loops[l];
        assert LoopOk(loop);
        TotalDelayBound(loop.attempt);
        SetLoopOk(s, l, loop.(phase := Done));
        SameKeepsLoops(SetLoop(s, l, loop.(phase := Done)), FinishInitialize(s, l));
      } else {
        NextAttemptOk(s, l);
      }
    }
  }

  /** Every step keeps at most one reconnect loop unfinished, and each within its bounds. */
  lemma StepLoops(s: State, e: Event)
    requires LoopsOk(s)
    ensures LoopsOk(Step(s, e))
  {
    match e {
      case EnsureConnected => ReconnectOk(s);
      case CloseEvent(_) => MarkLoops(s);
      case ErrorEvent(_) => MarkLoops(s);
      case HealthTick => MarkLoops(s);
      case LoopWakes(l) =>
        if InPhase(s, l, Sleeping) {
          WakeLoops(s, l);
        }
      case SocketOpens(l, ready) =>
        if InPhase(s, l, Opening) {
          ReplaceLoops(s, l, ready);
        }
      case OpenFails(l) =>
        if InPhase(s, l, Opening) {
          NextAttemptOk(s, l);
        }
      case InitializeSettled(l) => InitializeLoops(s, l);
      case FinallyRuns(_) =>
      case _ => assert SameLoops(s, Step(s, e));
    }
  }

  /** A loop that waits for `initialize` waits for an id that was handed out. */
  ghost predicate InitializesKnown(s: State) {
    forall l :: 0 <= l < |s.loops| && s.loops[l].phase.Initializing? ==> 1 <= s.loops[l].phase.id <= s.reqId
  }

  lemma ReplaceInitializes(s: State, l: nat, ready: Ready)
    requires InitializesKnown(s) && l < |s.loops|
    ensures InitializesKnown(Replace(s, l, ready))
  {}

  lemma QuietInitializes(s: State, e: Event)
    requires InitializesKnown(s) && IsQuiet(e)
    ensures InitializesKnown(Step(s, e))
  {}

  lemma StepInitializes(s: State, e: Event)
    requires InitializesKnown(s)
    ensures InitializesKnown(Step(s, e))
  {
    if IsQuiet(e) {
      QuietInitializes(s, e);
    } else if e.SocketOpens? && InPhase(s, e.l, Opening) {
      ReplaceInitializes(s, e.l, e.ready);
    }
  }

  // ----- sockets -----

  ghost predicate StartsWithInitialize(frames: seq<Frame>) {
    forall i :: 0 <= i < |frames| ==> (frames[i].InitializeFrame? <==> i == 0)
  }

  /** On every socket the first frame, and no other, is `initialize`, and it is already out on an open
      current socket. */
  ghost predicate SocketsOk(s: State) {
    && s.ws < |s.sockets|
    && (forall k :: 0 <= k < |s.sockets| ==> StartsWithInitialize(s.sockets[k].frames))
    && (s.sockets[s.ws].ready.Open? ==> s.sockets[s.ws].frames != [])
  }

  lemma WriteSockets(s: State, f: Frame)
    requires SocketsOk(s) && s.sockets[s.ws].ready.Open? && !f.InitializeFrame?
    ensures SocketsOk(Write(s, f))
  {}

  lemma IssueSockets(s: State, timer: bool, encodes: bool)
    requires SocketsOk(s)
    ensures SocketsOk(Issue(s, false, timer, encodes))
  {
    if IsConnected(s) && encodes {
      WriteSockets(s, RequestFrame(s.reqId + 1));
    }
  }

  lemma ReplaceSockets(s: State, l: nat, ready: Ready)
    requires SocketsOk(s) && l < |s.loops|
    ensures SocketsOk(Replace(s, l, ready))
  {
    var r := Replace(s, l, ready);
    assert r.ws == |s.sockets|;
    assert forall k :: 0 <= k < |s.sockets| ==> r.sockets[k] == s.sockets[k];
    assert r.sockets[r.ws] == Socket(ready, if ready.Open? then [InitializeFrame(s.reqId + 1)] else []);
  }

  lemma StepSockets(s: State, e: Event)
    requires SocketsOk(s)
    ensures SocketsOk(Step(s, e))
  {
    match e {
      case Request(timer, encodes) => IssueSockets(s, timer, encodes);
      case Notify =>
        if IsConnected(s) {
          WriteSockets(s, OtherFrame);
        }
      case SocketOpens(l, ready) =>
        if InPhase(s, l, Opening) {
          ReplaceSockets(s, l, ready);
        }
      case SocketChanges(_, _) =>
      case CloseClient =>
      case _ => assert Step(s, e).sockets == s.sockets && Step(s, e).ws == s.ws;
    }
  }

  // ----- what is on the wire -----

  /** The request ids in a row of frames, in order. */
  function Ids(frames: seq<Frame>): seq<nat> {
    if frames == [] then []
    else
      var f := frames[|frames| - 1];
      Ids(frames[..|frames| - 1]) + if f.OtherFrame? then [] else [f.id]
  }

  /** The request ids on all sockets, older sockets first. */
  function WireIds(sockets: seq<Socket>): seq<nat> {
    if sockets == [] then []
    else WireIds(sockets[..|sockets| - 1]) + Ids(sockets[|sockets| - 1].frames)
  }

  ghost predicate Unsent(s: State, id: nat) {
    id in s.outcomes && s.outcomes[id].SendFailed?
  }

  ghost predicate Increasing(ids: seq<nat>) {
    forall i, j :: 0 <= i < j < |ids| ==> ids[i] < ids[j]
  }

  /** Every id handed out, unless it could not be sent, stands in one request frame on one socket, and no
      frame carries any other; ids increase along every socket and from socket to socket; and the
      current socket is the newest. */
  ghost predicate WireOk(s: State) {
    && s.ws == |s.sockets| - 1
    && Increasing(WireIds(s.sockets))
    && (forall id: nat :: id in WireIds(s.sockets) <==> 1 <= id <= s.reqId && !Unsent(s, id))
  }

  lemma WriteIds(s: State, f: Frame)
    requires s.ws == |s.sockets| - 1
    ensures WireIds(Write(s, f).sockets) == WireIds(s.sockets) + if f.OtherFrame? then [] else [f.id]
  {
    var old', new' := s.sockets[s.ws].frames, s.sockets[s.ws].frames + [f];
    assert new'[..|old'|] == old';
    assert Write(s, f).sockets[..s.ws] == s.sockets[..s.ws];
  }

  /** Only a socket's frames matter here. */
  lemma {:induction false} ReadyIgnored(a: seq<Socket>, b: seq<Socket>)
    requires |a| == |b| && forall k :: 0 <= k < |a| ==> a[k].frames == b[k].frames
    ensures WireIds(a) == WireIds(b)
  {
    if a != [] {
      ReadyIgnored(a[..|a| - 1], b[..|b| - 1]);
    }
  }

  lemma GrowsBy(ids: seq<nat>, id: nat)
    requires Increasing(ids) && forall x :: x in ids ==> x < id
    ensures Increasing(ids + [id])
  {
    assert forall i :: 0 <= i < |ids| ==> ids[i] in ids;
  }

  lemma SentWire(s: State, f: Frame, timer: bool)
    requires WireOk(s) && !f.OtherFrame? && f.id == s.reqId + 1 && f.id !in s.outcomes
    ensures WireOk(Write(Registered(s, timer), f))
  {
    WriteIds(Registered(s, timer), f);
    GrowsBy(WireIds(s.sockets), f.id);
  }

  lemma UnsentWire(s: State)
    requires WireOk(s)
    ensures WireOk(s.(reqId := s.reqId + 1, settled := s.settled + multiset{s.reqId + 1},
                      outcomes := s.outcomes[s.reqId + 1 := SendFailed]))
  {}

  lemma IssueWire(s: State, initialize: bool, timer: bool, encodes: bool)
    requires WireOk(s) && Requests(s)
    ensures WireOk(Issue(s, initialize, timer, encodes))
  {
    hide WireOk;
    var id := s.reqId + 1;
    assert s.settled[id] == 0;
    if IsConnected(s) && encodes {
      SentWire(s, if initialize then InitializeFrame(id) else RequestFrame(id), timer);
    } else {
      UnsentWire(s);
    }
  }

  lemma AdoptedWire(s: State, ready: Ready)
    requires WireOk(s)
    ensures WireOk(Adopted(s, ready))
  {
    var more := s.sockets + [Socket(ready, [])];
    assert more[..|s.sockets|] == s.sockets;
    assert WireIds(more) == WireIds(s.sockets);
  }

  /** The parts of the state the wire does not depend on, and settlements of ids that were sent. */
  ghost predicate SameWire(a: State, b: State) {
    && b.ws == a.ws && b.reqId == a.reqId && |b.sockets| == |a.sockets|
    && (forall k :: 0 <= k < |a.sockets| ==> b.sockets[k].frames == a.sockets[k].frames)
    && (forall id :: Unsent(a, id) <==> Unsent(b, id))
  }

  lemma SameKeepsWire(a: State, b: State)
    requires WireOk(a) && SameWire(a, b)
    ensures WireOk(b)
  {
    ReadyIgnored(a.sockets, b.sockets);
  }

  lemma PendingIsOpen(s: State)
    requires Requests(s)
    ensures forall id :: id in s.pending ==> id !in s.outcomes
  {}

  lemma RejectWire(s: State)
    requires Requests(s)
    ensures SameWire(s, RejectPending(s))
  {
    PendingIsOpen(s);
  }

  lemma SettleWire(s: State, id: nat, reason: Reason)
    requires Requests(s) && id in s.pending && !reason.SendFailed?
    ensures SameWire(s, Settle(s, id, reason))
  {
    PendingIsOpen(s);
  }

  lemma ReconnectWire(s: State)
    ensures SameWire(s, Reconnect(s))
  {}

  lemma MarkWire(s: State)
    requires Requests(s)
    ensures SameWire(s, MarkDisconnected(s))
  {
    if !s.disconnected {
      RejectWire(s);
      ReconnectWire(RejectPending(s).(disconnected := true, connection := Connecting));
    }
  }

  lemma ShutDownWire(s: State)
    requires Requests(s)
    ensures SameWire(s, ShutDown(s))
  {
    SameKeepsRequests(s, CloseSocket(s));
    RejectWire(CloseSocket(s));
  }

  /** Steps that write nothing. */
  lemma SilentWire(s: State, e: Event)
    requires Requests(s) && !e.Request? && !e.Notify? && !(e.SocketOpens? && InPhase(s, e.l, Opening))
    ensures SameWire(s, Step(s, e))
  {
    hide SameWire;
    SameWireReflexive(s);
    match e {
      case Response(_, id, isError) =>
        if id in s.pending {
          SettleWire(s, id, if isError then Refused else Answered);
        }
      case Timeout(id) =>
        if id in s.timers {
          SettleWire(s, id, TimedOut);
        }
      case EnsureConnected => ReconnectWire(s);
      case CloseEvent(_) =>
        RejectWire(s);
        MarkWire(s);
      case ErrorEvent(_) => MarkWire(s);
      case HealthTick => MarkWire(s);
      case CloseClient => ShutDownWire(s);
      case _ => LoopWire(s, e);
    }
  }

  lemma SameWireReflexive(s: State)
    ensures SameWire(s, s)
  {}

  /** Steps of a reconnect loop, and changes a socket goes through by itself. */
  lemma LoopWire(s: State, e: Event)
    requires e.SocketChanges? || e.LoopWakes? || e.OpenFails? || e.InitializeSettled? || e.FinallyRuns?
             || (e.SocketOpens? && !InPhase(s, e.l, Opening))
    ensures SameWire(s, Step(s, e))
  {}

  lemma OpenedWire(s: State, l: nat, ready: Ready)
    requires WireOk(s) && Requests(s) && l < |s.loops|
    ensures WireOk(Replace(s, l, ready))
  {
    hide WireOk;
    AdoptedWire(s, ready);
    var s1 := Adopted(s, ready);
    SameKeepsRequests(s, s1);
    if ready.Open? {
      IssueWire(s1, true, true, true);
      SameKeepsWire(Issue(s1, true, true, true), Replace(s, l, ready));
    } else {
      SameKeepsWire(s1, Replace(s, l, ready));
    }
  }

  lemma NotifyWire(s: State)
    requires WireOk(s)
    ensures WireOk(OnNotify(s))
  {
    if IsConnected(s) {
      WriteIds(s, OtherFrame);
    }
  }

  /** Every step keeps the frames and the ids handed out together. */
  lemma StepWire(s: State, e: Event)
    requires WireOk(s) && Requests(s)
    ensures WireOk(Step(s, e))
  {
    hide WireOk, SameWire;
    if e.Request? {
      IssueWire(s, false, e.timer, e.encodes);
    } else if e.Notify? {
      NotifyWire(s);
    } else if e.SocketOpens? && InPhase(s, e.l, Opening) {
      OpenedWire(s, e.l, e.ready);
    } else {
      SilentWire(s, e);
      SameKeepsWire(s, Step(s, e));
    }
  }

  // ----- whole runs -----

  ghost predicate Inv(s: State) {
    Requests(s) && LoopsOk(s) && InitializesKnown(s) && SocketsOk(s) && WireOk(s)
  }

  /** Over every interleaving: each id handed out is pending or settled exactly once, a disconnected
      client has nothing pending, at most one reconnect loop is unfinished, every loop stays within
      twenty attempts, `initialize` comes first on every socket, and the frames carry the ids handed out,
      each once and in order. */
  lemma {:induction false} EveryRun(es: seq<Event>)
    ensures Inv(Run(START, es))
  {
    if es != [] {
      var s := Run(START, es[..|es| - 1]);
      EveryRun(es[..|es| - 1]);
      StepRequests(s, es[|es| - 1]);
      StepLoops(s, es[|es| - 1]);
      StepInitializes(s, es[|es| - 1]);
      StepSockets(s, es[|es| - 1]);
      StepWire(s, es[|es| - 1]);
    } else {
      StartWire();
    }
  }

  lemma StartWire()
    ensures WireOk(START)
  {
    var frames := [InitializeFrame(1)];
    assert frames[..0] == [] && START.sockets[..0] == [];
    assert WireIds(START.sockets) == [1];
  }

  ghost predicate StandsOnce(ids: seq<nat>, id: nat) {
    exists i :: 0 <= i < |ids| && ids[i] == id && forall j :: 0 <= j < |ids| && j != i ==> ids[j] != id
  }

  lemma OnlyPlace(ids: seq<nat>, id: nat)
    requires Increasing(ids) && id in ids
    ensures StandsOnce(ids, id)
  {
    var i :| 0 <= i < |ids| && ids[i] == id;
    assert forall j :: 0 <= j < |ids| && j != i ==> ids[j] != id;
  }

  /** A request that waits for its answer has gone out, and the frame that carries its id is the only
      one. */
  lemma PendingIsOnTheWire(es: seq<Event>, id: nat)
    requires id in Run(START, es).pending
    ensures StandsOnce(WireIds(Run(START, es).sockets), id)
  {
    EveryRun(es);
    var s := Run(START, es);
    PendingIsOpen(s);
    assert id in WireIds(s.sockets);
    OnlyPlace(WireIds(s.sockets), id);
  }

  // ----- why a request was settled -----

  /** The reason an event gives to the requests it settles. */
  function Cause(e: Event): Reason {
    match e
    case Response(_, _, isError) => if isError then Refused else Answered
    case Timeout(_) => TimedOut
    case Request(_, _) => SendFailed
    case _ => ConnectionLost
  }

  /** What the events that settle requests have in common with the state they meet. */
  ghost predicate Settles(s: State, e: Event, id: nat) {
    match e
    case Response(sock, answered, _) => sock == s.ws && answered == id
    case Timeout(late) => late == id && id in s.timers
    case CloseEvent(sock) => sock == s.ws
    case ErrorEvent(sock) => sock == s.ws && !s.closing
    case HealthTick => !IsConnected(s) && !s.closing
    case _ => e.CloseClient?
  }

  lemma MarkSettles(s: State, id: nat)
    requires id in s.pending && id !in MarkDisconnected(s).pending
    ensures id in MarkDisconnected(s).outcomes && MarkDisconnected(s).outcomes[id] == ConnectionLost
  {}

  lemma QuietSettlesNothing(s: State, e: Event)
    requires IsQuiet(e) || e.Request? || e.SocketOpens?
    ensures s.pending <= Step(s, e).pending
  {}

  lemma MarkRejects(s: State)
    requires Requests(s)
    ensures MarkDisconnected(s).pending == {}
  {}

  /** A waiting request is settled exactly by a response with its id on the current socket, by its own
      timer, or by the end of the connection; and it is told which. */
  lemma SettledByIff(s: State, e: Event, id: nat)
    requires Requests(s) && id in s.pending
    ensures id !in Step(s, e).pending <==> Settles(s, e, id)
    ensures id !in Step(s, e).pending ==> id in Step(s, e).outcomes && Step(s, e).outcomes[id] == Cause(e)
  {
    if IsQuiet(e) || e.Request? || e.SocketOpens? {
      QuietSettlesNothing(s, e);
    } else if (e.CloseEvent? && !s.closing) || e.ErrorEvent? || e.HealthTick? {
      hide MarkDisconnected;
      MarkRejects(s);
      if id !in MarkDisconnected(s).pending {
        MarkSettles(s, id);
      }
    }
  }

  lemma OpenTimers(s: State, l: nat, ready: Ready)
    requires Requests(s) && l < |s.loops|
    ensures var r, id := Replace(s, l, ready), s.reqId + 1;
            && id !in s.pending && id !in s.timers
            && (ready.Open? ==> r.pending == s.pending + {id} && r.timers == s.timers + {id})
            && (!ready.Open? ==> r.pending == s.pending && r.timers == s.timers)
  {
    NextIdIsFresh(s);
  }

  /** A request has a running timer exactly as long as it waits, if it was made with one. */
  lemma TimersRun(s: State, e: Event, id: nat)
    requires Requests(s)
    ensures id in s.pending && id in Step(s, e).pending ==> (id in s.timers <==> id in Step(s, e).timers)
    ensures id !in s.pending && id in Step(s, e).pending ==>
              (id in Step(s, e).timers <==> e.SocketOpens? || (e.Request? && e.timer))
  {
    hide Requests, MarkDisconnected, Replace;
    if IsQuiet(e) {
      QuietSteps(s, e);
    } else if (e.CloseEvent? && !s.closing) || e.ErrorEvent? || e.HealthTick? {
      MarkRejects(s);
      assert Step(s, e) == s || Step(s, e) == MarkDisconnected(s);
    } else if e.SocketOpens? && InPhase(s, e.l, Opening) {
      OpenTimers(s, e.l, e.ready);
    } else if e.Request? {
      NextIdIsFresh(s);
    }
  }

  /** Two unfinished loops are one loop, and no loop makes more than 20 attempts or sleeps more than
      35,750 ms. */
  lemma LoopBounds(s: State, a: nat, b: nat)
    requires LoopsOk(s) && a < |s.loops| && b < |s.loops|
    ensures !s.loops[a].phase.Done? && !s.loops[b].phase.Done? ==> a == b
    ensures s.loops[a].tries <= 20 && s.loops[a].slept <= 35750
  {
    assert LoopOk(s.loops[a]);
    if !s.loops[a].phase.Done? {
      TotalDelayBound(s.loops[a].attempt);
    }
  }

  /** Sockets are only ever replaced by new ones. */
  lemma SocketsAdvance(s: State, e: Event)
    requires s.ws < |s.sockets|
    ensures var r := Step(s, e);
            |s.sockets| <= |r.sockets| && r.ws < |r.sockets| && (r.ws == s.ws || r.ws >= |s.sockets|)
  {}

  /** Once a socket has been superseded, nothing it reports changes anything, in any continuation. */
  lemma {:induction false} SupersededForever(s: State, sock: nat, es: seq<Event>, id: nat, isError: bool)
    requires s.ws < |s.sockets| && sock < |s.sockets| && sock != s.ws
    ensures var r := Run(s, es);
            && r.ws < |r.sockets| && sock < |r.sockets| && sock != r.ws
            && Step(r, Response(sock, id, isError)) == r
            && Step(r, CloseEvent(sock)) == r && Step(r, ErrorEvent(sock)) == r
  {
    if es != [] {
      SupersededForever(s, sock, es[..|es| - 1], id, isError);
      SocketsAdvance(Run(s, es[..|es| - 1]), es[|es| - 1]);
    }
  }

  lemma {:induction false} RunAppend(s: State, a: seq<Event>, b: seq<Event>)
    ensures Run(s, a + b) == Run(Run(s, a), b)
    decreases |b|
  {
    if b == [] {
      assert a + b == a;
    } else {
      RunAppend(s, a, b[..|b| - 1]);
      assert (a + b)[..|a + b| - 1] == a + b[..|b| - 1];
    }
  }

  /** A response that is late, repeated, made up, or from a superseded socket leaves no trace: any run
      goes on as if it had never come. */
  lemma StrayResponse(before: seq<Event>, after: seq<Event>, sock: nat, id: nat, isError: bool)
    requires id !in Run(START, before).pending || sock != Run(START, before).ws
    ensures Run(START, before + [Response(sock, id, isError)] + after) == Run(START, before + after)
  {
    var e := Response(sock, id, isError);
    RunAppend(START, before + [e], after);
    RunAppend(START, before, after);
    assert (before + [e])[..|before|] == before;
    assert Step(Run(START, before), e) == Run(START, before);
  }

  /** A request settled at some point of a run has been settled exactly once at every later point. */
  lemma {:induction false} SettledOnce(es: seq<Event>, n: nat, id: nat)
    requires n <= |es| && id in Run(START, es[..n]).outcomes
    ensures Run(START, es).settled[id] == 1
    decreases |es|
  {
    if n == |es| {
      assert es[..n] == es;
    } else {
      var front := es[..|es| - 1];
      assert front[..n] == es[..n];
      SettledOnce(front, n, id);
      SettledStays(Run(START, front), es[|es| - 1], id);
    }
    NeverTwice(es, id);
  }

  lemma NeverTwice(es: seq<Event>, id: nat)
    ensures Run(START, es).settled[id] <= 1
    ensures id in Run(START, es).outcomes ==> Run(START, es).settled[id] == 1
  {
    EveryRun(es);
  }

  lemma SettledStays(s: State, e: Event, id: nat)
    ensures s.settled[id] <= Step(s, e).settled[id]
  {}

  // ----- closing while a socket is being opened -----

  /** A loop that an earlier `close` no longer stops: it is waiting for its socket to open, or its
      `initialize` was answered and it only has to hear of it. */
  predicate Committed(s: State, l: nat) {
    l < |s.loops| &&
    (s.loops[l].phase.Opening?
     || (s.loops[l].phase.Initializing? && s.loops[l].phase.id in s.outcomes
         && s.outcomes[s.loops[l].phase.id].Answered?))
  }

  /** A closed client that nothing can bring back. */
  ghost predicate Dead(s: State) {
    && s.closing && s.connection != Connected && !IsConnected(s) && s.ws < |s.sockets|
    && (forall l :: 0 <= l < |s.loops| ==> !s.loops[l].phase.Opening?)
    && (forall l :: 0 <= l < |s.loops| && s.loops[l].phase.Initializing?
                    ==> s.loops[l].phase.id in s.outcomes && !s.outcomes[s.loops[l].phase.id].Answered?
                        && s.loops[l].phase.id <= s.reqId)
    && s.pending == {} && s.timers == {}
  }

  lemma DeadNextAttempt(s: State, l: nat)
    requires Dead(s) && l < |s.loops|
    ensures Dead(NextAttempt(s, l))
  {}

  lemma DeadStays(s: State, e: Event)
    requires Dead(s)
    ensures Dead(Step(s, e))
  {
    match e {
      case InitializeSettled(l) =>
        if l < |s.loops| {
          DeadNextAttempt(s, l);
        }
      case _ =>
    }
  }

  lemma {:induction false} DeadForever(s: State, es: seq<Event>)
    requires Dead(s)
    ensures Dead(Run(s, es))
  {
    if es != [] {
      DeadForever(s, es[..|es| - 1]);
      DeadStays(Run(s, es[..|es| - 1]), es[|es| - 1]);
    }
  }

  lemma ShutDownIsDead(s: State)
    requires Inv(s) && forall l: nat :: !Committed(s, l)
    ensures Dead(ShutDown(s))
  {
    RejectRequests(s);
    var r := ShutDown(s);
    forall l | 0 <= l < |r.loops|
      ensures !r.loops[l].phase.Opening?
      ensures r.loops[l].phase.Initializing? ==>
                r.loops[l].phase.id in r.outcomes && !r.outcomes[r.loops[l].phase.id].Answered?
    {
      assert !Committed(s, l);
    }
  }

  /** The steps that bring a closed client back through a committed loop. */
  function Comeback(s: State, l: nat): seq<Event>
    requires Committed(s, l)
  {
    if s.loops[l].phase.Opening?
    then [SocketOpens(l, Open), Response(|s.sockets|, s.reqId + 1, false), InitializeSettled(l)]
    else [InitializeSettled(l)]
  }

  lemma RunOne(s: State, a: Event)
    ensures Run(s, [a]) == Step(s, a)
  {
    assert [a][..0] == [];
  }

  lemma RunTwo(s: State, a: Event, b: Event)
    ensures Run(s, [a, b]) == Step(Step(s, a), b)
  {
    hide Step;
    assert [a, b][..1] == [a];
    RunOne(s, a);
  }

  lemma RunThree(s: State, a: Event, b: Event, c: Event)
    ensures Run(s, [a, b, c]) == Step(Step(Step(s, a), b), c)
  {
    hide Step;
    assert [a, b, c][..2] == [a, b];
    RunTwo(s, a, b);
  }

  lemma AnsweredConnects(s: State, l: nat, id: nat)
    requires l < |s.loops| && s.loops[l].phase == Initializing(id) && id in s.pending
    ensures FinishInitialize(OnResponse(s, s.ws, id, false), l).connection == Connected
  {}

  lemma OpensAndInitializes(s: State, l: nat)
    requires InPhase(s, l, Opening)
    ensures var r := OnOpen(s, l, Open);
            && r.ws == |s.sockets| && l < |r.loops|
            && r.loops[l].phase == Initializing(s.reqId + 1) && s.reqId + 1 in r.pending
  {}

  lemma ComebackConnects(s: State, l: nat)
    requires Committed(s, l)
    ensures Run(s, Comeback(s, l)).connection == Connected
  {
    if s.loops[l].phase.Opening? {
      OpensAndInitializes(s, l);
      var id := s.reqId + 1;
      AnsweredConnects(OnOpen(s, l, Open), l, id);
      RunThree(s, SocketOpens(l, Open), Response(|s.sockets|, id, false), InitializeSettled(l));
    } else {
      assert [InitializeSettled(l)][..0] == [];
    }
  }

  lemma ShutDownKeepsCommitted(s: State, l: nat)
    requires Requests(s) && Committed(s, l)
    ensures Committed(ShutDown(s), l)
  {
    if s.loops[l].phase.Initializing? {
      assert s.loops[l].phase.id !in s.pending;
    }
  }

  /** Closing is final if and only if no reconnect loop is committed at that moment: only then can no
      continuation show the client as connected again. */
  lemma CloseIsFinalIff(s: State)
    requires Inv(s)
    ensures (forall es :: Run(ShutDown(s), es).connection != Connected) <==> forall l: nat :: !Committed(s, l)
  {
    if forall l: nat :: !Committed(s, l) {
      ShutDownIsDead(s);
      forall es
        ensures Run(ShutDown(s), es).connection != Connected
      {
        DeadForever(ShutDown(s), es);
      }
    } else {
      var l: nat :| Committed(s, l);
      ShutDownKeepsCommitted(s, l);
      ComebackConnects(ShutDown(s), l);
    }
  }

  /** A client that loses its socket and is woken once to reconnect is committed: closing it then is not
      final. */
  lemma ClosingCanFail()
    ensures var s := Run(START, [CloseEvent(0), LoopWakes(0)]);
            Committed(s, 0) && exists es :: Run(ShutDown(s), es).connection == Connected
  {
    hide Inv;
    var es := [CloseEvent(0), LoopWakes(0)];
    assert es[..1] == [CloseEvent(0)] && [CloseEvent(0)][..0] == [];
    var s := Run(START, es);
    assert s == Step(Step(START, CloseEvent(0)), LoopWakes(0));
    EveryRun(es);
    assert Committed(s, 0);
    CloseIsFinalIff(s);
    var after :| Run(ShutDown(s), after).connection == Connected;
  }

  // ----- coming back -----

  ghost predicate AtRest(s: State) {
    forall l :: 0 <= l < |s.loops| ==> s.loops[l].phase.Done?
  }

  lemma FinallyForgets(s: State)
    requires LoopsOk(s) && AtRest(s) && s.reconnecting.Some?
    ensures Step(s, FinallyRuns(s.reconnecting.value)) == s.(reconnecting := None)
  {}

  lemma EnsureStartsALoop(s: State)
    requires s.reconnecting.None? && !s.closing && !IsConnected(s)
    ensures var r := Step(s, EnsureConnected);
            && |r.loops| == |s.loops| + 1 && r.loops[|s.loops|].phase.Sleeping? && !r.closing
            && Committed(Step(r, LoopWakes(|s.loops|)), |s.loops|)
  {}

  lemma ComesBackAnew(s: State) returns (es: seq<Event>)
    requires s.reconnecting.None? && !s.closing && !IsConnected(s)
    ensures Run(s, es).connection == Connected
  {
    hide Run, Step, Committed;
    var l := |s.loops|;
    EnsureStartsALoop(s);
    RunTwo(s, EnsureConnected, LoopWakes(l));
    var s2 := Step(Step(s, EnsureConnected), LoopWakes(l));
    ComebackConnects(s2, l);
    RunAppend(s, [EnsureConnected, LoopWakes(l)], Comeback(s2, l));
    es := [EnsureConnected, LoopWakes(l)] + Comeback(s2, l);
  }

  /** A client that has lost its connection, has not been closed and has no loop running can always be
      brought back: asking for the connection is enough, if the kernel then answers. */
  lemma CanComeBack(s: State)
    requires LoopsOk(s) && AtRest(s) && !s.closing && !IsConnected(s)
    ensures exists es :: Run(s, es).connection == Connected
  {
    hide Run, Step;
    if s.reconnecting.None? {
      var es := ComesBackAnew(s);
    } else {
      var e := FinallyRuns(s.reconnecting.value);
      FinallyForgets(s);
      var es := ComesBackAnew(s.(reconnecting := None));
      RunOne(s, e);
      RunAppend(s, [e], es);
      assert Run(s, [e] + es).connection == Connected;
    }
  }

  // ----- giving up -----

  /** The loop wakes and its socket does not open, `n` times. */
  function Failing(l: nat, n: nat): seq<Event> {
    if n == 0 then [] else Failing(l, n - 1) + [LoopWakes(l), OpenFails(l)]
  }

  ghost predicate AsleepAt(s: State, l: nat, attempt: nat) {
    l < |s.loops| && s.loops[l].phase.Sleeping? && s.loops[l].attempt == attempt && !s.closing && LoopsOk(s)
  }

  lemma FailureMoves(s: State, l: nat)
    requires InPhase(s, l, Sleeping) && !s.closing
    ensures var loop, r := s.loops[l], Step(Step(s, LoopWakes(l)), OpenFails(l));
            && |r.loops| == |s.loops| && !r.closing
            && r.loops[l].attempt == loop.attempt + 1 && r.loops[l].tries == loop.tries + 1
            && if loop.attempt < 20 then r.loops[l].phase.Sleeping?
               else r.loops[l].phase.Done? && r.connection == Disconnected && r.loops[l].slept == loop.slept
  {}

  lemma AtTheLast(loop: Loop)
    requires LoopOk(loop) && loop.phase.Sleeping? && loop.attempt == 20
    ensures loop.tries == 19 && loop.slept == 35750
  {
    DelayIsCapped(20);
  }

  lemma OneFailure(s: State, l: nat, attempt: nat)
    requires AsleepAt(s, l, attempt)
    ensures var r := Step(Step(s, LoopWakes(l)), OpenFails(l));
            if attempt < 20 then AsleepAt(r, l, attempt + 1)
            else l < |r.loops| && r.loops[l].phase.Done? && r.connection == Disconnected
                 && r.loops[l].tries == 20 && r.loops[l].slept == 35750
  {
    assert LoopOk(s.loops[l]);
    hide LoopsOk, Step;
    FailureMoves(s, l);
    StepLoops(s, LoopWakes(l));
    StepLoops(Step(s, LoopWakes(l)), OpenFails(l));
    if attempt >= 20 {
      AtTheLast(s.loops[l]);
    }
  }

  lemma {:induction false} FailuresAddUp(s: State, l: nat, n: nat)
    requires AsleepAt(s, l, 1) && n < 20
    ensures AsleepAt(Run(s, Failing(l, n)), l, n + 1)
  {
    hide AsleepAt, Step;
    if n > 0 {
      FailuresAddUp(s, l, n - 1);
      var r := Run(s, Failing(l, n - 1));
      OneFailure(r, l, n);
      RunTwo(r, LoopWakes(l), OpenFails(l));
      RunAppend(s, Failing(l, n - 1), [LoopWakes(l), OpenFails(l)]);
    }
  }

  /** A loop whose socket never opens makes exactly twenty attempts, sleeps 35,750 ms between them, and ends
      as disconnected. */
  lemma TwentyFailures(s: State, l: nat)
    requires AsleepAt(s, l, 1)
    ensures AsleepAt(Run(s, Failing(l, 19)), l, 20)
    ensures var r := Run(s, Failing(l, 20));
            && l < |r.loops| && r.loops[l].phase.Done? && r.connection == Disconnected
            && r.loops[l].tries == 20 && r.loops[l].slept == 35750
  {
    hide AsleepAt, Step;
    FailuresAddUp(s, l, 19);
    var r := Run(s, Failing(l, 19));
    OneFailure(r, l, 20);
    RunTwo(r, LoopWakes(l), OpenFails(l));
    RunAppend(s, Failing(l, 19), [LoopWakes(l), OpenFails(l)]);
  }

  // ----- what can start a loop, and what happens to a socket -----

  /** Number of times a caller asks for the connection. */
  function Asks(es: seq<Event>): nat {
    if es == [] then 0
    else Asks(es[..|es| - 1]) + if es[|es| - 1].EnsureConnected? then 1 else 0
  }

  /** Sockets that have been lost. */
  function LostSockets(s: State): int {
    |s.sockets| - if s.disconnected then 0 else 1
  }

  lemma MarkStarts(s: State)
    ensures var r := MarkDisconnected(s); |r.loops| - LostSockets(r) <= |s.loops| - LostSockets(s)
  {}

  lemma OpenStarts(s: State, l: nat, ready: Ready)
    requires l < |s.loops|
    ensures var r := Replace(s, l, ready); |r.loops| == |s.loops| && LostSockets(s) <= LostSockets(r)
  {}

  lemma StepStarts(s: State, e: Event)
    ensures var r := Step(s, e);
            |r.loops| - LostSockets(r) <= |s.loops| - LostSockets(s) + if e.EnsureConnected? then 1 else 0
  {
    hide MarkDisconnected, Replace;
    if e.CloseEvent? || e.ErrorEvent? || e.HealthTick? {
      MarkStarts(s);
    } else if e.SocketOpens? && InPhase(s, e.l, Opening) {
      OpenStarts(s, e.l, e.ready);
    }
  }

  /** Over every run there are no more reconnect loops than sockets lost and callers asking: a client that
      has given up is not set to work again by anything else. */
  lemma {:induction false} LoopsHaveCauses(es: seq<Event>)
    ensures |Run(START, es).loops| <= LostSockets(Run(START, es)) + Asks(es)
  {
    if es != [] {
      LoopsHaveCauses(es[..|es| - 1]);
      StepStarts(Run(START, es[..|es| - 1]), es[|es| - 1]);
    }
  }

  function Rank(ready: Ready): nat {
    match ready
    case Open => 0
    case Closing => 1
    case Closed => 2
  }

  function Max(a: nat, b: nat): nat {
    if a < b then b else a
  }

  /** What a step writes on the current socket. */
  function Written(s: State, e: Event): seq<Frame> {
    if !IsConnected(s) then []
    else if e.Request? && e.encodes then [RequestFrame(s.reqId + 1)]
    else if e.Notify? then [OtherFrame]
    else []
  }

  /** A socket never opens again, closes when it says so or when the client closes it, and only gets frames
      while it is the current one of a connected client: one for each request and notification. */
  lemma SocketFate(s: State, e: Event, k: nat)
    requires k < |s.sockets|
    ensures var r := Step(s, e);
            && k < |r.sockets|
            && r.sockets[k].frames == s.sockets[k].frames + (if k == s.ws then Written(s, e) else [])
            && Rank(r.sockets[k].ready)
               == if e.SocketChanges? && e.sock == k then Max(Rank(s.sockets[k].ready), Rank(e.ready))
                  else if e.CloseClient? && k == s.ws then Max(Rank(s.sockets[k].ready), 1)
                  else Rank(s.sockets[k].ready)
  {
    hide MarkDisconnected, Replace, NextAttempt, FinishInitialize;
    if e.CloseEvent? || e.ErrorEvent? || e.HealthTick? {
      assert MarkDisconnected(s).sockets == s.sockets by {
        MarkTouchesNoSocket(s);
      }
    } else if e.SocketOpens? && InPhase(s, e.l, Opening) {
      OpenTouchesNoOther(s, e.l, e.ready, k);
    } else if e.InitializeSettled? || e.OpenFails? {
      LoopTouchesNoSocket(s, e);
    }
  }

  lemma MarkTouchesNoSocket(s: State)
    ensures MarkDisconnected(s).sockets == s.sockets
  {}

  lemma LoopTouchesNoSocket(s: State, e: Event)
    requires e.InitializeSettled? || e.OpenFails?
    ensures Step(s, e).sockets == s.sockets
  {}

  lemma OpenTouchesNoOther(s: State, l: nat, ready: Ready, k: nat)
    requires l < |s.loops| && k < |s.sockets|
    ensures k < |Replace(s, l, ready).sockets| && Replace(s, l, ready).sockets[k] == s.sockets[k]
  {}

  // ----- what the client shows -----

  /** What is shown of the connection: as long as the client is not closed, it is shown as connecting while
      a loop is at work; it is shown as connecting only while a loop is at work or the connection is lost;
      and as disconnected only if the last loop has used up its attempts. */
  ghost predicate ShownOk(s: State) {
    && (s.connection.Connecting? ==> !s.closing && (s.disconnected || !AtRest(s)))
    && (!s.closing && !AtRest(s) ==> s.connection.Connecting?)
    && (s.connection.Disconnected? && !s.closing ==>
          s.loops != [] && s.loops[|s.loops| - 1].phase.Done? && s.loops[|s.loops| - 1].tries == MAX_ATTEMPTS)
    && (s.reconnecting.Some? ==> s.reconnecting.value == |s.loops| - 1)
  }

  predicate SameShown(a: State, b: State) {
    && a.connection == b.connection && a.closing == b.closing && a.disconnected == b.disconnected
    && a.loops == b.loops && (b.reconnecting.None? || b.reconnecting == a.reconnecting)
  }

  lemma SameKeepsShown(a: State, b: State)
    requires ShownOk(a) && SameShown(a, b)
    ensures ShownOk(b)
  {
    assert AtRest(a) <==> AtRest(b);
  }

  lemma ReconnectShown(s: State)
    requires ShownOk(s) && !s.closing
    ensures ShownOk(Reconnect(s))
  {
    if !IsConnected(s) && s.reconnecting.None? {
      assert !Reconnect(s).loops[|s.loops|].phase.Done?;
    }
  }

  lemma MarkShown(s: State)
    requires ShownOk(s) && !s.closing
    ensures ShownOk(MarkDisconnected(s))
  {
    if !s.disconnected {
      var s1 := RejectPending(s).(disconnected := true, connection := Connecting);
      assert ShownOk(s1);
      ReconnectShown(s1);
    }
  }

  /** A loop at work in the last place stays at work, or is done with all of its attempts. */
  lemma NextAttemptShown(s: State, l: nat)
    requires LoopsOk(s) && ShownOk(s) && l < |s.loops|
    requires s.loops[l].phase.Opening? || s.loops[l].phase.Initializing?
    ensures ShownOk(NextAttempt(s, l))
  {
    var loop := s.loops[l];
    assert LoopOk(loop) && s.reconnecting == Some(l) && !AtRest(s);
    var r := NextAttempt(s, l);
    if loop.attempt + 1 <= MAX_ATTEMPTS && !s.closing {
      assert !r.loops[l].phase.Done?;
    } else {
      assert AtRest(r);
    }
  }

  lemma AtWorkShown(s: State, l: nat, loop: Loop)
    requires ShownOk(s) && l < |s.loops| && !s.loops[l].phase.Done? && !loop.phase.Done?
    ensures ShownOk(SetLoop(s, l, loop)) && ShownOk(SetLoop(s, l, loop).(disconnected := false))
  {
    assert !AtRest(s);
    assert !SetLoop(s, l, loop).loops[l].phase.Done?;
    assert !SetLoop(s, l, loop).(disconnected := false).loops[l].phase.Done?;
  }

  lemma WakeShown(s: State, l: nat)
    requires ShownOk(s) && InPhase(s, l, Sleeping)
    ensures ShownOk(OnWake(s, l))
  {
    if !s.closing {
      AtWorkShown(s, l, s.loops[l].(phase := Opening, tries := s.loops[l].tries + 1));
    }
  }

  lemma OpenShown(s: State, l: nat, ready: Ready)
    requires LoopsOk(s) && ShownOk(s) && InPhase(s, l, Opening)
    ensures ShownOk(Replace(s, l, ready))
  {
    hide LoopsOk, ShownOk;
    var s1 := Adopted(s, ready);
    AtWorkShown(s, l, s.loops[l]);
    SameKeepsShown(SetLoop(s, l, s.loops[l]).(disconnected := false), s1);
    if ready.Open? {
      var loop := s.loops[l].(phase := Initializing(s.reqId + 1));
      AtWorkShown(s1, l, loop);
      SameKeepsShown(SetLoop(s1, l, loop), Replace(s, l, ready));
    } else {
      SameKeepsLoops(s, s1);
      NextAttemptShown(s1, l);
    }
  }

  lemma InitializedShown(s: State, l: nat)
    requires LoopsOk(s) && ShownOk(s)
    ensures ShownOk(FinishInitialize(s, l))
  {
    if l < |s.loops| && s.loops[l].phase.Initializing? && s.loops[l].phase.id in s.outcomes {
      if s.outcomes[s.loops[l].phase.id].Answered? {
        assert s.reconnecting == Some(l);
        assert AtRest(FinishInitialize(s, l));
      } else {
        NextAttemptShown(s, l);
      }
    }
  }

  lemma ShutDownShown(s: State)
    requires ShownOk(s)
    ensures ShownOk(ShutDown(s))
  {}

  lemma StepShown(s: State, e: Event)
    requires LoopsOk(s) && ShownOk(s)
    ensures ShownOk(Step(s, e))
  {
    hide LoopsOk, ShownOk;
    match e {
      case EnsureConnected =>
        if !s.closing {
          ReconnectShown(s);
        }
      case CloseClient => ShutDownShown(s);
      case CloseEvent(_) => LossShown(s, e);
      case ErrorEvent(_) => LossShown(s, e);
      case HealthTick => LossShown(s, e);
      case LoopWakes(l) =>
        if InPhase(s, l, Sleeping) {
          WakeShown(s, l);
        }
      case SocketOpens(l, ready) =>
        if InPhase(s, l, Opening) {
          OpenShown(s, l, ready);
        }
      case OpenFails(l) =>
        if InPhase(s, l, Opening) {
          NextAttemptShown(s, l);
        }
      case InitializeSettled(l) => InitializedShown(s, l);
      case _ => SameKeepsShown(s, Step(s, e));
    }
  }

  lemma LossShown(s: State, e: Event)
    requires ShownOk(s) && (e.CloseEvent? || e.ErrorEvent? || e.HealthTick?)
    ensures ShownOk(Step(s, e))
  {
    hide ShownOk, MarkDisconnected;
    if s.closing {
      SameKeepsShown(s, Step(s, e));
    } else {
      MarkShown(s);
    }
  }

  /** What is shown of the connection is right over every interleaving. */
  lemma {:induction false} EveryRunShows(es: seq<Event>)
    ensures ShownOk(Run(START, es))
  {
    if es != [] {
      EveryRunShows(es[..|es| - 1]);
      EveryRun(es[..|es| - 1]);
      StepShown(Run(START, es[..|es| - 1]), es[|es| - 1]);
    }
  }

  // ----- the client object -----

  /** The state in which all pending requests but those in `left` have been rejected. */
  ghost function RejectExcept(s: State, left: set<nat>): State {
    s.(pending := left, timers := s.timers - (s.pending - left),
       settled := s.settled + multiset(s.pending - left),
       outcomes := s.outcomes + Lost(s.pending - left))
  }

  lemma RejectNone(s: State)
    ensures RejectExcept(s, s.pending) == s
  {
    assert s.pending - s.pending == {};
    assert s.outcomes + Lost({}) == s.outcomes;
  }

  lemma RejectEvery(s: State)
    ensures RejectExcept(s, {}) == RejectPending(s)
  {
    assert s.pending - {} == s.pending;
  }

  lemma RejectOne(s: State, left: set<nat>, id: nat)
    requires left <= s.pending && id in left
    ensures RejectExcept(s, left - {id}) == Settle(RejectExcept(s, left), id, ConnectionLost)
  {
    var done, done' := s.pending - left, s.pending - (left - {id});
    assert done' == done + {id};
    assert s.timers - done' == (s.timers - done) - {id};
    assert multiset(done') == multiset(done) + multiset{id};
    assert s.outcomes + Lost(done') == (s.outcomes + Lost(done))[id := ConnectionLost];
  }

  /** Registering a fresh id and taking it back leaves only the settlement. */
  lemma TakenBack(s: State, timer: bool)
    requires s.reqId + 1 !in s.pending && s.reqId + 1 !in s.timers
    ensures Settle(Registered(s, timer), s.reqId + 1, SendFailed)
         == s.(reqId := s.reqId + 1, settled := s.settled + multiset{s.reqId + 1},
               outcomes := s.outcomes[s.reqId + 1 := SendFailed])
  {
    var id := s.reqId + 1;
    assert (s.pending + {id}) - {id} == s.pending;
    assert (s.timers + {id}) - {id} == s.timers && s.timers - {id} == s.timers;
  }

  lemma NextIdIsFresh(s: State)
    requires Requests(s)
    ensures s.reqId + 1 !in s.pending && s.reqId + 1 !in s.timers
  {
    var id := s.reqId + 1;
    assert s.settled[id] + (if id in s.pending then 1 else 0) == 0;
  }

  class AcpClient {
    var reqId: nat
    var pending: set<nat>
    var timers: set<nat>
    var settled: multiset<nat>
    var outcomes: map<nat, Reason>
    var disconnected: bool
    var closing: bool
    var connection: Connection
    var ws: nat
    var sockets: seq<Socket>
    var reconnecting: Option<nat>
    var loops: seq<Loop>

    function View(): State
      reads this
    {
      State(reqId, pending, timers, settled, outcomes, disconnected, closing, connection,
            ws, sockets, reconnecting, loops)
    }

    /** `connect`: the first socket is open, and `initialize` goes out on it before anything else. */
    constructor ()
      ensures View() == START
    {
      reqId, pending, timers, settled, outcomes := 1, {1}, {1}, multiset{}, map[];
      disconnected, closing, connection := false, false, Connected;
      ws, sockets := 0, [Socket(Open, [InitializeFrame(1)])];
      reconnecting, loops := None, [];
    }

    method Send(f: Frame) returns (ok: bool)
      requires ws < |sockets|
      modifies this`sockets
      ensures ok == IsConnected(old(View()))
      ensures View() == if ok then Write(old(View()), f) else old(View())
    {
      if disconnected || !sockets[ws].ready.Open? {
        return false;
      }
      sockets := sockets[ws := sockets[ws].(frames := sockets[ws].frames + [f])];
      return true;
    }

    method Register(timer: bool) returns (id: nat)
      modifies this`reqId, this`pending, this`timers
      ensures id == old(reqId) + 1 && View() == Registered(old(View()), timer)
    {
      id := reqId + 1;
      reqId := id;
      pending := pending + {id};
      if timer {
        timers := timers + {id};
      }
    }

    /** Settles one pending request with an error. */
    method Reject(id: nat, reason: Reason)
      modifies this`pending, this`timers, this`settled, this`outcomes
      ensures View() == Settle(old(View()), id, reason)
    {
      timers := timers - {id};
      pending := pending - {id};
      settled, outcomes := settled + multiset{id}, outcomes[id := reason];
    }

    /** Registers a request under a fresh id and sends it; takes it back if sending fails. */
    method SendRequest(initialize: bool, timer: bool, encodes: bool)
      requires ws < |sockets| && reqId + 1 !in pending && reqId + 1 !in timers
      modifies this
      ensures View() == Issue(old(View()), initialize, timer, encodes)
    {
      TakenBack(View(), timer);
      var id := Register(timer);
      var ok := false;
      if encodes {
        ok := Send(if initialize then InitializeFrame(id) else RequestFrame(id));
      }
      if !ok {
        Reject(id, SendFailed);
      }
    }

    method RejectAllPending()
      modifies this`pending, this`timers, this`settled, this`outcomes
      ensures View() == RejectPending(old(View()))
    {
      ghost var before := View();
      RejectNone(before);
      while pending != {}
        invariant pending <= before.pending
        invariant View() == RejectExcept(before, pending)
        decreases pending
      {
        var id :| id in pending;
        RejectOne(before, pending, id);
        Reject(id, ConnectionLost);
      }
      RejectEvery(before);
    }

    method HandleResponse(sock: nat, id: nat, isError: bool)
      modifies this
      ensures View() == OnResponse(old(View()), sock, id, isError)
    {
      if sock != ws || id !in pending {
        return;
      }
      pending, timers := pending - {id}, timers - {id};
      settled, outcomes := settled + multiset{id}, outcomes[id := if isError then Refused else Answered];
    }

    method TimerFires(id: nat)
      requires id in timers
      modifies this
      ensures View() == OnTimeout(old(View()), id)
    {
      timers := timers - {id};
      pending := pending - {id};
      settled, outcomes := settled + multiset{id}, outcomes[id := TimedOut];
    }

    method StartAttempt(l: nat, loop: Loop)
      requires l < |loops|
      modifies this`loops, this`connection
      ensures View() == Attempt(old(View()), l, loop)
    {
      if loop.attempt <= MAX_ATTEMPTS && !closing {
        loops := loops[l := loop.(phase := Sleeping, slept := loop.slept + loop.delay)];
      } else {
        loops := loops[l := loop.(phase := Done)];
        connection := Disconnected;
      }
    }

    method RetryLater(l: nat)
      requires l < |loops|
      modifies this`loops, this`connection
      ensures View() == NextAttempt(old(View()), l)
    {
      StartAttempt(l, loops[l].(attempt := loops[l].attempt + 1, delay := NextDelay(loops[l].delay)));
    }

    method ReconnectOnce()
      requires ws < |sockets|
      modifies this`connection, this`loops, this`reconnecting
      ensures View() == Reconnect(old(View()))
    {
      if (!disconnected && sockets[ws].ready.Open?) || reconnecting.Some? {
        return;
      }
      connection := Connecting;
      var l, first := |loops|, Loop(Sleeping, 1, 250, 0, 0);
      loops := loops + [first];
      reconnecting := Some(l);
      StartAttempt(l, first);
    }

    method Disconnect()
      requires ws < |sockets|
      modifies this
      ensures View() == MarkDisconnected(old(View()))
    {
      if disconnected {
        return;
      }
      RejectAllPending();
      disconnected := true;
      connection := Connecting;
      ReconnectOnce();
    }

    method SocketClosed(sock: nat)
      requires ws < |sockets|
      modifies this
      ensures View() == OnClose(old(View()), sock)
    {
      if sock != ws {
        return;
      }
      if closing {
        RejectAllPending();
        return;
      }
      Disconnect();
    }

    method SocketErrs(sock: nat)
      requires ws < |sockets|
      modifies this
      ensures View() == OnError(old(View()), sock)
    {
      if sock != ws || closing {
        return;
      }
      Disconnect();
    }

    method Close()
      requires ws < |sockets|
      modifies this
      ensures View() == ShutDown(old(View()))
    {
      closing := true;
      connection := Disconnected;
      sockets := sockets[ws := sockets[ws].(ready := Later(sockets[ws].ready, Closing))];
      RejectAllPending();
    }

    method Adopt(ready: Ready)
      modifies this`ws, this`sockets, this`disconnected
      ensures View() == Adopted(old(View()), ready)
    {
      ws, sockets := |sockets|, sockets + [Socket(ready, [])];
      disconnected := false;
    }

    /** The loop's socket has opened: it takes over, and `initialize` is the first thing sent. */
    method TakeOver(l: nat, ready: Ready)
      requires l < |loops| && Requests(View())
      modifies this
      ensures View() == Replace(old(View()), l, ready)
    {
      Adopt(ready);
      if ready.Open? {
        NextIdIsFresh(old(View()));
        SendRequest(true, true, true);
        loops := loops[l := loops[l].(phase := Initializing(reqId))];
      } else {
        RetryLater(l);
      }
    }
  }
}
