/** The supervisor of `runtime.py`: three child processes, started in the order hub, access,
    primary, and restarted from the one that died.  Crashes may happen between any two of its
    actions; restarts exclude each other by a lock.
*/
module Supervisor {
  import opened Wrappers
  import RestartBudget

  const CHILDREN := 3

  /** A process instance: when it was started, and whether it still runs. */
  datatype Proc = Proc(stamp: nat, alive: bool)

  /** Where a restart stands: terminating, waiting for child `k` to exit, or about to start child
      `k`; with `k` equal to three, waiting for readiness. */
  datatype Pc = Terminating | Waiting(k: nat) | Starting(k: nat)

  datatype Job = Job(from: nat, pc: Pc)

  /** `job` is the holder of the restart lock.  `started` says that the initial start completed. */
  datatype State = State(children: seq<Option<Proc>>, clock: nat, job: Option<Job>, started: bool)

  /** Before anything runs: the initial start is a job that starts all three. */
  const INITIAL := State([None, None, None], 0, Some(Job(0, Starting(0))), false)

  datatype Event =
    | Crash(i: nat)
    | Acquire(i: nat)
    | TerminateSent
    | ChildExited
    | ChildStarted
    | Completed
    | Failed

  predicate Alive(s: State, i: nat) {
    i < |s.children| && s.children[i].Some? && s.children[i].value.alive
  }

  function Crashed(s: State, i: nat): State {
    if Alive(s, i) then s.(children := s.children[i := Some(s.children[i].value.(alive := false))]) else s
  }

  /** A restart from child `i` takes the lock if it is free. */
  function Acquired(s: State, i: nat): State {
    if s.started && s.job.None? && i < CHILDREN then s.(job := Some(Job(i, Terminating))) else s
  }

  function NextPc(s: State, pc: Pc): State
    requires s.job.Some?
  {
    s.(job := Some(s.job.value.(pc := pc)))
  }

  /** Waiting for a child ends only when it does not run; after the last one, starting begins. */
  function Exited(s: State): State {
    if s.job.Some? && s.job.value.pc.Waiting? && !Alive(s, s.job.value.pc.k) then
      var k := s.job.value.pc.k;
      NextPc(s, if k + 1 < CHILDREN then Waiting(k + 1) else Starting(s.job.value.from))
    else s
  }

  function Started(s: State): State {
    if s.job.Some? && s.job.value.pc.Starting? && s.job.value.pc.k < |s.children| then
      var k := s.job.value.pc.k;
      NextPc(s.(children := s.children[k := Some(Proc(s.clock, true))], clock := s.clock + 1), Starting(k + 1))
    else s
  }

  function Step(s: State, e: Event): State {
    match e
    case Crash(i) => Crashed(s, i)
    case Acquire(i) => Acquired(s, i)
    case TerminateSent =>
      if s.job.Some? && s.job.value.pc.Terminating? then NextPc(s, Waiting(s.job.value.from)) else s
    case ChildExited => Exited(s)
    case ChildStarted => Started(s)
    case Completed =>
      if s.job.Some? && s.job.value.pc == Starting(CHILDREN) then s.(job := None, started := true) else s
    case Failed => s.(job := None)
  }

  function Run(s: State, es: seq<Event>): State {
    if es == [] then s else Step(Run(s, es[..|es| - 1]), es[|es| - 1])
  }

  // ----- ordering -----

  /** A running child was started after the current instance of every child before it. */
  ghost predicate Ordered(s: State) {
    forall a, b :: 0 <= a < b < |s.children| && Alive(s, b) ==>
      s.children[a].Some? && s.children[a].value.stamp < s.children[b].value.stamp
  }

  /** What the lock holder may rely on at its next action. */
  ghost predicate JobOk(s: State)
    requires |s.children| == CHILDREN
  {
    s.job.Some? ==>
      var from, pc := s.job.value.from, s.job.value.pc;
      && from < CHILDREN
      && (pc.Waiting? ==> from <= pc.k < CHILDREN && forall j :: from <= j < pc.k ==> !Alive(s, j))
      && (pc.Starting? ==>
            && from <= pc.k <= CHILDREN
            && (forall j :: pc.k <= j < CHILDREN ==> !Alive(s, j))
            && (forall j :: 0 <= j < pc.k ==> s.children[j].Some?))
  }

  ghost predicate Inv(s: State) {
    && |s.children| == CHILDREN
    && (forall i :: 0 <= i < CHILDREN && s.children[i].Some? ==> s.children[i].value.stamp < s.clock)
    && (s.started ==> forall i :: 0 <= i < CHILDREN ==> s.children[i].Some?)
    && (!s.started && s.job.Some? ==> s.job.value.pc.Starting?)
    && Ordered(s) && JobOk(s)
  }

  lemma StartedOk(s: State)
    requires Inv(s)
    ensures Inv(Started(s))
  {
    if s.job.Some? && s.job.value.pc.Starting? && s.job.value.pc.k < CHILDREN {
      var k, r := s.job.value.pc.k, Started(s);
      assert r.children[k] == Some(Proc(s.clock, true));
      assert forall j :: 0 <= j < CHILDREN && j != k ==> r.children[j] == s.children[j];
      assert forall j: nat :: j != k ==> (Alive(r, j) <==> Alive(s, j));
    }
  }

  lemma CrashedOk(s: State, i: nat)
    requires Inv(s)
    ensures Inv(Crashed(s, i))
  {
    var r := Crashed(s, i);
    assert forall j: nat :: Alive(r, j) ==> Alive(s, j);
  }

  lemma ExitedOk(s: State)
    requires Inv(s)
    ensures Inv(Exited(s))
  {
    var r := Exited(s);
    assert forall j: nat :: Alive(r, j) <==> Alive(s, j);
  }

  lemma OtherStepsOk(s: State, e: Event)
    requires Inv(s) && (e.Acquire? || e.TerminateSent? || e.Completed? || e.Failed?)
    ensures Inv(Step(s, e))
  {
    var r := Step(s, e);
    assert forall j: nat :: Alive(r, j) <==> Alive(s, j);
  }

  /** Over every interleaving of crashes, restarts and restarts that fail midway, each running child
      was started after the current instance of every child before it. */
  lemma {:induction false} EveryRunIsOrdered(es: seq<Event>)
    ensures Inv(Run(INITIAL, es))
  {
    if es != [] {
      EveryRunIsOrdered(es[..|es| - 1]);
      StepOk(Run(INITIAL, es[..|es| - 1]), es[|es| - 1]);
    }
  }

  lemma StepOk(s: State, e: Event)
    requires Inv(s)
    ensures Inv(Step(s, e))
    ensures e.Crash? ==> !Alive(Step(s, e), e.i)
    ensures e.Completed? && Step(s, e) != s ==> Step(s, e).started && Step(s, e).job.None?
  {
    match e {
      case Crash(i) => CrashedOk(s, i);
      case ChildExited => ExitedOk(s);
      case ChildStarted => StartedOk(s);
      case _ => OtherStepsOk(s, e);
    }
  }

  // ----- healing -----

  /** The monitor's choice: the first child in start order that is not running. */
  ghost predicate EarliestDead(s: State, i: nat) {
    i < CHILDREN && !Alive(s, i) && forall a :: 0 <= a < i ==> Alive(s, a)
  }

  /** What the monitor saw when it polled one child: whether the child had exited, and, if so, whether
      the restart lock was held. */
  datatype Poll = Poll(exited: bool, locked: bool)

  predicate IsPicked(p: Poll) {
    p.exited && !p.locked
  }

  /** Polls the children in start order, passes over those found dead while the lock is held, and stops
      at the earliest one found dead while it is free. */
  method PickDeadChild(polls: seq<Poll>) returns (i: nat)
    requires |polls| == CHILDREN
    ensures i <= CHILDREN && (i < CHILDREN ==> IsPicked(polls[i]))
    ensures forall a :: 0 <= a < i ==> !IsPicked(polls[a])
  {
    i := 0;
    while i < CHILDREN
      invariant 0 <= i <= CHILDREN
      invariant forall a :: 0 <= a < i ==> !IsPicked(polls[a])
    {
      if polls[i].exited {
        if !polls[i].locked {
          return;
        }
      }
      i := i + 1;
    }
  }

  /** What the polls saw of a state that did not change meanwhile. */
  ghost predicate Seen(s: State, polls: seq<Poll>) {
    |polls| == CHILDREN && forall a :: 0 <= a < CHILDREN ==> polls[a].exited == !Alive(s, a)
  }

  /** The child picked is the earliest dead one exactly if no child before it was passed over because of
      the lock. */
  lemma PickedIsEarliestIff(s: State, polls: seq<Poll>, i: nat)
    requires Seen(s, polls) && i < CHILDREN && IsPicked(polls[i]) && forall a :: 0 <= a < i ==> !IsPicked(polls[a])
    ensures EarliestDead(s, i) <==> forall a :: 0 <= a < i ==> !(polls[a].exited && polls[a].locked)
  {
    if EarliestDead(s, i) {
      forall a | 0 <= a < i
        ensures !(polls[a].exited && polls[a].locked)
      {
        assert Alive(s, a);
      }
    }
  }

  /** A restart in progress that will leave every child running unless something else dies. */
  ghost predicate Healing(s: State) {
    && Inv(s) && s.job.Some?
    && (forall a :: 0 <= a < s.job.value.from ==> Alive(s, a))
    && (s.job.value.pc.Starting? ==> forall a :: 0 <= a < s.job.value.pc.k ==> Alive(s, a))
  }

  /** The only processes that die are the ones the restart itself brings down, before it starts any. */
  ghost predicate NoFurtherCrash(s: State, e: Event) {
    && !e.Failed?
    && (e.Crash? ==> s.job.Some? && e.i >= s.job.value.from && !s.job.value.pc.Starting?)
  }

  lemma HealingStep(s: State, e: Event)
    requires Healing(s) && NoFurtherCrash(s, e)
    ensures Healing(Step(s, e)) || (e.Completed? && forall i :: 0 <= i < CHILDREN ==> Alive(Step(s, e), i))
  {
    StepOk(s, e);
    var r := Step(s, e);
    if e.ChildStarted? {
      assert forall a: nat :: a < CHILDREN && Alive(s, a) ==> Alive(r, a);
    } else if !e.Crash? {
      assert forall a: nat :: Alive(r, a) <==> Alive(s, a);
    } else {
      assert forall a: nat :: a != e.i ==> (Alive(r, a) <==> Alive(s, a));
    }
  }

  ghost predicate Undisturbed(s: State, es: seq<Event>) {
    es == [] ||
    (Undisturbed(s, es[..|es| - 1]) && NoFurtherCrash(Run(s, es[..|es| - 1]), es[|es| - 1])
     && Run(s, es[..|es| - 1]).job.Some?)
  }

  /** A restart from the earliest dead child that runs to completion with no further crash leaves all
      three children running. */
  lemma {:induction false} CompletedRestartHeals(s: State, i: nat, es: seq<Event>)
    requires Inv(s) && s.started && s.job.None? && EarliestDead(s, i)
    requires Undisturbed(Acquired(s, i), es)
    ensures var r := Run(Acquired(s, i), es);
            if r.job.Some? then Healing(r) else forall a :: 0 <= a < CHILDREN ==> Alive(r, a)
    decreases |es|
  {
    var start := Acquired(s, i);
    if es == [] {
      StepOk(s, Acquire(i));
      assert forall a: nat :: Alive(start, a) <==> Alive(s, a);
    } else {
      var front := es[..|es| - 1];
      CompletedRestartHeals(s, i, front);
      HealingStep(Run(start, front), es[|es| - 1]);
    }
  }

  // ----- what a restart replaces -----

  /** The same process, running or not. */
  predicate SameInstance(a: Option<Proc>, b: Option<Proc>) {
    if a.None? || b.None? then a.None? && b.None? else a.value.stamp == b.value.stamp
  }

  /** Nothing below `i` is another process than in `s0`, and all from `i` up to `k` are newer. */
  ghost predicate Replaced(s0: State, i: nat, k: nat, s: State) {
    && |s0.children| == CHILDREN && |s.children| == CHILDREN && s0.clock <= s.clock
    && (forall a :: 0 <= a < i && a < CHILDREN ==> SameInstance(s0.children[a], s.children[a]))
    && (forall a :: i <= a < k && a < CHILDREN ==> s.children[a].Some? && s0.clock <= s.children[a].value.stamp)
  }

  ghost predicate RestartsFrom(s0: State, i: nat, s: State) {
    && s.job.Some? && s.job.value.from == i && (s.job.value.pc.Starting? ==> i <= s.job.value.pc.k)
    && Replaced(s0, i, if s.job.value.pc.Starting? then s.job.value.pc.k else i, s)
  }

  lemma RestartStep(s0: State, i: nat, s: State, e: Event)
    requires RestartsFrom(s0, i, s)
    ensures if Step(s, e).job.Some? then RestartsFrom(s0, i, Step(s, e))
            else Replaced(s0, i, if e.Completed? then CHILDREN else i, Step(s, e))
  {}

  /** The lock is held up to the last event. */
  ghost predicate Held(s: State, es: seq<Event>) {
    es == [] || (Held(s, es[..|es| - 1]) && Run(s, es[..|es| - 1]).job.Some?)
  }

  /** Whatever crashes meanwhile, a restart from child `i` leaves the children before it the processes they
      were; when it has completed, child `i` and all behind it are new ones. */
  lemma {:induction false} RestartReplacesFrom(s: State, i: nat, es: seq<Event>)
    requires Inv(s) && s.started && s.job.None? && i < CHILDREN && Held(Acquired(s, i), es)
    ensures var r := Run(Acquired(s, i), es);
            if r.job.Some? then RestartsFrom(s, i, r)
            else Replaced(s, i, if es[|es| - 1].Completed? then CHILDREN else i, r)
    decreases |es|
  {
    if es != [] {
      RestartReplacesFrom(s, i, es[..|es| - 1]);
      RestartStep(s, i, Run(Acquired(s, i), es[..|es| - 1]), es[|es| - 1]);
    }
  }

  // ----- the runtime object -----

  /** What the world does during one restart: which children die before the n-th action, whether a
      child that was told to terminate exits in time, and whether a start, or the readiness wait that
      follows it, succeeds. */
  datatype World = World(dying: nat -> seq<nat>, exits: nat -> bool, starts: nat -> bool)

  /** Nobody dies unasked. */
  ghost predicate Quiet(w: World) {
    forall n :: w.dying(n) == []
  }

  lemma RunSnoc(s: State, es: seq<Event>, e: Event)
    ensures Run(s, es + [e]) == Step(Run(s, es), e)
  {
    assert (es + [e])[..|es|] == es;
  }

  /** What a restart keeps at every point: what it has done is a run of the supervisor's steps, and if
      it began at the earliest dead child and nobody died unasked, it heals. */
  ghost predicate OnTrack(s0: State, heals: bool, es: seq<Event>, s: State) {
    s == Run(s0, es) && Inv(s) && s.job.Some? && (heals ==> Healing(s))
  }

  lemma BeginTrack(s0: State, i: nat, heals: bool)
    requires Inv(s0) && s0.started && s0.job.None? && i < CHILDREN && (heals ==> EarliestDead(s0, i))
    ensures OnTrack(s0, heals, [Acquire(i)], Acquired(s0, i))
  {
    var s := Acquired(s0, i);
    RunSnoc(s0, [], Acquire(i));
    assert [] + [Acquire(i)] == [Acquire(i)];
    StepOk(s0, Acquire(i));
    assert forall a: nat :: Alive(s, a) <==> Alive(s0, a);
  }

  lemma EndTrack(s0: State, heals: bool, es: seq<Event>, s: State, e: Event)
    requires OnTrack(s0, heals, es, s) && s.started
    requires e.Failed? || (e.Completed? && s.job.value.pc == Starting(CHILDREN))
    ensures s.(job := None) == Run(s0, es + [e]) && Inv(s.(job := None))
    ensures e.Completed? && heals ==> forall a :: 0 <= a < CHILDREN ==> Alive(s.(job := None), a)
  {
    RunSnoc(s0, es, e);
    StepOk(s, e);
    assert forall a: nat :: Alive(s.(job := None), a) <==> Alive(s, a);
  }

  lemma StayOnTrack(s0: State, heals: bool, es: seq<Event>, s: State, e: Event)
    requires OnTrack(s0, heals, es, s) && !e.Completed? && !e.Failed? && (heals ==> NoFurtherCrash(s, e))
    ensures OnTrack(s0, heals, es + [e], Step(s, e))
  {
    RunSnoc(s0, es, e);
    StepOk(s, e);
    if heals {
      HealingStep(s, e);
    }
  }

  datatype Status = Booting | Ready | Restarting | Degraded

  class SupervisorRuntime {
    var children: seq<Option<Proc>>
    var clock: nat
    var job: Option<Job>
    var started: bool
    var status: Status
    var restartCounts: map<nat, nat>
    const budget: RestartBudget.RestartBudget

    function View(): State
      reads this
    {
      State(children, clock, job, started)
    }

    constructor ()
      ensures View() == INITIAL && status == Booting && fresh(budget) && budget.attempts == []
      ensures restartCounts == map[]
    {
      children, clock, job, started := [None, None, None], 0, Some(Job(0, Starting(0))), false;
      status, restartCounts := Booting, map[];
      budget := new RestartBudget.RestartBudget();
    }

    /** A dead child asks the budget for a restart; without a grant the runtime is degraded and no
        process is touched. */
    method HandleChildExit(i: nat, now: real) returns (restart: bool)
      modifies this`status, this`restartCounts, budget
      ensures View() == old(View())
      ensures restart == (|RestartBudget.Recent(old(budget.attempts), RestartBudget.Earliest(now))|
                          < RestartBudget.MAX_ATTEMPTS)
      ensures budget.attempts == RestartBudget.Pruned(old(budget.attempts), now)
      ensures status == if restart then Restarting else Degraded
      ensures restartCounts == if !restart then old(restartCounts)
                               else if i in old(restartCounts) then old(restartCounts)[i := old(restartCounts)[i] + 1]
                               else old(restartCounts)[i := 1]
    {
      restart := budget.Consume(now);
      if !restart {
        status := Degraded;
        return;
      }
      status := Restarting;
      restartCounts := restartCounts[i := Count(restartCounts, i) + 1];
    }

    /** Children die, one after the other. */
    method Die(victims: seq<nat>, ghost s0: State, ghost heals: bool, ghost es: seq<Event>)
      returns (ghost es': seq<Event>)
      requires OnTrack(s0, heals, es, View()) && (heals ==> victims == [])
      modifies this`children
      ensures OnTrack(s0, heals, es', View())
    {
      es' := es;
      for n := 0 to |victims|
        invariant OnTrack(s0, heals, es', View())
      {
        StayOnTrack(s0, heals, es', View(), Crash(victims[n]));
        es' := es' + [Crash(victims[n])];
        if Alive(View(), victims[n]) {
          children := children[victims[n] := Some(children[victims[n]].value.(alive := false))];
        }
      }
    }

    /** Waits for child `k` to exit; killing it is the last resort, and may fail, too. */
    method AwaitExit(k: nat, w: World, ghost s0: State, ghost heals: bool, ghost es: seq<Event>)
      returns (ok: bool, ghost es': seq<Event>)
      requires OnTrack(s0, heals, es, View()) && job.value.pc == Waiting(k) && (heals ==> k >= job.value.from)
      modifies this`children, this`job
      ensures OnTrack(s0, heals, es', View()) && job.value.from == old(job).value.from
      ensures ok ==> job.value.pc == if k + 1 < CHILDREN then Waiting(k + 1) else Starting(job.value.from)
    {
      es' := es;
      if Alive(View(), k) {
        if !w.exits(k) {
          return false, es';
        }
        StayOnTrack(s0, heals, es', View(), Crash(k));
        es' := es' + [Crash(k)];
        children := children[k := Some(children[k].value.(alive := false))];
      }
      StayOnTrack(s0, heals, es', View(), ChildExited);
      es' := es' + [ChildExited];
      job := Some(job.value.(pc := if k + 1 < CHILDREN then Waiting(k + 1) else Starting(job.value.from)));
      return true, es';
    }

    method StartChild(k: nat, ghost s0: State, ghost heals: bool, ghost es: seq<Event>) returns (ghost es': seq<Event>)
      requires OnTrack(s0, heals, es, View()) && job.value.pc == Starting(k) && k < CHILDREN
      modifies this`children, this`clock, this`job
      ensures OnTrack(s0, heals, es', View())
      ensures job == Some(Job(old(job).value.from, Starting(k + 1)))
    {
      StayOnTrack(s0, heals, es, View(), ChildStarted);
      es' := es + [ChildStarted];
      children := children[k := Some(Proc(clock, true))];
      clock := clock + 1;
      job := Some(job.value.(pc := Starting(k + 1)));
    }

    /** Terminates child `i` and those behind it, and waits until none of them runs. */
    method StopFrom(i: nat, w: World, ghost s0: State, ghost heals: bool, ghost es: seq<Event>)
      returns (ok: bool, ghost es': seq<Event>)
      requires OnTrack(s0, heals, es, View()) && job == Some(Job(i, Terminating))
      requires i < CHILDREN && (heals ==> Quiet(w))
      modifies this`children, this`job
      ensures OnTrack(s0, heals, es', View()) && (ok ==> job == Some(Job(i, Starting(i))))
    {
      StayOnTrack(s0, heals, es, View(), TerminateSent);
      es' := es + [TerminateSent];
      job := Some(Job(i, Waiting(i)));
      for k := i to CHILDREN
        invariant OnTrack(s0, heals, es', View())
        invariant job == Some(Job(i, if k < CHILDREN then Waiting(k) else Starting(i)))
      {
        es' := Die(w.dying(k), s0, heals, es');
        ok, es' := AwaitExit(k, w, s0, heals, es');
        if !ok {
          return;
        }
      }
      ok := true;
    }

    /** Starts child `i` and those behind it, in order. */
    method StartFrom(i: nat, w: World, ghost s0: State, ghost heals: bool, ghost es: seq<Event>)
      returns (ok: bool, ghost es': seq<Event>)
      requires OnTrack(s0, heals, es, View()) && job == Some(Job(i, Starting(i)))
      requires i < CHILDREN && (heals ==> Quiet(w))
      modifies this`children, this`clock, this`job
      ensures OnTrack(s0, heals, es', View()) && (ok ==> job == Some(Job(i, Starting(CHILDREN))))
    {
      es' := es;
      for k := i to CHILDREN
        invariant OnTrack(s0, heals, es', View())
        invariant job == Some(Job(i, Starting(k)))
      {
        es' := Die(w.dying(CHILDREN + k), s0, heals, es');
        es' := StartChild(k, s0, heals, es');
        if !w.starts(k) {
          return false, es';
        }
      }
      ok := true;
    }

    /** A whole restart from child `i` under the lock, in whatever world: all it does is a run of the
        supervisor's steps, so the start order holds after it; and if it began at the earliest dead
        child, nobody died unasked and nothing failed, all three children run. */
    method RestartFromLocked(i: nat, w: World) returns (ok: bool, ghost es: seq<Event>)
      requires Inv(View()) && started && job.None? && i < CHILDREN
      modifies this
      ensures View() == Run(old(View()), es) && Inv(View()) && job.None? && started
      ensures ok ==> status == Ready
      ensures ok && EarliestDead(old(View()), i) && Quiet(w) ==> forall a :: 0 <= a < CHILDREN ==> Alive(View(), a)
    {
      ghost var s0 := View();
      ghost var heals := EarliestDead(s0, i) && Quiet(w);
      es := [Acquire(i)];
      BeginTrack(s0, i, heals);
      job := Some(Job(i, Terminating));
      ok, es := StopFrom(i, w, s0, heals, es);
      if ok {
        ok, es := StartFrom(i, w, s0, heals, es);
      }
      ghost var e := if ok then Completed else Failed;
      EndTrack(s0, heals, es, View(), e);
      es := es + [e];
      job := None;
      if ok {
        status := Ready;
      }
    }
  }

  function Count(counts: map<nat, nat>, i: nat): nat {
    if i in counts then counts[i] else 0
  }
}
