/** The coalescing memory extractor of `memory_extractor.py`: at most one extraction runs, and
    requests that arrive meanwhile are folded into one trailing run on the latest snapshot.
*/
module MemoryExtractor {
  import opened Wrappers

  type Snapshot = seq<string>

  datatype TaskPhase = Running | Finished | Gone

  /** `tasks` are the extraction tasks created so far, `runs` the snapshots they were given, and
      `due` the non-empty snapshots that passed the throttle. */
  datatype State = State(
    inProgress: bool, turns: nat, stash: Option<Snapshot>,
    tasks: seq<TaskPhase>, runs: seq<Snapshot>, due: seq<Snapshot>)

  const IDLE := State(false, 0, None, [], [], [])

  /** The last `window` messages; a window of zero keeps everything, as the slice `[-0:]` does. */
  function Window(messages: seq<string>, window: nat): Snapshot {
    if |messages| > window && window > 0 then messages[|messages| - window..] else messages
  }

  function Create(s: State, snapshot: Snapshot): State {
    s.(inProgress := true, tasks := s.tasks + [Running], runs := s.runs + [snapshot])
  }

  function Spawn(s: State, snapshot: Snapshot): State {
    if snapshot == [] then s
    else if s.inProgress then s.(stash := Some(snapshot), due := s.due + [snapshot])
    else Create(s.(due := s.due + [snapshot]), snapshot)
  }

  datatype Event =
    | Trigger(messages: seq<string>, eligible: bool, interval: nat, window: nat)
    | TaskEnds(t: nat)
    | CallbacksRun(t: nat)

  function Triggered(s: State, messages: seq<string>, eligible: bool, interval: nat, window: nat): State {
    if !eligible then s
    else if s.turns + 1 < interval then s.(turns := s.turns + 1)
    else Spawn(s.(turns := 0), Window(messages, window))
  }

  /** The completion callback: start the trailing run if something was stashed. */
  function OnDone(s: State): State {
    var idle := s.(inProgress := false, stash := None);
    if s.stash.Some? && s.stash.value != [] then Create(idle, s.stash.value) else idle
  }

  function Step(s: State, e: Event): State {
    match e
    case Trigger(messages, eligible, interval, window) => Triggered(s, messages, eligible, interval, window)
    case TaskEnds(t) =>
      if t < |s.tasks| && s.tasks[t].Running? then s.(tasks := s.tasks[t := Finished]) else s
    case CallbacksRun(t) =>
      if t < |s.tasks| && s.tasks[t].Finished? then OnDone(s.(tasks := s.tasks[t := Gone])) else s
  }

  function Run(s: State, es: seq<Event>): State {
    if es == [] then s else Step(Run(s, es[..|es| - 1]), es[|es| - 1])
  }

  // ----- the invariant -----

  /** Only the newest task can still be in flight, and it is exactly while an extraction is marked
      as in progress. */
  ghost predicate OneTask(s: State) {
    && (forall t :: 0 <= t < |s.tasks| - 1 ==> s.tasks[t].Gone?)
    && (s.inProgress <==> s.tasks != [] && !s.tasks[|s.tasks| - 1].Gone?)
  }

  /** The latest snapshot due is stashed, or is the one the last run was given. */
  ghost predicate UpToDate(s: State) {
    if s.stash.Some? then s.inProgress && s.due != [] && s.stash.value == s.due[|s.due| - 1]
    else s.due != [] ==> s.runs != [] && s.runs[|s.runs| - 1] == s.due[|s.due| - 1]
  }

  ghost predicate Inv(s: State) {
    && OneTask(s) && UpToDate(s)
    && |s.tasks| == |s.runs|
    && |s.runs| + (if s.stash.Some? then 1 else 0) <= |s.due|
    && (forall i :: 0 <= i < |s.due| ==> s.due[i] != [])
  }

  lemma SpawnOk(s: State, snapshot: Snapshot)
    requires Inv(s)
    ensures Inv(Spawn(s, snapshot))
  {}

  lemma DoneOk(s: State, t: nat)
    requires Inv(s) && t < |s.tasks| && s.tasks[t].Finished?
    ensures Inv(OnDone(s.(tasks := s.tasks[t := Gone])))
  {
    assert t == |s.tasks| - 1;
  }

  lemma StepOk(s: State, e: Event)
    requires Inv(s)
    ensures Inv(Step(s, e))
  {
    match e {
      case Trigger(messages, eligible, interval, window) => SpawnOk(s.(turns := 0), Window(messages, window));
      case TaskEnds(t) =>
      case CallbacksRun(t) =>
        if t < |s.tasks| && s.tasks[t].Finished? {
          DoneOk(s, t);
        }
    }
  }

  /** The invariant holds over every interleaving of triggers, task ends and callbacks. */
  lemma {:induction false} EveryRun(es: seq<Event>)
    ensures Inv(Run(IDLE, es))
  {
    if es != [] {
      EveryRun(es[..|es| - 1]);
      StepOk(Run(IDLE, es[..|es| - 1]), es[|es| - 1]);
    }
  }

  /** So at every moment of every run at most one extraction is in flight, something is stashed only
      meanwhile, runs never outnumber due snapshots, and whenever nothing is in progress the last
      run used the latest due snapshot. */
  lemma Coalesces(es: seq<Event>, a: nat, b: nat)
    ensures var s := Run(IDLE, es);
            && (a < |s.tasks| && b < |s.tasks| && !s.tasks[a].Gone? && !s.tasks[b].Gone? ==> a == b)
            && (s.stash.Some? ==> s.inProgress)
            && |s.runs| <= |s.due|
            && (!s.inProgress && s.due != [] ==> s.runs != [] && s.runs[|s.runs| - 1] == s.due[|s.due| - 1])
  {
    EveryRun(es);
  }

  // ----- the trailing run -----

  /** The newest task ends and its callbacks run. */
  function Ended(s: State): State {
    if s.tasks == [] then s else Step(Step(s, TaskEnds(|s.tasks| - 1)), CallbacksRun(|s.tasks| - 1))
  }

  /** When the extraction in progress ends, what was stashed meanwhile is extracted next; if there is
      nothing, the extractor is idle. */
  lemma TrailingRun(s: State)
    requires Inv(s) && s.inProgress
    ensures var r := Ended(s);
            && r.stash.None? && r.due == s.due
            && if s.stash.Some? then r.inProgress && r.runs == s.runs + [s.stash.value]
               else !r.inProgress && r.runs == s.runs
  {}

  lemma EndedOk(s: State)
    requires Inv(s)
    ensures Inv(Ended(s))
  {
    hide Inv;
    if s.tasks != [] {
      StepOk(s, TaskEnds(|s.tasks| - 1));
      StepOk(Step(s, TaskEnds(|s.tasks| - 1)), CallbacksRun(|s.tasks| - 1));
    }
  }

  ghost predicate IsCaughtUp(s: State) {
    !s.inProgress && (s.due != [] ==> s.runs != [] && s.runs[|s.runs| - 1] == s.due[|s.due| - 1])
  }

  lemma IdleIsCaughtUp(s: State)
    requires Inv(s) && !s.inProgress
    ensures IsCaughtUp(s)
  {}

  /** At any moment of any run, two ends of tasks at most leave the extractor idle, with the latest of the
      snapshots due by then extracted. */
  lemma CatchesUp(es: seq<Event>)
    ensures var s := Run(IDLE, es);
            Ended(Ended(s)).due == s.due && IsCaughtUp(Ended(Ended(s)))
  {
    hide Inv, Ended, IsCaughtUp;
    var s := Run(IDLE, es);
    EveryRun(es);
    EndedOk(s);
    EndedOk(Ended(s));
    EndsInTwo(s);
    IdleIsCaughtUp(Ended(Ended(s)));
  }

  lemma IdleStays(s: State)
    requires Inv(s) && !s.inProgress
    ensures !Ended(s).inProgress && Ended(s).due == s.due
  {}

  lemma EndsInTwo(s: State)
    requires Inv(s) && Inv(Ended(s))
    ensures !Ended(Ended(s)).inProgress && Ended(Ended(s)).due == s.due
  {
    hide Inv, Ended;
    if !s.inProgress {
      IdleStays(s);
      IdleStays(Ended(s));
    } else {
      TrailingRun(s);
      if s.stash.Some? {
        TrailingRun(Ended(s));
      } else {
        IdleStays(Ended(s));
      }
    }
  }

  // ----- which snapshots are due -----

  /** A snapshot is the newest part of a conversation: all of it, or its last `window` messages. */
  lemma WindowIsNewest(messages: seq<string>, window: nat)
    ensures var r := Window(messages, window);
            && |r| == (if window == 0 || |messages| < window then |messages| else window)
            && r == messages[|messages| - |r|..]
  {}

  /** All triggers come with one interval and one window. */
  ghost predicate Uniform(es: seq<Event>, interval: nat, window: nat) {
    forall e :: e in es && e.Trigger? ==> e.interval == interval && e.window == window
  }

  /** Number of eligible triggers. */
  function Eligible(es: seq<Event>): nat {
    if es == [] then 0
    else Eligible(es[..|es| - 1]) + if es[|es| - 1].Trigger? && es[|es| - 1].eligible then 1 else 0
  }

  /** What is left of a count after taking away `n` as often as possible. */
  function Remainder(count: nat, n: nat): nat
    requires n > 0
  {
    if count < n then count else Remainder(count - n, n)
  }

  /** The snapshots of every n-th eligible trigger, but for empty ones. */
  function EveryNth(es: seq<Event>, n: nat, window: nat): seq<Snapshot>
    requires n > 0
  {
    if es == [] then []
    else
      var e := es[|es| - 1];
      EveryNth(es[..|es| - 1], n, window)
      + if e.Trigger? && e.eligible && Remainder(Eligible(es), n) == 0 && Window(e.messages, window) != []
        then [Window(e.messages, window)] else []
  }

  lemma {:induction false} NextRemainder(count: nat, n: nat)
    requires n > 0
    ensures Remainder(count + 1, n) == if Remainder(count, n) + 1 < n then Remainder(count, n) + 1 else 0
  {
    if count >= n {
      NextRemainder(count - n, n);
    }
  }

  lemma DueNext(s: State, e: Event)
    ensures Step(s, e).due == s.due + if e.Trigger? && e.eligible && s.turns + 1 >= e.interval
                                         && Window(e.messages, e.window) != []
                                      then [Window(e.messages, e.window)] else []
    ensures Step(s, e).turns == if !e.Trigger? || !e.eligible then s.turns
                                else if s.turns + 1 < e.interval then s.turns + 1 else 0
  {}

  /** The throttle lets through every n-th eligible trigger and no other, whatever tasks do meanwhile. */
  lemma {:induction false} DueIsEveryNth(es: seq<Event>, interval: nat, window: nat)
    requires Uniform(es, interval, window)
    ensures var n := if interval == 0 then 1 else interval;
            && Run(IDLE, es).turns == Remainder(Eligible(es), n)
            && Run(IDLE, es).due == EveryNth(es, n, window)
  {
    if es != [] {
      var front, e := es[..|es| - 1], es[|es| - 1];
      assert e in es && forall x :: x in front ==> x in es;
      DueIsEveryNth(front, interval, window);
      DueNext(Run(IDLE, front), e);
      NextRemainder(Eligible(front), if interval == 0 then 1 else interval);
    }
  }

  // ----- the extractor object -----

  class MemoryExtractor {
    const interval: nat
    const window: nat
    var inProgress: bool
    var turns: nat
    var stash: Option<Snapshot>
    var tasks: seq<TaskPhase>
    var runs: seq<Snapshot>
    var due: seq<Snapshot>

    function View(): State
      reads this
    {
      State(inProgress, turns, stash, tasks, runs, due)
    }

    constructor (interval: nat, window: nat)
      ensures View() == IDLE && this.interval == interval && this.window == window
    {
      this.interval, this.window := interval, window;
      inProgress, turns, stash, tasks, runs, due := false, 0, None, [], [], [];
    }

    method CreateTask(snapshot: Snapshot)
      modifies this`inProgress, this`tasks, this`runs
      ensures View() == Create(old(View()), snapshot)
    {
      inProgress := true;
      tasks := tasks + [Running];
      runs := runs + [snapshot];
    }

    /** `eligible` stands for the configuration, store, nesting depth and message-count gates. */
    method MaybeTrigger(messages: seq<string>, eligible: bool)
      modifies this
      ensures View() == Step(old(View()), Trigger(messages, eligible, interval, window))
    {
      if !eligible {
        return;
      }
      turns := turns + 1;
      if turns < interval {
        return;
      }
      turns := 0;
      var snapshot := Window(messages, window);
      if snapshot == [] {
        return;
      }
      due := due + [snapshot];
      if inProgress {
        stash := Some(snapshot);
        return;
      }
      CreateTask(snapshot);
    }

    method TaskDone(t: nat)
      requires t < |tasks| && tasks[t].Finished?
      modifies this
      ensures View() == Step(old(View()), CallbacksRun(t))
    {
      tasks := tasks[t := Gone];
      inProgress := false;
      var stashed := stash;
      stash := None;
      if stashed.Some? && stashed.value != [] {
        CreateTask(stashed.value);
      }
    }
  }
}
