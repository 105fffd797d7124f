/** The request-scoped query-vector cache: one provider call per key at a time.

    Everything that can happen to a scope is an event, in any order the scheduler likes.  An
    event that is not possible in a state leaves it as it is. */
module SingleFlight {
  import opened Wrappers

  type Key = seq<string>
  type Vectors = seq<seq<real>>

  datatype Outcome = Success(vectors: Vectors) | Failure | Cancelled

  /** A provider call; `notified` once its done-callback has run. */
  datatype Task = Task(key: Key, outcome: Option<Outcome>, notified: bool)

  datatype Slot = Owned(task: nat) | Ready(vectors: Vectors)

  /** A caller of `_embed_query`; cancelling it never touches the shielded task. */
  datatype Waiter = Waiting(key: Key, task: nat) | Got(key: Key, vectors: Vectors) | Raised(key: Key) | Abandoned(key: Key)

  /** `Exiting` remembers the tasks it awaits, at least one, and how many tasks there were when
      it began; `Closed`, whether the cache was cleared on the way out. */
  datatype Phase = Open | Exiting(live: set<nat>, started: nat) | Closed(started: nat, cleared: bool)

  datatype State = State(tasks: seq<Task>, cache: map<Key, Slot>, waiters: seq<Waiter>, phase: Phase)

  datatype Event =
    | Call(key: Key)
    | Finish(task: nat, outcome: Outcome)
    | Callback(task: nat)
    | Deliver(waiter: nat)
    | CancelWaiter(waiter: nat)
    | BeginExit
    | EndExit
    | CancelledExit

  const EMPTY := State([], map[], [], Open)

  function AfterCall(s: State, key: Key): State {
    if key in s.cache then
      match s.cache[key]
      case Ready(vectors) => s.(waiters := s.waiters + [Got(key, vectors)])
      case Owned(t) => s.(waiters := s.waiters + [Waiting(key, t)])
    else
      s.(tasks := s.tasks + [Task(key, None, false)],
         cache := s.cache[key := Owned(|s.tasks|)],
         waiters := s.waiters + [Waiting(key, |s.tasks|)])
  }

  /** The done-callback publishes a success and evicts anything else, if it still owns the slot. */
  function AfterCallback(s: State, t: nat): State
    requires t < |s.tasks| && s.tasks[t].outcome.Some?
  {
    var task := s.tasks[t];
    var cache :=
      if task.key in s.cache && s.cache[task.key] == Owned(t) then
        match task.outcome.value
        case Success(vectors) => s.cache[task.key := Ready(vectors)]
        case _ => s.cache - {task.key}
      else s.cache;
    s.(tasks := s.tasks[t := task.(notified := true)], cache := cache)
  }

  function Received(w: Waiter, o: Outcome): Waiter {
    match o
    case Success(vectors) => Got(w.key, vectors)
    case _ => Raised(w.key)
  }

  function LiveTasks(s: State): set<nat> {
    set key | key in s.cache && s.cache[key].Owned? :: s.cache[key].task
  }

  /** With no task to await the exit does not suspend, and clears the cache at once. */
  function AfterBeginExit(s: State): State {
    if LiveTasks(s) == {} then s.(cache := map[], phase := Closed(|s.tasks|, true))
    else s.(phase := Exiting(LiveTasks(s), |s.tasks|))
  }

  predicate IsDone(s: State, t: nat) { t < |s.tasks| && s.tasks[t].outcome.Some? }

  function Next(s: State, e: Event): State {
    match e
    case Call(key) => if s.phase.Closed? then s else AfterCall(s, key)
    case Finish(t, o) =>
      if t < |s.tasks| && s.tasks[t].outcome.None? then s.(tasks := s.tasks[t := s.tasks[t].(outcome := Some(o))]) else s
    case Callback(t) => if IsDone(s, t) && !s.tasks[t].notified then AfterCallback(s, t) else s
    case Deliver(w) =>
      if w < |s.waiters| && s.waiters[w].Waiting? && IsDone(s, s.waiters[w].task)
      then s.(waiters := s.waiters[w := Received(s.waiters[w], s.tasks[s.waiters[w].task].outcome.value)]) else s
    case CancelWaiter(w) =>
      if w < |s.waiters| && s.waiters[w].Waiting?
      then s.(waiters := s.waiters[w := Abandoned(s.waiters[w].key)]) else s
    case BeginExit => if s.phase.Open? then AfterBeginExit(s) else s
    case EndExit =>
      if s.phase.Exiting? && forall t :: t in s.phase.live ==> IsDone(s, t)
      then s.(cache := map[], phase := Closed(s.phase.started, true)) else s
    // whoever leaves the scope was cancelled meanwhile: raised once the awaited tasks have
    // settled, and past the clearing of the cache
    case CancelledExit =>
      if s.phase.Exiting? && forall t :: t in s.phase.live ==> IsDone(s, t)
      then s.(phase := Closed(s.phase.started, false)) else s
  }

  function Run(s: State, events: seq<Event>): State {
    if events == [] then s else Next(Run(s, events[..|events| - 1]), events[|events| - 1])
  }

  // ----- what holds in every state

  ghost predicate Answers(s: State, key: Key, vectors: Vectors) {
    exists t :: 0 <= t < |s.tasks| && s.tasks[t].key == key && s.tasks[t].outcome == Some(Success(vectors))
  }

  predicate Failed(task: Task) { task.outcome.Some? && !task.outcome.value.Success? }

  /** A call for the key failed or was cancelled. */
  ghost predicate FailedFor(s: State, key: Key) { exists t :: 0 <= t < |s.tasks| && s.tasks[t].key == key && Failed(s.tasks[t]) }

  /** A call that is under way, waits for its callback, or succeeded holds its key's slot. */
  predicate HoldsSlot(s: State, t: nat)
    requires t < |s.tasks|
  {
    var task := s.tasks[t];
    && task.key in s.cache
    && if task.notified then task.outcome.Some? && task.outcome.value.Success? && s.cache[task.key] == Ready(task.outcome.value.vectors)
       else s.cache[task.key] == Owned(t)
  }

  ghost predicate SlotOk(s: State, key: Key)
    requires key in s.cache
  {
    match s.cache[key]
    case Owned(t) => t < |s.tasks| && s.tasks[t].key == key && !s.tasks[t].notified
    case Ready(vectors) => Answers(s, key, vectors)
  }

  ghost predicate WaiterOk(s: State, w: Waiter) {
    match w
    case Waiting(key, t) => t < |s.tasks| && s.tasks[t].key == key
    case Got(key, vectors) => Answers(s, key, vectors)
    case Raised(key) => FailedFor(s, key)
    case Abandoned(_) => true
  }

  predicate IsCleared(s: State) { s.phase.Closed? && s.phase.cleared }

  ghost predicate Invariant(s: State) {
    && (forall t :: 0 <= t < |s.tasks| && s.tasks[t].notified ==> s.tasks[t].outcome.Some?)
    && (!IsCleared(s) ==> forall t :: 0 <= t < |s.tasks| && !(Failed(s.tasks[t]) && s.tasks[t].notified) ==> HoldsSlot(s, t))
    && (IsCleared(s) ==> s.cache == map[])
    && (forall key :: key in s.cache ==> SlotOk(s, key))
    && (forall i :: 0 <= i < |s.waiters| ==> WaiterOk(s, s.waiters[i]))
    && (s.phase.Exiting? ==> s.phase.started <= |s.tasks| && forall t :: 0 <= t < s.phase.started && s.tasks[t].outcome.None? ==> t in s.phase.live)
    && (s.phase.Closed? ==> s.phase.started <= |s.tasks| && forall t :: 0 <= t < s.phase.started ==> s.tasks[t].outcome.Some?)
    && OneAtATime(s)
  }

  /** Of two calls for one key, at least one has failed. */
  predicate OneAtATime(s: State) {
    forall t, u :: 0 <= t < u < |s.tasks| && s.tasks[t].key == s.tasks[u].key ==> Failed(s.tasks[t]) || Failed(s.tasks[u])
  }

  lemma HitKeeps(s: State, key: Key)
    requires Invariant(s) && !s.phase.Closed? && key in s.cache
    ensures Invariant(AfterCall(s, key))
  {
    var r := AfterCall(s, key);
    AnswersStay(s, r);
    assert SlotOk(s, key);
    forall k | k in r.cache ensures SlotOk(r, k) { assert SlotOk(s, k); }
    forall t | 0 <= t < |r.tasks| && !(Failed(r.tasks[t]) && r.tasks[t].notified) ensures HoldsSlot(r, t) { assert HoldsSlot(s, t); }
    forall i | 0 <= i < |r.waiters| ensures WaiterOk(r, r.waiters[i]) {
      if i < |s.waiters| { assert WaiterOk(s, s.waiters[i]); }
    }
  }

  lemma MissKeepsSlots(s: State, key: Key)
    requires Invariant(s) && !s.phase.Closed? && key !in s.cache
    ensures var r := AfterCall(s, key);
      && (forall k :: k in r.cache ==> SlotOk(r, k))
      && (forall t :: 0 <= t < |r.tasks| && !(Failed(r.tasks[t]) && r.tasks[t].notified) ==> HoldsSlot(r, t))
  {
    var r := AfterCall(s, key);
    AnswersStay(s, r);
    forall k | k in r.cache ensures SlotOk(r, k) { assert k != key ==> SlotOk(s, k); }
    forall t | 0 <= t < |r.tasks| && !(Failed(r.tasks[t]) && r.tasks[t].notified) ensures HoldsSlot(r, t) {
      assert t < |s.tasks| ==> HoldsSlot(s, t);
    }
  }

  lemma MissKeepsOthers(s: State, key: Key)
    requires Invariant(s) && !s.phase.Closed? && key !in s.cache
    ensures var r := AfterCall(s, key);
      OneAtATime(r) && forall i :: 0 <= i < |r.waiters| ==> WaiterOk(r, r.waiters[i])
  {
    var r := AfterCall(s, key);
    AnswersStay(s, r);
    forall t | 0 <= t < |s.tasks| && s.tasks[t].key == key ensures Failed(s.tasks[t]) { assert !HoldsSlot(s, t); }
    forall i | 0 <= i < |r.waiters| ensures WaiterOk(r, r.waiters[i]) {
      if i < |s.waiters| { assert WaiterOk(s, s.waiters[i]); }
    }
  }

  lemma MissKeeps(s: State, key: Key)
    requires Invariant(s) && !s.phase.Closed? && key !in s.cache
    ensures Invariant(AfterCall(s, key))
  {
    MissKeepsSlots(s, key);
    MissKeepsOthers(s, key);
  }

  /** A successful call stays one, and so does a failed one. */
  lemma AnswersStay(s: State, r: State)
    requires |s.tasks| <= |r.tasks|
    requires forall t :: 0 <= t < |s.tasks| && s.tasks[t].outcome.Some? ==>
               r.tasks[t].key == s.tasks[t].key && r.tasks[t].outcome == s.tasks[t].outcome
    ensures forall key, vectors :: Answers(s, key, vectors) ==> Answers(r, key, vectors)
    ensures forall key :: FailedFor(s, key) ==> FailedFor(r, key)
  {
    forall key | FailedFor(s, key) ensures FailedFor(r, key) {
      var t :| 0 <= t < |s.tasks| && s.tasks[t].key == key && Failed(s.tasks[t]);
      assert r.tasks[t].key == key && Failed(r.tasks[t]);
    }
    forall key, vectors | Answers(s, key, vectors) ensures Answers(r, key, vectors) {
      var t :| 0 <= t < |s.tasks| && s.tasks[t].key == key && s.tasks[t].outcome == Some(Success(vectors));
      assert r.tasks[t].key == key;
    }
  }

  lemma FinishKeeps(s: State, t: nat, o: Outcome)
    requires Invariant(s) && t < |s.tasks| && s.tasks[t].outcome.None?
    ensures Invariant(Next(s, Finish(t, o)))
  {
    var r := Next(s, Finish(t, o));
    AnswersStay(s, r);
    forall k | k in r.cache ensures SlotOk(r, k) { assert SlotOk(s, k); }
    forall i | 0 <= i < |r.waiters| ensures WaiterOk(r, r.waiters[i]) { assert WaiterOk(s, s.waiters[i]); }
    if !IsCleared(s) {
      forall u | 0 <= u < |r.tasks| && !(Failed(r.tasks[u]) && r.tasks[u].notified) ensures HoldsSlot(r, u) { assert HoldsSlot(s, u); }
    }
  }

  lemma CallbackKeeps(s: State, t: nat)
    requires Invariant(s) && IsDone(s, t) && !s.tasks[t].notified
    ensures Invariant(AfterCallback(s, t))
  {
    var r := AfterCallback(s, t);
    AnswersStay(s, r);
    forall k | k in r.cache ensures SlotOk(r, k) {
      assert k in s.cache ==> SlotOk(s, k);
      if r.cache[k].Ready? && s.tasks[t].key == k && s.tasks[t].outcome.value.Success? {
        assert Answers(s, k, s.tasks[t].outcome.value.vectors);
      }
    }
    forall i | 0 <= i < |r.waiters| ensures WaiterOk(r, r.waiters[i]) { assert WaiterOk(s, s.waiters[i]); }
    if !IsCleared(s) {
      assert HoldsSlot(s, t);
      forall u | 0 <= u < |r.tasks| && !(Failed(r.tasks[u]) && r.tasks[u].notified) ensures HoldsSlot(r, u) {
        assert HoldsSlot(s, u);
      }
    }
  }

  lemma WaiterKeeps(s: State, w: nat, waiter: Waiter)
    requires Invariant(s) && w < |s.waiters| && WaiterOk(s, waiter)
    ensures Invariant(s.(waiters := s.waiters[w := waiter]))
  {
    var r := s.(waiters := s.waiters[w := waiter]);
    AnswersStay(s, r);
    forall k | k in r.cache ensures SlotOk(r, k) { assert SlotOk(s, k); }
    forall i | 0 <= i < |r.waiters| ensures WaiterOk(r, r.waiters[i]) { assert i != w ==> WaiterOk(s, s.waiters[i]); }
    if !IsCleared(s) {
      forall u | 0 <= u < |r.tasks| && !(Failed(r.tasks[u]) && r.tasks[u].notified) ensures HoldsSlot(r, u) { assert HoldsSlot(s, u); }
    }
  }

  lemma PhaseKeeps(s: State, e: Event)
    requires Invariant(s) && (e.BeginExit? || e.EndExit? || e.CancelledExit?)
    ensures Invariant(Next(s, e))
  {
    var r := Next(s, e);
    AnswersStay(s, r);
    forall k | k in r.cache ensures SlotOk(r, k) { assert SlotOk(s, k); }
    forall i | 0 <= i < |r.waiters| ensures WaiterOk(r, r.waiters[i]) { assert WaiterOk(s, s.waiters[i]); }
    if !IsCleared(r) && !(e.BeginExit? && s.phase.Open?) {
      forall u | 0 <= u < |r.tasks| && !(Failed(r.tasks[u]) && r.tasks[u].notified) ensures HoldsSlot(r, u) { assert HoldsSlot(s, u); }
    }
    if e.BeginExit? && s.phase.Open? {
      forall t | 0 <= t < |s.tasks| && s.tasks[t].outcome.None? ensures t in LiveTasks(s) { assert HoldsSlot(s, t); }
      if LiveTasks(s) != {} {
        forall u | 0 <= u < |r.tasks| && !(Failed(r.tasks[u]) && r.tasks[u].notified) ensures HoldsSlot(r, u) { assert HoldsSlot(s, u); }
      }
    }
  }

  /** Every event keeps the invariant. */
  lemma NextKeeps(s: State, e: Event)
    requires Invariant(s)
    ensures Invariant(Next(s, e))
  {
    match e
    case Call(key) => if s.phase.Closed? {} else if key in s.cache { HitKeeps(s, key); } else { MissKeeps(s, key); }
    case Finish(t, o) => if t < |s.tasks| && s.tasks[t].outcome.None? { FinishKeeps(s, t, o); }
    case Callback(t) => if IsDone(s, t) && !s.tasks[t].notified { CallbackKeeps(s, t); }
    case Deliver(w) =>
      if w < |s.waiters| && s.waiters[w].Waiting? && IsDone(s, s.waiters[w].task) {
        assert WaiterOk(s, s.waiters[w]);
        var got := Received(s.waiters[w], s.tasks[s.waiters[w].task].outcome.value);
        assert got.Got? ==> Answers(s, got.key, got.vectors);
        assert got.Raised? ==> Failed(s.tasks[s.waiters[w].task]);
        WaiterKeeps(s, w, got);
      }
    case CancelWaiter(w) =>
      if w < |s.waiters| && s.waiters[w].Waiting? { WaiterKeeps(s, w, Abandoned(s.waiters[w].key)); }
    case BeginExit => PhaseKeeps(s, e);
    case EndExit => PhaseKeeps(s, e);
    case CancelledExit => PhaseKeeps(s, e);
  }

  lemma {:induction false} RunKeeps(events: seq<Event>)
    ensures Invariant(Run(EMPTY, events))
  {
    if events != [] {
      RunKeeps(events[..|events| - 1]);
      NextKeeps(Run(EMPTY, events[..|events| - 1]), events[|events| - 1]);
    }
  }

  // ----- what it means for callers, the provider and the exit

  function Submissions(tasks: seq<Task>, key: Key): nat {
    if tasks == [] then 0 else Submissions(tasks[..|tasks| - 1], key) + if tasks[|tasks| - 1].key == key then 1 else 0
  }

  function Failures(tasks: seq<Task>, key: Key): nat {
    if tasks == [] then 0
    else Failures(tasks[..|tasks| - 1], key) + if tasks[|tasks| - 1].key == key && Failed(tasks[|tasks| - 1]) then 1 else 0
  }

  lemma {:induction false} AllFailed(tasks: seq<Task>, key: Key)
    requires forall t :: 0 <= t < |tasks| && tasks[t].key == key ==> Failed(tasks[t])
    ensures Submissions(tasks, key) == Failures(tasks, key)
  {
    if tasks != [] { AllFailed(tasks[..|tasks| - 1], key); }
  }

  lemma {:induction false} OneMoreThanFailures(tasks: seq<Task>, key: Key)
    requires forall t, u :: 0 <= t < u < |tasks| && tasks[t].key == tasks[u].key ==> Failed(tasks[t]) || Failed(tasks[u])
    ensures Submissions(tasks, key) <= 1 + Failures(tasks, key)
  {
    if tasks != [] {
      var front, last := tasks[..|tasks| - 1], tasks[|tasks| - 1];
      if last.key == key && !Failed(last) {
        forall t | 0 <= t < |front| && front[t].key == key ensures Failed(front[t]) { assert tasks[t] == front[t]; }
        AllFailed(front, key);
      } else {
        OneMoreThanFailures(front, key);
      }
    }
  }

  /** In every interleaving: a key has one call more than failed ones at most, never two under
      way; who got vectors got those of a successful call for the same key; whoever saw a failure
      had a failed or cancelled call for it; and what is cached as ready is a success. */
  lemma EveryInterleaving(events: seq<Event>)
    ensures var s := Run(EMPTY, events);
      && (forall key :: Submissions(s.tasks, key) <= 1 + Failures(s.tasks, key))
      && (forall t, u :: 0 <= t < u < |s.tasks| && s.tasks[t].outcome.None? && s.tasks[u].outcome.None? ==> s.tasks[t].key != s.tasks[u].key)
      && (forall i :: 0 <= i < |s.waiters| && s.waiters[i].Got? ==> Answers(s, s.waiters[i].key, s.waiters[i].vectors))
      && (forall i :: 0 <= i < |s.waiters| && s.waiters[i].Raised? ==> FailedFor(s, s.waiters[i].key))
      && (forall key :: key in s.cache && s.cache[key].Ready? ==> Answers(s, key, s.cache[key].vectors))
  {
    var s := Run(EMPTY, events);
    RunKeeps(events);
    forall i | 0 <= i < |s.waiters| && s.waiters[i].Raised? ensures FailedFor(s, s.waiters[i].key) { assert WaiterOk(s, s.waiters[i]); }
    forall key ensures Submissions(s.tasks, key) <= 1 + Failures(s.tasks, key) { OneMoreThanFailures(s.tasks, key); }
    forall i | 0 <= i < |s.waiters| && s.waiters[i].Got? ensures Answers(s, s.waiters[i].key, s.waiters[i].vectors) {
      assert WaiterOk(s, s.waiters[i]);
    }
    forall key | key in s.cache && s.cache[key].Ready? ensures Answers(s, key, s.cache[key].vectors) { assert SlotOk(s, key); }
  }

  /** A caller is answered by the call it waits on: with its vectors if that succeeded, with its
      failure otherwise, and in no other way. */
  lemma CallerIsAnswered(events: seq<Event>, w: nat)
    requires var s := Run(EMPTY, events); w < |s.waiters| && s.waiters[w].Waiting?
    ensures var s := Run(EMPTY, events); var waiter := s.waiters[w];
      waiter.task < |s.tasks| && s.tasks[waiter.task].key == waiter.key
    ensures var s, r := Run(EMPTY, events), Run(EMPTY, events + [Deliver(w)]);
      var key, outcome := s.waiters[w].key, s.tasks[s.waiters[w].task].outcome;
      if outcome.None? then r == s
      else if outcome.value.Success? then r.waiters == s.waiters[w := Got(key, outcome.value.vectors)]
      else r.waiters == s.waiters[w := Raised(key)]
  {
    var s := Run(EMPTY, events);
    RunKeeps(events);
    assert WaiterOk(s, s.waiters[w]);
    assert (events + [Deliver(w)])[..|events|] == events;
  }

  /** How a call and its callback go on for two callers of a key that is not cached. */
  function Shared(t: nat, w: nat, key: Key, outcome: Outcome): seq<Event> {
    [Call(key), Call(key), Finish(t, outcome), Deliver(w), Deliver(w + 1), Callback(t), Call(key)]
  }

  predicate SharedBy(s: State, r: State, key: Key, outcome: Outcome) {
    var t := |s.tasks|;
    if outcome.Success? then
      var got := Got(key, outcome.vectors);
      |r.tasks| == t + 1 && r.cache == s.cache[key := Ready(outcome.vectors)] && r.waiters == s.waiters + [got, got, got]
    else
      && |r.tasks| == t + 2 && r.cache == s.cache[key := Owned(t + 1)]
      && r.waiters == s.waiters + [Raised(key), Raised(key), Waiting(key, t + 1)]
  }

  /** From any reachable state before the exit, two callers of a key that is not cached share one
      call.  If it succeeds both get its vectors, and a third has them from the cache; if it fails
      both see that, and a third starts another call. */
  lemma CallersShare(events: seq<Event>, key: Key, outcome: Outcome)
    requires var s := Run(EMPTY, events); s.phase.Open? && key !in s.cache
    ensures var s := Run(EMPTY, events); var t, w := |s.tasks|, |s.waiters|;
      var r := Run(EMPTY, events + Shared(t, w, key, outcome));
      SharedBy(s, r, key, outcome)
  {
    var s := Run(EMPTY, events);
    var t, w := |s.tasks|, |s.waiters|;
    RunPlus(EMPTY, events, Shared(t, w, key, outcome));
    RunSeven(s, Shared(t, w, key, outcome));
    SharedRun(s, key, outcome);
  }

  lemma RunSeven(s: State, e: seq<Event>)
    requires |e| == 7
    ensures Run(s, e) == Next(Next(Next(Next(Next(Next(Next(s, e[0]), e[1]), e[2]), e[3]), e[4]), e[5]), e[6])
  {
    RunOne(s, e, 6);
    RunOne(s, e[..6], 5);
    RunOne(s, e[..5], 4);
    RunOne(s, e[..4], 3);
    RunOne(s, e[..3], 2);
    RunOne(s, e[..2], 1);
    RunOne(s, e[..1], 0);
    assert e[..6][..5] == e[..5] && e[..5][..4] == e[..4] && e[..4][..3] == e[..3] && e[..3][..2] == e[..2] && e[..2][..1] == e[..1];
  }

  lemma RunOne(s: State, e: seq<Event>, n: nat)
    requires |e| == n + 1
    ensures Run(s, e) == Next(Run(s, e[..n]), e[n])
  {}

  lemma SharedRun(s: State, key: Key, outcome: Outcome)
    requires s.phase.Open? && key !in s.cache
    ensures var e := Shared(|s.tasks|, |s.waiters|, key, outcome);
      var r := Next(Next(Next(Next(Next(Next(Next(s, e[0]), e[1]), e[2]), e[3]), e[4]), e[5]), e[6]);
      SharedBy(s, r, key, outcome)
  {
    var t, w := |s.tasks|, |s.waiters|;
    var called := s.(tasks := s.tasks + [Task(key, None, false)], cache := s.cache[key := Owned(t)],
                     waiters := s.waiters + [Waiting(key, t), Waiting(key, t)]);
    assert Next(Next(s, Call(key)), Call(key)) == called;
    var finished := called.(tasks := s.tasks + [Task(key, Some(outcome), false)]);
    assert Next(called, Finish(t, outcome)) == finished;
    var got := Received(Waiting(key, t), outcome);
    var first := finished.(waiters := s.waiters + [got, Waiting(key, t)]);
    assert Next(finished, Deliver(w)) == first;
    var second := finished.(waiters := s.waiters + [got, got]);
    assert Next(first, Deliver(w + 1)) == second;
    var published := second.(tasks := s.tasks + [Task(key, Some(outcome), true)],
                             cache := if outcome.Success? then s.cache[key := Ready(outcome.vectors)] else s.cache);
    assert Next(second, Callback(t)) == published;
  }

  /** When the scope has been left, every call submitted before the exit began is settled, and
      the cache is empty unless the exit itself was cancelled. */
  lemma ExitSettles(events: seq<Event>)
    ensures var s := Run(EMPTY, events);
      s.phase.Closed? ==>
        && (forall t :: 0 <= t < s.phase.started && t < |s.tasks| ==> s.tasks[t].outcome.Some?)
        && (CancelledExit !in events ==> s.phase.cleared) && (s.phase.cleared ==> s.cache == map[])
  {
    RunKeeps(events);
    if CancelledExit !in events { UncancelledClears(events); }
  }

  lemma {:induction false} UncancelledClears(events: seq<Event>)
    requires CancelledExit !in events
    ensures Run(EMPTY, events).phase.Closed? ==> IsCleared(Run(EMPTY, events))
  {
    if events != [] {
      var n := |events| - 1;
      assert events == events[..n] + [events[n]];
      UncancelledClears(events[..n]);
    }
  }

  /** After a cancelled exit the cache is empty if and only if every call failed and was evicted. */
  lemma UnclearedCache(events: seq<Event>)
    ensures var s := Run(EMPTY, events);
      s.phase.Closed? && !s.phase.cleared ==>
        (s.cache == map[] <==> forall t :: 0 <= t < |s.tasks| ==> Failed(s.tasks[t]) && s.tasks[t].notified)
  {
    var s := Run(EMPTY, events);
    RunKeeps(events);
    if s.phase.Closed? && !s.phase.cleared {
      forall t | 0 <= t < |s.tasks| && !(Failed(s.tasks[t]) && s.tasks[t].notified) ensures s.tasks[t].key in s.cache { assert HoldsSlot(s, t); }
      forall key | key in s.cache ensures exists t :: 0 <= t < |s.tasks| && !(Failed(s.tasks[t]) && s.tasks[t].notified) {
        assert SlotOk(s, key);
        match s.cache[key]
        case Owned(t) => assert !s.tasks[t].notified;
        case Ready(vectors) =>
          var t :| 0 <= t < |s.tasks| && s.tasks[t].key == key && s.tasks[t].outcome == Some(Success(vectors));
          assert !Failed(s.tasks[t]);
      }
    }
  }

  // ----- cancelling one caller

  /** The same but for one caller, who in `r` has given up. */
  ghost predicate GaveUp(s: State, r: State, w: nat) {
    && r.tasks == s.tasks && r.cache == s.cache && r.phase == s.phase && |r.waiters| == |s.waiters|
    && (w < |s.waiters| ==> r.waiters[w] == Abandoned(s.waiters[w].key))
    && forall i :: 0 <= i < |s.waiters| && i != w ==> r.waiters[i] == s.waiters[i]
  }

  lemma GaveUpStep(s: State, r: State, w: nat, e: Event)
    requires GaveUp(s, r, w) && w < |s.waiters|
    ensures GaveUp(Next(s, e), Next(r, e), w) && w < |Next(s, e).waiters|
  {}

  lemma {:induction false} GaveUpRun(s: State, r: State, w: nat, events: seq<Event>)
    requires GaveUp(s, r, w) && w < |s.waiters|
    ensures GaveUp(Run(s, events), Run(r, events), w) && w < |Run(s, events).waiters|
    decreases |events|
  {
    if events != [] {
      var n := |events| - 1;
      GaveUpRun(s, r, w, events[..n]);
      GaveUpStep(Run(s, events[..n]), Run(r, events[..n]), w, events[n]);
    }
  }

  /** A caller that is cancelled while it waits gives up, and nothing else about the run is any
      different: not the call it shared, not the cache, not what any other caller gets. */
  lemma CancellationIsPrivate(before: seq<Event>, w: nat, after: seq<Event>)
    requires w < |Run(EMPTY, before).waiters| && Run(EMPTY, before).waiters[w].Waiting?
    ensures GaveUp(Run(EMPTY, before + after), Run(EMPTY, before + [CancelWaiter(w)] + after), w)
    ensures w < |Run(EMPTY, before + after).waiters|
  {
    var s, cancelled := Run(EMPTY, before), before + [CancelWaiter(w)];
    RunPlus(EMPTY, before, after);
    RunPlus(EMPTY, cancelled, after);
    RunOne(EMPTY, cancelled, |before|);
    assert cancelled[..|before|] == before;
    GaveUpRun(s, Next(s, CancelWaiter(w)), w, after);
  }

  /** A cancelled exit after which the vectors of a call that won against its cancellation stay cached. */
  lemma SuccessOutlivesExit(key: Key, vectors: Vectors)
    ensures var s := Run(EMPTY, [Call(key), BeginExit, Finish(0, Success(vectors)), Callback(0), CancelledExit]);
      s.phase == Closed(1, false) && s.cache == map[key := Ready(vectors)]
  {
    var waiting, rest := [Call(key), BeginExit], [Finish(0, Success(vectors)), Callback(0), CancelledExit];
    assert waiting + rest == [Call(key), BeginExit, Finish(0, Success(vectors)), Callback(0), CancelledExit];
    RunPlus(EMPTY, waiting, rest);
    ExitWaits(key);
    var s := Run(EMPTY, waiting);
    RunThree(s, rest);
    Finished(s, key, vectors);
  }

  lemma RunThree(s: State, e: seq<Event>)
    requires |e| == 3
    ensures Run(s, e) == Next(Next(Next(s, e[0]), e[1]), e[2])
  {
    RunOne(s, e, 2);
    RunOne(s, e[..2], 1);
    RunOne(s, e[..1], 0);
    assert e[..2][..1] == e[..1] && e[..1][..0] == [];
  }

  lemma Finished(s: State, key: Key, vectors: Vectors)
    requires s.tasks == [Task(key, None, false)] && s.cache == map[key := Owned(0)] && s.phase == Exiting({0}, 1)
    ensures var r := Next(Next(Next(s, Finish(0, Success(vectors))), Callback(0)), CancelledExit);
      r.phase == Closed(1, false) && r.cache == map[key := Ready(vectors)]
  {
    var done := Next(s, Finish(0, Success(vectors)));
    assert done == s.(tasks := [Task(key, Some(Success(vectors)), false)]);
    assert Next(done, Callback(0)).cache == map[key := Ready(vectors)];
  }

  /** No call is made while the exit is waiting. */
  ghost predicate NoLateCall(events: seq<Event>) {
    forall k :: 0 <= k < |events| && events[k].Call? ==> !Run(EMPTY, events[..k]).phase.Exiting?
  }

  lemma {:induction false} NoLateTask(events: seq<Event>)
    requires NoLateCall(events)
    ensures var s := Run(EMPTY, events); s.phase.Open? || |s.tasks| == s.phase.started
  {
    if events != [] {
      var front := events[..|events| - 1];
      forall k | 0 <= k < |front| && front[k].Call? ensures !Run(EMPTY, front[..k]).phase.Exiting? {
        assert front[..k] == events[..k] && events[k].Call?;
      }
      NoLateTask(front);
    }
  }

  /** Unless a call is made while the exit waits, leaving the scope leaves no call outstanding. */
  lemma NoLateCallNoneOutlives(events: seq<Event>)
    requires NoLateCall(events)
    ensures var s := Run(EMPTY, events);
      s.phase.Closed? ==> forall t :: 0 <= t < |s.tasks| ==> s.tasks[t].outcome.Some?
  {
    NoLateTask(events);
    RunKeeps(events);
  }

  lemma {:induction false} RunPlus(s: State, a: seq<Event>, b: seq<Event>)
    ensures Run(s, a + b) == Run(Run(s, a), b)
  {
    if b == [] {
      assert a + b == a;
    } else {
      RunPlus(s, a, b[..|b| - 1]);
      assert (a + b)[..|a + b| - 1] == a + b[..|b| - 1];
    }
  }

  /** The first `n` calls are cancelled, as the exit asks of those it awaits. */
  function CancelAll(n: nat): seq<Event> { if n == 0 then [] else CancelAll(n - 1) + [Finish(n - 1, Cancelled)] }

  lemma {:induction false} CancelAllSettles(s: State, n: nat)
    requires n <= |s.tasks|
    ensures var r := Run(s, CancelAll(n));
      && r.phase == s.phase && |r.tasks| == |s.tasks|
      && (forall t :: 0 <= t < n ==> r.tasks[t].outcome.Some?)
      && (forall t :: n <= t < |s.tasks| ==> r.tasks[t] == s.tasks[t])
  {
    if n > 0 {
      CancelAllSettles(s, n - 1);
      assert CancelAll(n)[..|CancelAll(n)| - 1] == CancelAll(n - 1);
    }
  }

  lemma {:induction false} LiveAreTasks(events: seq<Event>)
    ensures var s := Run(EMPTY, events); s.phase.Exiting? ==> forall t :: t in s.phase.live ==> t < |s.tasks|
  {
    if events != [] {
      var front := events[..|events| - 1];
      LiveAreTasks(front);
      RunKeeps(front);
      LiveStays(Run(EMPTY, front), events[|events| - 1]);
    }
  }

  lemma LiveStays(s: State, e: Event)
    requires Invariant(s) && (s.phase.Exiting? ==> forall t :: t in s.phase.live ==> t < |s.tasks|)
    ensures Next(s, e).phase.Exiting? ==> forall t :: t in Next(s, e).phase.live ==> t < |Next(s, e).tasks|
  {
    forall t | t in LiveTasks(s) ensures t < |s.tasks| {
      var key :| key in s.cache && s.cache[key].Owned? && s.cache[key].task == t;
      assert SlotOk(s, key);
    }
  }

  lemma LateSteps(s: State, key: Key)
    requires s.phase.Exiting? && key !in s.cache && forall t :: t in s.phase.live ==> t < |s.tasks|
    ensures var r := Run(s, [Call(key)] + CancelAll(|s.tasks|) + [EndExit]);
      r.phase.Closed? && |r.tasks| == |s.tasks| + 1 && r.tasks[|s.tasks|] == Task(key, None, false)
  {
    var called := AfterCall(s, key);
    assert [Call(key)][..0] == [] && Run(s, [Call(key)]) == Next(Run(s, []), Call(key)) == called;
    RunPlus(s, [Call(key)], CancelAll(|s.tasks|));
    CancelAllSettles(called, |s.tasks|);
    var settled := Run(called, CancelAll(|s.tasks|));
    RunPlus(s, [Call(key)] + CancelAll(|s.tasks|), [EndExit]);
    assert [EndExit][..0] == [] && Run(settled, [EndExit]) == Next(Run(settled, []), EndExit);
    assert forall t :: t in settled.phase.live ==> IsDone(settled, t);
  }

  /** Whenever the exit is waiting, a call for a key that is not cached can outlive the scope:
      the exit awaits only the tasks it collected. */
  lemma LateCallOutlives(events: seq<Event>, key: Key) returns (late: seq<Event>)
    requires Run(EMPTY, events).phase.Exiting? && key !in Run(EMPTY, events).cache
    ensures var s := Run(EMPTY, events + late);
      s.phase.Closed? && exists t :: 0 <= t < |s.tasks| && s.tasks[t].key == key && s.tasks[t].outcome.None?
  {
    var s := Run(EMPTY, events);
    late := [Call(key)] + CancelAll(|s.tasks|) + [EndExit];
    LiveAreTasks(events);
    LateSteps(s, key);
    RunPlus(EMPTY, events, late);
    assert Run(s, late).tasks[|s.tasks|].outcome.None?;
  }

  /** Such a state is reached as soon as one call is under way when the exit begins. */
  lemma ExitWaits(key: Key)
    ensures Run(EMPTY, [Call(key), BeginExit])
         == State([Task(key, None, false)], map[key := Owned(0)], [Waiting(key, 0)], Exiting({0}, 1))
  {
    var events := [Call(key), BeginExit];
    assert events[..1] == [Call(key)] && events[..1][..0] == [];
    var called := AfterCall(EMPTY, key);
    assert Run(EMPTY, events[..1]) == Next(Run(EMPTY, []), Call(key)) == called;
    assert called.cache[key] == Owned(0) && LiveTasks(called) == {0};
  }

  // ----- the scope's own operations

  class QueryEmbeddingScope {
    var tasks: seq<Task>
    var cache: map<Key, Slot>
    var waiters: seq<Waiter>
    var phase: Phase

    function Abs(): State
      reads this
    {
      State(tasks, cache, waiters, phase)
    }

    constructor ()
      ensures Abs() == EMPTY
    {
      tasks, cache, waiters, phase := [], map[], [], Open;
    }

    /** `_embed_query` up to its first suspension: the lookup and the installation of a new task
        happen without one, so no other caller can come in between. */
    method EmbedQuery(key: Key) returns (waiter: nat)
      requires !phase.Closed? && Invariant(Abs())
      modifies this
      ensures Invariant(Abs()) && Abs() == Next(old(Abs()), Call(key))
      ensures waiter == old(|waiters|) && waiters[waiter].key == key
    {
      NextKeeps(Abs(), Call(key));
      waiter := |waiters|;
      if key in cache {
        match cache[key] {
          case Ready(vectors) => waiters := waiters + [Got(key, vectors)];
          case Owned(t) => waiters := waiters + [Waiting(key, t)];
        }
      } else {
        var t := |tasks|;
        tasks := tasks + [Task(key, None, false)];
        cache := cache[key := Owned(t)];
        waiters := waiters + [Waiting(key, t)];
      }
    }

    method CompleteProviderTask(t: nat)
      requires IsDone(Abs(), t) && !tasks[t].notified && Invariant(Abs())
      modifies this
      ensures Invariant(Abs()) && Abs() == Next(old(Abs()), Callback(t))
    {
      NextKeeps(Abs(), Callback(t));
      var task := tasks[t];
      tasks := tasks[t := task.(notified := true)];
      if task.key in cache && cache[task.key] == Owned(t) {
        match task.outcome.value {
          case Success(vectors) => cache := cache[task.key := Ready(vectors)];
          case _ => cache := cache - {task.key};
        }
      }
    }

    /** Leaving the scope: first the tasks still in the cache are collected and cancelled; once
        all of them have settled, at once if there are none, the cache is emptied. */
    method StartExit()
      requires phase.Open? && Invariant(Abs())
      modifies this
      ensures Invariant(Abs()) && Abs() == Next(old(Abs()), BeginExit)
    {
      NextKeeps(Abs(), BeginExit);
      var live := LiveTasks(Abs());
      if live == {} {
        cache, phase := map[], Closed(|tasks|, true);
      } else {
        phase := Exiting(live, |tasks|);
      }
    }

    method FinishExit()
      requires phase.Exiting? && Invariant(Abs()) && forall t :: t in phase.live ==> IsDone(Abs(), t)
      modifies this
      ensures Invariant(Abs()) && Abs() == Next(old(Abs()), EndExit)
      ensures cache == map[] && tasks == old(tasks)
      ensures forall t :: 0 <= t < old(phase).started && t < |tasks| ==> tasks[t].outcome.Some?
    {
      NextKeeps(Abs(), EndExit);
      cache, phase := map[], Closed(phase.started, true);
    }

    /** The exit when whoever leaves was cancelled while waiting: it raises before the clearing. */
    method AbortExit()
      requires phase.Exiting? && Invariant(Abs()) && forall t :: t in phase.live ==> IsDone(Abs(), t)
      modifies this`phase
      ensures Invariant(Abs()) && Abs() == Next(old(Abs()), CancelledExit)
      ensures forall t :: 0 <= t < old(phase).started && t < |tasks| ==> tasks[t].outcome.Some?
    {
      NextKeeps(Abs(), CancelledExit);
      phase := Closed(phase.started, false);
    }
  }
}
