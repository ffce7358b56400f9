/** The timer pipeline: a timer puts numbers in a circular buffer that overwrites when it
    is full, a deferred work moves them to a list, and readers take the list.

    One open session with its single timer, one worker (a work item never runs twice at
    once), and any number of reader threads.  Monitor thread 0 is the worker, which is not
    interruptible; the others are readers.  Each unlocked test is a step of its own. */
module ModTimer {
  import opened Counting
  import opened Monitors
  import opened Rings
  import opened Runs
  import opened Survivors

  datatype Timer =
    | Ready
    | Checking  // has inserted, about to read whether the work is pending
    | Sizing    // read that it is not, about to compare the size with the threshold

  datatype Worker =
    | Idle
    | Looking   // at the unlocked emptiness test of the drain loop
    | Taking    // found the buffer not empty, about to lock and take one item
    | Adding    // in my_list_add

  /** The first line is the module's variables; `aux` is the worker's local array.  The
      rest is history: the numbers read so far, the numbers generated, the ticks
      overwritten; and for the current drain the size at its start and the ticks and
      overwrites since. */
  datatype State = State(
    m: Monitor, timer: Timer, worker: Worker, pending: bool, ring: seq<Tick>, list: seq<Tick>, aux: seq<Tick>,
    capacity: nat, target: nat,
    out: seq<Tick>, generated: seq<int>, dropped: set<nat>, start: nat, ticks: nat, over: nat)

  datatype Action = Fire(value: int) | TimerStep | WorkerStep | Read(t: nat) | Run(t: nat) | Interrupt(t: nat)

  /** The size at which the timer schedules the work. */
  function FlushSize(threshold: nat, capacity: nat): (size: nat)
    ensures 100 * size <= threshold * capacity < 100 * size + 100
  {
    threshold * capacity / 100
  }

  function Init(readers: nat, capacity: nat, threshold: nat): State {
    State(Start(readers + 1), Ready, Idle, false, [], [], [], capacity, FlushSize(threshold, capacity),
          [], [], {}, 0, 0, 0)
  }

  // ---- timer and worker ------------------------------------------------------------

  /** `fire_timer` up to its unlock. */
  function Tock(s: State, value: int): State {
    var full := s.ring != [] && |s.ring| == s.capacity;
    s.(timer := Checking,
       ring := Newest(s.ring + [Tick(|s.generated|, value)], s.capacity),
       generated := s.generated + [value],
       dropped := if full then s.dropped + {s.ring[0].id} else s.dropped,
       ticks := s.ticks + 1,
       over := if full then s.over + 1 else s.over)
  }

  /** The scheduling test of `fire_timer`, in its two reads. */
  function Schedule(s: State): State {
    match s.timer {
      case Ready => s
      case Checking => s.(timer := if s.pending then Ready else Sizing)
      case Sizing => s.(timer := Ready, pending := s.pending || |s.ring| == s.target)
    }
  }

  /** A step of the worker up to `my_list_add`. */
  function Drain(s: State): State {
    match s.worker {
      case Idle =>
        if s.pending then
          s.(worker := Looking, pending := false, aux := [], start := |s.ring|, ticks := 0, over := 0)
        else s
      case Looking =>
        if s.ring != [] then s.(worker := Taking)
        else if Enabled(s.m, 0, Call(Prod)) then s.(worker := Adding, m := Apply(s.m, 0, Call(Prod)))
        else s
      case Taking =>
        if s.ring != [] then s.(worker := Looking, aux := s.aux + [s.ring[0]], ring := s.ring[1..])
        else s.(worker := Looking, aux := s.aux + [Tick(|s.generated|, -1)])
      case Adding => s
    }
  }

  // ---- the list and its monitor ----------------------------------------------------

  /** The next move of a thread in the monitor, by whether the list is empty. */
  function MoveAt(pc: Pc, l: Locks, empty: bool): Move {
    match pc {
      case Entering(q) => Lock(if q.Prod? then Working(q) else Testing(q))
      case Testing(q) => if empty then Sleep else Pass(Working(q))
      case Working(q) => Pass(if q.Prod? then Waking(q) else Exiting(q))
      case Waking(q) => if !empty && l.waiting.Of(q.Other()) > 0 then Signal else Pass(Exiting(q))
      case Discounting(q) => Discount(Exiting(q))
      case _ => Routine(pc)
    }
  }

  function MoveOf(s: State, t: nat): Move
    requires t < |s.m.at|
  {
    MoveAt(s.m.at[t], LocksOf(s.m), s.list == [])
  }

  function MoveIn(s: State, a: Action): Move
    requires (a.Read? || a.Run? || a.Interrupt?) && a.t < |s.m.at|
  {
    match a {
      case Read(_) => Call(Cons)
      case Run(t) => MoveOf(s, t)
      case Interrupt(t) => InterruptOf(s.m.at[t])
    }
  }

  /** Thread 0 only runs the worker's call, which cannot be interrupted. */
  predicate Taken(s: State, a: Action) {
    && (a.Read? || a.Run? || a.Interrupt?) && a.t < |s.m.at|
    && (a.Run? || a.t != 0)
    && Enabled(s.m, a.t, MoveIn(s, a))
  }

  /** What a move does beside the monitor: adding the batch, taking the list, and the
      worker's return. */
  function Effect(s: State, a: Action): (r: State)
    requires (a.Read? || a.Run? || a.Interrupt?) && a.t < |s.m.at|
    ensures r.m == s.m
  {
    if !a.Run? then s else match s.m.at[a.t] {
      case Working(Prod) => s.(list := s.list + s.aux, aux := [])
      case Working(Cons) => s.(out := s.out + s.list, list := [])
      case Exiting(Prod) => s.(worker := Idle)
      case _ => s
    }
  }

  function Next(s: State, a: Action): (r: State)
    ensures |r.m.at| == |s.m.at| && r.capacity == s.capacity && r.target == s.target
  {
    match a {
      case Fire(v) => if s.timer.Ready? then Tock(s, v) else s
      case TimerStep => Schedule(s)
      case WorkerStep => Drain(s)
      case _ => if Taken(s, a) then Effect(s, a).(m := Apply(s.m, a.t, MoveIn(s, a))) else s
    }
  }

  /** The state after a run with some readers on an empty buffer. */
  function After(readers: nat, capacity: nat, threshold: nat, run: seq<Action>): State {
    Exec(Next, Init(readers, capacity, threshold), run)
  }

  // ---- what every run keeps ----------------------------------------------------------

  function RoleOf(t: nat): Side {
    if t == 0 then Prod else Cons
  }

  /** Thread 0 only adds, the others only read. */
  predicate RoleOk(t: nat, pc: Pc) {
    pc.Outside? ||
    (pc.side == RoleOf(t) &&
     (t == 0 ==> pc.Entering? || pc.Working? || pc.Waking? || pc.Discounting? || pc.Exiting?))
  }

  /** Thread 0 is in the monitor exactly while the worker adds its batch. */
  predicate Roles(s: State) {
    && 0 < |s.m.at|
    && (s.m.at[0].Outside? <==> s.worker != Adding)
    && (forall t | 0 <= t < |s.m.at| :: RoleOk(t, s.m.at[t]))
  }

  /** Everything generated and not overwritten is, in order, in one of the four places. */
  predicate Flow(s: State) {
    && |s.ring| <= s.capacity && (forall id | id in s.dropped :: id < |s.generated|)
    && s.out + s.list + s.aux + s.ring == Survive(s.generated, s.dropped)
  }

  /** The worker's array is in use: from its first look to its `list_add_tail`s. */
  predicate AuxLive(s: State)
    requires 0 < |s.m.at|
  {
    s.worker == Looking || s.worker == Taking || s.m.at[0].Entering? || s.m.at[0].Working?
  }

  /** The worker, having found the buffer not empty, still finds it so under the lock; the
      array holds what was in the buffer at the start or arrived since, less what was
      overwritten or is still there. */
  predicate Draining(s: State)
    requires 0 < |s.m.at|
  {
    && (s.worker == Taking ==> s.ring != [])
    && if AuxLive(s) then |s.aux| + |s.ring| + s.over == s.start + s.ticks else s.aux == []
  }

  /** With the work neither pending nor draining, the buffer is below the flush size, or
      just at it while the timer is on its way to see that. */
  predicate Flushing(s: State) {
    && (s.timer == Sizing ==> !s.pending)
    && (!s.pending && s.worker != Looking && s.worker != Taking ==>
          |s.ring| < s.target || (|s.ring| == s.target && s.timer != Ready))
  }

  predicate Safe(s: State) {
    0 < s.capacity && Inv(s.m) && Roles(s) && Flow(s) && Draining(s)
  }

  lemma InitSafe(readers: nat, capacity: nat, threshold: nat)
    requires 0 < capacity
    ensures Safe(Init(readers, capacity, threshold))
  {
    StartInv(readers + 1);
  }

  lemma KeepsFlowFire(s: State, v: int)
    requires 0 < s.capacity && Flow(s)
    ensures Flow(Tock(s, v))
  {
    var before := s.out + s.list + s.aux;
    var tick := Tick(|s.generated|, v);
    if s.ring != [] && |s.ring| == s.capacity {
      SurviveExactly(s.generated, s.dropped);
      assert (before + s.ring)[|before|] == s.ring[0];
      OverwriteOne(s.generated, s.dropped, before, s.ring, v);
      NewestInBack(before, s.ring, tick);
    } else {
      SurviveNext(s.generated, s.dropped, v);
      assert before + (s.ring + [tick]) == before + s.ring + [tick];
    }
  }

  /** The stream when the oldest number in the buffer gives way to a new one. */
  lemma OverwriteOne(generated: seq<int>, dropped: set<nat>, before: seq<Tick>, ring: seq<Tick>, v: int)
    requires ring != [] && before + ring == Survive(generated, dropped)
    requires ring[0].id < |generated| && |generated| !in dropped
    ensures before + ring[1..] + [Tick(|generated|, v)] == Survive(generated + [v], dropped + {ring[0].id})
  {
    assert Survive(generated, dropped)[|before|] == ring[0];
    DropOne(generated, dropped, |before|);
    RemoveInBack(before, ring);
    SurviveNext(generated, dropped + {ring[0].id}, v);
  }

  lemma NewestInBack<T>(front: seq<T>, r: seq<T>, x: T)
    requires r != []
    ensures front + Newest(r + [x], |r|) == front + r[1..] + [x]
  {
    assert Newest(r + [x], |r|) == r[1..] + [x];
  }

  lemma KeepsFlowDrain(s: State)
    requires 0 < |s.m.at| && Flow(s) && (s.worker == Taking ==> s.ring != []) && (s.worker == Idle ==> s.aux == [])
    ensures Flow(Drain(s))
  {
    var front := s.out + s.list;
    if s.worker == Taking {
      assert front + (s.aux + [s.ring[0]]) + s.ring[1..] == front + s.aux + s.ring;
    }
  }

  lemma KeepsFlowEffect(s: State, a: Action)
    requires (a.Read? || a.Run? || a.Interrupt?) && a.t < |s.m.at| && Flow(s)
    ensures Flow(Effect(s, a))
  {
    assert s.out + (s.list + s.aux) + [] + s.ring == s.out + s.list + s.aux + s.ring;
    assert (s.out + s.list) + [] + s.aux + s.ring == s.out + s.list + s.aux + s.ring;
  }

  lemma KeepsRoles(s: State, a: Action)
    requires Safe(s) && Taken(s, a)
    ensures Roles(Next(s, a))
  {
    var n := Next(s, a);
    MoverRole(s, a);
    forall t | 0 <= t < |n.m.at| && t != a.t ensures RoleOk(t, n.m.at[t]) {
      assert RoleOk(t, s.m.at[t]);
    }
  }

  lemma MoverRole(s: State, a: Action)
    requires Taken(s, a) && RoleOk(a.t, s.m.at[a.t])
    ensures var pc := Monitors.Target(s.m.at[a.t], MoveIn(s, a));
      && RoleOk(a.t, pc)
      && (a.t == 0 ==> (pc.Outside? <==> s.m.at[0].Exiting?))
  {
  }

  lemma KeepsDraining(s: State, a: Action)
    requires 0 < |s.m.at| && Taken(s, a) && Draining(s) && Roles(s)
    ensures Draining(Next(s, a))
  {
    assert RoleOk(a.t, s.m.at[a.t]) && RoleOk(0, s.m.at[0]);
  }

  lemma KeepsSafeTaken(s: State, a: Action)
    requires Safe(s) && Taken(s, a)
    ensures Safe(Next(s, a))
  {
    KeepsInv(s.m, a.t, MoveIn(s, a));
    KeepsFlowEffect(s, a);
    KeepsRoles(s, a);
    KeepsDraining(s, a);
  }

  lemma KeepsSafeDrain(s: State)
    requires Safe(s)
    ensures Safe(Drain(s))
  {
    KeepsFlowDrain(s);
    if s.worker == Looking && s.ring == [] {
      KeepsInv(s.m, 0, Call(Prod));
    }
  }

  lemma KeepsSafe(s: State, a: Action)
    requires Safe(s)
    ensures Safe(Next(s, a))
  {
    match a {
      case Fire(v) => KeepsFlowFire(s, v);
      case TimerStep =>
      case WorkerStep => KeepsSafeDrain(s);
      case _ => if Taken(s, a) { KeepsSafeTaken(s, a); }
    }
  }

  lemma RunSafe(readers: nat, capacity: nat, threshold: nat, run: seq<Action>)
    requires 0 < capacity
    ensures var s := After(readers, capacity, threshold, run);
      Safe(s) && |s.m.at| == readers + 1 && s.capacity == capacity
  {
    var good := (s: State) => Safe(s) && |s.m.at| == readers + 1 && s.capacity == capacity;
    InitSafe(readers, capacity, threshold);
    forall s, a | good(s) ensures good(Next(s, a)) {
      KeepsSafe(s, a);
    }
    AlwaysKeeps(Next, good, Init(readers, capacity, threshold), run);
  }

  function Grow(s: State, h: seq<int>, a: Action): seq<int> {
    if a.Fire? && s.timer.Ready? then h + [a.value] else h
  }

  /** The values of a run's firings, those that the timer was ready for. */
  function Fired(readers: nat, capacity: nat, threshold: nat, run: seq<Action>): seq<int> {
    Tally(Next, Grow, Init(readers, capacity, threshold), [], run)
  }

  lemma GeneratesFired(readers: nat, capacity: nat, threshold: nat, run: seq<Action>)
    ensures After(readers, capacity, threshold, run).generated == Fired(readers, capacity, threshold, run)
  {
    var good := (s: State, h: seq<int>) => s.generated == h;
    forall s, h, a | good(s, h) ensures good(Next(s, a), Grow(s, h, a)) {}
    TallyKeeps(Next, Grow, good, Init(readers, capacity, threshold), [], run);
  }

  /** Order and conservation on every run, readers interrupted or not: what readers got,
      the list, the worker's array and the buffer are together the numbers the timer fired
      with, without exactly the overwritten ones. */
  lemma PipelineConserves(readers: nat, capacity: nat, threshold: nat, run: seq<Action>)
    requires 0 < capacity
    ensures var s := After(readers, capacity, threshold, run);
      s.out + s.list + s.aux + s.ring == Survive(Fired(readers, capacity, threshold, run), s.dropped)
  {
    RunSafe(readers, capacity, threshold, run);
    GeneratesFired(readers, capacity, threshold, run);
  }

  /** A number is overwritten only by a firing that finds the buffer full and leaves it so, and
      it is the oldest one held. */
  lemma OverwritesOnlyWhenFull(s: State, a: Action)
    requires Safe(s) && Next(s, a).dropped != s.dropped
    ensures a.Fire? && |s.ring| == s.capacity == |Next(s, a).ring|
    ensures Next(s, a).dropped == s.dropped + {s.ring[0].id}
  {
  }

  /** How much a drain collects, and when it fits in an array of the buffer's capacity. */
  lemma DrainCount(readers: nat, capacity: nat, threshold: nat, run: seq<Action>)
    requires 0 < capacity
    ensures var s := After(readers, capacity, threshold, run);
      0 < |s.m.at| &&
      (AuxLive(s) ==>
        && |s.aux| + |s.ring| == s.start + s.ticks - s.over
        && (s.start + s.ticks <= capacity ==> |s.aux| <= capacity))
  {
    RunSafe(readers, capacity, threshold, run);
  }

  // ---- the flush ---------------------------------------------------------------------

  lemma KeepsFlushing(s: State, a: Action)
    requires Safe(s) && 0 < s.target && Flushing(s)
    ensures Flushing(Next(s, a))
  {
  }

  lemma RunFlushing(readers: nat, capacity: nat, threshold: nat, run: seq<Action>)
    requires 0 < capacity && 0 < FlushSize(threshold, capacity)
    ensures Flushing(After(readers, capacity, threshold, run))
  {
    var good := (s: State) => Safe(s) && 0 < s.target && Flushing(s);
    InitSafe(readers, capacity, threshold);
    forall s, a | good(s) ensures good(Next(s, a)) {
      KeepsSafe(s, a);
      KeepsFlushing(s, a);
    }
    AlwaysKeeps(Next, good, Init(readers, capacity, threshold), run);
  }

  /** A buffer at or above the flush size has its flush pending, in its drain loop, or about
      to be scheduled by a timer at its test. */
  predicate FlushOnItsWay(s: State) {
    |s.ring| >= s.target ==>
      s.pending || s.worker == Looking || s.worker == Taking || (s.timer != Ready && |s.ring| == s.target)
  }

  predicate FlushOnItsWayAfter(readers: nat, capacity: nat, threshold: nat, run: seq<Action>) {
    FlushOnItsWay(After(readers, capacity, threshold, run))
  }

  /** That holds in every interleaving, exactly when the flush size is not zero. */
  lemma FlushGuarantee(readers: nat, capacity: nat, threshold: nat)
    requires 0 < capacity
    ensures (forall run :: FlushOnItsWayAfter(readers, capacity, threshold, run))
            <==> 0 < FlushSize(threshold, capacity)
  {
    if 0 < FlushSize(threshold, capacity) {
      forall run: seq<Action> ensures FlushOnItsWayAfter(readers, capacity, threshold, run) {
        RunFlushing(readers, capacity, threshold, run);
      }
    } else {
      var none: seq<Action> := [];
      assert !FlushOnItsWayAfter(readers, capacity, threshold, none);
    }
  }

  /** How often a run has scheduled the work, which was not pending, at exactly the flush
      size; and how often it has started it. */
  datatype Work = Work(scheduled: nat, started: nat)

  function Counts(s: State, h: Work, a: Action): Work {
    if a.TimerStep? && s.timer.Sizing? && !s.pending && |s.ring| == s.target then h.(scheduled := h.scheduled + 1)
    else if a.WorkerStep? && s.worker == Idle && s.pending then h.(started := h.started + 1)
    else h
  }

  function WorkDone(readers: nat, capacity: nat, threshold: nat, run: seq<Action>): Work {
    Tally(Next, Counts, Init(readers, capacity, threshold), Work(0, 0), run)
  }

  /** Every drain is that of one scheduling at the flush size, and at most one scheduling is
      ever waiting for its drain. */
  lemma DrainsAsScheduled(readers: nat, capacity: nat, threshold: nat, run: seq<Action>)
    ensures var s, h := After(readers, capacity, threshold, run), WorkDone(readers, capacity, threshold, run);
      h.scheduled == h.started + if s.pending then 1 else 0
  {
    var good := (s: State, h: Work) => h.scheduled == h.started + if s.pending then 1 else 0;
    forall s, h, a | good(s, h) ensures good(Next(s, a), Counts(s, h, a)) {}
    TallyKeeps(Next, Counts, good, Init(readers, capacity, threshold), Work(0, 0), run);
  }

  /** The flush is never scheduled when the flush size is zero or more than the capacity,
      and then the list and the worker's array stay empty. */
  predicate NeverFlushes(s: State) {
    && !s.pending && s.worker == Idle && |s.ring| <= s.capacity && s.list == [] && s.aux == []
    && (s.target == 0 || s.target > s.capacity)
    && (s.timer != Ready ==> s.ring != [])
  }

  lemma KeepsNeverFlushes(s: State, a: Action)
    requires Safe(s) && NeverFlushes(s)
    ensures NeverFlushes(Next(s, a))
  {
    assert RoleOk(0, s.m.at[0]);
    if Taken(s, a) {
      assert RoleOk(a.t, s.m.at[a.t]);
    }
  }

  lemma RunNeverFlushes(readers: nat, capacity: nat, threshold: nat, run: seq<Action>)
    requires 0 < capacity && !(1 <= FlushSize(threshold, capacity) <= capacity)
    ensures NeverFlushes(After(readers, capacity, threshold, run))
  {
    var good := (s: State) => Safe(s) && NeverFlushes(s);
    InitSafe(readers, capacity, threshold);
    forall s, a | good(s) ensures good(Next(s, a)) {
      KeepsSafe(s, a);
      KeepsNeverFlushes(s, a);
    }
    AlwaysKeeps(Next, good, Init(readers, capacity, threshold), run);
  }

  // ---- reader wake-ups -----------------------------------------------------------------

  /** While a reader waits unsignalled and the list is not empty, a permit, a responding
      thread or a wake-up lost to an interruption answers for it. */
  predicate Answered(s: State) {
    s.m.waiting.cons > 0 && s.list != [] ==> Answers(s.m, Cons) > 0
  }

  lemma MoveAnswers(s: State, a: Action)
    requires Taken(s, a) && RoleOk(a.t, s.m.at[a.t])
    ensures var pc, mv := s.m.at[a.t], MoveIn(s, a);
      Hints(pc, mv, Cons) + (if Responding(Cons)(Monitors.Target(pc, mv)) then 1 else 0)
      - (if Responding(Cons)(pc) then 1 else 0)
      >= if a.Run? && ((pc == Testing(Cons) && s.list == []) || pc == Working(Cons)
                       || (pc == Waking(Prod) && (s.list == [] || s.m.waiting.cons <= 0))) then -1 else 0
  {
  }

  /** Right after a batch is added, the worker itself answers. */
  lemma AddingAnswers(s: State, a: Action)
    requires 0 < |s.m.at| && Taken(s, a) && a.Run? && s.m.at[a.t] == Working(Prod)
    ensures Answers(Next(s, a).m, Cons) > 0
  {
    var at := Next(s, a).m.at;
    assert at[a.t] == Waking(Prod) && Responding(Cons)(at[a.t]);
    NoneSuch(at, Responding(Cons));
  }

  lemma KeepsAnsweredMove(s: State, a: Action)
    requires 0 < |s.m.at| && Taken(s, a) && RoleOk(a.t, s.m.at[a.t]) && Answered(s)
    requires !(a.Run? && s.m.at[a.t] == Working(Prod))
    ensures Answered(Next(s, a))
  {
    AnswerBalance(s.m, a.t, MoveIn(s, a), Cons);
    MoveAnswers(s, a);
  }

  lemma KeepsAnswered(s: State, a: Action)
    requires Safe(s) && Answered(s)
    ensures Answered(Next(s, a))
  {
    if Taken(s, a) {
      assert RoleOk(a.t, s.m.at[a.t]);
      if a.Run? && s.m.at[a.t] == Working(Prod) {
        AddingAnswers(s, a);
      } else {
        KeepsAnsweredMove(s, a);
      }
    } else if a.WorkerStep? && Enabled(s.m, 0, Call(Prod)) {
      AnswerBalance(s.m, 0, Call(Prod), Cons);
    }
  }

  /** The wake-up law holds on every run, whatever is interrupted. */
  lemma RunAnswered(readers: nat, capacity: nat, threshold: nat, run: seq<Action>)
    requires 0 < capacity
    ensures var s := After(readers, capacity, threshold, run);
      s.m.waiting.cons > 0 && s.list != [] ==> Answers(s.m, Cons) > 0
  {
    var good := (s: State) => Safe(s) && Answered(s);
    InitSafe(readers, capacity, threshold);
    forall s, a | good(s) ensures good(Next(s, a)) {
      KeepsSafe(s, a);
      KeepsAnswered(s, a);
    }
    AlwaysKeeps(Next, good, Init(readers, capacity, threshold), run);
  }

  /** Readers are given permits only when there is a batch to read. */
  lemma WakesOnlyForABatch(s: State, a: Action)
    requires Roles(s) && Next(s, a).m.permits.cons > s.m.permits.cons
    ensures s.list != [] && s.m.waiting.cons > 0 && s.m.at[0] == Waking(Prod)
  {
    if Taken(s, a) {
      assert RoleOk(a.t, s.m.at[a.t]);
    }
  }

  predicate AllStuck(s: State) {
    forall t | 0 <= t < |s.m.at| :: !Taken(s, Run(t))
  }

  lemma StuckPlaces(s: State)
    requires Inv(s.m) && AllStuck(s)
    ensures forall t | 0 <= t < |s.m.at| ::
      s.m.at[t].Outside? || (s.m.at[t].Queued? && s.m.permits.Of(s.m.at[t].side) == 0)
  {
    forall t | 0 <= t < |s.m.at| ensures !s.m.at[t].Holds() {
      assert !Taken(s, Run(t));
    }
    FreeLock(s.m);
    forall t | 0 <= t < |s.m.at|
      ensures s.m.at[t].Outside? || (s.m.at[t].Queued? && s.m.permits.Of(s.m.at[t].side) == 0)
    {
      assert !Taken(s, Run(t));
    }
  }

  /** If no thread can move in the monitor, any reader in it sleeps before an empty list. */
  predicate ReadersRight(s: State) {
    AllStuck(s) ==> forall t | 0 <= t < |s.m.at| && !s.m.at[t].Outside? :: s.m.at[t] == Queued(Cons) && s.list == []
  }

  lemma StuckReaders(s: State)
    requires Safe(s) && AllStuck(s)
    ensures forall t | 0 <= t < |s.m.at| ::
      s.m.at[t].Outside? || (s.m.at[t] == Queued(Cons) && s.m.permits.cons == 0 && t != 0)
  {
    StuckPlaces(s);
    forall t | 0 <= t < |s.m.at|
      ensures s.m.at[t].Outside? || (s.m.at[t] == Queued(Cons) && s.m.permits.cons == 0 && t != 0)
    {
      assert RoleOk(t, s.m.at[t]);
    }
  }

  predicate Uninterrupted(s: State, a: Action) {
    !a.Interrupt?
  }

  /** Not an interruption between a permit and the lock. */
  predicate Prompt(s: State, a: Action) {
    !(a.Interrupt? && a.t < |s.m.at| && s.m.at[a.t].Woken?)
  }

  lemma NothingLost(readers: nat, capacity: nat, threshold: nat, run: seq<Action>)
    requires Throughout(Next, Prompt, Init(readers, capacity, threshold), run)
    ensures After(readers, capacity, threshold, run).m.lost == Both(0, 0)
  {
    var kept := (s: State) => s.m.lost == Both(0, 0);
    forall s, a | kept(s) && Prompt(s, a) ensures kept(Next(s, a)) {}
    Keeps(Next, Prompt, kept, Init(readers, capacity, threshold), run);
  }

  /** No batch is left unread with readers asleep, on every run in which no reader is
      interrupted between its permit and the lock. */
  lemma NoForgottenBatch(readers: nat, capacity: nat, threshold: nat, run: seq<Action>)
    requires 0 < capacity && Throughout(Next, Prompt, Init(readers, capacity, threshold), run)
    ensures ReadersRight(After(readers, capacity, threshold, run))
  {
    var s := After(readers, capacity, threshold, run);
    RunSafe(readers, capacity, threshold, run);
    if AllStuck(s) {
      StuckReaders(s);
      NothingLost(readers, capacity, threshold, run);
      RunAnswered(readers, capacity, threshold, run);
      NobodyAnswers(s);
    }
  }

  lemma NobodyAnswers(s: State)
    requires Safe(s) && Answered(s) && s.m.lost == Both(0, 0)
    requires forall t | 0 <= t < |s.m.at| ::
      s.m.at[t].Outside? || (s.m.at[t] == Queued(Cons) && s.m.permits.cons == 0 && t != 0)
    ensures (exists t :: 0 <= t < |s.m.at| && !s.m.at[t].Outside?) ==> s.list == []
  {
    AtRest(s.m, Cons);
    NoneSuch(s.m.at, At(Queued(Cons)));
    NoneSuch(s.m.at, Responding(Cons));
  }
}
