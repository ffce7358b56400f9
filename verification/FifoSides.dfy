/** The FIFO when every thread keeps to one side, whatever is interrupted: whose waits are
    always justified.

    Two threads, one a side, wake each other whenever they have to; threads all of one side
    never get past `open`, and rightly so.  The blocks moved may have any lengths. */
module FifoSides {
  import opened Counting
  import opened Monitors
  import opened FifoProc
  import opened Runs
  import opened Sides

  /** Thread t calls on side sides[t], and only what is allowed; anything may be interrupted. */
  function Calls(sides: seq<Side>, allowed: Op -> bool): (State, Action) -> bool {
    (s: State, a: Action) => a.Begin? ==> allowed(a.op) && (a.t < |sides| ==> a.side == sides[a.t])
  }

  predicate OnSide(s: State, t: nat, q: Side)
    requires Sized(s) && t < |s.m.at|
  {
    (!s.m.at[t].Outside? ==> s.m.at[t].side == q) && (s.fd[t] == Closed || s.fd[t] == Opened(q))
  }

  predicate Sided(s: State, sides: seq<Side>) {
    Safe(s) && |s.m.at| == |sides| && forall t | 0 <= t < |sides| :: OnSide(s, t, sides[t])
  }

  lemma InitSided(sides: seq<Side>, capacity: nat)
    ensures Sided(Init(|sides|, capacity), sides)
  {
    InitSafe(|sides|, capacity);
  }

  lemma KeepsOnSide(s: State, a: Action, q: Side)
    requires Taken(s, a) && CallOk(s.m.at[a.t], s.op[a.t], s.fd[a.t])
    requires OnSide(s, a.t, q) && (a.Begin? ==> a.side == q)
    ensures OnSide(Next(s, a), a.t, q)
  {
  }

  lemma KeepsSided(s: State, a: Action, sides: seq<Side>, allowed: Op -> bool)
    requires Sided(s, sides) && Calls(sides, allowed)(s, a)
    ensures Sided(Next(s, a), sides)
  {
    KeepsSafe(s, a);
    if Taken(s, a) {
      var n := Next(s, a);
      assert CallOk(s.m.at[a.t], s.op[a.t], s.fd[a.t]);
      KeepsOnSide(s, a, sides[a.t]);
      forall t | 0 <= t < |sides| && t != a.t ensures OnSide(n, t, sides[t]) {
        OthersUntouched(s, a, t);
      }
    }
  }

  // ---- what is to be shown ---------------------------------------------------------------

  predicate AllStuck(s: State) {
    forall t: nat | t < |s.m.at| :: !Taken(s, Run(t))
  }

  /** Why a call may wait: `open` for the other side to have any descriptor; a read for its
      bytes while a producer is there to write them; a write for room while a consumer is
      there to make it. */
  predicate HasReason(s: State, op: Op, q: Side) {
    || (op.Open? && s.count.Of(q.Other()) == 0)
    || (op.Read? && |s.buf| < op.len && s.count.prod > 0)
    || (op.Write? && |s.buf| + |op.data| > s.capacity && s.count.cons > 0)
  }

  /** If nothing can move, every thread is between calls or asleep with reason. */
  predicate SleepersRight(s: State)
    requires Sized(s)
  {
    AllStuck(s) ==>
      forall t | 0 <= t < |s.m.at| && !s.m.at[t].Outside? ::
        s.m.at[t].Queued? && HasReason(s, s.op[t], s.m.at[t].side)
  }

  lemma StuckPlaces(s: State)
    requires Sized(s) && OneHolder(s.m) && AllStuck(s)
    ensures forall t | 0 <= t < |s.m.at| ::
      s.m.at[t].Outside? || (s.m.at[t].Queued? && s.m.permits.Of(s.m.at[t].side) == 0)
  {
    forall t | 0 <= t < |s.m.at| ensures !s.m.at[t].Holds() {
      StuckThread(s, t);
    }
    FreeLock(s.m);
    forall t | 0 <= t < |s.m.at|
      ensures s.m.at[t].Outside? || (s.m.at[t].Queued? && s.m.permits.Of(s.m.at[t].side) == 0)
    {
      StuckThread(s, t);
    }
  }

  // ---- one thread a side -------------------------------------------------------------------

  predicate Pair(sides: seq<Side>) {
    |sides| == 2 && sides[0] != sides[1]
  }

  /** Asleep, or about to be, on its own queue. */
  predicate Asleep(pc: Pc) {
    pc.Counted? || pc.Queued?
  }

  /** A sleeper without a permit still has to wait, unless the other thread is at the very
      test that will signal it. */
  predicate Justified(s: State, t: nat, q: Side)
    requires Sized(s) && t < 2 == |s.m.at|
  {
    (Asleep(s.m.at[t]) && s.m.permits.Of(q) == 0 && s.m.at[1 - t] != Waking(q.Other())) ==> MustWait(s, s.op[t], q)
  }

  predicate PairOk(s: State, sides: seq<Side>) {
    Pair(sides) && Sided(s, sides) && Justified(s, 0, sides[0]) && Justified(s, 1, sides[1])
  }

  /** A side whose thread holds a descriptor has an open count. */
  lemma PairCounts(s: State, sides: seq<Side>, t: nat)
    requires Pair(sides) && Sided(s, sides) && t < 2
    ensures s.count.Of(sides[t]) >= if s.fd[t] == Closed then 0 else 1
  {
    assert OnSide(s, t, sides[t]) && OnSide(s, 1 - t, sides[1 - t]);
    assert sides[1 - t] != sides[t];
    OneOf(s.fd, At(Opened(sides[t])), t);
    assert Counts(s);
  }

  lemma OneOf(fd: seq<Fd>, p: Fd -> bool, t: nat)
    requires t < |fd| && forall u | 0 <= u < |fd| && p(fd[u]) :: u == t
    ensures Many(fd, p) == if p(fd[t]) then 1 else 0
  {
    assert Threads(fd, p) == if p(fd[t]) then {t} else {};
  }

  /** A sleeper on a queue without permits is still on the counter. */
  lemma SleeperCounted(m: Monitor, t: nat, q: Side)
    requires Inv(m) && t < |m.at| && Asleep(m.at[t]) && m.at[t].side == q && m.permits.Of(q) == 0
    ensures m.waiting.Of(q) > 0
  {
    assert Accounts(m, q);
    assert Owing(q)(m.at[t]);
    NoneSuch(m.at, Owing(q));
  }

  /** How a thread comes to be asleep: by failing its test, or by then freeing the lock. */
  lemma FallsAsleep(s: State, a: Action)
    requires Taken(s, a) && Asleep(Next(s, a).m.at[a.t])
    ensures var n, pc := Next(s, a), s.m.at[a.t];
      && n.buf == s.buf && n.count == s.count && n.op == s.op && n.capacity == s.capacity && n.m.permits == s.m.permits
      && (pc.Counted? || (pc.Testing? && MustWait(s, s.op[a.t], pc.side)))
  {
  }

  lemma OwnMoveJustified(s: State, a: Action, q: Side)
    requires Taken(s, a) && |s.m.at| == 2 && OneHolder(s.m)
    requires OnSide(s, a.t, q) && Justified(s, a.t, q)
    ensures Justified(Next(s, a), a.t, q)
  {
    var t := a.t;
    if Asleep(Next(s, a).m.at[t]) {
      FallsAsleep(s, a);
      if s.m.at[1 - t].Holds() {
        OnlyHolder(s.m, t, 1 - t);
      }
    }
  }

  /** The other thread does not take this side's permits, and when it finds this side
      waiting it adds one. */
  lemma OtherPermits(s: State, a: Action, q: Side)
    requires Taken(s, a)
    requires !s.m.at[a.t].Outside? ==> s.m.at[a.t].side == q.Other()
    ensures Next(s, a).m.permits.Of(q) >= s.m.permits.Of(q)
    ensures a.Run? && s.m.at[a.t] == Waking(q.Other()) && s.m.waiting.Of(q) > 0 ==> Next(s, a).m.permits.Of(q) > 0
  {
  }

  /** Unless it goes to the test at which it signals, the other thread changes neither the
      counts nor, while some descriptor is counted, the buffer. */
  lemma OtherLeavesAlone(s: State, a: Action, p: Side)
    requires Taken(s, a) && s.count != Both(0, 0)
    requires Next(s, a).m.at[a.t] != Waking(p) && OnSide(s, a.t, p)
    ensures Next(s, a).buf == s.buf && Next(s, a).count == s.count
  {
  }

  lemma SleeperHolds(s: State, sides: seq<Side>, t: nat)
    requires Pair(sides) && Sided(s, sides) && t < 2 && Asleep(s.m.at[t])
    ensures s.count != Both(0, 0)
  {
    PairCounts(s, sides, t);
    assert CallOk(s.m.at[t], s.op[t], s.fd[t]);
  }

  lemma OtherMoveJustified(s: State, a: Action, q: Side)
    requires Inv(s.m) && |s.m.at| == 2 && Taken(s, a)
    requires OnSide(s, 1 - a.t, q) && OnSide(s, a.t, q.Other())
    requires Justified(s, 1 - a.t, q)
    requires Asleep(s.m.at[1 - a.t]) ==> s.count != Both(0, 0)
    ensures Justified(Next(s, a), 1 - a.t, q)
  {
    var t, n := 1 - a.t, Next(s, a);
    OthersUntouched(s, a, t);
    if Asleep(s.m.at[t]) && n.m.permits.Of(q) == 0 && n.m.at[a.t] != Waking(q.Other()) {
      OtherPermits(s, a, q);
      SleeperCounted(s.m, t, q);
      SleeperStill(s, a, q);
    }
  }

  lemma SleeperStill(s: State, a: Action, q: Side)
    requires |s.m.at| == 2 && Taken(s, a) && OnSide(s, a.t, q.Other())
    requires s.count != Both(0, 0)
    requires
      && Asleep(s.m.at[1 - a.t]) && s.m.permits.Of(q) == 0
      && (a.Run? ==> s.m.at[a.t] != Waking(q.Other()))
      && Next(s, a).m.at[a.t] != Waking(q.Other())
    requires Justified(s, 1 - a.t, q)
    ensures MustWait(Next(s, a), s.op[1 - a.t], q)
  {
    OtherLeavesAlone(s, a, q.Other());
  }

  lemma KeepsPairOk(s: State, a: Action, sides: seq<Side>, allowed: Op -> bool)
    requires PairOk(s, sides) && Calls(sides, allowed)(s, a)
    ensures PairOk(Next(s, a), sides)
  {
    KeepsSided(s, a, sides, allowed);
    if Taken(s, a) {
      var t, u := a.t, 1 - a.t;
      assert t == 0 || t == 1;
      OwnMoveJustified(s, a, sides[t]);
      if Asleep(s.m.at[u]) {
        SleeperHolds(s, sides, u);
      }
      OtherMoveJustified(s, a, sides[u]);
    }
  }

  lemma RunPairOk(sides: seq<Side>, allowed: Op -> bool, capacity: nat, run: seq<Action>)
    requires Pair(sides) && Throughout(Next, Calls(sides, allowed), Init(2, capacity), run)
    ensures PairOk(After(2, capacity, run), sides)
  {
    var good := (s: State) => PairOk(s, sides);
    InitSided(sides, capacity);
    forall s, a | good(s) && Calls(sides, allowed)(s, a) ensures good(Next(s, a)) {
      KeepsPairOk(s, a, sides, allowed);
    }
    Keeps(Next, Calls(sides, allowed), good, Init(2, capacity), run);
  }

  /** In every state of every run of a producer and a consumer, whatever is interrupted, a
      thread asleep without a permit has reason to be, unless the other is about to signal it. */
  lemma PairJustified(sides: seq<Side>, allowed: Op -> bool, capacity: nat, run: seq<Action>, t: nat)
    requires Pair(sides) && Throughout(Next, Calls(sides, allowed), Init(2, capacity), run) && t < 2
    ensures var s, q := After(2, capacity, run), sides[t];
      s.m.at[t] == Queued(q) && s.m.permits.Of(q) == 0 && s.m.at[1 - t] != Waking(q.Other())
      ==> HasReason(s, s.op[t], q)
  {
    RunPairOk(sides, allowed, capacity, run);
    assert t == 0 || t == 1;
  }

  lemma PairRight(s: State, sides: seq<Side>)
    requires PairOk(s, sides)
    ensures SleepersRight(s)
  {
    if AllStuck(s) {
      StuckPlaces(s);
      forall t | 0 <= t < |s.m.at| && !s.m.at[t].Outside?
        ensures s.m.at[t].Queued? && HasReason(s, s.op[t], s.m.at[t].side)
      {
        assert t == 0 || t == 1;
        assert OnSide(s, t, sides[t]) && Justified(s, t, sides[t]);
      }
    }
  }

  // ---- all on one side ---------------------------------------------------------------------

  /** A thread that has not got past its `open`. */
  predicate StillOpening(pc: Pc, op: Op, fd: Fd) {
    if pc.Outside? then fd == Closed else op == Open && !pc.Exiting?
  }

  predicate LonelyOk(s: State, sides: seq<Side>, q: Side) {
    && AllOn(sides, q) && Sided(s, sides) && s.leaked.Of(q.Other()) == 0
    && forall t | 0 <= t < |s.m.at| :: StillOpening(s.m.at[t], s.op[t], s.fd[t])
  }

  lemma NobodyThere(s: State, sides: seq<Side>, q: Side)
    requires AllOn(sides, q) && Sided(s, sides) && s.leaked.Of(q.Other()) == 0
    ensures s.count.Of(q.Other()) == 0
  {
    forall t | 0 <= t < |s.fd| ensures s.fd[t] != Opened(q.Other()) {
      assert OnSide(s, t, sides[t]);
    }
    NoneSuch(s.fd, At(Opened(q.Other())));
    assert Counts(s);
  }

  lemma KeepsOpening(s: State, a: Action, q: Side)
    requires Taken(s, a) && StillOpening(s.m.at[a.t], s.op[a.t], s.fd[a.t])
    requires s.count.Of(q.Other()) == 0 && OnSide(s, a.t, q) && CallOk(s.m.at[a.t], s.op[a.t], s.fd[a.t])
    ensures var n := Next(s, a); StillOpening(n.m.at[a.t], n.op[a.t], n.fd[a.t])
    ensures Next(s, a).leaked.Of(q.Other()) == s.leaked.Of(q.Other())
  {
  }

  lemma KeepsLonelyOk(s: State, a: Action, sides: seq<Side>, allowed: Op -> bool, q: Side)
    requires LonelyOk(s, sides, q) && Calls(sides, allowed)(s, a)
    ensures LonelyOk(Next(s, a), sides, q)
  {
    KeepsSided(s, a, sides, allowed);
    if Taken(s, a) {
      var n := Next(s, a);
      NobodyThere(s, sides, q);
      assert OnSide(s, a.t, sides[a.t]);
      assert CallOk(s.m.at[a.t], s.op[a.t], s.fd[a.t]);
      KeepsOpening(s, a, q);
      forall t | 0 <= t < |n.m.at| && t != a.t ensures StillOpening(n.m.at[t], n.op[t], n.fd[t]) {
        OthersUntouched(s, a, t);
      }
    }
  }

  lemma LonelyRight(s: State, sides: seq<Side>, q: Side)
    requires LonelyOk(s, sides, q)
    ensures SleepersRight(s)
  {
    if AllStuck(s) {
      StuckPlaces(s);
      NobodyThere(s, sides, q);
      forall t | 0 <= t < |s.m.at| && !s.m.at[t].Outside?
        ensures s.m.at[t].Queued? && HasReason(s, s.op[t], s.m.at[t].side)
      {
        assert OnSide(s, t, sides[t]) && StillOpening(s.m.at[t], s.op[t], s.fd[t]);
      }
    }
  }

  lemma RunLonelyOk(sides: seq<Side>, allowed: Op -> bool, capacity: nat, run: seq<Action>, q: Side)
    requires AllOn(sides, q) && Throughout(Next, Calls(sides, allowed), Init(|sides|, capacity), run)
    ensures LonelyOk(After(|sides|, capacity, run), sides, q)
  {
    var good := (s: State) => LonelyOk(s, sides, q);
    InitSided(sides, capacity);
    forall s, a | good(s) && Calls(sides, allowed)(s, a) ensures good(Next(s, a)) {
      KeepsLonelyOk(s, a, sides, allowed, q);
    }
    Keeps(Next, Calls(sides, allowed), good, Init(|sides|, capacity), run);
  }
}
