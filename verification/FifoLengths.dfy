/** The FIFO with writes of one length w and reads of another, l: when a read can return
    bytes nobody wrote, and when a producer and a consumer can block each other. */
module FifoLengths {
  import opened Euclid
  import opened Monitors
  import opened FifoProc
  import opened FifoRecords
  import opened FifoScripts
  import opened FifoSides
  import opened Rings
  import opened Runs
  import opened Scripts

  /** Calls are of these lengths and the buffer holds a multiple of d bytes. */
  predicate Multiples(s: State, w: nat, l: nat, d: nat)
    requires 0 < d
  {
    Safe(s) && OpsFit(w, l, s) && |s.buf| % d == 0
  }

  lemma WorkMultiples(s: State, a: Action, w: nat, l: nat, d: nat)
    requires 0 < d && w % d == 0 && l % d == 0 && Multiples(s, w, l, d)
    requires Taken(s, a) && a.Run? && s.m.at[a.t].Working?
    ensures |Next(s, a).buf| % d == 0
  {
    CountsNotNegative(s);
    assert OpFits(w, l, s.op[a.t]);
    SumAndDifference(|s.buf|, w, d);
    SumAndDifference(|s.buf|, l, d);
    assert Ready(s);
    WorkSize(s, a.t, s.m.at[a.t].side);
  }

  /** How a critical section changes the number of bytes held. */
  lemma WorkSize(s: State, t: nat, q: Side)
    requires Sized(s) && t < |s.fd|
    requires s.op[t].Write? && !GivesUp(s, s.op[t]) ==> |s.op[t].data| <= s.capacity - |s.buf|
    ensures var n, op := Work(s, t, q), s.op[t];
      || n.buf == s.buf
      || (op.Read? && |n.buf| == |s.buf| - op.len)
      || (op.Write? && |n.buf| == |s.buf| + |op.data|)
  {
  }

  lemma KeepsOps(s: State, a: Action, w: nat, l: nat)
    requires Taken(s, a) && OpsFit(w, l, s) && OfLengths(w, l)(s, a)
    ensures OpsFit(w, l, Next(s, a))
    ensures !(a.Run? && s.m.at[a.t].Working?) ==> Next(s, a).buf == s.buf || Next(s, a).buf == []
  {
  }

  lemma KeepsMultiples(s: State, a: Action, w: nat, l: nat, d: nat)
    requires 0 < d && w % d == 0 && l % d == 0 && Multiples(s, w, l, d) && OfLengths(w, l)(s, a)
    ensures Multiples(Next(s, a), w, l, d)
  {
    KeepsSafe(s, a);
    if Taken(s, a) {
      KeepsOps(s, a, w, l);
      if a.Run? && s.m.at[a.t].Working? {
        WorkMultiples(s, a, w, l, d);
      }
    }
  }

  // ---- reads of what nobody wrote ------------------------------------------------------------

  /** With mixed lengths a read can return a block that nobody wrote: exactly when the
      producers have gone and left fewer bytes, but some, than it asks for.  It then gets
      zeros and the bytes stay behind. */
  lemma PhantomRead(s: State, t: nat)
    requires Safe(s) && t < |s.m.at| && s.m.at[t].Working? && s.op[t].Read?
    ensures var n, len := Next(s, Run(t)), s.op[t].len;
      && (n.phantoms != s.phantoms <==> 0 < |s.buf| < len)
      && (0 < |s.buf| < len ==> s.count.prod == 0 && n.returned == s.returned + [Zeros(len)] && n.buf == s.buf)
  {
    CountsNotNegative(s);
    assert Ready(s);
    assert CallOk(s.m.at[t], s.op[t], s.fd[t]);
  }

  lemma KeepsWhole(s: State, a: Action, w: nat, l: nat)
    requires 0 < l && w % l == 0 && Multiples(s, w, l, l) && OfLengths(w, l)(s, a)
    ensures Next(s, a).phantoms == s.phantoms
  {
    if Taken(s, a) && a.Run? && s.m.at[a.t].Working? && s.op[a.t].Read? {
      assert OpFits(w, l, s.op[a.t]);
      PhantomRead(s, a.t);
    }
  }

  predicate PhantomAfter(threads: nat, capacity: nat, w: nat, l: nat, run: seq<Action>) {
    Throughout(Next, OfLengths(w, l), Init(threads, capacity), run) && After(threads, capacity, run).phantoms > 0
  }

  lemma NoPhantoms(threads: nat, capacity: nat, w: nat, l: nat, run: seq<Action>)
    requires 0 < l && w % l == 0
    ensures !PhantomAfter(threads, capacity, w, l, run)
  {
    if Throughout(Next, OfLengths(w, l), Init(threads, capacity), run) {
      var good := (s: State) => Multiples(s, w, l, l) && s.phantoms == 0;
      InitSafe(threads, capacity);
      assert l % l == 0 by { Remainder(1, 0, l); }
      forall s, a | good(s) && OfLengths(w, l)(s, a) ensures good(Next(s, a)) {
        KeepsMultiples(s, a, w, l, l);
        KeepsWhole(s, a, w, l);
      }
      Keeps(Next, OfLengths(w, l), good, Init(threads, capacity), run);
    }
  }

  // ---- a producer and a consumer, connected ----------------------------------------------------

  /** Threads i and j call as producer and consumer. */
  predicate Match(sides: seq<Side>, i: nat, j: nat) {
    i < |sides| && j < |sides| && sides[i] == Prod && sides[j] == Cons
  }

  /** The calls allowed. */
  function Fits(w: nat, l: nat): Op -> bool {
    (op: Op) => OpFits(w, l, op)
  }

  function Held(capacity: nat, prods: nat, size: nat): Data {
    Data(Gauge(capacity, size, Both(prods, 1)), 0)
  }

  /** Everybody is between calls, i and j hold their descriptors, the buffer has `size` bytes. */
  function Quiet(sides: seq<Side>, capacity: nat, i: nat, j: nat, size: nat): Shape
    requires i < |sides| && j < |sides|
  {
    var d := Held(capacity, 1, size);
    Placed(Placed(Nobody(sides, capacity), i, Solo(Place(Outside, NoOp, Opened(Prod)), Free(), d)),
           j, Solo(Place(Outside, NoOp, Opened(Cons)), Free(), d))
  }

  /** Only i has opened, and sleeps. */
  function Waiter(sides: seq<Side>, capacity: nat, i: nat): Shape
    requires i < |sides|
  {
    Placed(Nobody(sides, capacity), i,
           Solo(Place(Queued(Prod), Open, Opened(Prod)), LocksWait(Free(), Prod, 1), Empty(capacity, Both(1, 0))))
  }

  /** Then j has opened and woken it. */
  function Woke(sides: seq<Side>, capacity: nat, i: nat, j: nat): Shape
    requires i < |sides| && j < |sides|
  {
    Placed(Waiter(sides, capacity, i), j,
           Solo(Place(Outside, NoOp, Opened(Cons)), Locks(1, Both(1, 0), Both(0, 0)), Held(capacity, 1, 0)))
  }

  lemma ShowWoke(sides: seq<Side>, allowed: Op -> bool, capacity: nat, i: nat, j: nat)
    requires allowed(Open) && Match(sides, i, j)
    ensures Shown(sides, allowed, capacity, Woke(sides, capacity, i, j))
  {
    ShownFirst(sides, allowed, capacity);
    ShownOpenSleeps(sides, allowed, capacity, Nobody(sides, capacity), i, Prod);
    ShownOpenWakes(sides, allowed, capacity, Waiter(sides, capacity, i), j, Cons);
  }

  lemma Connected(sides: seq<Side>, allowed: Op -> bool, capacity: nat, i: nat, j: nat)
    requires allowed(Open) && Match(sides, i, j)
    ensures Shown(sides, allowed, capacity, Quiet(sides, capacity, i, j, 0))
  {
    var v := Woke(sides, capacity, i, j);
    ShowWoke(sides, allowed, capacity, i, j);
    ShownOpenReturns(sides, allowed, capacity, v, i, Prod);
    assert Placed(v, i, Solo(Place(Outside, NoOp, Opened(Prod)), Free(), v.data)) == Quiet(sides, capacity, i, j, 0);
  }

  lemma QuietWrite(sides: seq<Side>, allowed: Op -> bool, capacity: nat, i: nat, j: nat, size: nat, w: nat)
    requires Match(sides, i, j) && Shown(sides, allowed, capacity, Quiet(sides, capacity, i, j, size))
    requires allowed(Write(Zeros(w))) && size + w <= capacity
    ensures Shown(sides, allowed, capacity, Quiet(sides, capacity, i, j, size + w))
  {
    var v := Quiet(sides, capacity, i, j, size);
    ShownMoves(sides, allowed, capacity, v, i, Prod, Write(Zeros(w)));
    assert Placed(v, i, Solo(Place(Outside, NoOp, Opened(Prod)), Free(), Held(capacity, 1, size + w)))
           == Quiet(sides, capacity, i, j, size + w);
  }

  lemma QuietRead(sides: seq<Side>, allowed: Op -> bool, capacity: nat, i: nat, j: nat, size: nat, l: nat)
    requires Match(sides, i, j) && Shown(sides, allowed, capacity, Quiet(sides, capacity, i, j, size))
    requires allowed(Read(l)) && 0 < l <= size && l <= capacity
    ensures Shown(sides, allowed, capacity, Quiet(sides, capacity, i, j, size - l))
  {
    var v := Quiet(sides, capacity, i, j, size);
    ShownMoves(sides, allowed, capacity, v, j, Cons, Read(l));
    assert Placed(v, j, Solo(Place(Outside, NoOp, Opened(Cons)), Free(), Held(capacity, 1, size - l)))
           == Quiet(sides, capacity, i, j, size - l);
  }

  /** The consumer reads as long as it finds enough. */
  lemma {:induction false} ReadDown(
    sides: seq<Side>, allowed: Op -> bool, capacity: nat, i: nat, j: nat, size: nat, l: nat)
    requires Match(sides, i, j) && Shown(sides, allowed, capacity, Quiet(sides, capacity, i, j, size))
    requires allowed(Read(l)) && 0 < l <= capacity
    ensures Shown(sides, allowed, capacity, Quiet(sides, capacity, i, j, size % l))
    decreases size
  {
    if size < l {
      Remainder(0, size, l);
    } else {
      QuietRead(sides, allowed, capacity, i, j, size, l);
      ReadDown(sides, allowed, capacity, i, j, size - l, l);
      OneLess(size, l);
    }
  }

  lemma OneLess(n: nat, l: nat)
    requires 0 < l <= n
    ensures (n - l) % l == n % l
  {
    var q, r := n / l, n % l;
    assert n == l * q + r;
    assert n - l == (q - 1) * l + r;
    Remainder(q - 1, r, l);
  }

  // ---- the run with a phantom ----------------------------------------------------------------

  /** What is left of a written block after whole reads, once its writer is gone. */
  function Orphan(sides: seq<Side>, capacity: nat, i: nat, j: nat, size: nat): Shape
    requires i < |sides| && j < |sides|
  {
    Placed(Quiet(sides, capacity, i, j, size), i,
           Solo(Place(Outside, NoOp, Closed), Free(), Held(capacity, 0, size)))
  }

  lemma ShowOrphan(sides: seq<Side>, capacity: nat, i: nat, j: nat, w: nat, l: nat)
    requires Match(sides, i, j) && w <= capacity && 0 < l <= capacity
    ensures Shown(sides, Fits(w, l), capacity, Orphan(sides, capacity, i, j, w % l))
  {
    Connected(sides, Fits(w, l), capacity, i, j);
    QuietWrite(sides, Fits(w, l), capacity, i, j, 0, w);
    ReadDown(sides, Fits(w, l), capacity, i, j, w, l);
    ShownReleases(sides, Fits(w, l), capacity, Quiet(sides, capacity, i, j, w % l), i, Prod);
  }

  /** Then j has read more than that. */
  function Phantom(sides: seq<Side>, capacity: nat, i: nat, j: nat, size: nat): Shape
    requires i < |sides| && j < |sides|
  {
    Placed(Orphan(sides, capacity, i, j, size), j,
           Solo(Place(Outside, NoOp, Opened(Cons)), Free(), Held(capacity, 0, size).(phantoms := 1)))
  }

  lemma ShowPhantom(sides: seq<Side>, capacity: nat, i: nat, j: nat, w: nat, l: nat)
    requires Match(sides, i, j) && w <= capacity && 0 < l <= capacity && w % l != 0
    ensures Shown(sides, Fits(w, l), capacity, Phantom(sides, capacity, i, j, w % l))
  {
    ShowOrphan(sides, capacity, i, j, w, l);
    ShownMoves(sides, Fits(w, l), capacity, Orphan(sides, capacity, i, j, w % l), j, Cons, Read(l));
  }

  /** A block is written, read down to less than a read takes, and the producer releases:
      the next read returns zeros.  Nothing is interrupted. */
  lemma PhantomRun(threads: nat, capacity: nat, w: nat, l: nat) returns (run: seq<Action>)
    requires threads >= 2 && w <= capacity && 0 < l <= capacity && w % l != 0
    ensures Throughout(Next, OfLengths(w, l), Init(threads, capacity), run)
    ensures Throughout(Next, Uninterrupted, Init(threads, capacity), run)
    ensures After(threads, capacity, run).phantoms == 1
  {
    var sides := seq(threads, t => if t == 0 then Prod else Cons);
    ShowPhantom(sides, capacity, 0, 1, w, l);
    run := ShownRun(sides, Fits(w, l), capacity, Phantom(sides, capacity, 0, 1, w % l));
    ThroughoutWeaken(Next, Calls(sides, Fits(w, l)), OfLengths(w, l), Init(threads, capacity), run);
  }

  /** Two threads or more can bring about a read of bytes nobody wrote, if and only if a
      write is not a whole number of reads; interruptions make no difference. */
  lemma PhantomsPossible(threads: nat, capacity: nat, w: nat, l: nat)
    requires threads >= 2 && w <= capacity && 0 < l <= capacity
    ensures (exists run :: PhantomAfter(threads, capacity, w, l, run)) <==> w % l != 0
  {
    if w % l != 0 {
      var run := PhantomRun(threads, capacity, w, l);
      assert PhantomAfter(threads, capacity, w, l, run);
    } else {
      forall run: seq<Action> ensures !PhantomAfter(threads, capacity, w, l, run) {
        NoPhantoms(threads, capacity, w, l, run);
      }
    }
  }

  // ---- waiting for each other ------------------------------------------------------------------

  /** Asleep with no permit to take. */
  predicate Blocked(s: State, t: nat)
    requires t < |s.m.at|
  {
    s.m.at[t].Queued? && s.m.permits.Of(s.m.at[t].side) == 0
  }

  predicate BothBlockedAfter(sides: seq<Side>, capacity: nat, w: nat, l: nat, run: seq<Action>) {
    && Throughout(Next, Calls(sides, Fits(w, l)), Init(2, capacity), run)
    && var s := After(2, capacity, run); Blocked(s, 0) && Blocked(s, 1)
  }

  lemma RunMultiples(sides: seq<Side>, capacity: nat, w: nat, l: nat, d: nat, run: seq<Action>)
    requires 0 < d && w % d == 0 && l % d == 0
    requires Throughout(Next, Calls(sides, Fits(w, l)), Init(2, capacity), run)
    ensures Multiples(After(2, capacity, run), w, l, d)
  {
    var good := (s: State) => Multiples(s, w, l, d);
    InitSafe(2, capacity);
    forall s, a | good(s) && Calls(sides, Fits(w, l))(s, a) ensures good(Next(s, a)) {
      KeepsMultiples(s, a, w, l, d);
    }
    Keeps(Next, Calls(sides, Fits(w, l)), good, Init(2, capacity), run);
  }

  /** Two threads blocked together are in a read and a write. */
  lemma BlockedHow(s: State, sides: seq<Side>, w: nat, l: nat)
    requires PairOk(s, sides) && OpsFit(w, l, s) && Blocked(s, 0) && Blocked(s, 1)
    ensures s.capacity - |s.buf| < w && |s.buf| < l
  {
    BlockedHolds(s, sides, w, l, 0);
    BlockedHolds(s, sides, w, l, 1);
    PairCounts(s, sides, 0);
    PairCounts(s, sides, 1);
  }

  lemma BlockedHolds(s: State, sides: seq<Side>, w: nat, l: nat, t: nat)
    requires PairOk(s, sides) && OpsFit(w, l, s) && t < 2 && Blocked(s, 0) && Blocked(s, 1)
    ensures s.fd[t] == Opened(sides[t])
    ensures s.count.Of(sides[t].Other()) == 0 || if sides[t].Prod? then s.capacity - |s.buf| < w else |s.buf| < l
  {
    assert t == 0 || t == 1;
    assert OnSide(s, t, sides[t]) && OnSide(s, 1 - t, sides[1 - t]);
    assert Justified(s, t, sides[t]);
    assert CallOk(s.m.at[t], s.op[t], s.fd[t]);
    assert OpFits(w, l, s.op[t]);
  }

  lemma NeverBlocked(sides: seq<Side>, capacity: nat, w: nat, l: nat, run: seq<Action>)
    requires Pair(sides) && 0 < w && 0 < l && w + l - Gcd(w, l) <= capacity
    ensures !BothBlockedAfter(sides, capacity, w, l, run)
  {
    if BothBlockedAfter(sides, capacity, w, l, run) {
      var s, g := After(2, capacity, run), Gcd(w, l);
      GcdDivides(w, l);
      RunPairOk(sides, Fits(w, l), capacity, run);
      RunMultiples(sides, capacity, w, l, g, run);
      BlockedHow(s, sides, w, l);
      SumAndDifference(l, |s.buf|, g);
      AtLeast(l - |s.buf|, g);
      assert false;
    }
  }

  lemma AtLeast(n: nat, d: nat)
    requires 0 < d && 0 < n && n % d == 0
    ensures d <= n
  {
    if n < d {
      Remainder(0, n, d);
    }
  }

  /** The producer i sleeps in a write. */
  function WriterAsleep(sides: seq<Side>, capacity: nat, i: nat, j: nat, w: nat, size: nat): Shape
    requires i < |sides| && j < |sides|
  {
    Placed(Quiet(sides, capacity, i, j, size), i,
           Solo(Place(Queued(Prod), Write(Zeros(w)), Opened(Prod)), LocksWait(Free(), Prod, 1),
                Held(capacity, 1, size)))
  }

  /** And the consumer j in a read. */
  function Deadlock(sides: seq<Side>, capacity: nat, i: nat, j: nat, w: nat, l: nat, size: nat): Shape
    requires i < |sides| && j < |sides|
  {
    Placed(WriterAsleep(sides, capacity, i, j, w, size), j,
           Solo(Place(Queued(Cons), Read(l), Opened(Cons)), LocksWait(LocksWait(Free(), Prod, 1), Cons, 1),
                Held(capacity, 1, size)))
  }

  lemma ShowDeadlock(sides: seq<Side>, capacity: nat, i: nat, j: nat, w: nat, l: nat, size: nat)
    requires Match(sides, i, j) && w <= capacity && l <= capacity
    requires Shown(sides, Fits(w, l), capacity, Quiet(sides, capacity, i, j, size))
    requires capacity - w < size < l
    ensures Shown(sides, Fits(w, l), capacity, Deadlock(sides, capacity, i, j, w, l, size))
  {
    ShownSleeps(sides, Fits(w, l), capacity, Quiet(sides, capacity, i, j, size), i, Prod, Write(Zeros(w)));
    ShownSleeps(sides, Fits(w, l), capacity, WriterAsleep(sides, capacity, i, j, w, size), j, Cons, Read(l));
  }

  ghost predicate DeadlockShown(sides: seq<Side>, capacity: nat, i: nat, j: nat, w: nat, l: nat)
    requires i < |sides| && j < |sides|
  {
    exists size: nat :: Shown(sides, Fits(w, l), capacity, Deadlock(sides, capacity, i, j, w, l, size))
  }

  /** Reading whenever possible and writing otherwise: after n writes the remainder of n * w
      is in the buffer, unless the two blocked each other before. */
  lemma {:induction false} Greedy(sides: seq<Side>, capacity: nat, i: nat, j: nat, w: nat, l: nat, n: nat)
    requires Match(sides, i, j) && w <= capacity && 0 < l <= capacity
    ensures DeadlockShown(sides, capacity, i, j, w, l)
            || Shown(sides, Fits(w, l), capacity, Quiet(sides, capacity, i, j, n * w % l))
    decreases n
  {
    if n == 0 {
      Connected(sides, Fits(w, l), capacity, i, j);
      Remainder(0, 0, l);
    } else {
      Greedy(sides, capacity, i, j, w, l, n - 1);
      if !DeadlockShown(sides, capacity, i, j, w, l) {
        var sent := (n - 1) * w;
        assert n * w == sent + w;
        GreedyStep(sides, capacity, i, j, w, l, sent);
      }
    }
  }

  lemma GreedyStep(sides: seq<Side>, capacity: nat, i: nat, j: nat, w: nat, l: nat, sent: nat)
    requires Match(sides, i, j) && w <= capacity && 0 < l <= capacity
    requires Shown(sides, Fits(w, l), capacity, Quiet(sides, capacity, i, j, sent % l))
    ensures DeadlockShown(sides, capacity, i, j, w, l)
            || Shown(sides, Fits(w, l), capacity, Quiet(sides, capacity, i, j, (sent + w) % l))
  {
    var size := sent % l;
    if size + w > capacity {
      ShowDeadlock(sides, capacity, i, j, w, l, size);
    } else {
      QuietWrite(sides, Fits(w, l), capacity, i, j, size, w);
      ReadDown(sides, Fits(w, l), capacity, i, j, size + w, l);
      RestPlus(sent, w, l);
    }
  }

  lemma RestPlus(n: nat, w: nat, l: nat)
    requires 0 < l
    ensures (n % l + w) % l == (n + w) % l
  {
    var q, r := n / l, n % l;
    var p, s := (r + w) / l, (r + w) % l;
    assert n == l * q + r && r + w == l * p + s;
    assert n + w == (q + p) * l + s;
    Remainder(q + p, s, l);
  }

  lemma GreedyBlocks(sides: seq<Side>, capacity: nat, i: nat, j: nat, w: nat, l: nat)
    requires Match(sides, i, j) && 0 < w <= capacity && 0 < l <= capacity && w + l - Gcd(w, l) > capacity
    ensures DeadlockShown(sides, capacity, i, j, w, l)
  {
    var g := Gcd(w, l);
    GcdDivides(w, l);
    AtLeast(l, g);
    var n, m := Shortfall(w, l);
    assert n * w == (m - 1) * l + (l - g);
    Remainder(m - 1, l - g, l);
    Greedy(sides, capacity, i, j, w, l, n);
    if !DeadlockShown(sides, capacity, i, j, w, l) {
      ShowDeadlock(sides, capacity, i, j, w, l, l - g);
    }
  }

  lemma DeadlockBlocks(s: State, sides: seq<Side>, capacity: nat, i: nat, j: nat, w: nat, l: nat, size: nat)
    requires Match(sides, i, j) && |sides| == 2 && Sees(s, Deadlock(sides, capacity, i, j, w, l, size))
    ensures |s.m.at| == 2 && Blocked(s, 0) && Blocked(s, 1)
  {
    var v := Deadlock(sides, capacity, i, j, w, l, size);
    assert i != j && InPlace(s, i, v.places[i]) && InPlace(s, j, v.places[j]);
    assert s.m.at[i] == Queued(Prod) && s.m.at[j] == Queued(Cons);
  }

  /** Nothing need be interrupted for that. */
  lemma BlockingRun(sides: seq<Side>, capacity: nat, w: nat, l: nat) returns (run: seq<Action>)
    requires Pair(sides) && 0 < w <= capacity && 0 < l <= capacity && w + l - Gcd(w, l) > capacity
    ensures BothBlockedAfter(sides, capacity, w, l, run)
    ensures Throughout(Next, Uninterrupted, Init(2, capacity), run)
  {
    var i: nat, j: nat := if sides[0] == Prod then 0 else 1, if sides[0] == Prod then 1 else 0;
    GreedyBlocks(sides, capacity, i, j, w, l);
    var size: nat :| Shown(sides, Fits(w, l), capacity, Deadlock(sides, capacity, i, j, w, l, size));
    run := ShownRun(sides, Fits(w, l), capacity, Deadlock(sides, capacity, i, j, w, l, size));
    DeadlockBlocks(After(2, capacity, run), sides, capacity, i, j, w, l, size);
  }

  /** A producer writing w bytes at a time and a consumer reading l can end up asleep
      waiting for each other, if and only if w + l - gcd(w, l) exceeds the capacity;
      interruptions make no difference. */
  lemma BlockingPossible(sides: seq<Side>, capacity: nat, w: nat, l: nat)
    requires Pair(sides) && 0 < w <= capacity && 0 < l <= capacity
    ensures (exists run :: BothBlockedAfter(sides, capacity, w, l, run)) <==> w + l - Gcd(w, l) > capacity
  {
    if w + l - Gcd(w, l) > capacity {
      var run := BlockingRun(sides, capacity, w, l);
      assert BothBlockedAfter(sides, capacity, w, l, run);
    } else {
      forall run: seq<Action> ensures !BothBlockedAfter(sides, capacity, w, l, run) {
        NeverBlocked(sides, capacity, w, l, run);
      }
    }
  }

  /** It is enough that some common divisor d of the two lengths leaves w + l - d within the
      capacity, since d divides the greatest one. */
  lemma DivisorSuffices(sides: seq<Side>, capacity: nat, w: nat, l: nat, d: nat, run: seq<Action>)
    requires Pair(sides) && 0 < w && 0 < l && 0 < d && w % d == 0 && l % d == 0 && w + l - d <= capacity
    ensures !BothBlockedAfter(sides, capacity, w, l, run)
  {
    GcdDivides(w, l);
    GcdGreatest(w, l, d);
    AtLeast(Gcd(w, l), d);
    NeverBlocked(sides, capacity, w, l, run);
  }

  /** With records of one length that fits, the two sides are never blocked together. */
  lemma NeverBothBlocked(sides: seq<Side>, capacity: nat, run: seq<Action>, length: nat)
    requires Pair(sides) && 0 < length <= capacity
    requires Throughout(Next, Calls(sides, Fits(length, length)), Init(2, capacity), run)
    ensures var s := After(2, capacity, run); !(Blocked(s, 0) && Blocked(s, 1))
  {
    Remainder(1, 0, length);
    DivisorSuffices(sides, capacity, length, length, length, run);
  }
}
