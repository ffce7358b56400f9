/** The FIFO against the byte stream that its calls make by themselves: what the runs say of
    the opens, the blocks written and the lengths read decides what every read returns. */
module FifoStreams {
  import opened Counting
  import opened Monitors
  import opened FifoProc
  import opened Rings
  import opened Runs

  /** Told by the actions alone: the call each thread is in, the opens less the releases, the
      blocks written since both counts were last zero at a release, how many bytes of them
      were read, and what the reads were given; and the calls lost: releases interrupted, and
      opens that returned with -EINTR after they had counted themselves. */
  datatype Log = Log(
    op: seq<Op>, count: Both<int>, written: seq<seq<Byte>>, position: nat, given: seq<seq<Byte>>,
    lost: Both<nat>)

  function NoCalls(threads: nat): Log {
    Log(seq(threads, _ => NoOp), Both(0, 0), [], 0, [], Both(0, 0))
  }

  /** A critical section that is run: a read is given the next bytes of the stream. */
  function Section(h: Log, op: Op, q: Side): Log {
    var stream := Concat(h.written);
    match op {
      case Open => h.(count := h.count.With(q, h.count.Of(q) + 1))
      case Release => h.(count := h.count.With(q, h.count.Of(q) - 1))
      case Read(len) =>
        if h.position + len <= |stream| && !(h.count.prod == 0 && h.position == |stream|) then
          h.(position := h.position + len, given := h.given + [stream[h.position..h.position + len]])
        else if h.position < |stream| then h.(given := h.given + [Zeros(len)])
        else h
      case Write(data) => if h.count.cons == 0 then h else h.(written := h.written + [data])
      case NoOp => h
    }
  }

  /** Of the state only where threads are is looked at, and which actions are taken. */
  function Grow(s: State, h: Log, a: Action): Log {
    if !Taken(s, a) || |h.op| != |s.m.at| then h
    else match a {
      case Begin(t, _, op) => h.(op := h.op[t := op])
      case Run(t) =>
        if s.m.at[t].Working? then Section(h, h.op[t], s.m.at[t].side)
        else if s.m.at[t].Testing? && h.op[t].Release? && h.count == Both(0, 0) then
          h.(written := [], position := 0, given := [])
        else if s.m.at[t].Leaving? && h.op[t].Open? then h.(lost := Inc(h.lost, s.m.at[t].side))
        else h
      case Interrupt(t) =>
        if (s.m.at[t].Entering? && h.op[t].Release?) || (s.m.at[t].Woken? && h.op[t].Open?) then
          h.(lost := Inc(h.lost, s.m.at[t].side))
        else h
    }
  }

  function Told(threads: nat, capacity: nat, run: seq<Action>): Log {
    Tally(Next, Grow, Init(threads, capacity), NoCalls(threads), run)
  }

  predicate Matches(s: State, h: Log) {
    && h.op == s.op && h.count == s.count && h.written == s.accepted && h.given == s.returned && h.lost == s.leaked
    && h.position <= |Concat(h.written)| && s.buf == Concat(h.written)[h.position..]
  }

  lemma WrittenMore(h: Log, data: seq<Byte>)
    requires h.position <= |Concat(h.written)|
    ensures var more := Concat(h.written + [data]);
      h.position <= |more| && more[h.position..] == Concat(h.written)[h.position..] + data
  {
    ConcatAppend(h.written, data);
  }

  lemma SectionMatches(s: State, h: Log, t: nat, q: Side)
    requires Safe(s) && Matches(s, h) && t < |s.m.at| && s.m.at[t] == Working(q)
    requires !s.op[t].OpensOrCloses() ==> !MustWait(s, s.op[t], q)
    ensures Matches(Work(s, t, q), Section(h, s.op[t], q))
  {
    assert CallOk(s.m.at[t], s.op[t], s.fd[t]);
    CountsNotNegative(s);
    match s.op[t] {
      case Write(data) => WrittenMore(h, data);
      case Read(len) => ReadMatches(s, h, t, q, len);
      case _ =>
    }
  }

  lemma ReadMatches(s: State, h: Log, t: nat, q: Side, len: nat)
    requires Sized(s) && Matches(s, h) && t < |s.fd| && s.op[t] == Read(len)
    requires s.count.prod >= 0 && !MustWait(s, s.op[t], Cons)
    ensures Matches(Work(s, t, q), Section(h, s.op[t], q))
  {
    var stream, p := Concat(h.written), h.position;
    if p + len <= |stream| {
      assert s.buf[..len] == stream[p..p + len] && s.buf[len..] == stream[p + len..];
    }
  }

  lemma KeepsMatches(s: State, h: Log, a: Action)
    requires Safe(s) && Matches(s, h)
    ensures Matches(Next(s, a), Grow(s, h, a))
  {
    if Taken(s, a) && a.Run? && s.m.at[a.t].Working? {
      assert Ready(s);
      SectionMatches(s, h, a.t, s.m.at[a.t].side);
    }
  }

  /** On every run, interruptions included: each thread's call, the open counts and the blocks
      accepted are as the actions say, each count exceeds the descriptors held by the calls
      lost, every read was given the next bytes of the stream of
      blocks written (or zeros, when some but too few were left), and the buffer holds the
      rest of the stream. */
  lemma StreamsAsTold(threads: nat, capacity: nat, run: seq<Action>)
    ensures var s, h := After(threads, capacity, run), Told(threads, capacity, run);
      && s.op == h.op && s.count == h.count && s.accepted == h.written && s.returned == h.given
      && h.position <= |Concat(h.written)| && s.buf == Concat(h.written)[h.position..]
      && s.count.prod == Many(s.fd, At(Opened(Prod))) + h.lost.prod
      && s.count.cons == Many(s.fd, At(Opened(Cons))) + h.lost.cons
  {
    var good := (s: State, h: Log) => Safe(s) && Matches(s, h);
    InitSafe(threads, capacity);
    forall s, h, a | good(s, h) ensures good(Next(s, a), Grow(s, h, a)) {
      KeepsSafe(s, a);
      KeepsMatches(s, h, a);
    }
    TallyKeeps(Next, Grow, good, Init(threads, capacity), NoCalls(threads), run);
  }

  predicate NotTooLong(op: Op, capacity: nat) {
    (op.Read? ==> op.len <= capacity) && (op.Write? ==> |op.data| <= capacity)
  }

  /** A read or write longer than the buffer never gets started. */
  lemma TooLongIsRefused(threads: nat, capacity: nat, run: seq<Action>, t: nat)
    requires t < threads
    ensures var op := After(threads, capacity, run).op[t];
      (op.Read? ==> op.len <= capacity) && (op.Write? ==> |op.data| <= capacity)
  {
    var good := (s: State) =>
      s.capacity == capacity && forall u | 0 <= u < |s.op| :: NotTooLong(s.op[u], capacity);
    forall s, a | good(s) ensures good(Next(s, a)) {
      if Taken(s, a) && a.Begin? {
        assert NotTooLong(a.op, capacity);
      }
    }
    AlwaysKeeps(Next, good, Init(threads, capacity), run);
    assert NotTooLong(After(threads, capacity, run).op[t], capacity);
  }
}
