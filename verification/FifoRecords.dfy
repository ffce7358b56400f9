/** The FIFO carrying records of one length, as `fifotest` uses it. */
module FifoRecords {
  import opened Counting
  import opened Monitors
  import opened Rings
  import opened FifoProc
  import opened Runs

  /** Every block of a sequence has `length` bytes. */
  predicate AllOf(length: nat, blocks: seq<seq<Byte>>) {
    forall i | 0 <= i < |blocks| :: |blocks[i]| == length
  }

  /** Writes move w bytes, reads l. */
  predicate OpFits(w: nat, l: nat, op: Op) {
    (op.Read? ==> op.len == l) && (op.Write? ==> |op.data| == w)
  }

  predicate OpsFit(w: nat, l: nat, s: State) {
    forall t | 0 <= t < |s.op| :: OpFits(w, l, s.op[t])
  }

  /** Every call begun is of these lengths; anything may be interrupted. */
  function OfLengths(w: nat, l: nat): (State, Action) -> bool {
    (s: State, a: Action) => a.Begin? ==> OpFits(w, l, a.op)
  }

  /** The records accepted and not yet taken. */
  function Pending(s: State): seq<seq<Byte>>
    requires |s.taken| <= |s.accepted|
  {
    s.accepted[|s.taken|..]
  }

  /** The records taken are the first ones accepted, the buffer holds exactly the others,
      whole, and readers got what was taken. */
  predicate Records(s: State, length: nat) {
    && Sized(s) && OpsFit(length, length, s)
    && AllOf(length, s.accepted)
    && s.taken <= s.accepted && s.returned == s.taken && s.phantoms == 0
    && s.buf == Concat(Pending(s))
  }

  lemma {:induction false} ConcatFirst(blocks: seq<seq<Byte>>)
    requires blocks != []
    ensures Concat(blocks) == blocks[0] + Concat(blocks[1..])
    decreases |blocks|
  {
    var init, last := blocks[..|blocks| - 1], blocks[|blocks| - 1];
    if init == [] {
      assert blocks == [last];
      assert Concat(init) == [];
    } else {
      ConcatFirst(init);
      assert blocks[1..][..|blocks| - 2] == init[1..];
    }
  }

  lemma {:induction false} ConcatLength(blocks: seq<seq<Byte>>, length: nat)
    requires AllOf(length, blocks)
    ensures |Concat(blocks)| == |blocks| * length
    decreases |blocks|
  {
    if blocks != [] {
      var init := blocks[..|blocks| - 1];
      ConcatLength(init, length);
      assert |blocks| * length == |init| * length + length;
    }
  }

  /** A buffer with fewer bytes than a record is empty; otherwise it starts with a whole record. */
  lemma WholeRecords(s: State, length: nat)
    requires Records(s, length) && 0 < length
    ensures |s.buf| < length <==> s.buf == []
    ensures s.buf == [] <==> s.taken == s.accepted
    ensures s.buf != [] ==>
      s.buf[..length] == s.accepted[|s.taken|] && s.buf[length..] == Concat(s.accepted[|s.taken| + 1..])
  {
    if Pending(s) != [] {
      ConcatFirst(Pending(s));
      assert Pending(s)[0] == s.accepted[|s.taken|];
      assert Pending(s)[1..] == s.accepted[|s.taken| + 1..];
    }
  }

  lemma KeepsRecordsWrite(s: State, t: nat, q: Side, length: nat)
    requires Safe(s) && Records(s, length) && t < |s.op| && s.op[t].Write? && !GivesUp(s, s.op[t])
    requires |s.buf| + |s.op[t].data| <= s.capacity
    ensures Records(Work(s, t, q), length)
  {
    var data := s.op[t].data;
    var n := Work(s, t, q);
    assert Pending(n) == Pending(s) + [data];
    ConcatAppend(Pending(s), data);
  }

  lemma KeepsRecordsRead(s: State, t: nat, q: Side, length: nat)
    requires 0 < length && Records(s, length) && t < |s.op| && s.op[t].Read?
    requires |s.buf| < length ==> s.count.prod == 0
    ensures Records(Work(s, t, q), length)
  {
    WholeRecords(s, length);
    if s.buf != [] {
      var n := Work(s, t, q);
      assert n.taken == s.taken + [s.accepted[|s.taken|]];
    }
  }

  lemma WorkRecords(s: State, t: nat, q: Side, length: nat)
    requires 0 < length && Safe(s) && Records(s, length) && t < |s.m.at| && s.m.at[t] == Working(q)
    ensures Records(Work(s, t, q), length)
  {
    CountsNotNegative(s);
    assert OpFits(length, length, s.op[t]);
    assert CallOk(s.m.at[t], s.op[t], s.fd[t]);
    match s.op[t] {
      case Read(_) => KeepsRecordsRead(s, t, q, length);
      case Write(_) => if !GivesUp(s, s.op[t]) { KeepsRecordsWrite(s, t, q, length); }
      case _ =>
    }
  }

  lemma OtherRecords(s: State, a: Action, length: nat)
    requires Records(s, length) && Taken(s, a) && OfLengths(length, length)(s, a)
    requires !(a.Run? && s.m.at[a.t].Working?)
    ensures Records(Effect(s, a), length)
  {
  }

  lemma KeepsRecords(s: State, a: Action, length: nat)
    requires 0 < length && Safe(s) && Records(s, length) && OfLengths(length, length)(s, a)
    ensures Records(Next(s, a), length)
  {
    if Taken(s, a) {
      if a.Run? && s.m.at[a.t].Working? {
        WorkRecords(s, a.t, s.m.at[a.t].side, length);
      } else {
        OtherRecords(s, a, length);
      }
    }
  }

  lemma RunRecords(threads: nat, capacity: nat, run: seq<Action>, length: nat)
    requires 0 < length && Throughout(Next, OfLengths(length, length), Init(threads, capacity), run)
    ensures Safe(After(threads, capacity, run)) && Records(After(threads, capacity, run), length)
  {
    var good := (s: State) => Safe(s) && Records(s, length);
    InitSafe(threads, capacity);
    forall s, a | good(s) && OfLengths(length, length)(s, a) ensures good(Next(s, a)) {
      KeepsSafe(s, a);
      KeepsRecords(s, a, length);
    }
    Keeps(Next, OfLengths(length, length), good, Init(threads, capacity), run);
  }

  /** Whole-record delivery, for any number of readers and writers and whatever is
      interrupted: readers get the written records, whole, once each and in order, and the
      buffer holds a whole number of records. */
  lemma WholeRecordDelivery(threads: nat, capacity: nat, run: seq<Action>, length: nat)
    requires 0 < length && Throughout(Next, OfLengths(length, length), Init(threads, capacity), run)
    ensures var s := After(threads, capacity, run);
      && s.returned <= s.accepted && s.phantoms == 0
      && |s.buf| == (|s.accepted| - |s.returned|) * length
      && s.buf == Concat(s.accepted[|s.returned|..])
  {
    RunRecords(threads, capacity, run, length);
    ConcatLength(Pending(After(threads, capacity, run)), length);
  }

  /** What one read does when its turn comes: end of stream exactly when the buffer is empty
      and no producer is left, otherwise the next record written. */
  lemma ReadStep(s: State, t: nat, length: nat)
    requires 0 < length && Safe(s) && Records(s, length) && t < |s.m.at| && s.m.at[t].Working? && s.op[t].Read?
    ensures var n := Next(s, Run(t));
      if s.taken == s.accepted then s.count.prod == 0 && n.m.at[t] == Exiting(Cons) && n.returned == s.returned
      else n.m.at[t] == Waking(Cons) && n.returned == s.returned + [s.accepted[|s.returned|]]
  {
    WholeRecords(s, length);
    CountsNotNegative(s);
    assert OpFits(length, length, s.op[t]);
    assert CallOk(s.m.at[t], s.op[t], s.fd[t]);
    assert s.m.at[t] == Working(Cons);
    WorkingReads(s, t);
  }

  /** A read's critical section, spelled out. */
  lemma WorkingReads(s: State, t: nat)
    requires Sized(s) && t < |s.m.at| && s.m.at[t] == Working(Cons) && s.op[t].Read?
    ensures var n, len := Next(s, Run(t)), s.op[t].len;
      if GivesUp(s, s.op[t]) then n.m.at[t] == Exiting(Cons) && n.returned == s.returned
      else n.m.at[t] == Waking(Cons) && (len <= |s.buf| ==> n.returned == s.returned + [s.buf[..len]])
  {
  }
}
