/** When the FIFO can leave a thread asleep with its condition false: exactly when there are
    three threads or more and both sides occur, interrupted or not. */
module FifoCrowd {
  import opened Monitors
  import opened FifoProc
  import opened FifoScripts
  import opened FifoSides
  import opened Runs
  import opened Scripts
  import opened Sides

  /** The locks with p permits of side q and w threads waiting there. */
  function QueueHas(q: Side, p: nat, w: nat): Locks {
    Locks(1, Both(0, 0).With(q, p), Both(0, 0).With(q, w))
  }

  /** Side q has c descriptors open, the other d. */
  function Open2(capacity: nat, q: Side, c: nat, d: nat): Data {
    Empty(capacity, Both(0, 0).With(q, c).With(q.Other(), d))
  }

  /** Thread i, then j, opened on side q and sleeps. */
  function OneAsleep(sides: seq<Side>, capacity: nat, q: Side, i: nat): Shape
    requires i < |sides|
  {
    Placed(Nobody(sides, capacity), i,
           Solo(Place(Queued(q), Open, Opened(q)), QueueHas(q, 0, 1), Open2(capacity, q, 1, 0)))
  }

  function TwoAsleep(sides: seq<Side>, capacity: nat, q: Side, i: nat, j: nat): Shape
    requires i < |sides| && j < |sides|
  {
    Placed(OneAsleep(sides, capacity, q, i), j,
           Solo(Place(Queued(q), Open, Opened(q)), QueueHas(q, 0, 2), Open2(capacity, q, 2, 0)))
  }

  /** Then thread k opened on the other side. */
  function ThirdCame(sides: seq<Side>, capacity: nat, q: Side, i: nat, j: nat, k: nat): Shape
    requires i < |sides| && j < |sides| && k < |sides|
  {
    Placed(TwoAsleep(sides, capacity, q, i, j), k,
           Solo(Place(Outside, NoOp, Opened(q.Other())), QueueHas(q, 1, 1), Open2(capacity, q, 2, 1)))
  }

  /** Then thread i was woken and returned. */
  function OneLeft(sides: seq<Side>, capacity: nat, q: Side, i: nat, j: nat, k: nat): Shape
    requires i < |sides| && j < |sides| && k < |sides|
  {
    Placed(ThirdCame(sides, capacity, q, i, j, k), i,
           Solo(Place(Outside, NoOp, Opened(q)), QueueHas(q, 0, 1), Open2(capacity, q, 2, 1)))
  }

  lemma ShowOne(sides: seq<Side>, allowed: Op -> bool, capacity: nat, q: Side, i: nat)
    requires allowed(Open) && i < |sides| && sides[i] == q
    ensures Shown(sides, allowed, capacity, OneAsleep(sides, capacity, q, i))
  {
    var v := Nobody(sides, capacity);
    ShownFirst(sides, allowed, capacity);
    ShownOpenSleeps(sides, allowed, capacity, v, i, q);
    assert LocksWait(v.locks, q, 1) == QueueHas(q, 0, 1) && CountedOn(v.data, q, 1) == Open2(capacity, q, 1, 0);
  }

  lemma ShowTwo(sides: seq<Side>, allowed: Op -> bool, capacity: nat, q: Side, i: nat, j: nat, k: nat)
    requires allowed(Open) && Crowd(sides, q, i, j, k)
    ensures Shown(sides, allowed, capacity, TwoAsleep(sides, capacity, q, i, j))
  {
    var v := OneAsleep(sides, capacity, q, i);
    ShowOne(sides, allowed, capacity, q, i);
    ShownOpenSleeps(sides, allowed, capacity, v, j, q);
    assert LocksWait(v.locks, q, 1) == QueueHas(q, 0, 2) && CountedOn(v.data, q, 1) == Open2(capacity, q, 2, 0);
  }

  lemma ShowThird(sides: seq<Side>, allowed: Op -> bool, capacity: nat, q: Side, i: nat, j: nat, k: nat)
    requires allowed(Open) && Crowd(sides, q, i, j, k)
    ensures Shown(sides, allowed, capacity, ThirdCame(sides, capacity, q, i, j, k))
  {
    var v := TwoAsleep(sides, capacity, q, i, j);
    ShowTwo(sides, allowed, capacity, q, i, j, k);
    ShownOpenWakes(sides, allowed, capacity, v, k, q.Other());
    assert LocksWait(v.locks.(permits := Inc(v.locks.permits, q)), q, -1) == QueueHas(q, 1, 1);
    assert CountedOn(v.data, q.Other(), 1) == Open2(capacity, q, 2, 1);
  }

  lemma ShowLeft(sides: seq<Side>, allowed: Op -> bool, capacity: nat, q: Side, i: nat, j: nat, k: nat)
    requires allowed(Open) && Crowd(sides, q, i, j, k)
    ensures Shown(sides, allowed, capacity, OneLeft(sides, capacity, q, i, j, k))
  {
    var v := ThirdCame(sides, capacity, q, i, j, k);
    ShowThird(sides, allowed, capacity, q, i, j, k);
    ShownOpenReturns(sides, allowed, capacity, v, i, q);
    assert v.locks.(permits := v.locks.permits.With(q, 0)) == QueueHas(q, 0, 1);
  }

  /** Now nobody can move, and thread j sleeps in `open` with the other side there. */
  lemma LeftStuck(sides: seq<Side>, capacity: nat, q: Side, i: nat, j: nat, k: nat, s: State)
    requires Crowd(sides, q, i, j, k) && Sees(s, OneLeft(sides, capacity, q, i, j, k))
    ensures AllStuck(s) && s.m.at[j] == Queued(q) && s.op[j] == Open && !HasReason(s, s.op[j], q)
    ensures forall t | 0 <= t < |s.m.at| && t != j :: s.m.at[t] == Outside
  {
    var v := OneLeft(sides, capacity, q, i, j, k);
    forall t | 0 <= t < |s.m.at|
      ensures if t == j then s.m.at[t] == Queued(q) && s.op[j] == Open else s.m.at[t] == Outside
    {
      assert InPlace(s, t, v.places[t]);
    }
    assert s.m.permits.Of(q) == 0 && s.count.Of(q.Other()) == 1;
  }

  /** Two threads sleep in `open`, one comes on the other side and wakes one of them: the
      other of the two is forgotten, and nothing was interrupted. */
  lemma OneForgotten(sides: seq<Side>, allowed: Op -> bool, capacity: nat, q: Side, i: nat, j: nat, k: nat)
    returns (run: seq<Action>)
    requires allowed(Open) && Crowd(sides, q, i, j, k)
    ensures Throughout(Next, Calls(sides, allowed), Init(|sides|, capacity), run)
    ensures Throughout(Next, Uninterrupted, Init(|sides|, capacity), run)
    ensures var s := After(|sides|, capacity, run);
      AllStuck(s) && s.m.at[j] == Queued(q) && s.op[j] == Open && !HasReason(s, Open, q)
  {
    ShowLeft(sides, allowed, capacity, q, i, j, k);
    run := ShownRun(sides, allowed, capacity, OneLeft(sides, capacity, q, i, j, k));
    LeftStuck(sides, capacity, q, i, j, k, After(|sides|, capacity, run));
  }

  predicate RightAfter(sides: seq<Side>, allowed: Op -> bool, capacity: nat, run: seq<Action>) {
    Throughout(Next, Calls(sides, allowed), Init(|sides|, capacity), run)
    ==> SleepersRight(After(|sides|, capacity, run))
  }

  lemma RightWithFew(sides: seq<Side>, allowed: Op -> bool, capacity: nat, run: seq<Action>)
    requires FewEnough(sides)
    ensures RightAfter(sides, allowed, capacity, run)
  {
    var s := After(|sides|, capacity, run);
    if Throughout(Next, Calls(sides, allowed), Init(|sides|, capacity), run) {
      if Pair(sides) {
        RunPairOk(sides, allowed, capacity, run);
        PairRight(s, sides);
      } else {
        var q := if AllOn(sides, Prod) then Prod else Cons;
        RunLonelyOk(sides, allowed, capacity, run, q);
        LonelyRight(s, sides, q);
      }
    }
  }

  /** For any sides of any number of threads, and any restriction of the calls that lets
      them open: on every run of such calls, whatever is interrupted, whoever is left asleep
      has to wait, if and only if there is at most one thread a side or all are on one side. */
  lemma NobodyForgotten(sides: seq<Side>, allowed: Op -> bool, capacity: nat)
    requires allowed(Open)
    ensures (forall run :: RightAfter(sides, allowed, capacity, run)) <==> FewEnough(sides)
  {
    if FewEnough(sides) {
      forall run: seq<Action> ensures RightAfter(sides, allowed, capacity, run) {
        RightWithFew(sides, allowed, capacity, run);
      }
    } else {
      var q, i, j, k := FindCrowd(sides);
      var run := OneForgotten(sides, allowed, capacity, q, i, j, k);
      assert !SleepersRight(After(|sides|, capacity, run));
      assert !RightAfter(sides, allowed, capacity, run);
    }
  }
}
