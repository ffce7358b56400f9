/** When an interruption can make the timer pipeline forget a batch. */
module TimerWakeUps {
  import opened Counting
  import opened Monitors
  import opened ModTimer
  import opened Runs
  import opened Scripts
  import opened TimerScripts

  // ---- one reader ------------------------------------------------------------------------

  predicate Asleep(pc: Pc) {
    pc == Counted(Cons) || pc == Queued(Cons)
  }

  /** The one reader, asleep without a permit, faces an empty list, unless the worker is at
      the test at which it signals. */
  predicate SleepsRight(s: State)
    requires |s.m.at| == 2
  {
    Asleep(s.m.at[1]) && s.m.permits.cons == 0 && s.m.at[0] != Waking(Prod) ==> s.list == []
  }

  predicate OneReaderOk(s: State) {
    Safe(s) && |s.m.at| == 2 && SleepsRight(s)
  }

  lemma SleeperCounted(m: Monitor)
    requires Inv(m) && |m.at| == 2 && Asleep(m.at[1]) && m.permits.cons == 0
    ensures m.waiting.cons > 0
  {
    assert Accounts(m, Cons);
    assert Owing(Cons)(m.at[1]);
    NoneSuch(m.at, Owing(Cons));
  }

  /** How the reader comes to be asleep: by failing its test, or by then freeing the lock. */
  lemma FallsAsleep(s: State, a: Action)
    requires Taken(s, a) && Asleep(Next(s, a).m.at[a.t])
    ensures Next(s, a).list == s.list && Next(s, a).m.permits == s.m.permits
    ensures s.m.at[a.t] == Counted(Cons) || (s.m.at[a.t] == Testing(Cons) && s.list == [])
  {
  }

  lemma ReaderMoves(s: State, a: Action)
    requires OneHolder(s.m) && |s.m.at| == 2 && SleepsRight(s) && Taken(s, a) && a.t == 1
    ensures SleepsRight(Next(s, a))
  {
    if Asleep(Next(s, a).m.at[1]) {
      FallsAsleep(s, a);
      if s.m.at[0].Holds() {
        OnlyHolder(s.m, 0, 1);
      }
    }
  }

  lemma WorkerMoves(s: State, a: Action)
    requires |s.m.at| == 2 && RoleOk(0, s.m.at[0]) && SleepsRight(s) && Taken(s, a) && a.t == 0
    requires Asleep(s.m.at[1]) && s.m.permits.cons == 0 ==> s.m.waiting.cons > 0
    ensures SleepsRight(Next(s, a))
  {
  }

  lemma KeepsSleepsRight(s: State, a: Action)
    requires OneReaderOk(s) && Taken(s, a)
    ensures SleepsRight(Next(s, a))
  {
    if a.t == 0 {
      if Asleep(s.m.at[1]) && s.m.permits.cons == 0 {
        SleeperCounted(s.m);
      }
      assert RoleOk(0, s.m.at[0]);
      WorkerMoves(s, a);
    } else {
      ReaderMoves(s, a);
    }
  }

  lemma OthersMove(s: State, a: Action)
    requires |s.m.at| == 2 && SleepsRight(s) && RoleOk(0, s.m.at[0]) && !(a.Read? || a.Run? || a.Interrupt?)
    ensures SleepsRight(Next(s, a))
  {
  }

  lemma KeepsOneReaderOk(s: State, a: Action)
    requires OneReaderOk(s)
    ensures OneReaderOk(Next(s, a))
  {
    KeepsSafe(s, a);
    if Taken(s, a) {
      KeepsSleepsRight(s, a);
    } else if !(a.Read? || a.Run? || a.Interrupt?) {
      assert RoleOk(0, s.m.at[0]);
      OthersMove(s, a);
    }
  }

  lemma RunOneReader(capacity: nat, threshold: nat, run: seq<Action>)
    requires 0 < capacity
    ensures OneReaderOk(After(1, capacity, threshold, run))
  {
    InitSafe(1, capacity, threshold);
    forall r, a | OneReaderOk(r) ensures OneReaderOk(Next(r, a)) {
      KeepsOneReaderOk(r, a);
    }
    AlwaysKeeps(Next, OneReaderOk, Init(1, capacity, threshold), run);
  }

  predicate RightAfter(readers: nat, capacity: nat, threshold: nat, run: seq<Action>) {
    ReadersRight(After(readers, capacity, threshold, run))
  }

  lemma RightWithOne(readers: nat, capacity: nat, threshold: nat, run: seq<Action>)
    requires 0 < capacity && readers <= 1
    ensures RightAfter(readers, capacity, threshold, run)
  {
    var s := After(readers, capacity, threshold, run);
    RunSafe(readers, capacity, threshold, run);
    if AllStuck(s) {
      StuckReaders(s);
      if readers == 1 {
        RunOneReader(capacity, threshold, run);
      }
    }
  }

  lemma RightWithoutFlush(readers: nat, capacity: nat, threshold: nat, run: seq<Action>)
    requires 0 < capacity && !(1 <= FlushSize(threshold, capacity) <= capacity)
    ensures RightAfter(readers, capacity, threshold, run)
  {
    RunSafe(readers, capacity, threshold, run);
    RunNeverFlushes(readers, capacity, threshold, run);
    if AllStuck(After(readers, capacity, threshold, run)) {
      StuckReaders(After(readers, capacity, threshold, run));
    }
  }

  // ---- two readers or more: parts of calls -----------------------------------------------

  /** The locks with p permits of the readers' queue and w readers waiting there. */
  function ReadersHave(mtx: nat, p: nat, w: nat): Locks {
    Locks(mtx, Both(0, p), Both(0, w))
  }

  /** A reader of an empty list sleeps three steps after it entered. */
  lemma Sleeps(x: Part, w: nat)
    requires x.place == Entering(Cons) && x.locks == ReadersHave(1, 0, w) && x.data.list == 0
    ensures CanSteps(CanGo, Go, x, 3)
    ensures Steps(Go, x, 3) == Solo(Queued(Cons), ReadersHave(1, 0, w + 1), x.data)
  {
    ThreeSteps(CanGo, Go, x);
  }

  lemma AddsBatch(x: Part, w: nat)
    requires x.place == Entering(Prod) && x.locks == ReadersHave(1, 0, w)
    ensures CanSteps(CanGo, Go, x, 2)
    ensures Steps(Go, x, 2) ==
      Solo(Waking(Prod), ReadersHave(0, 0, w), x.data.(list := x.data.list + x.data.aux, aux := 0))
  {
    TwoSteps(CanGo, Go, x);
  }

  lemma SignalsReader(x: Part, w: nat)
    requires x.place == Waking(Prod) && x.locks == ReadersHave(0, 0, w) && w > 0 && x.data.list > 0
    ensures CanSteps(CanGo, Go, x, 1)
    ensures Steps(Go, x, 1) == Solo(Discounting(Prod), ReadersHave(0, 1, w), x.data)
  {
    assert CanGo(x);
  }

  /** The worker adds its batch and ups the readers' queue; it still has the lock. */
  lemma Adds(x: Part, w: nat)
    requires x.place == Entering(Prod) && x.locks == ReadersHave(1, 0, w) && w > 0
    requires x.data.list + x.data.aux > 0
    ensures CanSteps(CanGo, Go, x, 3)
    ensures Steps(Go, x, 3) ==
      Solo(Discounting(Prod), ReadersHave(0, 1, w), x.data.(list := x.data.list + x.data.aux, aux := 0))
  {
    AddsBatch(x, w);
    SignalsReader(Steps(Go, x, 2), w);
    StepsJoin(CanGo, Go, x, 2, 1);
  }

  lemma TakesPermit(x: Part, w: nat)
    requires x.place == Queued(Cons) && x.locks == ReadersHave(0, 1, w)
    ensures CanSteps(CanGo, Go, x, 1) && Steps(Go, x, 1) == Solo(Woken(Cons), ReadersHave(0, 0, w), x.data)
  {
    assert CanGo(x);
  }

  /** The worker discounts and frees the lock. */
  lemma Discounts(x: Part, w: nat)
    requires x.place == Discounting(Prod) && x.locks == ReadersHave(0, 0, w) && w > 0
    ensures CanGo(x) && Go(x) == Solo(Exiting(Prod), ReadersHave(0, 0, w - 1), x.data)
    ensures CanGo(Go(x))
    ensures Go(Go(x)) == Solo(Outside, ReadersHave(1, 0, w - 1), x.data.(worker := Worker.Idle))
  {
  }

  lemma ShownSleeps(readers: nat, capacity: nat, threshold: nat, v: Shape, t: nat, w: nat)
    requires Shown(readers, capacity, threshold, v) && 0 < t < |v.places| && v.places[t] == Outside
    requires v.locks == ReadersHave(1, 0, w) && v.data.list == 0
    ensures Shown(readers, capacity, threshold, View(v.places[t := Queued(Cons)], ReadersHave(1, 0, w + 1), v.data))
  {
    var x := Only(v, t).(place := Entering(Cons));
    forall s | Sees(s, v) ensures Uninterrupted(s, Read(t)) && Sees(Next(s, Read(t)), Placed(v, t, x)) {
      ReadAlone(s, v, t);
    }
    SeenNext(Next, Uninterrupted, Init(readers, capacity, threshold), Sees, v, Read(t), Placed(v, t, x));
    Sleeps(x, w);
    ShownGo(readers, capacity, threshold, v, t, x, 3);
  }

  lemma ShownAdds(readers: nat, capacity: nat, threshold: nat, v: Shape, w: nat)
    requires Shown(readers, capacity, threshold, v) && |v.places| > 0 && v.places[0] == Outside
    requires v.data.worker == Looking && v.data.ring == 0
    requires v.locks == ReadersHave(1, 0, w) && w > 0 && v.data.list + v.data.aux > 0
    ensures Shown(readers, capacity, threshold,
      View(v.places[0 := Discounting(Prod)], ReadersHave(0, 1, w),
           v.data.(worker := Adding, list := v.data.list + v.data.aux, aux := 0)))
  {
    var x := Solo(Entering(Prod), v.locks, v.data.(worker := Adding));
    forall s | Sees(s, v) ensures Uninterrupted(s, WorkerStep) && Sees(Next(s, WorkerStep), Placed(v, 0, x)) {
      BatchAlone(s, v);
    }
    SeenNext(Next, Uninterrupted, Init(readers, capacity, threshold), Sees, v, WorkerStep, Placed(v, 0, x));
    Adds(x, w);
    ShownGo(readers, capacity, threshold, v, 0, x, 3);
  }

  // ---- the run -------------------------------------------------------------------------------

  /** Reader 2 sleeps, reader 1 and the worker are as given, the rest outside. */
  function Three(readers: nat, reader: Pc, worker: Pc): seq<Pc>
    requires readers >= 2
  {
    Start(readers + 1).at[1 := reader][2 := Queued(Cons)][0 := worker]
  }

  /** Readers 1 and 2 sleep. */
  lemma TwoSleep(readers: nat, capacity: nat, threshold: nat, d: Data)
    requires readers >= 2 && d == Quiet(readers, capacity, threshold).data
    ensures Shown(readers, capacity, threshold, View(Three(readers, Queued(Cons), Outside), ReadersHave(1, 0, 2), d))
  {
    var v := Quiet(readers, capacity, threshold);
    ShownFirst(readers, capacity, threshold);
    ShownSleeps(readers, capacity, threshold, v, 1, 0);
    var w := View(v.places[1 := Queued(Cons)], ReadersHave(1, 0, 1), d);
    ShownSleeps(readers, capacity, threshold, w, 2, 1);
    assert w.places[2 := Queued(Cons)] == Three(readers, Queued(Cons), Outside);
  }

  /** The timer fills the buffer, and the worker drains it. */
  lemma BatchTaken(readers: nat, capacity: nat, threshold: nat, d: Data)
    requires readers >= 2 && d == Quiet(readers, capacity, threshold).data && 1 <= d.target <= capacity
    ensures Shown(readers, capacity, threshold,
      View(Three(readers, Queued(Cons), Outside), ReadersHave(1, 0, 2), d.(worker := Looking, aux := d.target)))
  {
    var v := View(Three(readers, Queued(Cons), Outside), ReadersHave(1, 0, 2), d);
    TwoSleep(readers, capacity, threshold, d);
    FillsUp(readers, capacity, threshold, v);
    ShownPipe(readers, capacity, threshold, v.(data := d.(ring := d.target, pending := true)), WorkerStep);
    Drains(readers, capacity, threshold, v.(data := d.(ring := d.target, worker := Looking)));
  }

  /** The worker adds the batch and ups the readers' queue, and reader 1 takes the permit;
      the worker still has the lock. */
  function OneWoken(readers: nat, d: Data): Shape
    requires readers >= 2
  {
    View(Three(readers, Woken(Cons), Discounting(Prod)), ReadersHave(0, 0, 2), d.(worker := Adding, list := d.target))
  }

  lemma OneIsWoken(readers: nat, capacity: nat, threshold: nat, d: Data)
    requires readers >= 2 && d == Quiet(readers, capacity, threshold).data && 1 <= d.target <= capacity
    ensures Shown(readers, capacity, threshold, OneWoken(readers, d))
  {
    var v := View(Three(readers, Queued(Cons), Outside), ReadersHave(1, 0, 2), d.(worker := Looking, aux := d.target));
    BatchTaken(readers, capacity, threshold, d);
    ShownAdds(readers, capacity, threshold, v, 2);
    var w := View(Three(readers, Queued(Cons), Discounting(Prod)), ReadersHave(0, 1, 2), OneWoken(readers, d).data);
    assert v.places[0 := Discounting(Prod)] == w.places;
    TakesPermit(Only(w, 1), 2);
    ShownGo(readers, capacity, threshold, w, 1, Only(w, 1), 1);
    assert w.places[1 := Woken(Cons)] == OneWoken(readers, d).places;
  }

  /** The lock is held, so reader 1, waiting for it, can be interrupted. */
  lemma AfterInterrupt(s: State, readers: nat, d: Data)
    requires readers >= 2 && Sees(s, OneWoken(readers, d))
    ensures Taken(s, Interrupt(1))
    ensures Sees(Next(s, Interrupt(1)), OneWoken(readers, d).(places := Three(readers, Outside, Discounting(Prod))))
  {
    assert OneWoken(readers, d).places[1 := Outside] == Three(readers, Outside, Discounting(Prod));
  }

  lemma WorkerLeaves(s: State, v: Shape)
    requires |v.places| > 0 && Sees(s, v) && v.places[0] == Discounting(Prod) && v.locks == ReadersHave(0, 0, 2)
    ensures Sees(Next(Next(s, Run(0)), Run(0)),
                 View(v.places[0 := Outside], ReadersHave(1, 0, 1), v.data.(worker := Worker.Idle)))
  {
    var x := Only(v, 0);
    Discounts(x, 2);
    GoAlone(s, v, 0, x);
    GoAlone(Next(s, Run(0)), v, 0, Go(x));
  }

  lemma OnlyOneAsleep(s: State, readers: nat)
    requires readers >= 2 && s.m.at == Start(readers + 1).at[2 := Queued(Cons)] && s.m.permits.cons == 0
    ensures AllStuck(s)
  {
  }

  lemma EndsStuck(s: State, readers: nat, d: Data)
    requires readers >= 2 && Sees(s, OneWoken(readers, d)) && d.target > 0
    ensures var r := Next(Next(Next(s, Interrupt(1)), Run(0)), Run(0));
      AllStuck(r) && r.m.at == Start(readers + 1).at[2 := Queued(Cons)] && r.list != []
  {
    var v := OneWoken(readers, d).(places := Three(readers, Outside, Discounting(Prod)));
    AfterInterrupt(s, readers, d);
    WorkerLeaves(Next(s, Interrupt(1)), v);
    assert v.places[0 := Outside] == Start(readers + 1).at[2 := Queued(Cons)];
    OnlyOneAsleep(Next(Next(Next(s, Interrupt(1)), Run(0)), Run(0)), readers);
  }

  /** Two readers sleep, the worker adds a batch and wakes one of them, and that one is
      interrupted while it waits for the lock, which the worker still holds: the other is
      left asleep in front of the batch. */
  lemma ReaderForgotten(readers: nat, capacity: nat, threshold: nat) returns (before: seq<Action>)
    requires readers >= 2 && 1 <= FlushSize(threshold, capacity) <= capacity
    ensures Throughout(Next, Uninterrupted, Init(readers, capacity, threshold), before)
    ensures var s := After(readers, capacity, threshold, before);
      s.m.mtx == 0 && |s.m.at| == readers + 1 && s.m.at[1] == Woken(Cons) && Taken(s, Interrupt(1))
    ensures var s := After(readers, capacity, threshold, before + [Interrupt(1), Run(0), Run(0)]);
      AllStuck(s) && s.m.at == Start(readers + 1).at[2 := Queued(Cons)] && s.list != []
  {
    var d := Quiet(readers, capacity, threshold).data;
    OneIsWoken(readers, capacity, threshold, d);
    before := ShownRun(readers, capacity, threshold, OneWoken(readers, d));
    AfterInterrupt(After(readers, capacity, threshold, before), readers, d);
    ExecThree(Next, Init(readers, capacity, threshold), before, Interrupt(1), Run(0), Run(0));
    EndsStuck(After(readers, capacity, threshold, before), readers, d);
  }

  /** No run, whatever is interrupted in it, leaves readers asleep in front of a batch, if
      and only if there is at most one reader or no flush can ever happen. */
  lemma NoBatchForgotten(readers: nat, capacity: nat, threshold: nat)
    requires 0 < capacity
    ensures (forall run :: RightAfter(readers, capacity, threshold, run))
            <==> readers <= 1 || !(1 <= FlushSize(threshold, capacity) <= capacity)
  {
    if readers <= 1 || !(1 <= FlushSize(threshold, capacity) <= capacity) {
      forall run: seq<Action> ensures RightAfter(readers, capacity, threshold, run) {
        if readers <= 1 {
          RightWithOne(readers, capacity, threshold, run);
        } else {
          RightWithoutFlush(readers, capacity, threshold, run);
        }
      }
    } else {
      var before := ReaderForgotten(readers, capacity, threshold);
      var run := before + [Interrupt(1), Run(0), Run(0)];
      assert After(readers, capacity, threshold, run).m.at[2] == Queued(Cons);
      assert !RightAfter(readers, capacity, threshold, run);
    }
  }
}
