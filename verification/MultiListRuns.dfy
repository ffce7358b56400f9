/** The list of lists carries out its commands: one thread alone runs any commands, each on an
    entry that is there, to their end. */
module MultiListRuns {
  import opened Counting
  import opened MultiList
  import opened Runs

  /** Nobody is in a call. */
  predicate Quiet(s: State) {
    && 0 < |s.at| && (forall t | 0 <= t < |s.at| :: s.at[t].Idle?) && s.lists == None
    && forall e | 0 <= e < |s.entries| ::
         s.entries[e].lock == None && (s.entries[e].linked ==> s.entries[e].freers == [])
  }

  /** What thread 0's steps at one entry work on. */
  datatype Part = Part(pc: Pc, x: Entry, lists: Option<nat>)

  /** The quiet state s but for thread 0, entry e and `sp_lists`. */
  function Placed(s: State, e: nat, p: Part): State
    requires 0 < |s.at| && e < |s.entries|
  {
    s.(at := s.at[0 := p.pc], entries := s.entries[e := p.x], lists := p.lists)
  }

  predicate CanGo(p: Part) {
    && p.pc.HasEntry() && p.x.freers == []
    && (p.pc.WantsLists() ==> p.lists == None) && (p.pc.WantsEntry() ==> p.x.lock == None)
  }

  function Go(p: Part): Part {
    var to := Onward(p.pc, p.x.marked);
    Part(to, Relock(Change(p.x, p.pc, 0), p.pc, to, 0),
         if p.pc.HoldsLists() == to.HoldsLists() then p.lists else if to.HoldsLists() then Some(0) else None)
  }

  lemma NobodyFlies(s: State, e: nat, p: Part)
    requires Quiet(s) && e < |s.entries| && p.pc.Draining?
    ensures Many(Placed(s, e, p).at, Flying(e)) == 0
  {
    NoneSuch(Placed(s, e, p).at, Flying(e));
  }

  lemma GoPlaced(s: State, e: nat, p: Part)
    requires Quiet(s) && e < |s.entries| && CanGo(p) && p.pc.e == e
    ensures Next(Placed(s, e, p), Run(0)) == Placed(s, e, Go(p))
  {
    if p.pc.Draining? {
      NobodyFlies(s, e, p);
    }
    var r := Placed(s, e, p);
    assert Taken(r, Run(0));
    assert r.at[0 := Go(p).pc] == s.at[0 := Go(p).pc];
    assert r.entries[e := Go(p).x] == s.entries[e := Go(p).x];
    assert !Touches(r, Run(0));
  }

  lemma GoStays(p: Part)
    requires p.pc.HasEntry() && Go(p).pc.HasEntry()
    ensures Go(p).pc.e == p.pc.e
  {
  }

  function Often(k: nat): seq<Action> {
    seq(k, _ => Run(0))
  }

  /** k steps at one entry. */
  lemma {:induction false} StepsPlaced(s: State, e: nat, p: Part, k: nat)
    requires Quiet(s) && e < |s.entries| && CanSteps(CanGo, Go, p, k) && (k > 0 ==> p.pc.e == e)
    ensures Exec(Next, Placed(s, e, p), Often(k)) == Placed(s, e, Steps(Go, p, k))
    decreases k
  {
    if k > 0 {
      GoPlaced(s, e, p);
      assert Often(k)[1..] == Often(k - 1);
      if k > 1 {
        GoStays(p);
      }
      StepsPlaced(s, e, Go(p), k - 1);
    }
  }

  // ---- whole commands ------------------------------------------------------------------------

  lemma Links(p: Part, e: nat)
    requires p.pc == Registered(e) && p.x.freers == [] && p.lists == None && p.x.lock == None
    ensures CanSteps(CanGo, Go, p, 3)
    ensures Steps(Go, p, 3) == Part(Idle, p.x.(linked := true), None)
  {
    ThreeSteps(CanGo, Go, p);
  }

  lemma Stores(p: Part, e: nat)
    requires p.pc == ToWrite(e) && p.x.freers == [] && p.lists == None && p.x.lock == None
    ensures CanSteps(CanGo, Go, p, 3)
    ensures Steps(Go, p, 3) == Part(Idle, p.x, None)
  {
    ThreeSteps(CanGo, Go, p);
  }

  lemma LooksIn(p: Part, e: nat)
    requires p.pc == ToRead(e) && p.x.freers == [] && p.lists == None && p.x.lock == None
    ensures CanSteps(CanGo, Go, p, 3)
    ensures Steps(Go, p, 3) == Part(ReadEntry(e), p.x.(lock := Some(0)), Some(0))
  {
    ThreeSteps(CanGo, Go, p);
  }

  lemma LooksOut(p: Part, e: nat)
    requires p.pc == ReadEntry(e) && p.x.freers == []
    ensures CanSteps(CanGo, Go, p, 2)
    ensures Steps(Go, p, 2) == Part(Idle, p.x.(lock := None), None)
  {
    TwoSteps(CanGo, Go, p);
  }

  lemma Looks(p: Part, e: nat)
    requires p.pc == ToRead(e) && p.x.freers == [] && p.lists == None && p.x.lock == None
    ensures CanSteps(CanGo, Go, p, 5)
    ensures Steps(Go, p, 5) == Part(Idle, p.x, None)
  {
    LooksIn(p, e);
    LooksOut(Steps(Go, p, 3), e);
    StepsJoin(CanGo, Go, p, 3, 2);
  }

  lemma MarksIn(p: Part, e: nat)
    requires p.pc == Matched(e) && p.x.freers == [] && p.lists == Some(0) && p.x.lock == None && !p.x.marked
    ensures CanSteps(CanGo, Go, p, 2)
    ensures Steps(Go, p, 2) ==
      Part(Marked(e, true), p.x.(marked := true, markers := p.x.markers + [0], lock := Some(0)), Some(0))
  {
    TwoSteps(CanGo, Go, p);
  }

  lemma MarksOut(p: Part, e: nat)
    requires p.pc == Marked(e, true) && p.x.freers == [] && p.lists == Some(0)
    ensures CanSteps(CanGo, Go, p, 2)
    ensures Steps(Go, p, 2) == Part(Unregister(e), p.x.(lock := None), None)
  {
    TwoSteps(CanGo, Go, p);
  }

  /** Up to where both locks are free again, with the mark set. */
  lemma Marks(p: Part, e: nat)
    requires p.pc == Matched(e) && p.x.freers == [] && p.lists == Some(0) && p.x.lock == None && !p.x.marked
    ensures CanSteps(CanGo, Go, p, 4)
    ensures Steps(Go, p, 4) == Part(Unregister(e), p.x.(marked := true, markers := p.x.markers + [0]), None)
  {
    MarksIn(p, e);
    MarksOut(Steps(Go, p, 2), e);
    StepsJoin(CanGo, Go, p, 2, 2);
  }

  lemma Unregisters(p: Part, e: nat)
    requires p.pc == Unregister(e) && p.x.freers == [] && p.lists == None && p.x.lock == None
    ensures CanSteps(CanGo, Go, p, 3)
    ensures Steps(Go, p, 3) == Part(Unlinking(e), p.x.(present := false, drained := true), Some(0))
  {
    ThreeSteps(CanGo, Go, p);
  }

  lemma Unlinks(p: Part, e: nat)
    requires p.pc == Unlinking(e) && p.x.freers == [] && p.lists == Some(0) && p.x.lock == None
    ensures CanSteps(CanGo, Go, p, 3)
    ensures Steps(Go, p, 3) ==
      Part(Emptying(e), p.x.(linked := false, unlinkers := p.x.unlinkers + [0], lock := Some(0)), None)
  {
    ThreeSteps(CanGo, Go, p);
  }

  lemma Frees(p: Part, e: nat)
    requires p.pc == Emptying(e) && p.x.freers == [] && p.lists == None && p.x.lock == Some(0)
    ensures CanSteps(CanGo, Go, p, 3)
    ensures Steps(Go, p, 3) == Part(Idle, p.x.(lock := None, freers := [0]), None)
  {
    ThreeSteps(CanGo, Go, p);
  }

  function Removed(x: Entry): Entry {
    x.(present := false, linked := false, marked := true, markers := x.markers + [0],
       unlinkers := x.unlinkers + [0], freers := [0], drained := true)
  }

  lemma Drops(p: Part, e: nat)
    requires p.pc == Matched(e) && p.x.freers == [] && p.lists == Some(0) && p.x.lock == None && !p.x.marked
    ensures CanSteps(CanGo, Go, p, 13)
    ensures Steps(Go, p, 13) == Part(Idle, Removed(p.x), None)
  {
    Marks(p, e);
    var q := Steps(Go, p, 4);
    Unregisters(q, e);
    var r := Steps(Go, q, 3);
    Unlinks(r, e);
    Frees(Steps(Go, r, 3), e);
    StepsJoin(CanGo, Go, r, 3, 3);
    StepsJoin(CanGo, Go, q, 3, 6);
    StepsJoin(CanGo, Go, p, 4, 9);
  }

  /** `Seek` is a removal whose name no entry has. */
  datatype Command = Make | Drop(e: nat) | Look(e: nat) | Store(e: nat) | Seek

  /** Which entries there are, by whether they have been dropped. */
  predicate Possible(alive: seq<bool>, c: Command) {
    c.Make? || c.Seek? || (c.e < |alive| && alive[c.e])
  }

  function Obey(alive: seq<bool>, c: Command): seq<bool>
    requires Possible(alive, c)
  {
    match c {
      case Make => alive + [true]
      case Drop(e) => alive[e := false]
      case _ => alive
    }
  }

  function ActionsFor(c: Command): seq<Action> {
    match c {
      case Make => [Create(0)] + Often(3)
      case Drop(e) => [Remove(0), Run(0), Match(0, e)] + Often(13)
      case Look(e) => [Read(0, e)] + Often(5)
      case Store(e) => [Write(0, e)] + Often(3)
      case Seek => [Remove(0)] + Often(3)
    }
  }

  /** The entries alive are in place, untouched by any removal; the others are gone. */
  predicate Shows(s: State, alive: seq<bool>) {
    && Quiet(s) && |alive| == |s.entries| && s.faults == 0
    && forall e | 0 <= e < |alive| :: var x := s.entries[e];
         if alive[e] then x.present && x.linked && !x.marked && x.freers == []
         else !x.present && !x.linked && x.freers != []
  }

  lemma Finishes(s: State, e: nat, p: Part, k: nat, x: Entry)
    requires Quiet(s) && e < |s.entries| && p.pc.HasEntry() && p.pc.e == e
    requires CanSteps(CanGo, Go, p, k) && Steps(Go, p, k) == Part(Idle, x, None)
    ensures Exec(Next, Placed(s, e, p), Often(k)) == s.(entries := s.entries[e := x])
  {
    StepsPlaced(s, e, p, k);
    assert s.at[0 := Idle] == s.at;
  }

  lemma BeginsRead(s: State, e: nat)
    requires Quiet(s) && e < |s.entries| && s.entries[e].present
    ensures Next(s, Read(0, e)) == Placed(s, e, Part(ToRead(e), s.entries[e], None))
  {
    assert s.entries[e := s.entries[e]] == s.entries;
  }

  lemma BeginsWrite(s: State, e: nat)
    requires Quiet(s) && e < |s.entries| && s.entries[e].present
    ensures Next(s, Write(0, e)) == Placed(s, e, Part(ToWrite(e), s.entries[e], None))
  {
    assert s.entries[e := s.entries[e]] == s.entries;
  }

  lemma BeginsMake(s: State)
    requires Quiet(s)
    ensures var x := Entry(true, false, false, None, 0, [], [], [], false);
      var grown := s.(entries := s.entries + [x]);
      && Quiet(grown)
      && Next(s, Create(0)) == Placed(grown, |s.entries|, Part(Registered(|s.entries|), x, None))
  {
    var x := Entry(true, false, false, None, 0, [], [], [], false);
    assert (s.entries + [x])[|s.entries| := x] == s.entries + [x];
  }

  lemma BeginsDrop(s: State, e: nat)
    requires Quiet(s) && e < |s.entries| && s.entries[e].linked
    ensures Next(Next(Next(s, Remove(0)), Run(0)), Match(0, e))
            == Placed(s, e, Part(Matched(e), s.entries[e], Some(0)))
  {
    var s1 := s.(at := s.at[0 := ToSearch]);
    assert Next(s, Remove(0)) == s1;
    var s2 := s.(at := s.at[0 := Searching], lists := Some(0));
    assert s1.at[0 := Searching] == s2.at;
    assert Next(s1, Run(0)) == s2;
    assert s2.at[0 := Matched(e)] == s.at[0 := Matched(e)] && s.entries[e := s.entries[e]] == s.entries;
  }

  lemma DoesMake(s: State, alive: seq<bool>)
    requires Shows(s, alive)
    ensures Shows(Exec(Next, s, ActionsFor(Make)), Obey(alive, Make))
  {
    var e := |s.entries|;
    var x := Entry(true, false, false, None, 0, [], [], [], false);
    var grown := s.(entries := s.entries + [x]);
    BeginsMake(s);
    Links(Part(Registered(e), x, None), e);
    Finishes(grown, e, Part(Registered(e), x, None), 3, x.(linked := true));
    assert ActionsFor(Make)[1..] == Often(3);
  }

  lemma DropEnds(s: State, e: nat)
    requires Quiet(s) && e < |s.entries|
    requires var x := s.entries[e]; x.linked && !x.marked && x.freers == []
    ensures Exec(Next, s, ActionsFor(Drop(e))) == s.(entries := s.entries[e := Removed(s.entries[e])])
  {
    var none: seq<Action> := [];
    var x := s.entries[e];
    BeginsDrop(s, e);
    ExecThree(Next, s, none, Remove(0), Run(0), Match(0, e));
    assert none + [Remove(0), Run(0), Match(0, e)] == [Remove(0), Run(0), Match(0, e)];
    ExecConcat(Next, s, [Remove(0), Run(0), Match(0, e)], Often(13));
    Drops(Part(Matched(e), x, Some(0)), e);
    Finishes(s, e, Part(Matched(e), x, Some(0)), 13, Removed(x));
  }

  lemma LookEnds(s: State, e: nat, p: Part)
    requires Quiet(s) && e < |s.entries| && s.entries[e].present && s.entries[e].freers == []
    requires p == Part(ToRead(e), s.entries[e], None)
    ensures Exec(Next, s, ActionsFor(Look(e))) == s
  {
    BeginsRead(s, e);
    Looks(p, e);
    Finishes(s, e, p, 5, p.x);
    assert ActionsFor(Look(e))[1..] == Often(5) && s.entries[e := p.x] == s.entries;
  }

  lemma StoreEnds(s: State, e: nat, p: Part)
    requires Quiet(s) && e < |s.entries| && s.entries[e].present && s.entries[e].freers == []
    requires p == Part(ToWrite(e), s.entries[e], None)
    ensures Exec(Next, s, ActionsFor(Store(e))) == s
  {
    BeginsWrite(s, e);
    Stores(p, e);
    Finishes(s, e, p, 3, p.x);
    assert ActionsFor(Store(e))[1..] == Often(3) && s.entries[e := p.x] == s.entries;
  }

  /** Thread 0 walking the list, then having found nothing. */
  function Walking(s: State, pc: Pc): State
    requires 0 < |s.at|
  {
    s.(at := s.at[0 := pc], lists := if pc.HoldsLists() then Some(0) else None)
  }

  lemma SeekSteps(s: State)
    requires Quiet(s)
    ensures Next(s, Remove(0)) == Walking(s, ToSearch)
    ensures Next(Walking(s, ToSearch), Run(0)) == Walking(s, Searching)
    ensures Next(Walking(s, Searching), Run(0)) == Walking(s, Missing)
    ensures Next(Walking(s, Missing), Run(0)) == s
  {
    assert s.at[0 := ToSearch][0 := Searching] == s.at[0 := Searching];
    assert s.at[0 := Searching][0 := Missing] == s.at[0 := Missing];
    assert s.at[0 := Missing][0 := Idle] == s.at;
  }

  lemma SeekEnds(s: State)
    requires Quiet(s)
    ensures Exec(Next, s, ActionsFor(Seek)) == s
  {
    var none: seq<Action> := [];
    SeekSteps(s);
    ExecThree(Next, Walking(s, ToSearch), none, Run(0), Run(0), Run(0));
    assert none + [Run(0), Run(0), Run(0)] == Often(3) == ActionsFor(Seek)[1..];
  }

  lemma Does(s: State, alive: seq<bool>, c: Command)
    requires Shows(s, alive) && Possible(alive, c)
    ensures Shows(Exec(Next, s, ActionsFor(c)), Obey(alive, c))
    ensures |Exec(Next, s, ActionsFor(c)).at| == |s.at|
  {
    match c {
      case Make => DoesMake(s, alive);
      case Drop(e) => DropEnds(s, e);
      case Look(e) => LookEnds(s, e, Part(ToRead(e), s.entries[e], None));
      case Store(e) => StoreEnds(s, e, Part(ToWrite(e), s.entries[e], None));
      case Seek => SeekEnds(s);
    }
    AlwaysKeeps(Next, (r: State) => |r.at| == |s.at|, s, ActionsFor(c));
  }

  predicate AllPossible(alive: seq<bool>, cs: seq<Command>)
    decreases |cs|
  {
    cs == [] || (Possible(alive, cs[0]) && AllPossible(Obey(alive, cs[0]), cs[1..]))
  }

  function ObeyAll(alive: seq<bool>, cs: seq<Command>): seq<bool>
    requires AllPossible(alive, cs)
    decreases |cs|
  {
    if cs == [] then alive else ObeyAll(Obey(alive, cs[0]), cs[1..])
  }

  function ActionsForAll(cs: seq<Command>): seq<Action> {
    if cs == [] then [] else ActionsFor(cs[0]) + ActionsForAll(cs[1..])
  }

  lemma {:induction false} DoesAll(s: State, alive: seq<bool>, cs: seq<Command>)
    requires Shows(s, alive) && AllPossible(alive, cs)
    ensures Shows(Exec(Next, s, ActionsForAll(cs)), ObeyAll(alive, cs))
    decreases |cs|
  {
    if cs != [] {
      Does(s, alive, cs[0]);
      ExecConcat(Next, s, ActionsFor(cs[0]), ActionsForAll(cs[1..]));
      DoesAll(Exec(Next, s, ActionsFor(cs[0])), Obey(alive, cs[0]), cs[1..]);
    }
  }

  /** Any creations, removals, reads and writes, each of an entry that is there, are carried
      out by some run to their end: exactly the entries created and not removed are then
      registered and in the list, and nothing freed was ever touched. */
  lemma CarriesOutCommands(threads: nat, cs: seq<Command>)
    requires threads >= 1 && AllPossible([], cs)
    ensures var s, alive := After(threads, ActionsForAll(cs)), ObeyAll([], cs);
      && (forall t | 0 <= t < threads :: s.at[t].Idle?) && |s.entries| == |alive| && s.faults == 0
      && forall e | 0 <= e < |alive| :: var x := s.entries[e];
           x.present == alive[e] && x.linked == alive[e] && (x.freers == [] <==> alive[e])
  {
    DoesAll(Init(threads), [], cs);
  }
}
