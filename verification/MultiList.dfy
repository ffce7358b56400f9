/** Creating, using and removing whole lists: the two-level locking and the
    mark-for-removal protocol, for any number of threads.

    `sp_lists` guards the list of entries, each entry has its own lock, and readers and
    writers are calls in flight on a registered entry, for which `remove_proc_entry` waits
    after it has refused new ones.  Which linked entry a `remove` command's name matches,
    if any, is left open, so the results hold for all names.  Creation succeeds. */
module MultiList {
  import opened Counting
  import opened Runs

  datatype Option<T> = None | Some(value: T)

  /** The last line is history: the thread that created the entry, those that marked,
      unlinked and freed it, and whether its calls in flight have been waited for. */
  datatype Entry = Entry(
    present: bool, linked: bool, marked: bool, lock: Option<nat>,
    maker: nat, markers: seq<nat>, unlinkers: seq<nat>, freers: seq<nat>, drained: bool)

  datatype Pc =
    | Idle
    // control_create
    | Registered(e: nat)       // at spin_lock(&sp_lists)
    | Linking(e: nat)          // holds sp_lists, at list_add_tail
    | Linked(e: nat)           // holds sp_lists
    // control_write, remove branch
    | ToSearch                 // at spin_lock(&sp_lists)
    | Searching                // holds sp_lists, walking the list
    | Missing                  // holds sp_lists
    | Matched(e: nat)          // holds sp_lists, at spin_lock(&entry->sp)
    | Marking(e: nat)          // holds both, at the test of the mark
    | Marked(e: nat, won: bool)   // holds both; won if it set the mark
    | Decided(e: nat, won: bool)  // holds sp_lists
    // control_remove
    | Unregister(e: nat)       // at remove_proc_entry
    | Draining(e: nat)         // in remove_proc_entry, waiting for calls in flight
    | ToUnlink(e: nat)         // at spin_lock(&sp_lists)
    | Unlinking(e: nat)        // holds sp_lists, at list_del
    | Unlinked(e: nat)         // holds sp_lists
    | ToEmpty(e: nat)          // at spin_lock(&entry->sp)
    | Emptying(e: nat)         // holds the entry's lock, freeing its items
    | Emptied(e: nat)          // holds the entry's lock
    | Freeing(e: nat)          // at vfree
    // modlist_read
    | ToRead(e: nat)           // at spin_lock(&sp_lists)
    | ToReadEntry(e: nat)      // holds sp_lists, at spin_lock(&entry->sp)
    | Reading(e: nat)          // holds both
    | ReadEntry(e: nat)        // holds both
    | ReadLists(e: nat)        // holds sp_lists
    // modlist_write
    | ToWrite(e: nat)          // at spin_lock(&entry->sp)
    | Writing(e: nat)          // holds the entry's lock
    | Written(e: nat)          // holds the entry's lock
  {
    predicate HasEntry() {
      !Idle? && !ToSearch? && !Searching? && !Missing?
    }
    predicate WantsLists() {
      Registered? || ToSearch? || ToUnlink? || ToRead?
    }
    predicate WantsEntry() {
      Matched? || ToEmpty? || ToReadEntry? || ToWrite?
    }
    predicate HoldsLists() {
      Linking? || Linked? || Searching? || Missing? || Matched? || Marking? || Marked? || Decided?
      || Unlinking? || Unlinked? || ToReadEntry? || Reading? || ReadEntry? || ReadLists?
    }
    predicate HoldsEntry() {
      Marking? || Marked? || Emptying? || Emptied? || Reading? || ReadEntry? || Writing? || Written?
    }
    /** In a call of `modlist_read` or `modlist_write`. */
    predicate InFlight() {
      ToRead? || ToReadEntry? || Reading? || ReadEntry? || ReadLists? || ToWrite? || Writing? || Written?
    }
    predicate Makes() {
      Registered? || Linking?
    }
    /** Has found its entry in the list and not let go of `sp_lists`. */
    predicate Found() {
      Matched? || Marking? || Marked? || Decided?
    }
    /** Has set the mark and not finished removing. */
    predicate Owns() {
      ((Marked? || Decided?) && won) || Unregister? || Draining? || ToUnlink? || Unlinking? || OwnsUnlinked()
    }
    predicate OwnsUnlinked() {
      Unlinked? || ToEmpty? || Emptying? || Emptied? || Freeing?
    }
    predicate OwnsDrained() {
      ToUnlink? || Unlinking? || OwnsUnlinked()
    }
  }

  /** `lists` is the holder of `sp_lists`; `faults` counts the steps that touched an entry
      already freed. */
  datatype State = State(entries: seq<Entry>, lists: Option<nat>, at: seq<Pc>, faults: nat)

  datatype Action =
    | Create(t: nat) | Remove(t: nat) | Read(t: nat, e: nat) | Write(t: nat, e: nat)
    | Match(t: nat, e: nat) | Run(t: nat)

  function Init(threads: nat): State {
    State([], None, seq(threads, _ => Idle), 0)
  }

  function Flying(e: nat): Pc -> bool {
    (pc: Pc) => pc.InFlight() && pc.e == e
  }

  predicate Taken(s: State, a: Action) {
    a.t < |s.at| &&
    var pc := s.at[a.t];
    (pc.HasEntry() ==> pc.e < |s.entries|) &&
    match a {
      case Create(_) => pc.Idle?
      case Remove(_) => pc.Idle?
      case Read(_, e) => pc.Idle? && e < |s.entries| && s.entries[e].present
      case Write(_, e) => pc.Idle? && e < |s.entries| && s.entries[e].present
      case Match(_, e) => pc.Searching? && e < |s.entries| && s.entries[e].linked
      case Run(_) =>
        && !pc.Idle?
        && (pc.WantsLists() ==> s.lists == None)
        && (pc.WantsEntry() ==> s.entries[pc.e].lock == None)
        && (pc.Draining? ==> Many(s.at, Flying(pc.e)) == 0)
    }
  }

  /** Where a thread goes on from pc, by whether its entry is marked. */
  function Onward(pc: Pc, marked: bool): Pc {
    match pc {
      case Registered(e) => Linking(e)
      case Linking(e) => Linked(e)
      case ToSearch => Searching
      case Searching => Missing
      case Matched(e) => Marking(e)
      case Marking(e) => Marked(e, !marked)
      case Marked(e, won) => Decided(e, won)
      case Decided(e, won) => if won then Unregister(e) else Idle
      case Unregister(e) => Draining(e)
      case Draining(e) => ToUnlink(e)
      case ToUnlink(e) => Unlinking(e)
      case Unlinking(e) => Unlinked(e)
      case Unlinked(e) => ToEmpty(e)
      case ToEmpty(e) => Emptying(e)
      case Emptying(e) => Emptied(e)
      case Emptied(e) => Freeing(e)
      case ToRead(e) => ToReadEntry(e)
      case ToReadEntry(e) => Reading(e)
      case Reading(e) => ReadEntry(e)
      case ReadEntry(e) => ReadLists(e)
      case ToWrite(e) => Writing(e)
      case Writing(e) => Written(e)
      case _ => Idle
    }
  }

  function Target(s: State, a: Action): Pc
    requires Taken(s, a)
  {
    match a {
      case Create(_) => Registered(|s.entries|)
      case Remove(_) => ToSearch
      case Read(_, e) => ToRead(e)
      case Write(_, e) => ToWrite(e)
      case Match(_, e) => Matched(e)
      case Run(_) =>
        var pc := s.at[a.t];
        Onward(pc, pc.HasEntry() && s.entries[pc.e].marked)
    }
  }

  /** What a step of a thread does to its entry, locks aside. */
  function Change(x: Entry, pc: Pc, t: nat): Entry {
    match pc {
      case Linking(_) => x.(linked := true)
      case Marking(_) => if x.marked then x else x.(marked := true, markers := x.markers + [t])
      case Unregister(_) => x.(present := false)
      case Draining(_) => x.(drained := true)
      case Unlinking(_) => x.(linked := false, unlinkers := x.unlinkers + [t])
      case Freeing(_) => x.(freers := x.freers + [t])
      case _ => x
    }
  }

  /** Which lock a thread holds where it goes tells what the step locks or unlocks. */
  function Relock(x: Entry, from: Pc, to: Pc, t: nat): Entry {
    if from.HoldsEntry() == to.HoldsEntry() then x
    else x.(lock := if to.HoldsEntry() then Some(t) else None)
  }

  /** Walking, adding and deleting also touch linked entries other than the thread's. */
  predicate Touches(s: State, a: Action)
    requires Taken(s, a)
  {
    var pc := s.at[a.t];
    || (pc.HasEntry() && !pc.Linked? && !pc.Unlinked? && s.entries[pc.e].freers != [])
    || ((pc.Searching? || pc.Linking? || pc.Unlinking?) &&
        exists e | 0 <= e < |s.entries| :: s.entries[e].linked && s.entries[e].freers != [])
  }

  function NewEntries(s: State, a: Action): seq<Entry>
    requires Taken(s, a)
  {
    var pc := s.at[a.t];
    if a.Create? then s.entries + [Entry(true, false, false, None, a.t, [], [], [], false)]
    else if a.Run? && pc.HasEntry() then
      s.entries[pc.e := Relock(Change(s.entries[pc.e], pc, a.t), pc, Target(s, a), a.t)]
    else s.entries
  }

  function Next(s: State, a: Action): (r: State)
    ensures |r.at| == |s.at|
  {
    if !Taken(s, a) then s else
      var from, to := s.at[a.t], Target(s, a);
      State(NewEntries(s, a),
            if from.HoldsLists() == to.HoldsLists() then s.lists else if to.HoldsLists() then Some(a.t) else None,
            s.at[a.t := to],
            if Touches(s, a) then s.faults + 1 else s.faults)
  }

  /** The state after a run of some threads, with no entry to begin with. */
  function After(threads: nat, run: seq<Action>): (s: State)
    ensures |s.at| == threads
  {
    AlwaysKeeps(Next, (s: State) => |s.at| == threads, Init(threads), run);
    Exec(Next, Init(threads), run)
  }

  // ---- what every run keeps --------------------------------------------------------------

  predicate EntryOk(x: Entry) {
    && |x.markers| <= 1 && (x.marked <==> x.markers != [])
    && (x.unlinkers == [] || (x.unlinkers == x.markers && !x.linked))
    && (x.freers == [] || (x.freers == x.unlinkers && x.freers != [] && x.drained))
    && (x.drained ==> !x.present && x.marked)
  }

  /** What holds of a thread's entry, by where the thread is. */
  predicate PlaceOk(x: Entry, pc: Pc, t: nat) {
    && (pc.Makes() ==> x.maker == t && !x.linked && x.markers == [])
    && (pc.Found() ==> x.linked)
    && (pc.Owns() ==> x.markers == [t] && x.freers == [] && (x.linked <==> !pc.OwnsUnlinked()))
    && (pc.OwnsUnlinked() ==> x.unlinkers == [t])
    && (pc.OwnsDrained() <==> pc.Owns() && x.drained)
    && (pc.Draining? ==> !x.present)
    && (pc.InFlight() ==> !x.drained)
  }

  predicate ThreadOk(s: State, t: nat)
    requires t < |s.at|
  {
    s.at[t].HasEntry() ==> s.at[t].e < |s.entries| && PlaceOk(s.entries[s.at[t].e], s.at[t], t)
  }

  predicate ListsLock(s: State) {
    && (s.lists.Some? ==> s.lists.value < |s.at| && s.at[s.lists.value].HoldsLists())
    && (forall t | 0 <= t < |s.at| && s.at[t].HoldsLists() :: s.lists == Some(t))
  }

  predicate EntryLocks(s: State) {
    && (forall e | 0 <= e < |s.entries| && s.entries[e].lock.Some? ::
          var t := s.entries[e].lock.value; t < |s.at| && s.at[t].HoldsEntry() && s.at[t].e == e)
    && (forall t | 0 <= t < |s.at| && s.at[t].HoldsEntry() ::
          s.at[t].e < |s.entries| && s.entries[s.at[t].e].lock == Some(t))
  }

  predicate Safe(s: State) {
    && (forall e | 0 <= e < |s.entries| :: EntryOk(s.entries[e]))
    && (forall t | 0 <= t < |s.at| :: ThreadOk(s, t))
    && ListsLock(s) && EntryLocks(s)
    && s.faults == 0
  }

  /** A step leaves every entry in order. */
  lemma KeepsEntry(s: State, a: Action, e: nat)
    requires Taken(s, a) && e < |NewEntries(s, a)| && ThreadOk(s, a.t)
    requires e < |s.entries| ==> EntryOk(s.entries[e])
    ensures EntryOk(NewEntries(s, a)[e])
  {
  }

  /** The thread that steps is in order where it goes. */
  lemma MoverOk(s: State, a: Action)
    requires Taken(s, a) && ThreadOk(s, a.t)
    requires forall e | 0 <= e < |s.entries| :: EntryOk(s.entries[e])
    ensures ThreadOk(Next(s, a), a.t)
  {
    var pc := s.at[a.t];
    if a.Run? && pc.HasEntry() {
      StepOk(s, a, s.entries[pc.e]);
    }
  }

  lemma StepOk(s: State, a: Action, x: Entry)
    requires Taken(s, a) && a.Run? && s.at[a.t].HasEntry() && x == s.entries[s.at[a.t].e]
    requires EntryOk(x) && PlaceOk(x, s.at[a.t], a.t)
    ensures var pc, to := s.at[a.t], Target(s, a);
      to.HasEntry() ==> to.e == pc.e && PlaceOk(Relock(Change(x, pc, a.t), pc, to, a.t), to, a.t)
  {
    var pc := s.at[a.t];
    if pc.Owns() {
      OwnerStepOk(x, pc, Target(s, a), a.t);
    }
  }

  lemma OwnerStepOk(x: Entry, pc: Pc, to: Pc, t: nat)
    requires pc.Owns() && EntryOk(x) && PlaceOk(x, pc, t)
    requires match pc {
      case Marked(e, _) => to == Decided(e, true)
      case Decided(e, _) => to == Unregister(e)
      case Unregister(e) => to == Draining(e)
      case Draining(e) => to == ToUnlink(e)
      case ToUnlink(e) => to == Unlinking(e)
      case Unlinking(e) => to == Unlinked(e)
      case Unlinked(e) => to == ToEmpty(e)
      case ToEmpty(e) => to == Emptying(e)
      case Emptying(e) => to == Emptied(e)
      case Emptied(e) => to == Freeing(e)
      case _ => to == Idle
    }
    ensures to.HasEntry() ==> to.e == pc.e && PlaceOk(Relock(Change(x, pc, t), pc, to, t), to, t)
  {
  }

  /** A thread whose entry the step leaves alone stays in order. */
  lemma OtherElsewhere(s: State, a: Action, u: nat)
    requires Taken(s, a) && u < |s.at| && u != a.t && ThreadOk(s, u)
    requires s.at[u].HasEntry() ==> NewEntries(s, a)[s.at[u].e] == s.entries[s.at[u].e]
    ensures ThreadOk(Next(s, a), u)
  {
  }

  /** Two threads at one entry: what one does there keeps the other in order. */
  lemma OtherHere(s: State, a: Action, u: nat)
    requires Taken(s, a) && a.Run? && u < |s.at| && u != a.t && ThreadOk(s, a.t) && ThreadOk(s, u)
    requires s.at[a.t].HasEntry() && s.at[u].HasEntry() && s.at[a.t].e == s.at[u].e
    requires EntryOk(s.entries[s.at[u].e])
    requires !(s.at[a.t].HoldsLists() && s.at[u].HoldsLists())
    requires !(s.at[a.t].Draining? && s.at[u].InFlight())
    ensures ThreadOk(Next(s, a), u)
  {
  }

  lemma OtherOk(s: State, a: Action, u: nat)
    requires Safe(s) && Taken(s, a) && u < |s.at| && u != a.t
    ensures ThreadOk(Next(s, a), u)
  {
    assert ThreadOk(s, u) && ThreadOk(s, a.t);
    if a.Run? && s.at[a.t].HasEntry() && s.at[u].HasEntry() && s.at[a.t].e == s.at[u].e {
      if s.at[a.t].Draining? {
        NoneSuch(s.at, Flying(s.at[u].e));
      }
      OtherHere(s, a, u);
    } else {
      OtherElsewhere(s, a, u);
    }
  }

  lemma KeepsListsLock(s: State, a: Action)
    requires Taken(s, a) && ListsLock(s)
    ensures ListsLock(Next(s, a))
  {
  }

  /** A thread holds at most its own entry's lock, before and after a step. */
  lemma StepLock(s: State, a: Action)
    requires Taken(s, a)
    ensures var pc, to := s.at[a.t], Target(s, a);
      && (pc.HoldsEntry() || to.HoldsEntry() ==> a.Run? && pc.HasEntry())
      && (to.HoldsEntry() ==> to.e == pc.e)
      && (to.HoldsEntry() && !pc.HoldsEntry() ==> s.entries[pc.e].lock == None)
    ensures forall e | 0 <= e < |s.entries| && !(a.Run? && s.at[a.t].HasEntry() && s.at[a.t].e == e) ::
      NewEntries(s, a)[e] == s.entries[e]
  {
  }

  lemma KeepsEntryLocks(s: State, a: Action)
    requires Taken(s, a) && EntryLocks(s)
    ensures EntryLocks(Next(s, a))
  {
    var n := Next(s, a);
    StepLock(s, a);
    forall e | 0 <= e < |n.entries| && n.entries[e].lock.Some?
      ensures var t := n.entries[e].lock.value; t < |n.at| && n.at[t].HoldsEntry() && n.at[t].e == e
    {
      LockHeld(s, a, e);
    }
    forall t | 0 <= t < |n.at| && n.at[t].HoldsEntry()
      ensures n.at[t].e < |n.entries| && n.entries[n.at[t].e].lock == Some(t)
    {
      HolderLocks(s, a, t);
    }
  }

  lemma LockHeld(s: State, a: Action, e: nat)
    requires Taken(s, a) && EntryLocks(s) && e < |Next(s, a).entries| && Next(s, a).entries[e].lock.Some?
    ensures var n := Next(s, a); var t := n.entries[e].lock.value; t < |n.at| && n.at[t].HoldsEntry() && n.at[t].e == e
  {
    StepLock(s, a);
  }

  lemma HolderLocks(s: State, a: Action, t: nat)
    requires Taken(s, a) && EntryLocks(s) && t < |s.at| && Next(s, a).at[t].HoldsEntry()
    ensures var n := Next(s, a); n.at[t].e < |n.entries| && n.entries[n.at[t].e].lock == Some(t)
  {
    StepLock(s, a);
  }

  /** No step touches a freed entry. */
  lemma NoFault(s: State, a: Action)
    requires Safe(s) && Taken(s, a)
    ensures !Touches(s, a)
  {
    assert ThreadOk(s, a.t);
  }

  lemma KeepsSafe(s: State, a: Action)
    requires Safe(s)
    ensures Safe(Next(s, a))
  {
    if Taken(s, a) {
      var n := Next(s, a);
      assert ThreadOk(s, a.t);
      forall e | 0 <= e < |n.entries| ensures EntryOk(n.entries[e]) {
        KeepsEntry(s, a, e);
      }
      MoverOk(s, a);
      forall u | 0 <= u < |n.at| ensures ThreadOk(n, u) {
        if u != a.t { OtherOk(s, a, u); }
      }
      KeepsListsLock(s, a);
      KeepsEntryLocks(s, a);
      NoFault(s, a);
    }
  }

  lemma RunSafe(threads: nat, run: seq<Action>)
    ensures Safe(After(threads, run))
  {
    forall s, a | Safe(s) ensures Safe(Next(s, a)) {
      KeepsSafe(s, a);
    }
    AlwaysKeeps(Next, Safe, Init(threads), run);
  }

  /** On every run no step touches a freed entry, and each entry is marked, unlinked and
      freed at most once, always by the thread that marked it; nothing is freed that is
      still registered or in the list, or that a thread is working with (its creator, about
      to let go of the list's lock, does not use it any more). */
  lemma RemovedOnce(threads: nat, run: seq<Action>, e: nat)
    requires e < |After(threads, run).entries|
    ensures var s := After(threads, run); var x := s.entries[e];
      && s.faults == 0
      && |x.markers| <= 1 && x.unlinkers <= x.markers && x.freers <= x.unlinkers
      && (x.freers != [] ==> !x.present && !x.linked && Many(s.at, Flying(e)) == 0)
      && (x.freers != [] ==> forall t | 0 <= t < |s.at| && s.at[t].HasEntry() && s.at[t].e == e ::
            s.at[t].Linked?)
  {
    var s := After(threads, run);
    RunSafe(threads, run);
    assert EntryOk(s.entries[e]);
    forall t | 0 <= t < |s.at|
      ensures s.entries[e].freers != [] ==> !Flying(e)(s.at[t])
      ensures s.entries[e].freers != [] && s.at[t].HasEntry() && s.at[t].e == e ==> s.at[t].Linked?
    {
      assert ThreadOk(s, t);
    }
    NoneSuch(s.at, Flying(e));
  }

  // ---- what a removal comes to -------------------------------------------------------------

  /** What the commands of a run were: how many creations, and which entries removals named. */
  datatype Log = Log(created: nat, named: set<nat>)

  function Grow(s: State, h: Log, a: Action): Log {
    if !Taken(s, a) then h
    else if a.Create? then h.(created := h.created + 1)
    else if a.Match? then h.(named := h.named + {a.e})
    else h
  }

  function Commands(threads: nat, run: seq<Action>): Log {
    Tally(Next, Grow, Init(threads), Log(0, {}), run)
  }

  predicate IsAt(s: State, t: nat, e: nat) {
    t < |s.at| && s.at[t].HasEntry() && s.at[t].e == e
  }

  /** Thread t has found entry e and not yet tested its mark. */
  predicate Finding(s: State, t: nat, e: nat) {
    IsAt(s, t, e) && (s.at[t].Matched? || s.at[t].Marking?)
  }

  /** A marked entry has been freed or its marker is on the way; one not marked is
      registered, and in the list once its maker has put it there. */
  predicate OnItsWay(s: State, e: nat)
    requires e < |s.entries|
  {
    var x := s.entries[e];
    if x.marked then
      x.freers == x.markers || (x.markers != [] && IsAt(s, x.markers[0], e) && s.at[x.markers[0]].Owns())
    else
      x.present && (x.linked || (IsAt(s, x.maker, e) && s.at[x.maker].Makes()))
  }

  /** Entries are marked because a removal named them, and only then. */
  ghost predicate Follows(s: State, h: Log) {
    && h.created == |s.entries|
    && (forall e | e in h.named :: e < |s.entries| && (s.entries[e].marked || exists t: nat :: Finding(s, t, e)))
    && (forall e | 0 <= e < |s.entries| && s.entries[e].marked :: e in h.named)
    && (forall t | 0 <= t < |s.at| && s.at[t].Found() :: s.at[t].e in h.named)
  }

  ghost predicate Progress(s: State, h: Log) {
    Safe(s) && Follows(s, h) && forall e | 0 <= e < |s.entries| :: OnItsWay(s, e)
  }

  /** The thread that steps at entry e keeps it on its way. */
  lemma OwnEntryOnItsWay(s: State, a: Action, e: nat)
    requires Taken(s, a) && a.Run? && IsAt(s, a.t, e) && e < |s.entries| && OnItsWay(s, e)
    requires EntryOk(s.entries[e]) && PlaceOk(s.entries[e], s.at[a.t], a.t)
    ensures e < |Next(s, a).entries| && OnItsWay(Next(s, a), e)
  {
    assert Next(s, a).at == s.at[a.t := Target(s, a)];
  }

  lemma OtherEntryOnItsWay(s: State, a: Action, e: nat)
    requires Taken(s, a) && e < |s.entries| && OnItsWay(s, e) && !IsAt(s, a.t, e)
    ensures e < |Next(s, a).entries| && OnItsWay(Next(s, a), e)
  {
    assert NewEntries(s, a)[e] == s.entries[e];
  }

  lemma NewEntryOnItsWay(s: State, a: Action, e: nat)
    requires Taken(s, a) && |s.entries| <= e < |NewEntries(s, a)|
    ensures OnItsWay(Next(s, a), e)
  {
  }

  lemma KeepsOnItsWay(s: State, a: Action, e: nat)
    requires Safe(s) && Taken(s, a) && e < |NewEntries(s, a)| && (e < |s.entries| ==> OnItsWay(s, e))
    ensures OnItsWay(Next(s, a), e)
  {
    assert ThreadOk(s, a.t);
    if e >= |s.entries| {
      NewEntryOnItsWay(s, a, e);
    } else if IsAt(s, a.t, e) && a.Run? {
      OwnEntryOnItsWay(s, a, e);
    } else {
      assert !a.Run? ==> !s.at[a.t].HasEntry();
      OtherEntryOnItsWay(s, a, e);
    }
  }

  /** How a step marks: only from the test of the mark, which it then leaves. */
  lemma StepMarks(s: State, a: Action, e: nat)
    requires Taken(s, a) && e < |s.entries|
    ensures e < |NewEntries(s, a)|
    ensures NewEntries(s, a)[e].marked <==> s.entries[e].marked || (a.Run? && IsAt(s, a.t, e) && s.at[a.t].Marking?)
  {
  }

  lemma StepFinds(s: State, a: Action)
    requires Taken(s, a) && Target(s, a).Found()
    ensures (a.Match? && Target(s, a) == Matched(a.e))
            || (a.Run? && s.at[a.t].Found() && Target(s, a).e == s.at[a.t].e)
  {
  }

  lemma NamedStaysFound(s: State, a: Action, t: nat, e: nat)
    requires Taken(s, a) && e < |s.entries| && Finding(s, t, e)
    ensures NewEntries(s, a)[e].marked || Finding(Next(s, a), t, e)
  {
    StepMarks(s, a, e);
  }

  lemma KeepsFollows(s: State, h: Log, a: Action)
    requires Taken(s, a) && Follows(s, h)
    requires forall e | 0 <= e < |NewEntries(s, a)| && e >= |s.entries| :: !NewEntries(s, a)[e].marked
    ensures Follows(Next(s, a), Grow(s, h, a))
  {
    var n, k := Next(s, a), Grow(s, h, a);
    forall e | e in k.named ensures e < |n.entries| && (n.entries[e].marked || exists t: nat :: Finding(n, t, e)) {
      if e in h.named {
        StepMarks(s, a, e);
        if !s.entries[e].marked {
          var t: nat :| Finding(s, t, e);
          NamedStaysFound(s, a, t, e);
        }
      } else {
        assert Finding(n, a.t, e);
      }
    }
    forall e | 0 <= e < |n.entries| && n.entries[e].marked ensures e in k.named {
      StepMarks(s, a, e);
    }
    forall t | 0 <= t < |n.at| && n.at[t].Found() ensures n.at[t].e in k.named {
      if t == a.t {
        StepFinds(s, a);
      }
    }
  }

  lemma KeepsProgress(s: State, h: Log, a: Action)
    requires Progress(s, h)
    ensures Progress(Next(s, a), Grow(s, h, a))
  {
    KeepsSafe(s, a);
    if Taken(s, a) {
      forall e | 0 <= e < |Next(s, a).entries| ensures OnItsWay(Next(s, a), e) {
        KeepsOnItsWay(s, a, e);
      }
      KeepsFollows(s, h, a);
    }
  }

  lemma RunProgress(threads: nat, run: seq<Action>)
    ensures Progress(After(threads, run), Commands(threads, run))
  {
    forall s, h, a | Progress(s, h) ensures Progress(Next(s, a), Grow(s, h, a)) {
      KeepsProgress(s, h, a);
    }
    TallyKeeps(Next, Grow, Progress, Init(threads), Log(0, {}), run);
  }

  /** On every run a marked entry has been freed, or the thread that marked it is in the
      middle of removing it. */
  lemma MarkedIsRemoved(threads: nat, run: seq<Action>, e: nat)
    requires e < |After(threads, run).entries| && After(threads, run).entries[e].marked
    ensures var s := After(threads, run); var x := s.entries[e];
      && x.markers != []
      && (x.freers == x.markers || (IsAt(s, x.markers[0], e) && s.at[x.markers[0]].Owns()))
  {
    RunProgress(threads, run);
    assert EntryOk(After(threads, run).entries[e]);
    assert OnItsWay(After(threads, run), e);
  }

  /** When every command has returned, there is an entry for each creation; those that some
      removal named are unregistered, unlinked and freed, and all the others are registered
      and in the list. */
  lemma RemovesExactlyTheNamed(threads: nat, run: seq<Action>)
    requires forall t | 0 <= t < threads :: After(threads, run).at[t].Idle?
    ensures var s, h := After(threads, run), Commands(threads, run);
      && |s.entries| == h.created && (forall e | e in h.named :: e < |s.entries|)
      && forall e | 0 <= e < |s.entries| :: var x := s.entries[e];
           if e in h.named then x.freers != [] && !x.linked && !x.present
           else x.freers == [] && x.linked && x.present
  {
    var s, h := After(threads, run), Commands(threads, run);
    RunProgress(threads, run);
    forall e | 0 <= e < |s.entries|
      ensures var x := s.entries[e];
        if e in h.named then x.freers != [] && !x.linked && !x.present
        else x.freers == [] && x.linked && x.present
    {
      assert EntryOk(s.entries[e]) && OnItsWay(s, e);
    }
  }

  /** Locks exclude, and nest only one way: whoever waits for `sp_lists` holds no entry's
      lock, and whoever waits for an entry's lock holds no other entry's. */
  lemma LockOrder(threads: nat, run: seq<Action>, t: nat, u: nat)
    requires t < threads && u < threads
    ensures var s := After(threads, run);
      && (s.at[t].HoldsLists() && s.at[u].HoldsLists() ==> t == u)
      && (s.at[t].HoldsEntry() && s.at[u].HoldsEntry() && s.at[t].e == s.at[u].e ==> t == u)
      && (s.at[t].WantsLists() || s.at[t].WantsEntry() ==>
            forall e | 0 <= e < |s.entries| :: s.entries[e].lock != Some(t))
  {
    var s := After(threads, run);
    RunSafe(threads, run);
  }

  predicate AllStuck(s: State) {
    forall t | 0 <= t < |s.at| :: !Taken(s, Run(t))
  }

  /** The holder of an entry's lock can always step, so a stuck thread holds none; with
      none held, a stuck thread does not hold `sp_lists` either. */
  lemma StuckHoldsNothing(s: State, t: nat)
    requires t < |s.at| && ThreadOk(s, t) && !Taken(s, Run(t))
    ensures !s.at[t].HoldsEntry()
    ensures (forall e | 0 <= e < |s.entries| :: s.entries[e].lock == None) ==> !s.at[t].HoldsLists()
    ensures (forall e | 0 <= e < |s.entries| :: s.entries[e].lock == None) && s.lists == None ==>
      s.at[t].Idle? || (s.at[t].Draining? && Many(s.at, Flying(s.at[t].e)) != 0)
  {
  }

  /** The protocol cannot deadlock: while some thread is in a call, some thread can take a
      step of its own. */
  lemma NoDeadlock(threads: nat, run: seq<Action>)
    requires AllStuck(After(threads, run))
    ensures var s := After(threads, run); forall t | 0 <= t < |s.at| :: s.at[t].Idle?
  {
    var s := After(threads, run);
    RunSafe(threads, run);
    forall t | 0 <= t < |s.at| ensures ThreadOk(s, t) && !Taken(s, Run(t)) && !s.at[t].HoldsEntry() {
      StuckHoldsNothing(s, t);
    }
    assert forall e | 0 <= e < |s.entries| :: s.entries[e].lock == None;
    forall t | 0 <= t < |s.at| ensures !s.at[t].HoldsLists() {
      StuckHoldsNothing(s, t);
    }
    assert s.lists == None;
    forall t | 0 <= t < |s.at|
      ensures s.at[t].Idle? || (s.at[t].Draining? && Many(s.at, Flying(s.at[t].e)) != 0)
    {
      StuckHoldsNothing(s, t);
    }
    forall t | 0 <= t < |s.at| ensures s.at[t].Idle? {
      if !s.at[t].Idle? {
        NoneSuch(s.at, Flying(s.at[t].e));
      }
    }
  }
}
