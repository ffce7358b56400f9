/** What a circular buffer means.

    `Ring` is the state of a `cbuffer_t` (array, head, size) as a value, with the two
    single-item operations of the C code.  Its meaning is the sequence `Contents`, the
    items read from slot `head` on, wrapping at the end of the array.  A bulk operation
    of `CBuffer` is specified by a fold of single-item operations, and every operation
    is shown to act on `Contents` as on a bounded queue that forgets its oldest items.
 */
module Rings {

  /** The last n items of s, or all of s when it is shorter. */
  function Newest<T>(s: seq<T>, n: nat): (r: seq<T>)
    ensures |r| == if |s| <= n then |s| else n
  {
    if |s| <= n then s else s[|s| - n..]
  }

  /** The concatenation of a sequence of chunks, first chunk first. */
  function Concat<T>(chunks: seq<seq<T>>): seq<T> {
    if chunks == [] then [] else Concat(chunks[..|chunks| - 1]) + chunks[|chunks| - 1]
  }

  lemma ConcatAppend<T>(chunks: seq<seq<T>>, chunk: seq<T>)
    ensures Concat(chunks + [chunk]) == Concat(chunks) + chunk
  {
    assert (chunks + [chunk])[..|chunks|] == chunks;
  }

  /** The C remainder of unsigned numbers, with the only facts the proofs use. */
  function Mod(k: nat, n: nat): (r: nat)
    requires 0 < n
    ensures r < n
    ensures k < n ==> r == k
    ensures n <= k < 2 * n ==> r == k - n
    ensures k == 2 * n ==> r == 0
  {
    assert n <= k < 2 * n ==> k % n == k - n by {
      if n <= k < 2 * n { QuotientOne(k, n); }
    }
    assert k == 2 * n ==> k % n == 0;
    k % n
  }

  lemma QuotientOne(k: nat, n: nat)
    requires 0 < n <= k < 2 * n
    ensures k % n == k - n
  {
    assert k / n == 1;
  }

  datatype Ring<T> = Ring(data: seq<T>, head: nat, size: nat) {

    /** What the bulk operations keep: `head` may be one past the array. */
    predicate Weak() {
      0 < |data| && head <= |data| && size <= |data|
    }

    /** What the single-item operations need and keep. */
    predicate Strong() {
      Weak() && head < |data|
    }

    function Slot(k: nat): (i: nat)
      requires Weak()
      ensures i < |data|
    {
      Mod(head + k, |data|)
    }

    function Contents(): (s: seq<T>)
      requires Weak()
      ensures |s| == size
    {
      seq(size, k requires 0 <= k < size => data[Slot(k)])
    }

    /** The same buffer with `head` brought back into the array. */
    function Normal(): (r: Ring<T>)
      requires Weak()
      ensures r.Strong()
      ensures r.Contents() == Contents()
    {
      var r := Ring(data, Mod(head, |data|), size);
      assert forall k | 0 <= k < size :: r.Slot(k) == Slot(k);
      r
    }

    /** `insert_cbuffer_t`: a full buffer overwrites its oldest item. */
    function Insert(x: T): (r: Ring<T>)
      requires Strong()
      ensures r.Strong() && |r.data| == |data|
    {
      if size == |data| then
        Ring(data[head := x], Mod(head + 1, |data|), size)
      else
        Ring(data[Slot(size) := x], head, size + 1)
    }

    /** `remove_cbuffer_t`: nothing happens to an empty buffer. */
    function Remove(): (r: Ring<T>)
      requires Strong()
      ensures r.Strong() && r.data == data
    {
      if size == 0 then this else Ring(data, Mod(head + 1, |data|), size - 1)
    }

    function InsertAll(items: seq<T>): (r: Ring<T>)
      requires Strong()
      ensures r.Strong() && |r.data| == |data|
      decreases |items|
    {
      if items == [] then this
      else InsertAll(items[..|items| - 1]).Insert(items[|items| - 1])
    }

    function RemoveMany(n: nat): (r: Ring<T>)
      requires Strong()
      ensures r.Strong() && r.data == data
    {
      if n == 0 then this else RemoveMany(n - 1).Remove()
    }
  }

  lemma InsertFull<T>(r: Ring<T>, x: T)
    requires r.Strong() && r.size == |r.data|
    ensures r.Insert(x).Contents() == r.Contents()[1..] + [x]
  {
    var s := r.Insert(x);
    forall k | 0 <= k < s.size ensures s.Contents()[k] == (r.Contents()[1..] + [x])[k] {
      assert k + 1 < r.size ==> s.Slot(k) == r.Slot(k + 1) != r.head;
    }
  }

  lemma InsertGap<T>(r: Ring<T>, x: T)
    requires r.Strong() && r.size < |r.data|
    ensures r.Insert(x).Contents() == r.Contents() + [x]
  {
    var s := r.Insert(x);
    forall k | 0 <= k < r.size ensures s.Slot(k) == r.Slot(k) != r.Slot(r.size) {}
  }

  /** Inserting drops at most the oldest item and appends the new one. */
  lemma InsertContents<T>(r: Ring<T>, x: T)
    requires r.Strong()
    ensures r.Insert(x).Contents() == Newest(r.Contents() + [x], |r.data|)
  {
    if r.size == |r.data| {
      InsertFull(r, x);
    } else {
      InsertGap(r, x);
    }
  }

  lemma RemoveContents<T>(r: Ring<T>)
    requires r.Strong() && r.size != 0
    ensures r.Contents()[0] == r.data[r.head]
    ensures r.Remove().Contents() == r.Contents()[1..]
  {
    var s := r.Remove();
    forall k | 0 <= k < s.size ensures s.Slot(k) == r.Slot(k + 1) {}
  }

  /** Any number of insertions leaves the newest items, as many as fit. */
  lemma {:induction false} InsertAllContents<T>(r: Ring<T>, items: seq<T>)
    requires r.Strong()
    ensures r.InsertAll(items).Contents() == Newest(r.Contents() + items, |r.data|)
    decreases |items|
  {
    if items == [] {
      assert r.Contents() + items == r.Contents();
    } else {
      var init, last := items[..|items| - 1], items[|items| - 1];
      InsertAllContents(r, init);
      OneMoreContents(r, init, last);
      assert init + [last] == items;
    }
  }

  lemma OneMoreContents<T>(r: Ring<T>, init: seq<T>, last: T)
    requires r.Strong() && r.InsertAll(init).Contents() == Newest(r.Contents() + init, |r.data|)
    ensures r.InsertAll(init).Insert(last).Contents() == Newest(r.Contents() + (init + [last]), |r.data|)
  {
    InsertContents(r.InsertAll(init), last);
    NewestNext(r.Contents() + init, last, |r.data|);
    assert r.Contents() + (init + [last]) == r.Contents() + init + [last];
  }

  lemma NewestNext<T>(s: seq<T>, x: T, n: nat)
    ensures Newest(Newest(s, n) + [x], n) == Newest(s + [x], n)
  {
  }

  lemma {:induction false} RemoveManyContents<T>(r: Ring<T>, n: nat)
    requires r.Strong() && n <= r.size
    ensures r.RemoveMany(n).Contents() == r.Contents()[n..]
    ensures r.RemoveMany(n).size == r.size - n
  {
    if n != 0 {
      RemoveManyContents(r, n - 1);
      RemoveContents(r.RemoveMany(n - 1));
    }
  }

  /** The array after `items` were written from slot w on, wrapping at its end. */
  function Written<T>(data: seq<T>, w: nat, items: seq<T>): (r: seq<T>)
    requires w < |data| && |items| <= |data|
    ensures |r| == |data|
  {
    seq(|data|, j requires 0 <= j < |data| =>
      if w <= j < w + |items| then items[j - w]
      else if j < w + |items| - |data| then items[j + |data| - w]
      else data[j])
  }

  lemma WrittenAppend<T>(data: seq<T>, w: nat, items: seq<T>, x: T)
    requires w < |data| && |items| < |data|
    ensures Written(data, w, items + [x]) == Written(data, w, items)[Mod(w + |items|, |data|) := x]
  {
  }

  /** Where n insertions, n at most the capacity, leave the array, `head` and `size`. */
  lemma {:induction false} InsertAllShape<T>(r: Ring<T>, items: seq<T>)
    requires r.Strong() && |items| <= |r.data|
    ensures var s, max := r.InsertAll(items), |r.data|;
      && s.data == Written(r.data, r.Slot(r.size), items)
      && (r.size + |items| <= max ==> s.size == r.size + |items| && s.head == r.head)
      && (r.size + |items| > max ==> s.size == max && s.head == Mod(r.head + (r.size + |items| - max), max))
    decreases |items|
  {
    if items != [] {
      var init, last := items[..|items| - 1], items[|items| - 1];
      InsertAllShape(r, init);
      WrittenAppend(r.data, r.Slot(r.size), init, last);
      assert init + [last] == items;
    }
  }

  /** Where n removals, n at most the size, leave `head`. */
  lemma {:induction false} RemoveManyShape<T>(r: Ring<T>, n: nat)
    requires r.Strong() && n <= r.size
    ensures r.RemoveMany(n) == Ring(r.data, Mod(r.head + n, |r.data|), r.size - n)
  {
    if n != 0 {
      RemoveManyShape(r, n - 1);
    }
  }

  /** The two block copies of the bulk insertion write the array as `Written` says. */
  lemma WrittenInBlocks<T>(data: seq<T>, w: nat, items: seq<T>)
    requires w < |data| && |items| <= |data|
    ensures w + |items| <= |data| ==> Written(data, w, items) == data[..w] + items + data[w + |items|..]
    ensures w + |items| > |data| ==>
      var cut := |data| - w;
      var once := data[..w] + items[..cut];
      Written(data, w, items) == items[cut..] + once[|items| - cut..]
  {
  }

  /** The state the bulk insertion computes is, up to `head` modulo the capacity, the
      state after single insertions; it may start from `head == |data|`. */
  lemma BulkInsert<T>(r: Ring<T>, items: seq<T>, s: Ring<T>)
    requires r.Weak() && |items| <= |r.data|
    requires s.data == Written(r.data, r.Slot(r.size), items)
    requires r.size + |items| <= |r.data| ==> s.size == r.size + |items| && s.head == r.head
    requires r.size + |items| > |r.data| ==>
      s.size == |r.data| && s.head == Mod(r.head + (r.size + |items| - |r.data|), |r.data|)
    ensures s.Weak() && (r.Strong() ==> s.Strong())
    ensures s.Normal() == r.Normal().InsertAll(items)
    ensures s.Contents() == Newest(r.Contents() + items, |r.data|)
  {
    InsertAllShape(r.Normal(), items);
    InsertAllContents(r.Normal(), items);
    assert r.Normal().Slot(r.size) == r.Slot(r.size);
  }

  /** n consecutive slots from slot `head` on, wrapping at the end of the array. */
  function Block<T>(data: seq<T>, head: nat, n: nat): (r: seq<T>)
    requires head <= |data| && n <= |data|
    ensures |r| == n
  {
    if head + n <= |data| then data[head..head + n] else data[head..] + data[..head + n - |data|]
  }

  /** The block copies of the bulk removal read the oldest n items. */
  lemma ContentsInBlocks<T>(r: Ring<T>, n: nat)
    requires r.Weak() && n <= r.size
    ensures r.Contents()[..n] == Block(r.data, r.head, n)
  {
  }

  lemma BulkRemove<T>(r: Ring<T>, n: nat, s: Ring<T>)
    requires r.Weak() && n <= r.size
    requires s.data == r.data && s.size == r.size - n
    requires s.head == if r.head + n <= |r.data| then r.head + n else r.head + n - |r.data|
    ensures s.Weak()
    ensures s.Normal() == r.Normal().RemoveMany(n)
    ensures s.Contents() == r.Contents()[n..]
  {
    RemoveManyShape(r.Normal(), n);
    RemoveManyContents(r.Normal(), n);
  }

  // ---- any sequence of bulk operations ------------------------------------------------

  datatype Bulk<T> = Put(items: seq<T>) | Get(n: nat) | Clear

  /** What a bulk operation leaves: a block that cannot fit in the array and a removal of
      more than there is change nothing, and `head` is not reduced after a removal. */
  function Bulked<T>(r: Ring<T>, b: Bulk<T>): (s: Ring<T>)
    requires r.Weak()
    ensures s.Weak() && |s.data| == |r.data|
  {
    var max := |r.data|;
    match b {
      case Put(items) =>
        if |items| > max then r
        else if r.size + |items| <= max then Ring(Written(r.data, r.Slot(r.size), items), r.head, r.size + |items|)
        else Ring(Written(r.data, r.Slot(r.size), items), Mod(r.head + (r.size + |items| - max), max), max)
      case Get(n) =>
        if n > r.size then r
        else Ring(r.data, if r.head + n <= max then r.head + n else r.head + n - max, r.size - n)
      case Clear => Ring(r.data, 0, 0)
    }
  }

  /** The items it copies out, as its two block copies read them. */
  function Copied<T>(r: Ring<T>, b: Bulk<T>): seq<T>
    requires r.Weak()
  {
    if b.Get? && b.n <= r.size then Block(r.data, r.head, b.n) else []
  }

  /** The same operation on a queue that keeps the newest `max` items, and what it returns. */
  function QueueAfter<T>(q: seq<T>, max: nat, b: Bulk<T>): seq<T> {
    match b {
      case Put(items) => if |items| > max then q else Newest(q + items, max)
      case Get(n) => if n > |q| then q else q[n..]
      case Clear => []
    }
  }

  function QueueGives<T>(q: seq<T>, b: Bulk<T>): seq<T> {
    if b.Get? && b.n <= |q| then q[..b.n] else []
  }

  lemma BulkedContents<T>(r: Ring<T>, b: Bulk<T>)
    requires r.Weak()
    ensures Bulked(r, b).Contents() == QueueAfter(r.Contents(), |r.data|, b)
    ensures Copied(r, b) == QueueGives(r.Contents(), b)
  {
    match b {
      case Put(items) => if |items| <= |r.data| { BulkInsert(r, items, Bulked(r, b)); }
      case Get(n) => if n <= r.size { BulkRemove(r, n, Bulked(r, b)); ContentsInBlocks(r, n); }
      case Clear =>
    }
  }

  /** Everything copied out in a sequence of bulk operations, and the ring they leave. */
  function Replay<T>(r: Ring<T>, bs: seq<Bulk<T>>): (res: (seq<T>, Ring<T>))
    requires r.Weak()
    ensures res.1.Weak()
    decreases |bs|
  {
    if bs == [] then ([], r)
    else
      var rest := Replay(Bulked(r, bs[0]), bs[1..]);
      (Copied(r, bs[0]) + rest.0, rest.1)
  }

  function QueueReplay<T>(q: seq<T>, max: nat, bs: seq<Bulk<T>>): (seq<T>, seq<T>)
    decreases |bs|
  {
    if bs == [] then ([], q)
    else
      var rest := QueueReplay(QueueAfter(q, max, bs[0]), max, bs[1..]);
      (QueueGives(q, bs[0]) + rest.0, rest.1)
  }

  /** Any sequence of bulk operations, from any ring they can leave, `head` one past the
      array included, overwriting and clearing included, is that of the queue. */
  lemma {:induction false} BulkRefines<T>(r: Ring<T>, bs: seq<Bulk<T>>)
    requires r.Weak()
    ensures Replay(r, bs).0 == QueueReplay(r.Contents(), |r.data|, bs).0
    ensures Replay(r, bs).1.Contents() == QueueReplay(r.Contents(), |r.data|, bs).1
    decreases |bs|
  {
    if bs != [] {
      BulkedContents(r, bs[0]);
      BulkRefines(Bulked(r, bs[0]), bs[1..]);
    }
  }

  predicate FitsOne<T>(size: nat, max: nat, b: Bulk<T>) {
    match b {
      case Put(items) => size + |items| <= max
      case Get(n) => n <= size
      case Clear => false
    }
  }

  /** No insertion overflows, no removal asks for more than there is, nothing is cleared. */
  predicate Fits<T>(size: nat, max: nat, bs: seq<Bulk<T>>)
    decreases |bs|
  {
    bs == [] || (FitsOne(size, max, bs[0]) &&
                 Fits(if bs[0].Put? then size + |bs[0].items| else size - bs[0].n, max, bs[1..]))
  }

  function SentOne<T>(b: Bulk<T>): seq<T> {
    if b.Put? then b.items else []
  }

  function Sent<T>(bs: seq<Bulk<T>>): seq<T> {
    if bs == [] then [] else SentOne(bs[0]) + Sent(bs[1..])
  }

  lemma {:induction false} QueueStream<T>(q: seq<T>, max: nat, bs: seq<Bulk<T>>)
    requires Fits(|q|, max, bs)
    ensures QueueReplay(q, max, bs).0 + QueueReplay(q, max, bs).1 == q + Sent(bs)
    decreases |bs|
  {
    if bs != [] {
      var rest := QueueReplay(QueueAfter(q, max, bs[0]), max, bs[1..]);
      QueueStream(QueueAfter(q, max, bs[0]), max, bs[1..]);
      StreamStep(q, max, bs[0], rest.0, rest.1, Sent(bs[1..]));
    }
  }

  lemma StreamStep<T>(q: seq<T>, max: nat, b: Bulk<T>, got: seq<T>, left: seq<T>, sent: seq<T>)
    requires FitsOne(|q|, max, b) && got + left == QueueAfter(q, max, b) + sent
    ensures (QueueGives(q, b) + got) + left == q + (SentOne(b) + sent)
  {
    match b {
      case Put(items) => assert (q + items) + sent == q + (items + sent);
      case Get(n) => Regroup(q, n, got, left, sent);
    }
  }

  lemma Regroup<T>(q: seq<T>, n: nat, got: seq<T>, left: seq<T>, sent: seq<T>)
    requires n <= |q| && got + left == q[n..] + sent
    ensures (q[..n] + got) + left == q + sent
  {
    assert (q[..n] + got) + left == q[..n] + (got + left);
    assert q == q[..n] + q[n..];
  }

  /** However a stream is cut into insertions and removals, it comes out as it went in. */
  lemma StreamPreserved<T>(r: Ring<T>, bs: seq<Bulk<T>>)
    requires r.Weak() && Fits(r.size, |r.data|, bs)
    ensures Replay(r, bs).0 + Replay(r, bs).1.Contents() == r.Contents() + Sent(bs)
  {
    BulkRefines(r, bs);
    QueueStream(r.Contents(), |r.data|, bs);
  }
}
