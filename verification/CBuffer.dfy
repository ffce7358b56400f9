/** The circular buffer `cbuffer_t`, updated in place.

    `View()` is its state as a `Ring`, `Contents()` the queued items.  The single-item
    operations index `data[head]` and so need `Strong()`; the bulk operations work from
    and establish only `Weak()`, because `RemoveItems` can leave `head == maxSize`.
 */
module CBuffers {
  import opened Rings

  /** `memcpy` between two arrays. */
  method Memcpy<T>(dst: array<T>, d: nat, src: array<T>, s: nat, n: nat)
    requires dst != src && d + n <= dst.Length && s + n <= src.Length
    modifies dst
    ensures dst[..] == old(dst[..d]) + src[s..s + n] + old(dst[d + n..])
  {
    forall i | 0 <= i < n {
      dst[d + i] := src[s + i];
    }
  }

  /** Overwriting the front of a sequence in two pieces. */
  lemma TwoPieces<T>(a: seq<T>, b: seq<T>, was: seq<T>)
    requires |a| + |b| <= |was|
    ensures var once := a + was[|a|..]; once[..|a|] + b + once[|a| + |b|..] == a + b + was[|a| + |b|..]
  {
  }

  class CBuffer<T(0)> {
    var data: array<T>
    var head: nat
    var size: nat
    const maxSize: nat
    /** What an empty buffer yields: NULL, '\0' or -1, by item type. */
    const none: T

    ghost predicate Weak()
      reads this, data
    {
      data.Length == maxSize && View().Weak()
    }

    ghost predicate Strong()
      reads this, data
    {
      data.Length == maxSize && View().Strong()
    }

    ghost function View(): Ring<T>
      reads this, data
    {
      Ring(data[..], head, size)
    }

    ghost function Contents(): (s: seq<T>)
      requires Weak()
      reads this, data
      ensures |s| == size <= maxSize
    {
      View().Contents()
    }

    constructor (maxSize: nat, none: T)
      ensures fresh(data) && data.Length == maxSize && head == size == 0
      ensures this.maxSize == maxSize && this.none == none
      ensures 0 < maxSize ==> Strong() && Contents() == []
    {
      this.maxSize, this.none := maxSize, none;
      head, size := 0, 0;
      data := new T[maxSize];
    }

    method Insert(x: T)
      requires Strong()
      modifies `head, `size, data
      ensures Strong() && View() == old(View()).Insert(x)
      ensures Contents() == Newest(old(Contents()) + [x], maxSize)
    {
      InsertContents(View(), x);
      if size == maxSize {
        data[head] := x;
        if size != 0 {
          head := Mod(head + 1, maxSize);
        }
      } else {
        var pos := 0;
        if maxSize != 0 {
          pos := Mod(head + size, maxSize);
        }
        data[pos] := x;
        size := size + 1;
      }
    }

    method Remove() returns (x: T)
      requires Strong()
      modifies `head, `size
      ensures Strong() && View() == old(View()).Remove()
      ensures if old(size) == 0 then x == none && Contents() == []
              else [x] + Contents() == old(Contents())
    {
      x := none;
      if size != 0 {
        RemoveContents(View());
        x := data[head];
        head := Mod(head + 1, maxSize);
        size := size - 1;
      }
    }

    method Head() returns (x: T)
      requires Strong()
      ensures x == if size == 0 then none else Contents()[0]
    {
      if size != 0 {
        x := data[head];
        assert View().Slot(0) == head;
      } else {
        x := none;
      }
    }

    /** The copying half of `InsertItems`: at most two blocks, the second from slot 0. */
    method CopyIn(items: array<T>, count: nat, whead: nat)
      requires whead < data.Length && count <= data.Length && count <= items.Length && items != data
      modifies data
      ensures data[..] == Written(old(data[..]), whead, items[..count])
    {
      WrittenInBlocks(data[..], whead, items[..count]);
      var itemsLeft, first, to := count, 0, whead;
      if whead + itemsLeft > data.Length {
        var copied := data.Length - whead;
        Memcpy(data, whead, items, 0, copied);
        itemsLeft := itemsLeft - copied;
        first := copied;
        to := 0;
      }
      if itemsLeft != 0 {
        Memcpy(data, to, items, first, itemsLeft);
      }
      assert first == 0 ==> items[0..count] == items[..count];
    }

    /** Too many items, or a negative count (compared as unsigned), are refused; otherwise
        the buffer ends exactly as n single insertions leave it. */
    method InsertItems(items: array<T>, count: int)
      requires Weak() && items != data
      requires count <= maxSize ==> count <= items.Length
      modifies `head, `size, data
      ensures Weak() && (old(Strong()) ==> Strong())
      ensures 0 <= count <= maxSize ==> View() == Bulked(old(View()), Put(items[..count]))
      ensures 0 <= count <= maxSize ==> View().Normal() == old(View()).Normal().InsertAll(items[..count])
      ensures 0 <= count <= maxSize ==> Contents() == Newest(old(Contents()) + items[..count], maxSize)
      ensures !(0 <= count <= maxSize) ==> View() == old(View())
    {
      var gaps := maxSize - size;
      var whead := Mod(head + size, maxSize);
      if count < 0 || count > maxSize {
        return;
      }
      ghost var r := View();
      CopyIn(items, count, whead);
      if gaps >= count {
        size := size + count;
      } else {
        size := maxSize;
        head := Mod(head + (count - gaps), maxSize);
      }
      BulkInsert(r, items[..count], View());
    }

    /** The copying half of `RemoveItems`: at most two blocks, the second from slot 0. */
    method CopyOut(items: array<T>, count: nat)
      requires head <= data.Length && count <= data.Length && count <= items.Length && items != data
      modifies `head, items
      ensures items[..] == Block(data[..], old(head), count) + old(items[count..])
      ensures head == if old(head) + count <= data.Length then old(head) + count
                      else old(head) + count - data.Length
    {
      ghost var was := items[..];
      var itemsLeft, first := count, 0;
      if head + itemsLeft > data.Length {
        var copied := data.Length - head;
        Memcpy(items, 0, data, head, copied);
        assert items[..] == data[head..] + was[copied..];
        TwoPieces(data[head..], data[..count - copied], was);
        itemsLeft := itemsLeft - copied;
        first := copied;
        head := 0;
      }
      if itemsLeft != 0 {
        Memcpy(items, first, data, head, itemsLeft);
        head := head + itemsLeft;
      }
    }

    /** Asking for more than there is copies nothing; otherwise the oldest n items are
        copied out and the buffer is, up to `head` modulo `maxSize`, what n single
        removals leave.  `head` is left past the array exactly when the removal ends at
        the array's last slot. */
    method RemoveItems(items: array<T>, count: int)
      requires Weak() && items != data
      requires count <= size ==> count <= items.Length
      modifies `head, `size, items
      ensures Weak()
      ensures 0 <= count <= old(size) ==> items[..] == old(Contents())[..count] + old(items[count..])
      ensures 0 <= count <= old(size) ==> View() == Bulked(old(View()), Get(count))
      ensures 0 <= count <= old(size) ==> View().Normal() == old(View()).Normal().RemoveMany(count)
      ensures 0 <= count <= old(size) ==> Contents() == old(Contents())[count..]
      ensures 0 <= count <= old(size) && old(Strong()) ==> (Strong() <==> old(head) + count != maxSize)
      ensures !(0 <= count <= old(size)) ==> View() == old(View()) && items[..] == old(items[..])
    {
      if count < 0 || count > size {
        return;
      }
      ghost var r := View();
      ContentsInBlocks(r, count);
      CopyOut(items, count);
      size := size - count;
      BulkRemove(r, count, View());
    }

    method Clear()
      requires Weak()
      modifies `head, `size
      ensures Strong() && Contents() == [] && View() == Bulked(old(View()), Bulk.Clear)
    {
      size, head := 0, 0;
    }
  }
}
