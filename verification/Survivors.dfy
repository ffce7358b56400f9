/** The numbers the timer generated, and those of them that were not overwritten. */
module Survivors {
  import opened Sequences

  /** The number generated at tick `id`. */
  datatype Tick = Tick(id: nat, value: int)

  /** The generated numbers without the dropped ticks, in order of generation. */
  function Survive(generated: seq<int>, dropped: set<nat>): seq<Tick> {
    if generated == [] then [] else
      var n := |generated| - 1;
      Survive(generated[..n], dropped) + if n in dropped then [] else [Tick(n, generated[n])]
  }

  /** Exactly the ticks that are not dropped survive, each once, with its own number. */
  lemma {:induction false} SurviveExactly(generated: seq<int>, dropped: set<nat>)
    ensures var s := Survive(generated, dropped);
      && (forall k | 0 <= k < |s| :: s[k].id < |generated| && s[k].id !in dropped && s[k].value == generated[s[k].id])
      && (forall j, k | 0 <= j < k < |s| :: s[j].id < s[k].id)
      && (forall i | 0 <= i < |generated| && i !in dropped :: Tick(i, generated[i]) in s)
    decreases |generated|
  {
    if generated != [] {
      var n := |generated| - 1;
      SurviveExactly(generated[..n], dropped);
      var s, r := Survive(generated, dropped), Survive(generated[..n], dropped);
      forall i | 0 <= i < |generated| && i !in dropped ensures Tick(i, generated[i]) in s {
        if i < n {
          assert Tick(i, generated[..n][i]) in r;
        } else {
          assert s[|s| - 1] == Tick(n, generated[n]);
        }
      }
    }
  }

  /** Dropping a tick that is not there changes nothing. */
  lemma {:induction false} DropOutside(generated: seq<int>, dropped: set<nat>, id: nat)
    requires |generated| <= id
    ensures Survive(generated, dropped + {id}) == Survive(generated, dropped)
    decreases |generated|
  {
    if generated != [] {
      DropOutside(generated[..|generated| - 1], dropped, id);
    }
  }

  lemma RemoveInFront<T>(r: seq<T>, tail: seq<T>, k: nat)
    requires k < |r|
    ensures RemoveAt(r + tail, k) == RemoveAt(r, k) + tail
  {
  }

  lemma RemoveInBack<T>(front: seq<T>, r: seq<T>)
    requires r != []
    ensures RemoveAt(front + r, |front|) == front + r[1..]
  {
  }

  /** Dropping one survivor removes just that one. */
  lemma {:induction false} DropOne(generated: seq<int>, dropped: set<nat>, k: nat)
    requires k < |Survive(generated, dropped)|
    ensures var s := Survive(generated, dropped); Survive(generated, dropped + {s[k].id}) == RemoveAt(s, k)
    decreases |generated|
  {
    var n := |generated| - 1;
    var r := Survive(generated[..n], dropped);
    var tail := if n in dropped then [] else [Tick(n, generated[n])];
    assert Survive(generated, dropped) == r + tail;
    if k < |r| {
      SurviveExactly(generated[..n], dropped);
      DropOne(generated[..n], dropped, k);
      RemoveInFront(r, tail, k);
    } else {
      DropOutside(generated[..n], dropped, n);
      RemoveInBack(r, tail);
    }
  }

  lemma SurviveNext(generated: seq<int>, dropped: set<nat>, v: int)
    requires |generated| !in dropped
    ensures Survive(generated + [v], dropped) == Survive(generated, dropped) + [Tick(|generated|, v)]
  {
    assert (generated + [v])[..|generated|] == generated;
  }
}
