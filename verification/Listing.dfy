/** Reading a list as text: one decimal number a line, as many whole lines as fit. */
module Listing {
  import Euclid
  import opened ListHeads
  import opened ModLists

  // ---- decimal lines ------------------------------------------------------------------

  function Digit(d: nat): char
    requires d < 10
  {
    '0' + d as char
  }

  function Digits(n: nat): (s: string)
    ensures s != [] && forall i | 0 <= i < |s| :: '0' <= s[i] <= '9'
  {
    if n < 10 then [Digit(n)] else Digits(n / 10) + [Digit(n % 10)]
  }

  /** `%d`. */
  function Number(n: int): (s: string)
    ensures forall i | 0 <= i < |s| :: s[i] != '\n'
  {
    if n < 0 then "-" + Digits(-n) else Digits(n)
  }

  function Line(n: int): (s: string)
    ensures s != []
  {
    Number(n) + "\n"
  }

  /** The texts of some numbers, one after the other; `f` is `Line` below. */
  function Lines(f: int -> string, xs: seq<int>): string {
    if xs == [] then "" else Lines(f, xs[..|xs| - 1]) + f(xs[|xs| - 1])
  }

  function ParseDigits(s: string): int {
    if s == "" then 0 else 10 * ParseDigits(s[..|s| - 1]) + (s[|s| - 1] as int - '0' as int)
  }

  function ParseNumber(s: string): int {
    if s != "" && s[0] == '-' then -ParseDigits(s[1..]) else ParseDigits(s)
  }

  /** The length of the text before the first newline. */
  function LineLength(s: string): (k: nat)
    ensures k <= |s| && (forall i | 0 <= i < k :: s[i] != '\n') && (k < |s| ==> s[k] == '\n')
  {
    if s == "" || s[0] == '\n' then 0 else 1 + LineLength(s[1..])
  }

  /** The numbers of a text, one a line. */
  function Decode(s: string): seq<int>
    decreases |s|
  {
    if s == "" then []
    else
      var k := LineLength(s);
      [ParseNumber(s[..k])] + if k < |s| then Decode(s[k + 1..]) else []
  }

  function Power(b: nat, k: nat): (r: nat)
    ensures b > 0 ==> r > 0
  {
    if k == 0 then 1 else b * Power(b, k - 1)
  }

  /** Dividing by ten and then by d is dividing by ten times d. */
  lemma DivideTwice(n: nat, d: nat)
    requires d >= 1
    ensures n / 10 / d == n / (10 * d)
  {
    var m := n / 10;
    var q, r := m / d, m % d;
    assert m == d * q + r && n == 10 * m + n % 10;
    assert 10 * m == (10 * d) * q + 10 * r;
    assert n == (10 * d) * q + (10 * r + n % 10);
    QuotientIs(n, 10 * d, q, 10 * r + n % 10);
  }

  lemma NextMultiple(d: nat, p: nat, q: nat)
    requires p < q
    ensures d * q >= d * p + d
  {
    Euclid.Grows(q - p, d);
    assert d * q == d * p + (q - p) * d;
  }

  lemma QuotientIs(n: nat, d: nat, q: nat, r: nat)
    requires n == d * q + r && r < d
    ensures n / d == q
  {
    var p := n / d;
    assert n == d * p + n % d;
    if p < q {
      NextMultiple(d, p, q);
    } else if q < p {
      NextMultiple(d, q, p);
    }
  }

  /** The text of a number is as long as its size demands, with no zero in front. */
  lemma {:induction false} DigitsLength(n: nat)
    ensures n > 0 ==> Power(10, |Digits(n)| - 1) <= n < Power(10, |Digits(n)|)
    ensures n == 0 ==> Digits(n) == "0"
  {
    if n < 10 {
      assert Power(10, 0) == 1 && Power(10, 1) == 10 * Power(10, 0);
    } else {
      var m := n / 10;
      var k := |Digits(m)|;
      DigitsLength(m);
      assert |Digits(n)| == k + 1 && Power(10, k + 1) == 10 * Power(10, k) && Power(10, k) == 10 * Power(10, k - 1);
    }
  }

  /** Its k-th character from the right is the k-th decimal digit. */
  lemma {:induction false} DigitsAt(n: nat, k: nat)
    requires k < |Digits(n)|
    ensures Digits(n)[|Digits(n)| - 1 - k] as int == '0' as int + n / Power(10, k) % 10
  {
    if k > 0 {
      DigitsAt(n / 10, k - 1);
      DivideTwice(n, Power(10, k - 1));
    }
  }

  /** What `%d` and a newline print: a minus sign exactly for negative numbers, the decimal
      digits of the absolute value without zeros in front, and the newline. */
  lemma LineSpelled(n: int)
    ensures |Line(n)| >= 2
    ensures var s, m := Line(n), if n < 0 then -n else n;
      var d := s[if n < 0 then 1 else 0..|s| - 1];
      && s[|s| - 1] == '\n' && (s[0] == '-' <==> n < 0) && d != [] && (m == 0 ==> d == "0")
      && (m > 0 ==> Power(10, |d| - 1) <= m < Power(10, |d|))
      && forall k: nat | k < |d| :: d[|d| - 1 - k] as int == '0' as int + m / Power(10, k) % 10
  {
    var m: nat := if n < 0 then -n else n;
    var s := Line(n);
    DigitsLength(m);
    forall k: nat | k < |Digits(m)|
      ensures Digits(m)[|Digits(m)| - 1 - k] as int == '0' as int + m / Power(10, k) % 10
    {
      DigitsAt(m, k);
    }
    assert s[if n < 0 then 1 else 0..|s| - 1] == Digits(m);
  }

  lemma {:induction false} DigitsBack(n: nat)
    ensures ParseDigits(Digits(n)) == n
  {
    if n < 10 {
      assert Digits(n)[..0] == "";
    } else {
      DigitsBack(n / 10);
      assert Digits(n)[..|Digits(n)| - 1] == Digits(n / 10);
    }
  }

  lemma NumberBack(n: int)
    ensures ParseNumber(Number(n)) == n
  {
    DigitsBack(if n < 0 then -n else n);
    assert n < 0 ==> Number(n)[1..] == Digits(-n);
  }

  /** The first line of a text is found where it was put. */
  lemma FirstLine(line: string, rest: string)
    requires forall i | 0 <= i < |line| :: line[i] != '\n'
    ensures var s := line + "\n" + rest;
      LineLength(s) == |line| && s[..|line|] == line && s[|line| + 1..] == rest
  {
    var s := line + "\n" + rest;
    assert s[|line|] == '\n' && forall i | 0 <= i < |line| :: s[i] == line[i];
  }

  lemma LinesAppend(f: int -> string, xs: seq<int>, x: int)
    ensures Lines(f, xs + [x]) == Lines(f, xs) + f(x)
  {
    assert (xs + [x])[..|xs|] == xs;
  }

  lemma {:induction false} LinesFirst(f: int -> string, xs: seq<int>)
    requires xs != []
    ensures Lines(f, xs) == f(xs[0]) + Lines(f, xs[1..])
    decreases |xs|
  {
    var init, last := xs[..|xs| - 1], xs[|xs| - 1];
    if |xs| == 1 {
      assert init == [] && xs[1..] == [];
    } else {
      LinesFirst(f, init);
      LinesAppend(f, init[1..], last);
      assert xs[1..] == init[1..] + [last];
    }
  }

  /** Decoding a listing gives back the numbers listed. */
  lemma {:induction false} RoundTrip(xs: seq<int>)
    ensures Decode(Lines(Line, xs)) == xs
    decreases |xs|
  {
    if xs != [] {
      LinesFirst(Line, xs);
      NumberBack(xs[0]);
      FirstLine(Number(xs[0]), Lines(Line, xs[1..]));
      RoundTrip(xs[1..]);
    }
  }

  // ---- the longest prefix that fits -------------------------------------------------------

  lemma {:induction false} LongerLines(f: int -> string, xs: seq<int>, j: nat, k: nat)
    requires j < k <= |xs|
    ensures |Lines(f, xs[..j])| + |f(xs[j])| <= |Lines(f, xs[..k])|
    decreases k - j
  {
    assert xs[..k][..k - 1] == xs[..k - 1];
    if j + 1 < k {
      LongerLines(f, xs, j, k - 1);
    }
  }

  /** `out` lists the longest prefix of xs whose listing has at most len characters. */
  predicate LongestListing(f: int -> string, xs: seq<int>, len: nat, k: nat, out: string) {
    && k <= |xs| && out == Lines(f, xs[..k]) && |out| <= len
    && forall j | k < j <= |xs| :: |Lines(f, xs[..j])| > len
  }

  /** The line that does not fit ends the longest listing. */
  lemma NoLonger(f: int -> string, xs: seq<int>, len: nat, k: nat)
    requires k < |xs| && |f(xs[k])| > len - |Lines(f, xs[..k])|
    ensures forall j | k < j <= |xs| :: |Lines(f, xs[..j])| > len
  {
    forall j | k < j <= |xs| ensures |Lines(f, xs[..j])| > len {
      LongerLines(f, xs, k, j);
    }
  }

  lemma OneLineMore(f: int -> string, xs: seq<int>, k: nat)
    requires k < |xs|
    ensures Lines(f, xs[..k + 1]) == Lines(f, xs[..k]) + f(xs[k])
  {
    LinesAppend(f, xs[..k], xs[k]);
    assert xs[..k + 1] == xs[..k] + [xs[k]];
  }

  /** Where a walk over the list is after k nodes. */
  lemma Walking(head: Node, nodes: seq<Node>, k: nat)
    requires IsList(head, nodes) && k <= |nodes|
    ensures k < |nodes| ==> nodes[k] != head && nodes[k].next == AtOrHead(head, nodes, k + 1)
    ensures AtOrHead(head, nodes, k) == head ==> k == |nodes|
  {
    if k < |nodes| {
      Neighbours(head, nodes, k);
    }
  }

  /** The walk of `modlist_read`, over lines of any form. */
  method ListInto(f: int -> string, head: Node, len: nat, ghost nodes: seq<Node>) returns (out: string)
    requires IsList(head, nodes)
    ensures exists k: nat :: LongestListing(f, Data(nodes), len, k, out)
  {
    out := "";
    ghost var k: nat := 0;
    ghost var xs := Data(nodes);
    Ends(head, nodes);
    var pos := head.next;
    while pos != head
      invariant k <= |nodes| && pos == AtOrHead(head, nodes, k)
      invariant out == Lines(f, xs[..k]) && |out| <= len
      decreases |nodes| - k
    {
      Walking(head, nodes, k);
      var line := f(pos.data);
      var nbytes := |line|;
      if nbytes > len - |out| {
        NoLonger(f, xs, len, k);
        break;
      }
      OneLineMore(f, xs, k);
      out := out + line;
      pos := pos.next;
      k := k + 1;
    }
    Walking(head, nodes, k);
    assert LongestListing(f, xs, len, k, out);
  }

  /** `modlist_read`: lists the integers at `head`, unless something was read already. */
  method ModlistRead(head: Node, off: nat, len: nat, ghost nodes: seq<Node>)
    returns (out: string, newOff: nat)
    requires IsList(head, nodes)
    ensures newOff == off + |out|
    ensures off > 0 ==> out == ""
    ensures off == 0 ==>
      exists k: nat :: LongestListing(Line, Data(nodes), len, k, out) && Decode(out) == Data(nodes)[..k]
  {
    out, newOff := "", off;
    if off > 0 {
      return;
    }
    out := ListInto(Line, head, len, nodes);
    ghost var k: nat :| LongestListing(Line, Data(nodes), len, k, out);
    RoundTrip(Data(nodes)[..k]);
    newOff := off + |out|;
  }
}
