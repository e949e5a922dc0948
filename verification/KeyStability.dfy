/**
 What the exchange sort over key priorities (internal/router/router.go, orderedKeys) does to
 keys of equal priority: in which order they end up, and exactly when that is the configured
 order.
 */
module KeyStability {
  import opened Config
  import opened Failover

  /** The items of one priority, in order. */
  function Group(s: seq<KeyItem>, v: int): seq<KeyItem> {
    if s == [] then []
    else
      var last := s[|s| - 1];
      Group(s[..|s| - 1], v) + (if last.priority == v then [last] else [])
  }

  /** The first becomes the last. */
  function Turned(q: seq<KeyItem>): (r: seq<KeyItem>)
    ensures |r| == |q|
  {
    if q == [] then [] else q[1..] + [q[0]]
  }

  /** What one more item does to a group. */
  function Met(group: seq<KeyItem>, x: KeyItem, v: int): seq<KeyItem> {
    if x.priority == v then group + [x] else if x.priority < v then Turned(group) else group
  }

  /** The order a group ends up in: every better item turns the part of the group that was
      configured before it. */
  function Rotated(s: seq<KeyItem>, v: int): seq<KeyItem> {
    if s == [] then [] else Met(Rotated(s[..|s| - 1], v), s[|s| - 1], v)
  }

  lemma {:induction false} GroupAppend(a: seq<KeyItem>, b: seq<KeyItem>, v: int)
    ensures Group(a + b, v) == Group(a, v) + Group(b, v)
  {
    if b == [] {
      assert a + b == a;
    } else {
      var s := a + b;
      GroupAppend(a, b[..|b| - 1], v);
      assert s[..|s| - 1] == a + b[..|b| - 1];
    }
  }

  lemma RotatedSnoc(s: seq<KeyItem>, x: KeyItem, v: int)
    ensures Rotated(s + [x], v) == Met(Rotated(s, v), x, v)
  {
    assert (s + [x])[..|s|] == s;
  }

  lemma {:induction false} OnlyWorse(s: seq<KeyItem>, v: int)
    requires forall k :: 0 <= k < |s| ==> s[k].priority > v
    ensures Rotated(s, v) == []
  {
    if s == [] {
    } else {
      OnlyWorse(s[..|s| - 1], v);
    }
  }

  // ---- One row ------------------------------------------------------------

  function Front(x: KeyItem, v: int): seq<KeyItem> {
    if x.priority == v then [x] else []
  }

  /** What the row has at its front and behind it, for one more item. */
  lemma RowSplit(s: seq<KeyItem>, i: nat, j: nat)
    requires i < j < |s|
    ensures var r, t := Row(s, i, j), Row(s, i, j + 1);
      if s[j].priority < r[i].priority then t[i] == s[j] && t[i + 1..j + 1] == r[i + 1..j] + [r[i]]
      else t[i] == r[i] && t[i + 1..j + 1] == r[i + 1..j] + [s[j]]
  {
    RowOutside(s, i, j, j);
  }

  lemma RowFloor(s: seq<KeyItem>, i: nat, j: nat, v: int)
    requires i < j <= |s| && Row(s, i, j)[i].priority > v
    ensures Rotated(Row(s, i, j)[i + 1..j], v) == []
  {
    var rest := Row(s, i, j)[i + 1..j];
    forall k | 0 <= k < |rest| ensures rest[k].priority > v {
      RowLeast(s, i, j, i + 1 + k);
    }
    OnlyWorse(rest, v);
  }

  lemma Exchanged(p: seq<KeyItem>, c: KeyItem, rest: seq<KeyItem>, x: KeyItem, v: int)
    requires Rotated(p, v) == Front(c, v) + Rotated(rest, v) && x.priority < c.priority
    requires c.priority > v ==> Rotated(rest, v) == []
    ensures Rotated(p + [x], v) == Front(x, v) + Rotated(rest + [c], v)
  {
    RotatedSnoc(p, x, v);
    RotatedSnoc(rest, c, v);
    FrontsExchanged(Rotated(p, v), c, Rotated(rest, v), x, v);
  }

  lemma FrontsExchanged(all: seq<KeyItem>, c: KeyItem, group: seq<KeyItem>, x: KeyItem, v: int)
    requires all == Front(c, v) + group && x.priority < c.priority && (c.priority > v ==> group == [])
    ensures Met(all, x, v) == Front(x, v) + Met(group, c, v)
  {
    if c.priority == v {
      assert Turned([c] + group) == group + [c];
    }
  }

  lemma LeftAlone(p: seq<KeyItem>, c: KeyItem, rest: seq<KeyItem>, x: KeyItem, v: int)
    requires Rotated(p, v) == Front(c, v) + Rotated(rest, v) && x.priority >= c.priority
    ensures Rotated(p + [x], v) == Front(c, v) + Rotated(rest + [x], v)
  {
    RotatedSnoc(p, x, v);
    RotatedSnoc(rest, x, v);
    FrontStays(Rotated(p, v), c, Rotated(rest, v), x, v);
  }

  lemma FrontStays(all: seq<KeyItem>, c: KeyItem, group: seq<KeyItem>, x: KeyItem, v: int)
    requires all == Front(c, v) + group && x.priority >= c.priority
    ensures Met(all, x, v) == Front(c, v) + Met(group, x, v)
  {
  }

  /** What the row will be turned into is known once its front and the items behind are. */
  ghost predicate Kept(s: seq<KeyItem>, i: nat, j: nat, r: seq<KeyItem>, v: int) {
    i < j <= |s| && |r| == |s| && Rotated(s[i..j], v) == Front(r[i], v) + Rotated(r[i + 1..j], v)
  }

  lemma RowStep(s: seq<KeyItem>, i: nat, j: nat, r: seq<KeyItem>, t: seq<KeyItem>, v: int)
    requires i < j < |s| && r == Row(s, i, j) && t == Row(s, i, j + 1) && Kept(s, i, j, r, v)
    ensures Kept(s, i, j + 1, t, v)
  {
    var c, rest := r[i], r[i + 1..j];
    RowSplit(s, i, j);
    if c.priority > v {
      RowFloor(s, i, j, v);
    }
    SliceGrows(s, i, j);
    OneMoreItem(s[i..j], c, rest, s[j], t[i], t[i + 1..j + 1], v);
  }

  lemma SliceGrows(s: seq<KeyItem>, i: nat, j: nat)
    requires i <= j < |s|
    ensures s[i..j + 1] == s[i..j] + [s[j]]
  {
  }

  lemma OneMoreItem(p: seq<KeyItem>, c: KeyItem, rest: seq<KeyItem>, x: KeyItem,
                    front: KeyItem, behind: seq<KeyItem>, v: int)
    requires Rotated(p, v) == Front(c, v) + Rotated(rest, v) && (c.priority > v ==> Rotated(rest, v) == [])
    requires if x.priority < c.priority then front == x && behind == rest + [c] else front == c && behind == rest + [x]
    ensures Rotated(p + [x], v) == Front(front, v) + Rotated(behind, v)
  {
    if x.priority < c.priority {
      Exchanged(p, c, rest, x, v);
    } else {
      LeftAlone(p, c, rest, x, v);
    }
  }

  lemma RowOfOne(s: seq<KeyItem>, i: nat, v: int)
    requires i < |s|
    ensures Kept(s, i, i + 1, Row(s, i, i + 1), v)
  {
    assert s[i..i + 1] == [] + [s[i]];
    RotatedSnoc([], s[i], v);
    assert Row(s, i, i + 1) == s;
    assert Rotated(s[i + 1..i + 1], v) == [];
  }

  /** Taking the least item to the front keeps what the rest will be turned into. */
  lemma {:induction false} RowKeepsRotated(s: seq<KeyItem>, i: nat, j: nat, t: seq<KeyItem>, v: int)
    requires i < j <= |s| && t == Row(s, i, j)
    ensures Kept(s, i, j, t, v)
    decreases j
  {
    if j == i + 1 {
      RowOfOne(s, i, v);
    } else {
      var k := j - 1;
      var r := Row(s, i, k);
      RowKeepsRotated(s, i, k, r, v);
      RowStep(s, i, k, r, t, v);
    }
  }

  // ---- All rows -----------------------------------------------------------

  lemma GroupSnoc(s: seq<KeyItem>, x: KeyItem, v: int)
    ensures Group(s + [x], v) == Group(s, v) + Front(x, v)
  {
    assert (s + [x])[..|s|] == s;
  }

  lemma RowPrefix(s: seq<KeyItem>, i: nat)
    requires i < |s|
    ensures Row(s, i, |s|)[..i + 1] == s[..i] + [Row(s, i, |s|)[i]]
  {
    forall k | 0 <= k < i ensures Row(s, i, |s|)[k] == s[k] {
      RowOutside(s, i, |s|, k);
    }
  }

  /** On plain lists: one more item in place. */
  lemma InPlace(a: seq<KeyItem>, x: KeyItem, rest: seq<KeyItem>, tail: seq<KeyItem>, v: int)
    requires Rotated(tail, v) == Front(x, v) + Rotated(rest, v)
    ensures Group(a + [x], v) + Rotated(rest, v) == Group(a, v) + Rotated(tail, v)
  {
    GroupSnoc(a, x, v);
    Regroup(Group(a, v), Front(x, v), Rotated(rest, v), Group(a + [x], v), Rotated(tail, v));
  }

  lemma Regroup(a: seq<KeyItem>, b: seq<KeyItem>, c: seq<KeyItem>, ab: seq<KeyItem>, bc: seq<KeyItem>)
    requires ab == a + b && bc == b + c
    ensures ab + c == a + bc
  {
  }

  lemma RowKeepsAll(s: seq<KeyItem>, i: nat, t: seq<KeyItem>, v: int)
    requires i < |s| && t == Row(s, i, |s|)
    ensures Group(t[..i + 1], v) + Rotated(t[i + 1..], v) == Group(s[..i], v) + Rotated(s[i..], v)
  {
    RowKeepsRotated(s, i, |s|, t, v);
    assert s[i..|s|] == s[i..] && t[i + 1..|s|] == t[i + 1..];
    RowPrefix(s, i);
    InPlace(s[..i], t[i], t[i + 1..], s[i..], v);
  }

  lemma {:induction false} RowsKeepRotated(s: seq<KeyItem>, i: nat, v: int)
    requires i <= |s|
    ensures Group(Rows(s, i)[..i], v) + Rotated(Rows(s, i)[i..], v) == Rotated(s, v)
  {
    if i == 0 {
      assert Rows(s, 0)[0..] == s;
    } else {
      RowsKeepRotated(s, i - 1, v);
      RowKeepsAll(Rows(s, i - 1), i - 1, Rows(s, i), v);
    }
  }

  /** Where the sort leaves the items of one priority. */
  lemma SortedGroup(s: seq<KeyItem>, v: int)
    ensures Group(ExchangeSort(s), v) == Rotated(s, v)
  {
    var sorted := ExchangeSort(s);
    RowsKeepRotated(s, |s|, v);
    assert sorted[..|s|] == sorted && sorted[|s|..] == [];
  }

  // ---- When the configured order is kept ----------------------------------

  /** The better items that stand where exactly `k` of the group have come. */
  function BetterAfter(s: seq<KeyItem>, v: int, k: nat): nat {
    if s == [] then 0
    else
      var init, last := s[..|s| - 1], s[|s| - 1];
      BetterAfter(init, v, k) + (if last.priority < v && |Group(init, v)| == k then 1 else 0)
  }

  predicate Divides(k: nat, x: nat)
    requires k > 0
    decreases x
  {
    x == 0 || (x >= k && Divides(k, x - k))
  }

  /** Between any two neighbours of the group, and after its last, there are as many better
      items as turn the part before them all the way round. */
  ghost predicate FullTurns(s: seq<KeyItem>, v: int, n: nat) {
    forall k :: 1 <= k < n ==> Divides(k, BetterAfter(s, v, k))
  }

  ghost predicate Distinct(q: seq<KeyItem>) {
    forall i, j :: 0 <= i < j < |q| ==> q[i] != q[j]
  }

  /** The group as its last member found it and left it. */
  function AtLast(s: seq<KeyItem>, v: int): seq<KeyItem> {
    if s == [] then []
    else
      var init, last := s[..|s| - 1], s[|s| - 1];
      if last.priority == v then Rotated(init, v) + [last] else AtLast(init, v)
  }

  /** `q` turned `r` times. */
  function Wheel(q: seq<KeyItem>, r: nat): (w: seq<KeyItem>)
    ensures |w| == |q|
  {
    if r == 0 then q else Turned(Wheel(q, r - 1))
  }

  lemma {:induction false} WheelPart(q: seq<KeyItem>, r: nat)
    requires r <= |q|
    ensures Wheel(q, r) == q[r..] + q[..r]
  {
    if r == 0 {
      assert q[0..] + q[..0] == q;
    } else {
      WheelPart(q, r - 1);
      var w := q[r - 1..] + q[..r - 1];
      assert Turned(w) == w[1..] + [w[0]];
      assert w[1..] == q[r..] + q[..r - 1] && w[0] == q[r - 1];
      assert q[..r] == q[..r - 1] + [q[r - 1]];
    }
  }

  lemma {:induction false} WheelTwice(q: seq<KeyItem>, a: nat, b: nat)
    ensures Wheel(q, a + b) == Wheel(Wheel(q, a), b)
  {
    if b == 0 {
    } else {
      WheelTwice(q, a, b - 1);
    }
  }

  lemma OneTurnLess(q: seq<KeyItem>, r: nat)
    requires r >= |q|
    ensures Wheel(q, r) == Wheel(q, r - |q|)
  {
    var w := Wheel(q, r - |q|);
    WheelTwice(q, r - |q|, |q|);
    WheelPart(w, |q|);
    assert w[|q|..] + w[..|q|] == w;
  }

  /** A list of distinct items comes back, and so does its last one, exactly after full turns. */
  lemma {:induction false} WheelFull(q: seq<KeyItem>, r: nat)
    requires q != [] && Distinct(q)
    ensures Wheel(q, r) == q <==> Divides(|q|, r)
    ensures Wheel(q, r)[|q| - 1] == q[|q| - 1] <==> Divides(|q|, r)
    decreases r
  {
    var n := |q|;
    if r >= n {
      OneTurnLess(q, r);
      WheelFull(q, r - n);
    } else {
      WheelPart(q, r);
      if r > 0 {
        assert (q[r..] + q[..r])[n - 1] == q[r - 1];
      }
    }
  }

  lemma {:induction false} RotatedIsWheel(s: seq<KeyItem>, v: int)
    ensures Rotated(s, v) == Wheel(AtLast(s, v), BetterAfter(s, v, |Group(s, v)|))
    ensures |AtLast(s, v)| == |Group(s, v)|
    ensures forall k :: k > |Group(s, v)| ==> BetterAfter(s, v, k) == 0
    ensures AtLast(s, v) != [] ==> AtLast(s, v)[|Group(s, v)| - 1] == Group(s, v)[|Group(s, v)| - 1]
  {
    if s == [] {
    } else {
      RotatedIsWheel(s[..|s| - 1], v);
    }
  }

  lemma {:induction false} DistinctInit(s: seq<KeyItem>, v: int)
    requires s != [] && Distinct(Group(s, v))
    ensures Distinct(Group(s[..|s| - 1], v))
  {
    var q := Group(s[..|s| - 1], v);
    assert forall k :: 0 <= k < |q| ==> Group(s, v)[k] == q[k];
  }

  /** The wheel of the last member decides the rest. */
  lemma LastTurn(g: seq<KeyItem>, w: seq<KeyItem>, r: nat)
    requires g != [] && Distinct(g) && |w| == |g| && w[|g| - 1] == g[|g| - 1]
    requires Distinct(w)
    ensures Wheel(w, r) == g <==> w == g && Divides(|g|, r)
  {
    WheelFull(w, r);
  }

  lemma DistinctTurned(q: seq<KeyItem>)
    requires Distinct(q)
    ensures Distinct(Turned(q)) && forall x :: x in Turned(q) <==> x in q
  {
    if q == [] {
    } else {
      var t := Turned(q);
      assert q == [q[0]] + q[1..];
      forall i, j | 0 <= i < j < |t| ensures t[i] != t[j] {
        assert t[i] == q[i + 1];
        assert t[j] == if j == |t| - 1 then q[0] else q[j + 1];
      }
    }
  }

  /** Turning neither loses nor doubles anything. */
  lemma {:induction false} RotatedDistinct(s: seq<KeyItem>, v: int)
    requires Distinct(Group(s, v))
    ensures Distinct(Rotated(s, v)) && Distinct(AtLast(s, v))
    ensures forall x :: x in Rotated(s, v) <==> x in Group(s, v)
  {
    if s == [] {
    } else {
      var init, last := s[..|s| - 1], s[|s| - 1];
      DistinctInit(s, v);
      RotatedDistinct(init, v);
      DistinctTurned(Rotated(init, v));
      if last.priority == v {
        var g := Group(init, v);
        assert last !in g by {
          assert (g + [last])[|g|] == last;
          assert forall k :: 0 <= k < |g| ==> (g + [last])[k] == g[k];
        }
      }
    }
  }

  lemma FullTurnsSnoc(s: seq<KeyItem>, v: int, n: nat)
    requires n >= 1
    ensures FullTurns(s, v, n + 1) <==> FullTurns(s, v, n) && Divides(n, BetterAfter(s, v, n))
  {
  }

  /** The parts before the last one are what they were one item earlier. */
  lemma FullTurnsInit(s: seq<KeyItem>, v: int)
    requires s != []
    ensures FullTurns(s, v, |Group(s, v)|) <==> FullTurns(s[..|s| - 1], v, |Group(s, v)|)
  {
    var init := s[..|s| - 1];
    forall k | 1 <= k < |Group(s, v)| ensures BetterAfter(s, v, k) == BetterAfter(init, v, k) {
    }
  }

  lemma SameButLast(a: seq<KeyItem>, b: seq<KeyItem>, x: KeyItem)
    ensures a + [x] == b + [x] <==> a == b
  {
    assert a == (a + [x])[..|a + [x]| - 1] && b == (b + [x])[..|b + [x]| - 1];
  }

  /**
     A group of distinct items keeps its configured order exactly when, for every k up to its
     size, the better items configured between its k-th and its next member (or after its last)
     come in a multiple of k.
   */
  lemma {:induction false} OrderKeptIff(s: seq<KeyItem>, v: int)
    requires Distinct(Group(s, v))
    ensures AtLast(s, v) == Group(s, v) <==> FullTurns(s, v, |Group(s, v)|)
    ensures Rotated(s, v) == Group(s, v) <==> FullTurns(s, v, |Group(s, v)| + 1)
  {
    if s == [] {
    } else {
      var init, last := s[..|s| - 1], s[|s| - 1];
      var g, w := Group(s, v), AtLast(s, v);
      DistinctInit(s, v);
      OrderKeptIff(init, v);
      FullTurnsInit(s, v);
      if last.priority == v {
        SameButLast(Rotated(init, v), Group(init, v), last);
      }
      if g == [] {
        RotatedIsWheel(s, v);
      } else {
        RotatedIsWheel(s, v);
        RotatedDistinct(s, v);
        LastTurn(g, w, BetterAfter(s, v, |g|));
        FullTurnsSnoc(s, v, |g|);
      }
    }
  }

  // ---- What that means for the keys of a model ----------------------------

  /** The exact condition under which the keys of one priority are tried in the order in which
      they are configured. */
  lemma EqualKeysKeepOrderIff(m: Model, c: Configuration, v: int)
    requires Distinct(Group(UsableItems(InstancesOf(m), c), v))
    ensures var usable := UsableItems(InstancesOf(m), c);
      Group(ExchangeSort(usable), v) == Group(usable, v) <==> FullTurns(usable, v, |Group(usable, v)| + 1)
  {
    var usable := UsableItems(InstancesOf(m), c);
    SortedGroup(usable, v);
    OrderKeptIff(usable, v);
  }

  lemma OneAtTheEnd(a: seq<KeyItem>, b: seq<KeyItem>, v: int)
    requires b != []
    ensures var init, last := b[..|b| - 1], b[|b| - 1];
      a + b == (a + init) + [last] && Group(b, v) == Group(init, v) + Front(last, v)
  {
  }

  lemma {:induction false} NothingBetter(a: seq<KeyItem>, b: seq<KeyItem>, v: int)
    requires forall k :: 0 <= k < |b| ==> b[k].priority >= v
    ensures Rotated(a + b, v) == Rotated(a, v) + Group(b, v)
  {
    if b == [] {
      assert a + b == a;
    } else {
      var init, last := b[..|b| - 1], b[|b| - 1];
      NothingBetter(a, init, v);
      OneAtTheEnd(a, b, v);
      RotatedSnoc(a + init, last, v);
    }
  }

  /** Everything that shares the best priority keeps its configured order. */
  lemma BestKeepOrder(s: seq<KeyItem>, v: int)
    requires forall k :: 0 <= k < |s| ==> s[k].priority >= v
    ensures Group(ExchangeSort(s), v) == Group(s, v)
  {
    SortedGroup(s, v);
    NothingBetter([], s, v);
    assert [] + s == s;
  }

  /** Two items of equal priority keep their order when nothing better is configured after the
      second: everything of their group that came before the second still does. */
  lemma NothingBetterAfter(before: seq<KeyItem>, x: KeyItem, after: seq<KeyItem>)
    requires forall k :: 0 <= k < |after| ==> after[k].priority >= x.priority
    ensures Group(ExchangeSort(before + [x] + after), x.priority)
         == Rotated(before, x.priority) + [x] + Group(after, x.priority)
    ensures forall y :: y in Rotated(before, x.priority) <==> y in before && y.priority == x.priority
  {
    SortedGroup(before + [x] + after, x.priority);
    NothingBetter(before + [x], after, x.priority);
    RotatedSnoc(before, x, x.priority);
    forall y ensures y in Rotated(before, x.priority) <==> y in before && y.priority == x.priority {
      RotatedMembers(before, x.priority, y);
    }
  }

  lemma {:induction false} RotatedMembers(s: seq<KeyItem>, v: int, y: KeyItem)
    ensures y in Rotated(s, v) <==> y in s && y.priority == v
  {
    if s == [] {
    } else {
      var init, last := s[..|s| - 1], s[|s| - 1];
      RotatedMembers(init, v, y);
      assert s == init + [last];
      var q := Rotated(init, v);
      if q != [] {
        assert q == [q[0]] + q[1..];
      }
    }
  }

  /** A better item after two equal ones swaps them; a second one swaps them back. */
  lemma OneTurnSwapsTwoDoNot(a: KeyItem, b: KeyItem, x: KeyItem, y: KeyItem)
    requires a != b && a.priority == b.priority && x.priority < a.priority && y.priority < a.priority
    ensures Group(ExchangeSort([a, b, x]), a.priority) == [b, a]
    ensures Group(ExchangeSort([a, b, x, y]), a.priority) == [a, b]
  {
    var v := a.priority;
    SortedGroup([a, b, x], v);
    SortedGroup([a, b, x, y], v);
    assert [a] == [] + [a] && [a, b] == [a] + [b] && [a, b, x] == [a, b] + [x] && [a, b, x, y] == [a, b, x] + [y];
    RotatedSnoc([], a, v);
    RotatedSnoc([a], b, v);
    RotatedSnoc([a, b], x, v);
    RotatedSnoc([a, b, x], y, v);
  }
}
