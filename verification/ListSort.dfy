/** The bubble-style sort of a linked list, on lists of conference participants ordered by
    descending position. */
module ListSort {

  /** A participant: user id, position, and the flow it belongs to. */
  datatype Part = Part(uid: string, pos: nat, flow: nat)

  /** sort_handler holds of every two neighbours. */
  predicate Descending(l: seq<Part>) {
    forall i :: 0 <= i < |l| - 1 ==> l[i].pos >= l[i + 1].pos
  }

  /** The participants at position v, in list order. */
  function At(l: seq<Part>, v: nat): seq<Part> {
    if l == [] then [] else One(l[0], v) + At(l[1..], v)
  }

  function One(x: Part, v: nat): seq<Part> {
    if x.pos == v then [x] else []
  }

  /** Same participants, and those at equal positions in the same order. */
  ghost predicate StablyEqual(a: seq<Part>, b: seq<Part>) {
    forall v :: At(a, v) == At(b, v)
  }

  lemma {:induction false} AtFirst(x: Part, l: seq<Part>, v: nat)
    ensures At([x] + l, v) == One(x, v) + At(l, v)
  {
    assert ([x] + l)[1..] == l;
  }

  lemma Associates(a: seq<Part>, b: seq<Part>, c: seq<Part>)
    ensures a + b + c == a + (b + c)
  {
  }

  lemma {:induction false} AtJoin(a: seq<Part>, b: seq<Part>, v: nat)
    ensures At(a + b, v) == At(a, v) + At(b, v)
    decreases |a|
  {
    if a == [] {
      assert a + b == b;
    } else {
      AtJoin(a[1..], b, v);
      AtJoinFirst(a[0], a[1..], b, v);
      assert [a[0]] + a[1..] == a;
    }
  }

  lemma {:induction false} AtJoinFirst(x: Part, l: seq<Part>, b: seq<Part>, v: nat)
    requires At(l + b, v) == At(l, v) + At(b, v)
    ensures At([x] + l + b, v) == At([x] + l, v) + At(b, v)
  {
    AtFirst(x, l, v);
    AtFirst(x, l + b, v);
    Associates([x], l, b);
    Associates(One(x, v), At(l, v), At(b, v));
  }

  lemma {:induction false} AtLast(l: seq<Part>, x: Part, v: nat)
    ensures At(l + [x], v) == At(l, v) + One(x, v)
  {
    AtJoin(l, [x], v);
    assert [x] + [] == [x];
    AtFirst(x, [], v);
  }

  lemma {:induction false} AtHas(l: seq<Part>, v: nat, x: Part)
    ensures x in At(l, v) <==> x in l && x.pos == v
  {
    if l == [] {
    } else {
      AtHas(l[1..], v, x);
      assert l == [l[0]] + l[1..];
    }
  }

  lemma {:induction false} DescendingAll(l: seq<Part>, i: nat, j: nat)
    requires Descending(l) && i <= j < |l|
    ensures l[i].pos >= l[j].pos
    decreases j - i
  {
    if i == j {
    } else {
      DescendingAll(l, i + 1, j);
    }
  }

  lemma HeadIsMax(l: seq<Part>, x: Part)
    requires Descending(l) && x in l
    ensures l != [] && l[0].pos >= x.pos
  {
    var j :| 0 <= j < |l| && l[j] == x;
    DescendingAll(l, 0, j);
  }

  lemma SameHead(a: seq<Part>, b: seq<Part>)
    requires Descending(a) && Descending(b) && StablyEqual(a, b) && a != []
    ensures b != [] && a[0] == b[0]
  {
    var v := a[0].pos;
    AtHas(a, v, a[0]);
    AtHas(b, v, a[0]);
    HeadIsMax(b, a[0]);
    var w := b[0].pos;
    AtHas(b, w, b[0]);
    AtHas(a, w, b[0]);
    HeadIsMax(a, b[0]);
    assert At(a, v)[0] == a[0] && At(b, v)[0] == b[0];
  }

  /** A stable sort is unique. */
  lemma {:induction false} SortIsUnique(a: seq<Part>, b: seq<Part>)
    requires Descending(a) && Descending(b) && StablyEqual(a, b)
    ensures a == b
    decreases |a|
  {
    if a == [] {
      if b != [] {
        AtHas(b, b[0].pos, b[0]);
        AtHas(a, b[0].pos, b[0]);
      }
    } else {
      SameHead(a, b);
      forall v ensures At(a[1..], v) == At(b[1..], v) {
        assert At(a, v) == At(b, v);
        TailAt(a, v);
        TailAt(b, v);
      }
      SortIsUnique(a[1..], b[1..]);
      assert a == [a[0]] + a[1..] && b == [b[0]] + b[1..];
    }
  }

  lemma {:induction false} TailAt(l: seq<Part>, v: nat)
    requires l != []
    ensures At(l[1..], v) == At(l, v)[if l[0].pos == v then 1 else 0..]
  {
  }

  function Swapped(l: seq<Part>, i: nat): seq<Part>
    requires i + 1 < |l|
  {
    l[..i] + [l[i + 1], l[i]] + l[i + 2..]
  }

  lemma {:induction false} SwapPair(x: Part, y: Part, l: seq<Part>, v: nat)
    requires x.pos != y.pos
    ensures At([x] + ([y] + l), v) == At([y] + ([x] + l), v)
  {
    AtFirst(x, [y] + l, v);
    AtFirst(y, l, v);
    AtFirst(y, [x] + l, v);
    AtFirst(x, l, v);
    assert One(x, v) == [] || One(y, v) == [];
  }

  lemma {:induction false} SwapAt(l: seq<Part>, i: nat, v: nat)
    requires i + 1 < |l| && l[i].pos != l[i + 1].pos
    ensures At(Swapped(l, i), v) == At(l, v)
  {
    var k, x, y, m := l[..i], l[i], l[i + 1], l[i + 2..];
    assert l == k + ([x] + ([y] + m));
    assert Swapped(l, i) == k + ([y] + ([x] + m));
    AtJoin(k, [x] + ([y] + m), v);
    AtJoin(k, [y] + ([x] + m), v);
    SwapPair(x, y, m, v);
  }

  /** Each position weighted by its index: what a swap makes smaller. */
  function Weight(l: seq<Part>): nat {
    if l == [] then 0 else
    var w: nat := (|l| - 1) * l[|l| - 1].pos;
    Weight(l[..|l| - 1]) + w
  }

  lemma {:induction false} SwapWeighsLess(l: seq<Part>, i: nat)
    requires i + 1 < |l| && l[i].pos < l[i + 1].pos
    ensures Weight(Swapped(l, i)) < Weight(l)
    decreases |l|
  {
    var n, s := |l|, Swapped(l, i);
    if i + 2 < n {
      assert s[..n - 1] == Swapped(l[..n - 1], i);
      SwapWeighsLess(l[..n - 1], i);
    } else {
      WeightOfTwo(l);
      WeightOfTwo(s);
      assert s[..i] == l[..i];
      SwapGain(i, l[i].pos, l[i + 1].pos);
    }
  }

  lemma {:induction false} WeightOfTwo(l: seq<Part>)
    requires |l| >= 2
    ensures Weight(l) == Weight(l[..|l| - 2]) + (|l| - 2) * l[|l| - 2].pos + (|l| - 1) * l[|l| - 1].pos
  {
    assert l[..|l| - 1][..|l| - 2] == l[..|l| - 2];
  }

  lemma SwapGain(i: nat, a: nat, b: nat)
    requires a < b
    ensures i * b + (i + 1) * a < i * a + (i + 1) * b
  {
    assert (i + 1) * a == i * a + a && (i + 1) * b == i * b + b;
  }

  /** x behind everyone at its position or above. */
  function Place(x: Part, l: seq<Part>): seq<Part> {
    if l == [] || l[|l| - 1].pos >= x.pos then l + [x] else Place(x, l[..|l| - 1]) + [l[|l| - 1]]
  }

  /** The stable descending order. */
  function Arrange(l: seq<Part>): seq<Part> {
    if l == [] then [] else Place(l[|l| - 1], Arrange(l[..|l| - 1]))
  }

  lemma {:induction false} PlaceAt(x: Part, l: seq<Part>, v: nat)
    ensures At(Place(x, l), v) == At(l, v) + One(x, v)
    decreases |l|
  {
    if l == [] || l[|l| - 1].pos >= x.pos {
      AtLast(l, x, v);
    } else {
      var k, y := l[..|l| - 1], l[|l| - 1];
      PlaceAt(x, k, v);
      assert l == k + [y];
      PlacedBefore(x, k, y, Place(x, k), v);
    }
  }

  /** x has been placed somewhere before y. */
  lemma {:induction false} PlacedBefore(x: Part, k: seq<Part>, y: Part, placed: seq<Part>, v: nat)
    requires At(placed, v) == At(k, v) + One(x, v) && y.pos < x.pos
    ensures At(placed + [y], v) == At(k + [y], v) + One(x, v)
  {
    AtLast(placed, y, v);
    AtLast(k, y, v);
    assert One(x, v) == [] || One(y, v) == [];
    Commute(At(k, v), One(x, v), One(y, v));
  }

  lemma Commute(a: seq<Part>, b: seq<Part>, c: seq<Part>)
    requires b == [] || c == []
    ensures a + b + c == a + c + b
  {
  }

  lemma {:induction false} PlaceDescending(x: Part, l: seq<Part>)
    requires Descending(l)
    ensures Descending(Place(x, l)) && |Place(x, l)| == |l| + 1
    ensures Place(x, l)[|l|] == if l == [] || l[|l| - 1].pos >= x.pos then x else l[|l| - 1]
    decreases |l|
  {
    if l == [] || l[|l| - 1].pos >= x.pos {
    } else {
      PlaceDescending(x, l[..|l| - 1]);
    }
  }

  lemma {:induction false} ArrangeSorts(l: seq<Part>)
    ensures Descending(Arrange(l)) && StablyEqual(Arrange(l), l)
    decreases |l|
  {
    if l == [] {
    } else {
      var k, x := l[..|l| - 1], l[|l| - 1];
      ArrangeSorts(k);
      PlaceDescending(x, Arrange(k));
      forall v ensures At(Arrange(l), v) == At(l, v) {
        PlaceAt(x, Arrange(k), v);
        AtLast(k, x, v);
        assert l == k + [x];
      }
    }
  }

  /** list_sort with sort_handler: it terminates, with the stable descending order. */
  method Sort(l0: seq<Part>) returns (l: seq<Part>)
    ensures Descending(l) && StablyEqual(l, l0) && l == Arrange(l0)
  {
    ArrangeSorts(l0);
    l := l0;
    var again := true;
    while again
      invariant StablyEqual(l, l0) && (!again ==> Descending(l))
      decreases Weight(l), again
    {
      ghost var was := l;
      again := false;
      var i := 0;
      while i + 1 < |l|
        invariant i <= |l| && StablyEqual(l, l0) && |l| == |was| && (|l| > 0 ==> i < |l|)
        invariant if again then Weight(l) < Weight(was)
                  else l == was && forall j :: 0 <= j < i ==> l[j].pos >= l[j + 1].pos
      {
        if l[i].pos < l[i + 1].pos {
          SwapStep(l, i, l0);
          l := Swapped(l, i);
          again := true;
        }
        i := i + 1;
      }
    }
    SortIsUnique(l, Arrange(l0));
  }

  lemma {:induction false} SwapStep(l: seq<Part>, i: nat, l0: seq<Part>)
    requires i + 1 < |l| && l[i].pos < l[i + 1].pos && StablyEqual(l, l0)
    ensures StablyEqual(Swapped(l, i), l0) && Weight(Swapped(l, i)) < Weight(l) && |Swapped(l, i)| == |l|
  {
    forall v ensures At(Swapped(l, i), v) == At(l0, v) {
      SwapAt(l, i, v);
    }
    SwapWeighsLess(l, i);
  }
}
