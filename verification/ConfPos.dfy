/** The order of a conference's participants after any history of joins and leaves. */
module ConfPos {
  import opened Text
  import opened ListSort

  datatype Errno = Ok | Exists | NoMemory

  /** conf_pos_calc: the hash ignores case. */
  function Key(hash: string -> nat, uid: string): nat {
    hash(Lower(uid))
  }

  /** conf_part_find: the first participant with the user id, ignoring case, or |l|. */
  function FindId(l: seq<Part>, uid: string): (i: nat)
    ensures i <= |l| && (i < |l| ==> CaseEq(l[i].uid, uid)) && forall j :: 0 <= j < i ==> !CaseEq(l[j].uid, uid)
    decreases |l|
  {
    if l == [] || CaseEq(l[0].uid, uid) then 0 else
    var i := FindId(l[1..], uid);
    assert forall j :: 1 <= j < i + 1 ==> l[j] == l[1..][j - 1];
    i + 1
  }

  /** Where a flow's participant is, or |l|. */
  function FindFlow(l: seq<Part>, flow: nat): (i: nat)
    ensures i <= |l| && (i < |l| ==> l[i].flow == flow) && forall j :: 0 <= j < i ==> l[j].flow != flow
    decreases |l|
  {
    if l == [] || l[0].flow == flow then 0 else
    var i := FindFlow(l[1..], flow);
    assert forall j :: 1 <= j < i + 1 ==> l[j] == l[1..][j - 1];
    i + 1
  }

  /** Releasing a flow's participant unlinks it. */
  function Unlink(l: seq<Part>, flow: nat): seq<Part> {
    var i := FindFlow(l, flow);
    if i < |l| then l[..i] + l[i + 1..] else l
  }

  function Hashed(l: seq<Part>, hash: string -> nat): seq<Part> {
    seq(|l|, i requires 0 <= i < |l| => l[i].(pos := Key(hash, l[i].uid)))
  }

  /** conf_pos_sort */
  function PosSort(l: seq<Part>, hash: string -> nat): seq<Part> {
    if |l| == 0 then l else if |l| == 1 then [l[0].(pos := 0)] else Arrange(Hashed(l, hash))
  }

  /** call_add_conf_part; `mem` says that the participant can be allocated, and `ok` is the
      outcome of updating the mixer. */
  function Add(l: seq<Part>, hash: string -> nat, flow: nat, uid: string, mem: bool, ok: bool): (seq<Part>, Errno) {
    if FindId(l, uid) < |l| then (l, Exists)
    else if !mem then (Unlink(l, flow), NoMemory) else
    var l1 := PosSort(Unlink(l, flow) + [Part(uid, Key(hash, uid), flow)], hash);
    if ok then (l1, Ok) else (Unlink(l1, flow), NoMemory)
  }

  /** call_remove_conf_part */
  function Remove(l: seq<Part>, hash: string -> nat, flow: nat): seq<Part> {
    PosSort(Unlink(l, flow), hash)
  }

  // ---- The invariant -------------------------------------------------------

  predicate Clash(x: Part, y: Part) {
    CaseEq(x.uid, y.uid) || x.flow == y.flow
  }

  /** User ids are unique ignoring case, and so are flows. */
  predicate Apart(l: seq<Part>) {
    forall i, j :: 0 <= i < j < |l| ==> !Clash(l[i], l[j])
  }

  predicate ByHash(l: seq<Part>, hash: string -> nat) {
    forall i, j :: 0 <= i < j < |l| ==> Key(hash, l[i].uid) >= Key(hash, l[j].uid)
  }

  predicate Orderly(l: seq<Part>, hash: string -> nat) {
    Apart(l) && ByHash(l, hash)
  }

  /** A list without entry i keeps what holds of any two entries in order. */
  lemma WithoutKeeps(l: seq<Part>, hash: string -> nat, i: nat, k: seq<Part>)
    requires i < |l| && Orderly(l, hash) && k == l[..i] + l[i + 1..]
    ensures Orderly(k, hash) && forall x :: x in k ==> x in l && x.flow != l[i].flow
  {
    forall j | 0 <= j < |k| ensures k[j] == l[if j < i then j else j + 1] && k[j].flow != l[i].flow {
      assert j < i ==> !Clash(l[j], l[i]);
      assert j >= i ==> !Clash(l[i], l[j + 1]);
    }
  }

  lemma UnlinkKeeps(l: seq<Part>, hash: string -> nat, flow: nat)
    requires Orderly(l, hash)
    ensures Orderly(Unlink(l, flow), hash)
    ensures forall x :: x in Unlink(l, flow) ==> x in l && x.flow != flow
  {
    if FindFlow(l, flow) < |l| {
      WithoutKeeps(l, hash, FindFlow(l, flow), Unlink(l, flow));
    }
  }

  lemma {:induction false} PlaceApart(x: Part, l: seq<Part>)
    requires Apart(l) && forall y :: y in l ==> !Clash(x, y)
    ensures Apart(Place(x, l)) && forall y :: y in Place(x, l) <==> y in l || y == x
    decreases |l|
  {
    if l != [] && l[|l| - 1].pos < x.pos {
      var k, z := l[..|l| - 1], l[|l| - 1];
      PlaceApart(x, k);
      assert l == k + [z];
      assert forall y :: y in k ==> !Clash(y, z);
      AppendApart(Place(x, k), z);
    } else {
      AppendApart(l, x);
    }
  }

  lemma AppendApart(l: seq<Part>, z: Part)
    requires Apart(l) && forall y :: y in l ==> !Clash(y, z)
    ensures Apart(l + [z])
  {
  }

  lemma {:induction false} ArrangeApart(l: seq<Part>)
    requires Apart(l)
    ensures Apart(Arrange(l)) && forall y :: y in Arrange(l) <==> y in l
    decreases |l|
  {
    if l == [] {
    } else {
      var k, x := l[..|l| - 1], l[|l| - 1];
      ArrangeApart(k);
      assert forall y :: y in k ==> !Clash(y, x);
      PlaceApart(x, Arrange(k));
      assert l == k + [x];
    }
  }

  /** Sorting a list without clashes puts it in order, with the same ids and flows. */
  lemma PosSortOrders(l: seq<Part>, hash: string -> nat)
    requires Apart(l)
    ensures Orderly(PosSort(l, hash), hash)
  {
    if |l| >= 2 {
      var h := Hashed(l, hash);
      ArrangeApart(h);
      ArrangeSorts(h);
      var r := Arrange(h);
      forall i, j | 0 <= i < j < |r| ensures Key(hash, r[i].uid) >= Key(hash, r[j].uid) {
        DescendingAll(r, i, j);
        assert r[i] in h && r[j] in h;
      }
    }
  }

  lemma AddKeeps(l: seq<Part>, hash: string -> nat, flow: nat, uid: string, mem: bool, ok: bool)
    requires Orderly(l, hash)
    ensures Orderly(Add(l, hash, flow, uid, mem, ok).0, hash)
  {
    if FindId(l, uid) == |l| {
      UnlinkKeeps(l, hash, flow);
      var l1 := Unlink(l, flow) + [Part(uid, Key(hash, uid), flow)];
      assert forall x :: x in Unlink(l, flow) ==> !Clash(x, Part(uid, Key(hash, uid), flow));
      PosSortOrders(l1, hash);
      UnlinkKeeps(PosSort(l1, hash), hash, flow);
    }
  }

  lemma RemoveKeeps(l: seq<Part>, hash: string -> nat, flow: nat)
    requires Orderly(l, hash)
    ensures Orderly(Remove(l, hash, flow), hash)
  {
    UnlinkKeeps(l, hash, flow);
    PosSortOrders(Unlink(l, flow), hash);
  }

  // ---- Histories -----------------------------------------------------------

  datatype Op = Join(flow: nat, uid: string, mem: bool, ok: bool) | Leave(flow: nat)

  function Apply(l: seq<Part>, hash: string -> nat, op: Op): seq<Part> {
    match op
    case Join(flow, uid, mem, ok) => Add(l, hash, flow, uid, mem, ok).0
    case Leave(flow) => Remove(l, hash, flow)
  }

  function Run(l: seq<Part>, hash: string -> nat, ops: seq<Op>): seq<Part>
    decreases |ops|
  {
    if ops == [] then l else Run(Apply(l, hash, ops[0]), hash, ops[1..])
  }

  lemma {:induction false} OrderlyAlong(l: seq<Part>, hash: string -> nat, ops: seq<Op>)
    requires Orderly(l, hash)
    ensures Orderly(Run(l, hash, ops), hash)
    decreases |ops|
  {
    if ops == [] {
    } else {
      match ops[0] {
        case Join(flow, uid, mem, ok) => AddKeeps(l, hash, flow, uid, mem, ok);
        case Leave(flow) => RemoveKeeps(l, hash, flow);
      }
      OrderlyAlong(Apply(l, hash, ops[0]), hash, ops[1..]);
    }
  }

  // ---- Who is in the conference -----------------------------------------------

  /** The participants as (user id, flow), whatever their order and position. */
  function Pairs(l: seq<Part>): set<(string, nat)> {
    set x | x in l :: (x.uid, x.flow)
  }

  /** All but the participant on a flow. */
  function Without(ps: set<(string, nat)>, flow: nat): set<(string, nat)> {
    set p | p in ps && p.1 != flow
  }

  /** Someone has the user id, ignoring case. */
  predicate Named(ps: set<(string, nat)>, uid: string) {
    exists p :: p in ps && CaseEq(p.0, uid)
  }

  lemma WithoutPairs(l: seq<Part>, i: nat, k: seq<Part>)
    requires Apart(l) && i < |l| && k == l[..i] + l[i + 1..]
    ensures Apart(k) && Pairs(k) == Without(Pairs(l), l[i].flow)
  {
    forall j | 0 <= j < |k| ensures k[j] == l[if j < i then j else j + 1] && k[j].flow != l[i].flow {
      assert j < i ==> !Clash(l[j], l[i]);
      assert j >= i ==> !Clash(l[i], l[j + 1]);
    }
    forall x | x in l && x.flow != l[i].flow ensures x in k {
      var j :| 0 <= j < |l| && l[j] == x;
      assert j < i ==> k[j] == x;
      assert j > i ==> k[j - 1] == x;
    }
  }

  lemma UnlinkPairs(l: seq<Part>, flow: nat)
    requires Apart(l)
    ensures Apart(Unlink(l, flow)) && Pairs(Unlink(l, flow)) == Without(Pairs(l), flow)
  {
    if FindFlow(l, flow) < |l| {
      WithoutPairs(l, FindFlow(l, flow), Unlink(l, flow));
    }
  }

  lemma HashedPairs(l: seq<Part>, h: seq<Part>, hash: string -> nat)
    requires Apart(l) && h == Hashed(l, hash)
    ensures Apart(h) && Pairs(h) == Pairs(l)
  {
    forall i, j | 0 <= i < j < |h| ensures !Clash(h[i], h[j]) {
      assert !Clash(l[i], l[j]);
    }
    forall p | p in Pairs(l) ensures p in Pairs(h) {
      var i :| 0 <= i < |l| && (l[i].uid, l[i].flow) == p;
      assert h[i] in h;
    }
    forall p | p in Pairs(h) ensures p in Pairs(l) {
      var i :| 0 <= i < |h| && (h[i].uid, h[i].flow) == p;
      assert l[i] in l;
    }
  }

  lemma PosSortPairs(l: seq<Part>, hash: string -> nat)
    requires Apart(l)
    ensures Apart(PosSort(l, hash)) && Pairs(PosSort(l, hash)) == Pairs(l)
  {
    if |l| >= 2 {
      HashedPairs(l, Hashed(l, hash), hash);
      ArrangeApart(Hashed(l, hash));
    } else if |l| == 1 {
      assert PosSort(l, hash)[0] in PosSort(l, hash) && l[0] in l;
    }
  }

  /** Leaving takes out the flow's participant and nobody else. */
  lemma LeaveMembers(l: seq<Part>, hash: string -> nat, flow: nat)
    requires Apart(l)
    ensures var l' := Apply(l, hash, Leave(flow)); Apart(l') && Pairs(l') == Without(Pairs(l), flow)
  {
    UnlinkPairs(l, flow);
    PosSortPairs(Unlink(l, flow), hash);
  }

  lemma {:induction false} FoundIffNamed(l: seq<Part>, uid: string)
    ensures FindId(l, uid) < |l| <==> Named(Pairs(l), uid)
  {
    var i := FindId(l, uid);
    if i < |l| {
      assert (l[i].uid, l[i].flow) in Pairs(l);
    }
  }

  lemma AppendPairs(l: seq<Part>, x: Part)
    requires Apart(l) && forall y :: y in l ==> !Clash(y, x)
    ensures Apart(l + [x]) && Pairs(l + [x]) == Pairs(l) + {(x.uid, x.flow)}
  {
    AppendApart(l, x);
    assert x in l + [x];
  }

  /** Joining, with what it reports. Nothing changes if the user id is taken. Otherwise the
      flow's old participant goes, and the new one is there exactly if there was memory for
      it and the mixer could be updated. */
  lemma JoinMembers(l: seq<Part>, hash: string -> nat, flow: nat, uid: string, mem: bool, ok: bool)
    requires Apart(l)
    ensures var (l', err) := Add(l, hash, flow, uid, mem, ok);
            && Apart(l')
            && (if Named(Pairs(l), uid) then l' == l && err == Exists
                else if mem && ok then Pairs(l') == Without(Pairs(l), flow) + {(uid, flow)} && err == Ok
                else Pairs(l') == Without(Pairs(l), flow) && err == NoMemory)
  {
    FoundIffNamed(l, uid);
    if FindId(l, uid) == |l| {
      UnlinkPairs(l, flow);
      JoinsApart(l, flow, uid, Key(hash, uid));
      var l1 := Unlink(l, flow) + [Part(uid, Key(hash, uid), flow)];
      AppendPairs(Unlink(l, flow), Part(uid, Key(hash, uid), flow));
      PosSortPairs(l1, hash);
      UnlinkPairs(PosSort(l1, hash), flow);
      assert Without(Without(Pairs(l), flow) + {(uid, flow)}, flow) == Without(Pairs(l), flow);
    }
  }

  lemma {:induction false} JoinsApart(l: seq<Part>, flow: nat, uid: string, pos: nat)
    requires Apart(l) && FindId(l, uid) == |l|
    ensures forall y :: y in Unlink(l, flow) ==> !Clash(y, Part(uid, pos, flow))
  {
    UnlinkPairs(l, flow);
    forall y | y in Unlink(l, flow) ensures !Clash(y, Part(uid, pos, flow)) {
      assert (y.uid, y.flow) in Pairs(Unlink(l, flow));
      assert y in l;
    }
  }

  /** The participants that a history of joins and leaves describes. */
  function Roster(ops: seq<Op>): set<(string, nat)>
    decreases |ops|
  {
    if ops == [] then {} else
    var ps := Roster(ops[..|ops| - 1]);
    match ops[|ops| - 1]
    case Leave(flow) => Without(ps, flow)
    case Join(flow, uid, mem, ok) =>
      if Named(ps, uid) then ps else if mem && ok then Without(ps, flow) + {(uid, flow)} else Without(ps, flow)
  }

  lemma {:induction false} RunLast(l: seq<Part>, hash: string -> nat, ops: seq<Op>)
    requires ops != []
    ensures Run(l, hash, ops) == Apply(Run(l, hash, ops[..|ops| - 1]), hash, ops[|ops| - 1])
    decreases |ops|
  {
    if |ops| == 1 {
      assert ops[1..] == [] && ops[..0] == [];
    } else {
      assert ops[..|ops| - 1][1..] == ops[1..][..|ops| - 2];
      RunLast(Apply(l, hash, ops[0]), hash, ops[1..]);
    }
  }

  /** After any history the conference holds exactly those, whatever the hash. */
  lemma {:induction false} MembersAreRoster(hash: string -> nat, ops: seq<Op>)
    ensures Apart(Run([], hash, ops)) && Pairs(Run([], hash, ops)) == Roster(ops)
    decreases |ops|
  {
    if ops == [] {
    } else {
      var l := Run([], hash, ops[..|ops| - 1]);
      MembersAreRoster(hash, ops[..|ops| - 1]);
      RunLast([], hash, ops);
      match ops[|ops| - 1] {
        case Join(flow, uid, mem, ok) => JoinMembers(l, hash, flow, uid, mem, ok);
        case Leave(flow) => LeaveMembers(l, hash, flow);
      }
    }
  }

  /** The user ids in order, case folded. */
  function Ids(l: seq<Part>): seq<string> {
    seq(|l|, i requires 0 <= i < |l| => Lower(l[i].uid))
  }

  /** The participants, whatever their order. */
  function Who(l: seq<Part>): set<string> {
    set i | 0 <= i < |l| :: Lower(l[i].uid)
  }

  ghost predicate CollisionFree(hash: string -> nat, ids: set<string>) {
    forall a, b :: a in ids && b in ids && a != b ==> hash(a) != hash(b)
  }

  /** Strictly descending keys leave only one order for a set. */
  lemma {:induction false} OneOrder(xs: seq<string>, ys: seq<string>, key: string -> nat)
    requires forall i, j :: 0 <= i < j < |xs| ==> key(xs[i]) > key(xs[j])
    requires forall i, j :: 0 <= i < j < |ys| ==> key(ys[i]) > key(ys[j])
    requires forall x :: x in xs <==> x in ys
    ensures xs == ys
    decreases |xs|
  {
    assert (|xs| > 0 ==> xs[0] in ys) && (|ys| > 0 ==> ys[0] in xs);
    if xs == [] {
    } else {
      SameFirst(xs, ys, key);
      assert xs == [xs[0]] + xs[1..] && ys == [ys[0]] + ys[1..];
      forall x ensures x in xs[1..] <==> x in ys[1..] {
        TailHas(xs, x);
        TailHas(ys, x);
      }
      OneOrder(xs[1..], ys[1..], key);
    }
  }

  lemma TailHas(xs: seq<string>, x: string)
    requires xs != [] && forall i :: 1 <= i < |xs| ==> xs[i] != xs[0]
    ensures x in xs[1..] <==> x in xs && x != xs[0]
  {
  }

  lemma SameFirst(xs: seq<string>, ys: seq<string>, key: string -> nat)
    requires xs != [] && ys != []
    requires forall i, j :: 0 <= i < j < |xs| ==> key(xs[i]) > key(xs[j])
    requires forall i, j :: 0 <= i < j < |ys| ==> key(ys[i]) > key(ys[j])
    requires xs[0] in ys && ys[0] in xs
    ensures xs[0] == ys[0]
  {
    var i :| 0 <= i < |ys| && ys[i] == xs[0];
    var j :| 0 <= j < |xs| && xs[j] == ys[0];
  }

  lemma SameOrder(a: seq<Part>, b: seq<Part>, hash: string -> nat)
    requires Orderly(a, hash) && Orderly(b, hash) && Who(a) == Who(b) && CollisionFree(hash, Who(a))
    ensures Ids(a) == Ids(b)
  {
    StrictIds(a, hash);
    StrictIds(b, hash);
    forall x ensures x in Ids(a) <==> x in Ids(b) {
      IdsAreWho(a, x);
      IdsAreWho(b, x);
    }
    OneOrder(Ids(a), Ids(b), hash);
  }

  lemma IdsAreWho(l: seq<Part>, x: string)
    ensures x in Ids(l) <==> x in Who(l)
  {
    if x in Who(l) {
      var i :| 0 <= i < |l| && Lower(l[i].uid) == x;
      assert Ids(l)[i] == x;
    }
  }

  lemma StrictIds(l: seq<Part>, hash: string -> nat)
    requires Orderly(l, hash) && CollisionFree(hash, Who(l))
    ensures forall i, j :: 0 <= i < j < |Ids(l)| ==> hash(Ids(l)[i]) > hash(Ids(l)[j])
  {
    forall i, j | 0 <= i < j < |l| ensures hash(Ids(l)[i]) > hash(Ids(l)[j]) {
      assert !Clash(l[i], l[j]);
      assert Lower(l[i].uid) in Who(l) && Lower(l[j].uid) in Who(l);
    }
  }

  /** After any history, user ids are unique ignoring case. Two calls with the same
      participants, whatever their histories, hold them in the same order, provided their
      hashes differ. */
  lemma {:induction false} OrderDependsOnlyOnWho(hash: string -> nat, ops: seq<Op>, ops': seq<Op>)
    ensures Apart(Run([], hash, ops))
    ensures var a, b := Run([], hash, ops), Run([], hash, ops');
            Who(a) == Who(b) && CollisionFree(hash, Who(a)) ==> Ids(a) == Ids(b)
  {
    OrderlyAlong([], hash, ops);
    OrderlyAlong([], hash, ops');
    var a, b := Run([], hash, ops), Run([], hash, ops');
    if Who(a) == Who(b) && CollisionFree(hash, Who(a)) {
      SameOrder(a, b, hash);
    }
  }

  /** The order of participants among ids never depends on history. */
  ghost predicate HistoryFree(hash: string -> nat, ids: set<string>) {
    forall ops, ops' :: Who(Run([], hash, ops)) == Who(Run([], hash, ops')) <= ids ==>
      Ids(Run([], hash, ops)) == Ids(Run([], hash, ops'))
  }

  function JoinBoth(a: string, b: string): seq<Op> {
    [Join(0, a, true, true), Join(1, b, true, true)]
  }

  lemma {:induction false} RunTwo(l: seq<Part>, hash: string -> nat, x: Op, y: Op)
    ensures Run(l, hash, [x, y]) == Apply(Apply(l, hash, x), hash, y)
  {
    var l1 := Apply(l, hash, x);
    assert [x, y][1..] == [y] && [y][1..] == [];
    assert Run(l1, hash, [y]) == Run(Apply(l1, hash, y), hash, []);
  }

  lemma FirstJoin(hash: string -> nat, a: string)
    ensures Apply([], hash, Join(0, a, true, true)) == [Part(a, 0, 0)]
  {
    assert Unlink([], 0) + [Part(a, Key(hash, a), 0)] == [Part(a, Key(hash, a), 0)];
  }

  lemma SecondJoin(hash: string -> nat, a: string, b: string, l: seq<Part>, x: Part, y: Part)
    requires !CaseEq(a, b) && Key(hash, a) == Key(hash, b)
    requires l == [Part(a, 0, 0)] && x == Part(a, Key(hash, a), 0) && y == Part(b, Key(hash, b), 1)
    ensures Apply(l, hash, Join(1, b, true, true)) == [x, y]
  {
    assert FindId(l, b) == 1 && FindFlow(l, 1) == 1;
    assert Hashed(l + [y], hash) == [x, y];
    ArrangePair(x, y);
  }

  lemma ArrangePair(x: Part, y: Part)
    requires x.pos >= y.pos
    ensures Arrange([x, y]) == [x, y]
  {
    assert [x, y][..1] == [x] && [x][..0] == [];
    assert Arrange([x]) == [x];
  }

  /** Two participants whose hashes collide stay in the order they joined. */
  lemma CollidersKeepJoinOrder(hash: string -> nat, a: string, b: string)
    requires !CaseEq(a, b) && Key(hash, a) == Key(hash, b)
    ensures Ids(Run([], hash, JoinBoth(a, b))) == [Lower(a), Lower(b)]
  {
    FirstJoin(hash, a);
    SecondJoin(hash, a, b, [Part(a, 0, 0)], Part(a, Key(hash, a), 0), Part(b, Key(hash, b), 1));
    RunTwo([], hash, Join(0, a, true, true), Join(1, b, true, true));
  }

  /** For a set of case-folded ids, order is free of history exactly if no two hashes collide. */
  lemma HistoryFreeIffCollisionFree(hash: string -> nat, ids: set<string>)
    requires forall x :: x in ids ==> Lower(x) == x
    ensures HistoryFree(hash, ids) <==> CollisionFree(hash, ids)
  {
    if CollisionFree(hash, ids) {
      forall ops, ops' | Who(Run([], hash, ops)) == Who(Run([], hash, ops')) <= ids
        ensures Ids(Run([], hash, ops)) == Ids(Run([], hash, ops'))
      {
        OrderDependsOnlyOnWho(hash, ops, ops');
      }
    } else {
      var a, b :| a in ids && b in ids && a != b && hash(a) == hash(b);
      CollidersKeepJoinOrder(hash, a, b);
      CollidersKeepJoinOrder(hash, b, a);
      WhoOfTwo(Run([], hash, JoinBoth(a, b)), a, b);
      WhoOfTwo(Run([], hash, JoinBoth(b, a)), b, a);
      assert [a, b][0] != [b, a][0];
    }
  }

  lemma WhoOfTwo(l: seq<Part>, a: string, b: string)
    requires Ids(l) == [a, b]
    ensures Who(l) == {a, b}
  {
    forall x ensures x in Who(l) <==> x in {a, b} {
      IdsAreWho(l, x);
    }
  }

  // ---- The object ----------------------------------------------------------

  class Conference {
    const hash: string -> nat
    var parts: seq<Part>

    constructor (hash: string -> nat)
      ensures parts == [] && this.hash == hash
    {
      this.hash := hash;
      parts := [];
    }

    /** conf_part_find */
    method Find(uid: string) returns (i: nat)
      ensures i == FindId(parts, uid)
    {
      i := 0;
      while i < |parts| && !CaseEq(parts[i].uid, uid)
        invariant i <= FindId(parts, uid)
      {
        i := i + 1;
      }
    }

    /** Releasing flow->cp. */
    method Release(flow: nat)
      modifies this
      ensures parts == Unlink(old(parts), flow)
    {
      var i := 0;
      while i < |parts| && parts[i].flow != flow
        invariant i <= FindFlow(parts, flow)
      {
        i := i + 1;
      }
      if i < |parts| {
        parts := parts[..i] + parts[i + 1..];
      }
    }

    /** conf_pos_sort */
    method SortPositions()
      modifies this
      ensures parts == PosSort(old(parts), hash)
    {
      if |parts| == 0 {
        return;
      }
      if |parts| == 1 {
        parts := [parts[0].(pos := 0)];
        return;
      }
      ghost var l := parts;
      for i := 0 to |parts|
        invariant |parts| == |l|
        invariant forall j :: 0 <= j < |l| ==> parts[j] == if j < i then l[j].(pos := Key(hash, l[j].uid)) else l[j]
      {
        parts := parts[i := parts[i].(pos := Key(hash, parts[i].uid))];
      }
      assert parts == Hashed(l, hash);
      var sorted := Sort(parts);
      parts := sorted;
    }

    /** call_add_conf_part */
    method AddConfPart(flow: nat, uid: string, mem: bool, ok: bool) returns (err: Errno)
      modifies this
      ensures (parts, err) == Add(old(parts), hash, flow, uid, mem, ok)
    {
      var i := Find(uid);
      if i < |parts| {
        return Exists;
      }
      Release(flow);
      if !mem {
        return NoMemory;
      }
      parts := parts + [Part(uid, Key(hash, uid), flow)];
      SortPositions();
      if ok {
        return Ok;
      }
      Release(flow);
      err := NoMemory;
    }

    /** call_remove_conf_part */
    method RemoveConfPart(flow: nat)
      modifies this
      ensures parts == Remove(old(parts), hash, flow)
    {
      Release(flow);
      SortPositions();
    }
  }
}
