/** The flow manager's searches over a call's flows and users. */
module Flows {
  import opened Dict
  import opened Wrappers

  /** A flow: its id, and its establishment flags as the number the code compares. */
  datatype Flow = Flow(flowid: string, est: nat)

  /** FLOWMGR_ESTAB_ACTIVE and FLOWMGR_ESTAB_RTP */
  predicate Active(f: Flow) {
    f.est / 2 % 2 == 1
  }

  predicate HasRtp(f: Flow) {
    f.est / 4 % 2 == 1
  }

  /** The three establishment flags are the bits 1, 2 and 4. */
  lemma EstablishmentBits(f: Flow, ice: bool, active: bool, rtp: bool, rest: nat)
    requires f.est == (if ice then 1 else 0) + (if active then 2 else 0) + (if rtp then 4 else 0) + 8 * rest
    ensures (Active(f) <==> active) && (HasRtp(f) <==> rtp)
  {
  }

  /** A user of the call, filed under its user id, with or without a flow. */
  datatype User = User(userid: string, hasFlow: bool)

  function MaxEst(es: seq<Entry<Flow>>): (r: nat)
    ensures forall i :: 0 <= i < |es| ==> es[i].value.est <= r
  {
    if es == [] then 0 else
    var r, e := MaxEst(es[..|es| - 1]), es[|es| - 1].value.est;
    if e > r then e else r
  }

  function ActiveIn(es: seq<Entry<Flow>>): nat {
    if es == [] then 0 else ActiveIn(es[..|es| - 1]) + if Active(es[|es| - 1].value) then 1 else 0
  }

  lemma FlatMore(bs: Table<Flow>, b: nat)
    requires b < |bs|
    ensures Flat(bs[..b + 1]) == Flat(bs[..b]) + bs[b]
  {
    assert bs[..b + 1][..b] == bs[..b];
  }

  lemma {:induction false} ActiveOneMore(es: seq<Entry<Flow>>, fs: seq<Entry<Flow>>, i: nat)
    requires i < |fs|
    ensures ActiveIn(es + fs[..i + 1]) == ActiveIn(es + fs[..i]) + if Active(fs[i].value) then 1 else 0
  {
    var a := es + fs[..i + 1];
    assert a[..|a| - 1] == es + fs[..i];
  }

  lemma {:induction false} ActiveNone(es: seq<Entry<Flow>>)
    ensures ActiveIn(es) == 0 <==> forall i :: 0 <= i < |es| ==> !Active(es[i].value)
  {
    if es == [] {
    } else {
      ActiveNone(es[..|es| - 1]);
    }
  }

  /** flow_best_handler */
  predicate Above(est: nat, e: Entry<Flow>) {
    e.value.est > est
  }

  predicate WithoutFlow(e: Entry<User>) {
    !e.value.hasFlow
  }

  /** Some flow is active, and every active flow has media. */
  ghost predicate MediaEstablished(m: map<string, Flow>) {
    (exists k :: k in m && Active(m[k])) && forall k :: k in m && Active(m[k]) ==> HasRtp(m[k])
  }

  /** Every flow of the list that is active has RTP. */
  predicate RtpThrough(es: seq<Entry<Flow>>) {
    forall i :: 0 <= i < |es| && Active(es[i].value) ==> HasRtp(es[i].value)
  }

  /** The table and the map agree on whether media is established. */
  lemma {:induction false} EstablishedMeans(bs: Table<Flow>, hash: string -> nat, m: map<string, Flow>)
    requires Represents(bs, hash, m)
    ensures MediaEstablished(m) <==> ActiveIn(Flat(bs)) > 0 && RtpThrough(Flat(bs))
  {
    var es := Flat(bs);
    ActiveNone(es);
    forall k | k in m ensures Entry(k, m[k]) in es {
      FlatMeans(bs, hash, m, Entry(k, m[k]));
    }
    forall i | 0 <= i < |es| ensures es[i].key in m && m[es[i].key] == es[i].value {
      FlatMeans(bs, hash, m, es[i]);
    }
  }

  class Call {
    const flows: Dictionary<Flow>
    const users: Dictionary<User>
    var isMestab: bool

    constructor (hash: string -> nat)
      ensures fresh(flows) && fresh(users) && fresh(flows.buckets) && fresh(users.buckets)
      ensures flows.Valid() && users.Valid() && flows.contents == map[] && users.contents == map[] && !isMestab
    {
      flows := new Dictionary<Flow>(hash);
      users := new Dictionary<User>(hash);
      isMestab := false;
    }

    /** call_best_flow */
    method BestFlow() returns (res: Option<Flow>)
      requires flows.Valid()
      ensures res.None? <==> forall k :: k in flows.contents ==> flows.contents[k].est == 0
      ensures res.Some? ==> (exists k :: k in flows.contents && flows.contents[k] == res.value)
      ensures res.Some? ==> forall k :: k in flows.contents ==> flows.contents[k].est <= res.value.est
    {
      ghost var es := Flat(flows.buckets[..]);
      var best := 0;
      res := None;
      var found := true;
      while found
        invariant res.None? ==> best == 0
        invariant res.Some? ==>
                    best == res.value.est > 0 && exists k :: k in flows.contents && flows.contents[k] == res.value
        invariant best <= MaxEst(es)
        invariant !found ==> forall k :: k in flows.contents ==> flows.contents[k].est <= best
        decreases MaxEst(es) - best, found
      {
        var r := flows.Apply(e => Above(best, e));
        match r
        case None =>
          assert forall k :: k in flows.contents ==> !Above(best, Entry(k, flows.contents[k]));
          found := false;
        case Some(e) =>
          FlatMeans(flows.buckets[..], flows.hash, flows.contents, e);
          res, best := Some(e.value), e.value.est;
      }
    }

    /** flowmgr_call_count_active_flows: the handler counts and never stops. */
    method CountActive() returns (n: nat)
      requires flows.Valid()
      ensures n == ActiveIn(Flat(flows.buckets[..]))
    {
      n := 0;
      for b := 0 to BUCKETS
        invariant n == ActiveIn(Flat(flows.buckets[..b]))
      {
        var es := flows.buckets[b];
        ghost var before := Flat(flows.buckets[..b]);
        assert before + es[..0] == before;
        for i := 0 to |es|
          invariant n == ActiveIn(before + es[..i])
        {
          ActiveOneMore(before, es, i);
          if Active(es[i].value) {
            n := n + 1;
          }
        }
        assert es[..|es|] == es;
        FlatMore(flows.buckets[..], b);
      }
      assert flows.buckets[..BUCKETS] == flows.buckets[..];
    }

    /** dict_apply with flow_active_rtp_handler: it counts active flows down and stops at the
        first without RTP. */
    method CountDownRtp(count: nat) returns (stopped: bool, n: int)
      requires flows.Valid()
      ensures stopped <==> !RtpThrough(Flat(flows.buckets[..]))
      ensures !stopped ==> n == count - ActiveIn(Flat(flows.buckets[..]))
    {
      stopped, n := false, count;
      var b := 0;
      assert Flat(flows.buckets[..0]) == [];
      while b < BUCKETS && !stopped
        invariant b <= BUCKETS && stopped == !RtpThrough(Flat(flows.buckets[..b]))
        invariant !stopped ==> n == count - ActiveIn(Flat(flows.buckets[..b]))
      {
        stopped, n := CountDownList(Flat(flows.buckets[..b]), flows.buckets[b], count, n);
        FlatMore(flows.buckets[..], b);
        b := b + 1;
      }
      if stopped {
        StopsThrough(flows.buckets[..], b);
      } else {
        assert flows.buckets[..BUCKETS] == flows.buckets[..];
      }
    }

    static method CountDownList(ghost before: seq<Entry<Flow>>, es: seq<Entry<Flow>>, ghost count: nat, n0: int)
      returns (stopped: bool, n: int)
      requires RtpThrough(before) && n0 == count - ActiveIn(before)
      ensures stopped == !RtpThrough(before + es)
      ensures !stopped ==> n == count - ActiveIn(before + es)
    {
      stopped, n := false, n0;
      assert before + es[..0] == before;
      for i := 0 to |es|
        invariant !stopped && RtpThrough(before + es[..i]) && n == count - ActiveIn(before + es[..i])
      {
        ActiveOneMore(before, es, i);
        assert before + es[..i + 1] == before + es[..i] + [es[i]];
        if Active(es[i].value) {
          n := n - 1;
          if !HasRtp(es[i].value) {
            assert (before + es)[|before| + i] == es[i];
            return true, n;
          }
        }
      }
      assert es[..|es|] == es;
    }

    /** call_mestab_check; `fired` is the call of the application's handler. */
    method MestabCheck() returns (fired: bool)
      requires flows.Valid()
      modifies `isMestab
      ensures isMestab == (old(isMestab) || MediaEstablished(flows.contents))
      ensures fired == (isMestab && !old(isMestab))
    {
      EstablishedMeans(flows.buckets[..], flows.hash, flows.contents);
      fired := false;
      var count := CountActive();
      if count == 0 {
        return;
      }
      var stopped, n := CountDownRtp(count);
      if stopped || n > 0 {
        return;
      }
      if !isMestab {
        fired, isMestab := true, true;
      }
    }

    /** One turn of call_purge_users: drop the first user found without a flow. */
    method PurgeOne() returns (more: bool)
      requires users.Valid() && Filed(users.contents)
      modifies users, users.buckets
      ensures users.Valid()
      ensures !more ==> users.contents == old(users.contents)
      ensures !more ==> forall k :: k in users.contents ==> users.contents[k].hasFlow
      ensures more ==> Purged(old(users.contents), users.contents)
    {
      var r := users.Apply(WithoutFlow);
      match r
      case None =>
        assert forall k :: k in users.contents ==> !WithoutFlow(Entry(k, users.contents[k]));
        more := false;
      case Some(e) =>
        users.Remove(e.value.userid);
        more := true;
    }

    /** call_purge_users */
    method PurgeUsers()
      requires users.Valid() && Filed(users.contents)
      modifies users, users.buckets
      ensures users.Valid()
      ensures users.contents
              == map k | k in old(users.contents) && old(users.contents)[k].hasFlow :: old(users.contents)[k]
    {
      ghost var m := users.contents;
      var more := true;
      while more
        invariant users.Valid() && Filed(users.contents) && Kept(m, users.contents)
        invariant !more ==> forall k :: k in users.contents ==> users.contents[k].hasFlow
        decreases |users.contents|, more
      {
        ghost var c := users.contents;
        more := PurgeOne();
        if more {
          PurgedStep(m, c, users.contents);
        }
      }
      AllKept(m, users.contents);
    }
  }

  /** Every user is filed under its own id. */
  ghost predicate Filed(m: map<string, User>) {
    forall k :: k in m ==> m[k].userid == k
  }

  /** c is m without some users that have no flow. */
  ghost predicate Kept(m: map<string, User>, c: map<string, User>) {
    && (forall k :: k in c ==> k in m && c[k] == m[k])
    && (forall k :: k in m && m[k].hasFlow ==> k in c)
  }

  /** One user without a flow has gone. */
  ghost predicate Purged(c: map<string, User>, c': map<string, User>) {
    exists k :: k in c && !c[k].hasFlow && c' == c - {k}
  }

  lemma AllKept(m: map<string, User>, c: map<string, User>)
    requires Kept(m, c) && forall k :: k in c ==> c[k].hasFlow
    ensures c == map k | k in m && m[k].hasFlow :: m[k]
  {
  }

  lemma PurgedStep(m: map<string, User>, c: map<string, User>, c': map<string, User>)
    requires Filed(c) && Kept(m, c) && Purged(c, c')
    ensures Filed(c') && Kept(m, c') && |c'| < |c|
  {
    var k :| k in c && !c[k].hasFlow && c' == c - {k};
    assert c'.Keys == c.Keys - {k};
  }

  lemma {:induction false} StopsThrough(bs: Table<Flow>, b: nat)
    requires b <= |bs| && !RtpThrough(Flat(bs[..b]))
    ensures !RtpThrough(Flat(bs))
    decreases |bs| - b
  {
    if b == |bs| {
      assert bs[..b] == bs;
    } else {
      assert bs[..b + 1][..b] == bs[..b];
      var es := Flat(bs[..b]);
      var i :| 0 <= i < |es| && Active(es[i].value) && !HasRtp(es[i].value);
      assert (es + bs[b])[i] == es[i];
      StopsThrough(bs, b + 1);
    }
  }
}
