/** How a call ends: HANGUP between two connections with data channels, CANCEL before that, and
    the timer of whoever hears nothing. */
module Teardown {
  import opened Text
  import opened Econn
  import opened EconnRuns

  // ---- What ends a connection ------------------------------------------------

  /** A connection that has ended, for the reason given: TERMINATING, untimed, its handler gone. */
  predicate Ended(c: Conn, c': Conn, err: Errno) {
    c'.state == Terminating && c'.tmr == Off && !c'.closeh && c'.setupErr == err
    && c'.(state := c.state, tmr := c.tmr, closeh := c.closeh, setupErr := c.setupErr) == c
  }

  /** The one close callback, if the handler is still there. */
  function Closing(c: Conn, err: Errno): seq<Call> {
    if c.closeh then [CallClose(err)] else []
  }

  predicate Unaffected(c: Conn, o: Out) {
    o.conn == c && o.sent == [] && o.calls == []
  }

  /** A HANGUP ends a connection if and only if it has its data channel, or has hung up itself,
      and the session is its own. It reports success, and answers a request. */
  lemma HangupEndsIff(c: Conn, userid: string, clientid: string, m: Msg, ok: bool)
    requires m.kind == Hangup
    ensures var o := Apply(c, EvRecv(userid, clientid, m, ok));
            if c.state in {DatachanEstablished, HangupSent} && CaseEq(c.sessidRemote, m.sessid)
            then && Ended(c, o.conn, Success) && o.calls == Closing(c, Success)
                 && o.sent == if m.resp || !ok then [] else [Msg(Hangup, true, c.sessidLocal, NoSdp)]
            else Unaffected(c, o)
  {
  }

  /** A CANCEL ends a connection if and only if that is ringing, answered or has its data
      channel, and device and session are its own. It reports ECANCELED and is not answered. */
  lemma CancelEndsIff(c: Conn, userid: string, clientid: string, m: Msg, ok: bool)
    requires m.kind == Cancel
    ensures var o := Apply(c, EvRecv(userid, clientid, m, ok));
            if c.state in {PendingIncoming, Answered, DatachanEstablished}
               && CaseEq(c.clientidRemote, clientid) && CaseEq(c.sessidRemote, m.sessid)
            then Ended(c, o.conn, ECANCELED) && o.calls == Closing(c, ECANCELED) && o.sent == []
            else Unaffected(c, o)
  {
    CaseEqSwaps(clientid, c.clientidRemote);
  }

  lemma CaseEqSwaps(a: string, b: string)
    ensures CaseEq(a, b) <==> CaseEq(b, a)
  {
  }

  /** The timer ends a connection if and only if it runs: a setup that took too long reports
      ETIMEDOUT, and the wait after ending reports the error that was set. */
  lemma TimerEndsIff(c: Conn, ok: bool)
    ensures var o := Apply(c, EvExpire(ok));
            if c.tmr == Off then Unaffected(c, o)
            else var err := if c.tmr == SetupTimer then ETIMEDOUT else c.err;
                 && Ended(c, o.conn, err) && o.calls == Closing(c, err)
                 && (o.sent == if c.state == PendingOutgoing && ok
                               then [Msg(Cancel, false, c.sessidLocal, NoSdp)] else [])
  {
  }

  // ---- Hanging up, two connections --------------------------------------------

  /** A connection, what it has sent and the other has not received, what it has sent in all,
      and the errors its close callbacks reported. */
  datatype Side = Side(conn: Conn, net: multiset<Msg>, log: seq<Msg>, closes: seq<Errno>)

  datatype Sides = Sides(a: Side, b: Side)

  /** One end hangs up, or receives something the other has sent. */
  datatype Turn = HangUp(first: bool) | Deliver(first: bool, m: Msg)

  function Errors(calls: seq<Call>): seq<Errno> {
    if calls == [] then [] else (if calls[0].CallClose? then [calls[0].err] else []) + Errors(calls[1..])
  }

  function Absorb(x: Side, o: Out): Side {
    Side(o.conn, x.net + multiset(o.sent), x.log + o.sent, x.closes + Errors(o.calls))
  }

  /** x after hanging up, or after hearing m from y. */
  function HungUp(x: Side): Side {
    Absorb(x, Apply(x.conn, EvEnd(true)))
  }

  function Heard(x: Side, y: Side, m: Msg): Side {
    Absorb(x, Apply(x.conn, EvRecv(y.conn.userid, y.conn.clientid, m, true)))
  }

  function Lost(y: Side, m: Msg): Side {
    y.(net := y.net - multiset{m})
  }

  function Step(s: Sides, t: Turn): Sides {
    match t
    case HangUp(first) => if first then s.(a := HungUp(s.a)) else s.(b := HungUp(s.b))
    case Deliver(first, m) =>
      if first then (if m in s.b.net then Sides(Heard(s.a, s.b, m), Lost(s.b, m)) else s)
      else (if m in s.a.net then Sides(Lost(s.a, m), Heard(s.b, s.a, m)) else s)
  }

  function Turns(s: Sides, ts: seq<Turn>): Sides
    decreases |ts|
  {
    if ts == [] then s else Turns(Step(s, ts[0]), ts[1..])
  }

  function Request(c: Conn): Msg {
    Msg(Hangup, false, c.sessidLocal, NoSdp)
  }

  function Response(c: Conn): Msg {
    Msg(Hangup, true, c.sessidLocal, NoSdp)
  }

  /** x's connection is c, moved through the three stages of hanging up. */
  predicate Up(x: Side, c: Conn) {
    x.conn == c && x.log == [] && x.closes == []
  }

  predicate Waits(x: Side, c: Conn) {
    x.conn == c.(state := HangupSent, tmr := TermTimer) && x.log == [Request(c)] && x.closes == []
  }

  predicate Gone(x: Side, c: Conn) {
    && Ended(c, x.conn, Success) && x.closes == [Success]
    && (x.log == [Request(c)] || x.log == [Response(c)] || x.log == [Request(c), Response(c)])
  }

  /** x's half of the invariant; c and d are the two connections at the start. */
  predicate Half(x: Side, y: Side, c: Conn, d: Conn) {
    && (Up(x, c) || Waits(x, c) || Gone(x, c))
    && (forall m :: m in x.net ==> m in x.log && (m == Request(c) || m == Response(c)))
    && (Up(x, c) ==> !Gone(y, d))
    && (Waits(x, c) ==> if Gone(y, d) then Response(d) in y.net else Request(c) in x.net)
    && (Gone(x, c) ==> Request(c) in x.log || Request(d) in y.log)
    && (Response(c) in x.log ==> Request(d) in y.log)
  }

  /** Two connections that know each other's session, with data channels and handlers. */
  predicate Joined(c: Conn, d: Conn) {
    && c.state == d.state == DatachanEstablished && c.closeh && d.closeh
    && CaseEq(c.sessidRemote, d.sessidLocal) && CaseEq(d.sessidRemote, c.sessidLocal)
  }

  predicate Inv(s: Sides, c: Conn, d: Conn) {
    Joined(c, d) && Half(s.a, s.b, c, d) && Half(s.b, s.a, d, c)
  }

  lemma AbsorbsNothing(x: Side, o: Out)
    requires Unaffected(x.conn, o)
    ensures Absorb(x, o) == x
  {
    assert x.log + [] == x.log && x.closes + [] == x.closes;
  }

  lemma EndIs(c: Conn, o: Out)
    requires o == Apply(c, EvEnd(true))
    ensures c.state == DatachanEstablished ==>
              o.conn == c.(state := HangupSent, tmr := TermTimer) && o.sent == [Request(c)] && o.calls == []
    ensures c.state == HangupSent || c.state == Terminating ==> Unaffected(c, o)
  {
  }

  lemma HungUpIs(x: Side, c: Conn, x': Side)
    requires c.state == DatachanEstablished && x' == HungUp(x) && (Up(x, c) || Waits(x, c) || Gone(x, c))
    ensures if Up(x, c) then Waits(x', c) && x'.net == x.net + multiset{Request(c)} else x' == x
  {
    EndIs(x.conn, Apply(x.conn, EvEnd(true)));
    if Up(x, c) {
      assert [] + [Request(c)] == [Request(c)];
    } else {
      AbsorbsNothing(x, Apply(x.conn, EvEnd(true)));
    }
  }

  lemma HungUpKeeps(x: Side, y: Side, c: Conn, d: Conn, x': Side)
    requires Joined(c, d) && Half(x, y, c, d) && Half(y, x, d, c) && x' == HungUp(x)
    ensures Half(x', y, c, d) && Half(y, x', d, c)
  {
    HungUpIs(x, c, x');
  }

  lemma HeardIs(x: Side, y: Side, c: Conn, m: Msg, x': Side)
    requires c.state == DatachanEstablished && c.closeh && (Up(x, c) || Waits(x, c) || Gone(x, c))
    requires m.kind == Hangup && CaseEq(c.sessidRemote, m.sessid) && x' == Heard(x, y, m)
    ensures if Gone(x, c) then x' == x
            else && Ended(c, x'.conn, Success) && x'.closes == [Success]
                 && x'.log == (if m.resp then x.log else x.log + [Response(c)])
                 && x'.net == if m.resp then x.net else x.net + multiset{Response(c)}
  {
    HangupEndsIff(x.conn, y.conn.userid, y.conn.clientid, m, true);
    var o := Apply(x.conn, EvRecv(y.conn.userid, y.conn.clientid, m, true));
    if Gone(x, c) {
      AbsorbsNothing(x, o);
    } else {
      assert o.calls == [CallClose(Success)] && Errors(o.calls) == [Success];
      assert x.log + [] == x.log;
    }
  }

  /** x has ended already; hearing m changes nothing but that m is no longer in flight. */
  lemma GoneKeeps(x: Side, y: Side, c: Conn, d: Conn, m: Msg, y': Side)
    requires Joined(c, d) && Half(x, y, c, d) && Half(y, x, d, c) && m in y.net && Gone(x, c) && y' == Lost(y, m)
    ensures Half(x, y', c, d) && Half(y', x, d, c)
  {
    assert forall n :: n in y'.net ==> n in y.net;
  }

  /** x ends by m, which its new log tells. */
  lemma GoesKeeps(x: Side, y: Side, c: Conn, d: Conn, m: Msg, x': Side, y': Side)
    requires Joined(c, d) && Half(x, y, c, d) && Half(y, x, d, c) && m in y.net && !Gone(x, c) && y' == Lost(y, m)
    requires Gone(x', c) && x'.log == if m.resp then x.log else x.log + [Response(c)]
    requires x'.net == if m.resp then x.net else x.net + multiset{Response(c)}
    ensures Half(x', y', c, d) && Half(y', x', d, c)
  {
    assert forall n :: n in y'.net ==> n in y.net;
  }

  lemma GoesWhere(x: Side, y: Side, c: Conn, d: Conn, m: Msg, x': Side)
    requires Joined(c, d) && Half(x, y, c, d) && Half(y, x, d, c) && m in y.net && !Gone(x, c)
    requires Ended(c, x'.conn, Success) && x'.closes == [Success]
    requires x'.log == if m.resp then x.log else x.log + [Response(c)]
    ensures Gone(x', c)
  {
  }

  lemma HeardKeeps(x: Side, y: Side, c: Conn, d: Conn, m: Msg, x': Side, y': Side)
    requires Joined(c, d) && Half(x, y, c, d) && Half(y, x, d, c) && m in y.net
    requires x' == Heard(x, y, m) && y' == Lost(y, m)
    ensures Half(x', y', c, d) && Half(y', x', d, c)
  {
    HeardIs(x, y, c, m, x');
    if Gone(x, c) {
      GoneKeeps(x, y, c, d, m, y');
    } else {
      GoesWhere(x, y, c, d, m, x');
      GoesKeeps(x, y, c, d, m, x', y');
    }
  }

  lemma StepKeeps(s: Sides, c: Conn, d: Conn, t: Turn)
    requires Inv(s, c, d)
    ensures Inv(Step(s, t), c, d)
  {
    match t
    case HangUp(first) =>
      if first {
        HungUpKeeps(s.a, s.b, c, d, HungUp(s.a));
      } else {
        HungUpKeeps(s.b, s.a, d, c, HungUp(s.b));
      }
    case Deliver(first, m) =>
      if first && m in s.b.net {
        HeardKeeps(s.a, s.b, c, d, m, Heard(s.a, s.b, m), Lost(s.b, m));
      } else if !first && m in s.a.net {
        HeardKeeps(s.b, s.a, d, c, m, Heard(s.b, s.a, m), Lost(s.a, m));
      }
  }

  lemma {:induction false} InvAlong(s: Sides, c: Conn, d: Conn, ts: seq<Turn>)
    requires Inv(s, c, d)
    ensures Inv(Turns(s, ts), c, d)
    decreases |ts|
  {
    if ts == [] {
    } else {
      StepKeeps(s, c, d, ts[0]);
      InvAlong(Step(s, ts[0]), c, d, ts[1..]);
    }
  }

  function Start(c: Conn, d: Conn): Sides {
    Sides(Side(c, multiset{}, [], []), Side(d, multiset{}, [], []))
  }

  predicate BothUp(s: Sides, c: Conn, d: Conn) {
    Up(s.a, c) && Up(s.b, d)
  }

  /** Once someone has hung up, they are never both up again. */
  lemma NeverUpAgain(s: Sides, c: Conn, d: Conn, t: Turn)
    requires Inv(s, c, d) && (t.HangUp? || !BothUp(s, c, d))
    ensures !BothUp(Step(s, t), c, d)
  {
    if t.HangUp? {
      HungUpIs(s.a, c, HungUp(s.a));
      HungUpIs(s.b, d, HungUp(s.b));
    } else if t.first && t.m in s.b.net {
      HeardIs(s.a, s.b, c, t.m, Heard(s.a, s.b, t.m));
    } else if !t.first && t.m in s.a.net {
      HeardIs(s.b, s.a, d, t.m, Heard(s.b, s.a, t.m));
    }
  }

  lemma {:induction false} HungUpAlong(s: Sides, c: Conn, d: Conn, ts: seq<Turn>, i: nat)
    requires Inv(s, c, d) && (!BothUp(s, c, d) || (i < |ts| && ts[i].HangUp?))
    ensures !BothUp(Turns(s, ts), c, d)
    decreases |ts|
  {
    if ts == [] {
    } else {
      StepKeeps(s, c, d, ts[0]);
      if i == 0 || !BothUp(s, c, d) {
        NeverUpAgain(s, c, d, ts[0]);
      }
      HungUpAlong(Step(s, ts[0]), c, d, ts[1..], if i == 0 then 0 else i - 1);
    }
  }

  /** With nothing in flight both are up, or both have ended. */
  lemma RestIsOver(s: Sides, c: Conn, d: Conn)
    requires Inv(s, c, d) && s.a.net == s.b.net == multiset{} && !BothUp(s, c, d)
    ensures Gone(s.a, c) && Gone(s.b, d)
  {
  }

  /** Hanging up ends a call at both ends. Two connections with data channels hang up, either of
      them or both at once, and their messages arrive in any order: when nothing is in flight
      any more both are TERMINATING and untimed, each has given its close callback once and
      reported success, and if only one hung up there was one HANGUP and one HANGUP(r). */
  lemma {:induction false} HangupEndsBoth(c: Conn, d: Conn, ts: seq<Turn>, i: nat)
    requires Joined(c, d) && i < |ts| && ts[i].HangUp?
    ensures var s := Turns(Start(c, d), ts);
            s.a.net == s.b.net == multiset{} ==>
              && Ended(c, s.a.conn, Success) && s.a.closes == [Success]
              && Ended(d, s.b.conn, Success) && s.b.closes == [Success]
              && (Request(c) in s.a.log || Request(d) in s.b.log)
              && (Request(d) !in s.b.log ==> s.a.log == [Request(c)] && s.b.log == [Response(d)])
              && (Request(c) !in s.a.log ==> s.b.log == [Request(d)] && s.a.log == [Response(c)])
  {
    InvAlong(Start(c, d), c, d, ts);
    HungUpAlong(Start(c, d), c, d, ts, i);
    var s := Turns(Start(c, d), ts);
    if s.a.net == s.b.net == multiset{} {
      RestIsOver(s, c, d);
    }
  }

  // ---- A hangup that is not heard ---------------------------------------------

  /** A hangup ends the peer if and only if the peer has its data channel too, or is hanging up
      itself: a peer that is still ANSWERED, or in an update, stays there. */
  lemma HangupReachesIff(c: Conn, d: Conn)
    requires c.state == DatachanEstablished && CaseEq(d.sessidRemote, c.sessidLocal)
    ensures var o := Apply(c, EvEnd(true));
            && o.conn.state == HangupSent && |o.sent| == 1
            && (Apply(d, EvRecv(c.userid, c.clientid, o.sent[0], true)).conn.state == Terminating
                <==> d.state in {DatachanEstablished, HangupSent, Terminating})
  {
    EndIs(c, Apply(c, EvEnd(true)));
    HangupEndsIff(d, c.userid, c.clientid, Request(c), true);
  }

  // ---- Cancelling --------------------------------------------------------------

  /** d knows c by device and session. */
  predicate Knows(d: Conn, c: Conn) {
    CaseEq(d.clientidRemote, c.clientid) && CaseEq(d.sessidRemote, c.sessidLocal)
  }

  /** Ending a call that has no data channel yet cancels it: the peer, ringing or answered, ends
      and reports ECANCELED, and the own connection waits for its cancel timer to report its
      error. */
  lemma CancelEndsBoth(c: Conn, d: Conn)
    requires c.state in {PendingOutgoing, ConflictResolution, Answered} && Knows(d, c)
    requires d.state in {PendingIncoming, Answered, DatachanEstablished}
    ensures var o := Apply(c, EvEnd(true));
            && o.conn == c.(state := Terminating, tmr := CancelTimer) && o.calls == []
            && o.sent == [Msg(Cancel, false, c.sessidLocal, NoSdp)]
            && (var o' := Apply(d, EvRecv(c.userid, c.clientid, o.sent[0], true));
                Ended(d, o'.conn, ECANCELED) && o'.calls == Closing(d, ECANCELED) && o'.sent == [])
            && (var o' := Apply(o.conn, EvExpire(true));
                Ended(o.conn, o'.conn, c.err) && o'.calls == Closing(c, c.err) && o'.sent == [])
  {
    var o := Apply(c, EvEnd(true));
    CancelEndsIff(d, c.userid, c.clientid, Msg(Cancel, false, c.sessidLocal, NoSdp), true);
    TimerEndsIff(o.conn, true);
  }

  /** Declining a call that rings tells the peer nothing; the own connection reports its error
      once its timer has run out. */
  lemma DeclineIsSilent(c: Conn, ok: bool)
    requires c.state == PendingIncoming
    ensures var o := Apply(c, EvEnd(ok));
            && o.conn == c.(state := Terminating, tmr := CancelTimer) && o.calls == [] && o.sent == []
            && (var o' := Apply(o.conn, EvExpire(ok));
                Ended(o.conn, o'.conn, c.err) && o'.calls == Closing(c, c.err) && o'.sent == [])
  {
    TimerEndsIff(Apply(c, EvEnd(ok)).conn, ok);
  }

  /** From the beginning: c calls, d rings, c gives up. d stops ringing if and only if c's client
      id fits its buffer; otherwise it rings on until its own timer ends it. */
  lemma CancelStopsRingingIff(c: Conn, d: Conn, sdp: Sdp)
    requires IsFresh(c) && IsFresh(d)
    ensures var o := Apply(c, EvStart(sdp, true));
            |o.sent| == 1 && (var ring := Apply(d, EvRecv(c.userid, c.clientid, o.sent[0], true));
            && ring.conn.state == PendingIncoming && ring.conn.tmr == SetupTimer
            && (var e := Apply(o.conn, EvEnd(true));
                |e.sent| == 1 && (var stop := Apply(ring.conn, EvRecv(c.userid, c.clientid, e.sent[0], true));
                if |c.clientid| < CLIENTID_SIZE
                then Ended(ring.conn, stop.conn, ECANCELED) && stop.calls == [CallClose(ECANCELED)]
                else Unaffected(ring.conn, stop))))
  {
    var m := Msg(Setup, false, c.sessidLocal, sdp);
    var ring := Apply(d, EvRecv(c.userid, c.clientid, m, true)).conn;
    StrNcpyKeeps(c.clientid, CLIENTID_SIZE);
    StrNcpyKeeps(c.sessidLocal, SESSID_SIZE);
    CancelEndsIff(ring, c.userid, c.clientid, Msg(Cancel, false, c.sessidLocal, NoSdp), true);
  }
}
