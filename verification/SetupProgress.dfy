/** When nothing is lost, a glare always ends in one connected call. */
module SetupProgress {
  import opened Text
  import opened Econn
  import opened SetupGlare

  /** No loss, cancel or timeout: peers prepare, start and answer, and each message
      in flight is delivered once. */
  predicate FairEnabled(y: Peer, ev: Event) {
    match ev
    case EvPrepare => true
    case EvStart(_, ok) => ok
    case EvAnswer(_, ok) => ok
    case EvRecv(_, _, m, _) => m in y.net && FromPeer(ev, y.conn)
    case _ => false
  }

  /** Message m of this peer has been delivered. */
  function Delivered(y: Peer, m: Msg): Peer {
    y.(net := y.net - multiset{m})
  }

  /** The pair after act a, in which the actor made the move o. */
  function After(s: Sys, a: Act, o: Out): Sys
    requires a.p < 2
  {
    var s1 := Moved(s, a.p, o);
    if a.ev.EvRecv? then s1[1 - a.p := Delivered(s1[1 - a.p], a.ev.m)] else s1
  }

  function FairStep(s: Sys, a: Act): Sys
    requires a.p < 2
  {
    After(s, a, Apply(s[a.p].conn, a.ev))
  }

  function FairRun(s: Sys, acts: seq<Act>): Sys
    decreases |acts|
  {
    if acts == [] then s
    else if acts[0].p < 2 && FairEnabled(s[1 - acts[0].p], acts[0].ev) then FairRun(FairStep(s, acts[0]), acts[1..])
    else FairRun(s, acts[1..])
  }

  /** Nothing in flight and nobody busy: no answer and no first offer outstanding. */
  predicate Quiescent(s: Sys) {
    forall p :: 0 <= p < 2 ==>
      && s[p].net == multiset{}
      && s[p].conn.state !in {PendingIncoming, ConflictResolution}
      && (s[p].conn.state == PendingOutgoing ==> s[p].conn.dir == Outgoing)
  }

  /** Both peers hold the call and each knows the other's session and device. */
  predicate Connected(s: Sys) {
    forall p :: 0 <= p < 2 ==>
      && s[p].conn.state == Answered
      && s[p].conn.sessidRemote == s[1 - p].conn.sessidLocal
      && s[p].conn.clientidRemote == StrNcpy(s[1 - p].conn.clientid, CLIENTID_SIZE)
  }

  predicate InFlight(x: Peer, resp: bool) {
    exists m :: m in x.net && m.resp == resp
  }

  predicate NetOk(x: Peer) {
    forall m :: m in x.net ==> m in x.sent && m.kind == Setup && m.sessid == x.conn.sessidLocal
  }

  predicate Engaged(c: Conn) {
    c.state in {PendingIncoming, ConflictResolution, Answered}
  }

  /** Peer c's view of peer d, and what d owes it: `wins` says c wins the tie-break,
      `answered` that d has answered, `req` and `resp` what d has in flight to c. */
  predicate ViewOk(c: Conn, d: Conn, wins: bool, answered: bool, req: bool, resp: bool) {
    && (Engaged(c) || c.state in {Idle, PendingOutgoing})
    && c.clientid != "" && |c.sessidLocal| < SESSID_SIZE
    && (c.clientidRemote == "" || c.clientidRemote == StrNcpy(d.clientid, CLIENTID_SIZE))
    && (!Engaged(c) && (d.dir != Outgoing || c.state == Idle || !wins) ==> c.clientidRemote == "")
    && (Engaged(c) ==> c.clientidRemote != "" && c.sessidRemote == d.sessidLocal)
    && (d.dir == Outgoing && !Engaged(c) && (c.state == Idle || !wins) ==> req)
    && (answered ==> c.state == Answered || (c.state == PendingOutgoing && resp))
  }

  predicate ProgressOk(x: Peer, y: Peer, wins: bool) {
    NetOk(x) && ViewOk(x.conn, y.conn, wins, y.answers == 1, InFlight(y, false), InFlight(y, true))
  }

  /** The invariant of two peers, of which x wins the tie-break or y does; the loser's client
      id fits the buffer the winner copies it into. */
  predicate PairOk(x: Peer, y: Peer, wins: bool) {
    && wins == Wins(x.conn, y.conn) && wins != Wins(y.conn, x.conn)
    && RoleOk(x, y, wins) && RoleOk(y, x, !wins) && ProgressOk(x, y, wins) && ProgressOk(y, x, !wins)
    && |(if wins then y else x).conn.clientid| < CLIENTID_SIZE
  }

  predicate Progress(s: Sys, w: nat) {
    w < 2 && PairOk(s[w], s[1 - w], true)
  }

  lemma QuietPair(x: Peer, y: Peer)
    requires PairOk(x, y, true) && x.net == multiset{} && y.net == multiset{}
    requires x.conn.state !in {PendingIncoming, ConflictResolution}
    requires y.conn.state !in {PendingIncoming, ConflictResolution}
    requires x.conn.state == PendingOutgoing ==> x.conn.dir == Outgoing
    requires y.conn.state == PendingOutgoing ==> y.conn.dir == Outgoing
    requires x.conn.dir == Outgoing || y.conn.dir == Outgoing
    ensures x.conn.state == y.conn.state == Answered
    ensures x.conn.sessidRemote == y.conn.sessidLocal && y.conn.sessidRemote == x.conn.sessidLocal
    ensures x.conn.clientidRemote == StrNcpy(y.conn.clientid, CLIENTID_SIZE)
    ensures y.conn.clientidRemote == StrNcpy(x.conn.clientid, CLIENTID_SIZE)
  {
    assert !InFlight(x, false) && !InFlight(x, true) && !InFlight(y, false) && !InFlight(y, true);
  }

  lemma QuiescentIsConnected(s: Sys, w: nat)
    requires Progress(s, w) && Quiescent(s)
    requires s[0].conn.dir == Outgoing || s[1].conn.dir == Outgoing
    ensures Connected(s)
  {
    assert s[w] == s[w] && s[1 - w] == s[1 - w];
    QuietPair(s[w], s[1 - w]);
    assert s[1 - (1 - w)] == s[w];
  }

  // ---- Own moves ---------------------------------------------------------

  predicate Sends(o: Out, resp: bool) {
    |o.sent| == 1 && o.sent[0].resp == resp
  }

  /** What an own move of a peer can do on the way to a connected call. */
  predicate LocalMove(c: Conn, o: Out) {
    && o.conn.(state := c.state, dir := c.dir, tmr := c.tmr) == c
    && |o.sent| <= 1
    && (|o.sent| == 1 ==> o.sent[0].kind == Setup && o.sent[0].sessid == c.sessidLocal)
    && (|| (o.conn.state == c.state && o.conn.dir == c.dir && o.sent == [])
        || (c.state == Idle && o.conn.state == PendingOutgoing && o.conn.dir == c.dir && o.sent == [])
        || (c.state in {Idle, PendingOutgoing}
            && o.conn.state == PendingOutgoing && o.conn.dir == Outgoing && Sends(o, false))
        || (c.state in {PendingIncoming, ConflictResolution}
            && o.conn.state == Answered && o.conn.dir == c.dir && Sends(o, true)))
  }

  lemma LocalMoves(c: Conn, ev: Event)
    requires ev.EvPrepare? || (ev.EvStart? && ev.ok) || (ev.EvAnswer? && ev.ok)
    ensures LocalMove(c, Apply(c, ev))
  {
  }

  lemma MoverView(c: Conn, d: Conn, o: Out, wins: bool, answered: bool, req: bool, resp: bool)
    requires LocalMove(c, o) && ViewOk(c, d, wins, answered, req, resp)
    ensures ViewOk(o.conn, d, wins, answered, req, resp)
  {
  }

  lemma OtherView(c: Conn, d: Conn, o: Out, wins: bool, answered: bool, req: bool, resp: bool)
    requires LocalMove(c, o) && ViewOk(d, c, wins, answered, req, resp)
    requires c.state in {PendingIncoming, ConflictResolution} ==> d.state in {PendingOutgoing, Answered}
    ensures ViewOk(d, o.conn, wins, answered || Sends(o, true), req || Sends(o, false), resp || Sends(o, true))
  {
  }

  lemma FlightAfterMove(x: Peer, o: Out)
    requires NetOk(x) && LocalMove(x.conn, o)
    ensures NetOk(Absorb(x, o))
    ensures InFlight(Absorb(x, o), true) == (InFlight(x, true) || Sends(o, true))
    ensures InFlight(Absorb(x, o), false) == (InFlight(x, false) || Sends(o, false))
    ensures Absorb(x, o).answers == x.answers + if Sends(o, true) then 1 else 0
  {
    CountOne(o);
    var x' := Absorb(x, o);
    assert forall m :: m in x'.net <==> m in x.net || m in o.sent;
    if |o.sent| == 1 {
      assert o.sent[0] in x'.net;
    }
  }

  /** Whoever is about to answer faces a peer that is calling or already connected. */
  lemma AnswererFacesCaller(x: Peer, y: Peer, wins: bool)
    requires RoleOk(x, y, wins) && RoleOk(y, x, !wins) && ProgressOk(y, x, !wins)
    requires x.conn.state in {PendingIncoming, ConflictResolution}
    ensures y.conn.state in {PendingOutgoing, Answered}
  {
  }

  lemma OwnMoveProgresses(x: Peer, y: Peer, wins: bool, o: Out)
    requires RoleOk(x, y, wins) && RoleOk(y, x, !wins) && ProgressOk(x, y, wins) && ProgressOk(y, x, !wins)
    requires LocalMove(x.conn, o)
    ensures ProgressOk(Absorb(x, o), y, wins) && ProgressOk(y, Absorb(x, o), !wins)
  {
    if x.conn.state in {PendingIncoming, ConflictResolution} {
      AnswererFacesCaller(x, y, wins);
    }
    FlightAfterMove(x, o);
    MoverView(x.conn, y.conn, o, wins, y.answers == 1, InFlight(y, false), InFlight(y, true));
    OtherView(x.conn, y.conn, o, !wins, x.answers == 1, InFlight(x, false), InFlight(x, true));
  }

  // ---- Deliveries --------------------------------------------------------

  lemma RequestView(c: Conn, d: Conn, m: Msg, wins: bool, answered: bool, req: bool, resp: bool)
    requires ViewOk(c, d, wins, answered, req, resp) && d.clientid != ""
    requires m.kind == Setup && m.sessid == d.sessidLocal && |d.sessidLocal| < SESSID_SIZE
    requires wins == Wins(c, d) && (wins ==> |d.clientid| < CLIENTID_SIZE)
    requires !m.resp && d.dir == Outgoing
    requires (answered ==> wins || d.dir == Incoming) && (c.state == Idle ==> c.dir == UnknownDir)
    ensures var o := RecvSetup(c, d.userid, d.clientid, m);
            && ViewOk(o.conn, d, wins, answered, m.resp && req, !m.resp && resp)
            && o.sent == [] && (o.conn.dir == Outgoing <==> c.dir == Outgoing)
            && o.conn.clientid == c.clientid && o.conn.sessidLocal == c.sessidLocal
  {
  }

  lemma ResponseView(c: Conn, d: Conn, m: Msg, wins: bool, answered: bool, req: bool, resp: bool)
    requires ViewOk(c, d, wins, answered, req, resp) && d.clientid != ""
    requires m.kind == Setup && m.sessid == d.sessidLocal && |d.sessidLocal| < SESSID_SIZE
    requires wins == Wins(c, d) && (wins ==> |d.clientid| < CLIENTID_SIZE)
    requires m.resp && answered
    requires (answered ==> wins || d.dir == Incoming) && (c.state == Idle ==> c.dir == UnknownDir)
    ensures var o := RecvSetup(c, d.userid, d.clientid, m);
            && ViewOk(o.conn, d, wins, answered, m.resp && req, !m.resp && resp)
            && o.sent == [] && (o.conn.dir == Outgoing <==> c.dir == Outgoing)
            && o.conn.clientid == c.clientid && o.conn.sessidLocal == c.sessidLocal
  {
  }

  /** A SETUP of d reaches c. The loser's id fits, so c can tell that it is d's. */
  lemma DeliveryView(c: Conn, d: Conn, m: Msg, wins: bool, answered: bool, req: bool, resp: bool)
    requires ViewOk(c, d, wins, answered, req, resp) && d.clientid != ""
    requires m.kind == Setup && m.sessid == d.sessidLocal && |d.sessidLocal| < SESSID_SIZE
    requires wins == Wins(c, d) && (wins ==> |d.clientid| < CLIENTID_SIZE)
    requires if m.resp then answered else d.dir == Outgoing
    requires (answered ==> wins || d.dir == Incoming) && (c.state == Idle ==> c.dir == UnknownDir)
    ensures var o := RecvSetup(c, d.userid, d.clientid, m);
            && ViewOk(o.conn, d, wins, answered, m.resp && req, !m.resp && resp)
            && o.sent == [] && (o.conn.dir == Outgoing <==> c.dir == Outgoing)
            && o.conn.clientid == c.clientid && o.conn.sessidLocal == c.sessidLocal
  {
    if m.resp {
      ResponseView(c, d, m, wins, answered, req, resp);
    } else {
      RequestView(c, d, m, wins, answered, req, resp);
    }
  }

  lemma FlightAfterDelivery(x: Peer, y: Peer, m: Msg, o: Out)
    requires m in y.net && o.sent == []
    ensures var x', y' := Absorb(x, o), Delivered(y, m);
            && x'.net == x.net && x'.sent == x.sent && x'.answers == x.answers
            && InFlight(x', true) == InFlight(x, true) && InFlight(x', false) == InFlight(x, false)
            && (InFlight(y, !m.resp) ==> InFlight(y', !m.resp))
  {
    assert x.sent + (set n: Msg | n in o.sent) == x.sent;
    if InFlight(y, !m.resp) {
      var n :| n in y.net && n.resp == !m.resp;
      assert n in Delivered(y, m).net;
    }
  }

  lemma DeliveryProgresses(x: Peer, y: Peer, wins: bool, m: Msg, o: Out)
    requires RoleOk(x, y, wins) && RoleOk(y, x, !wins) && ProgressOk(x, y, wins) && ProgressOk(y, x, !wins)
    requires wins == Wins(x.conn, y.conn) && (wins ==> |y.conn.clientid| < CLIENTID_SIZE)
    requires m in y.net && o == RecvSetup(x.conn, y.conn.userid, y.conn.clientid, m)
    ensures ProgressOk(Absorb(x, o), Delivered(y, m), wins) && ProgressOk(Delivered(y, m), Absorb(x, o), !wins)
  {
    DeliveryView(x.conn, y.conn, m, wins, y.answers == 1, InFlight(y, false), InFlight(y, true));
    FlightAfterDelivery(x, y, m, o);
    DeliveryHeard(x, y, wins, m, o);
    DeliverySeen(x, y, wins, m, o);
  }

  lemma DeliveryHeard(x: Peer, y: Peer, wins: bool, m: Msg, o: Out)
    requires NetOk(x) && x.conn.sessidLocal == o.conn.sessidLocal && m in y.net
    requires Absorb(x, o).net == x.net && Absorb(x, o).sent == x.sent
    requires InFlight(y, !m.resp) ==> InFlight(Delivered(y, m), !m.resp)
    requires ViewOk(o.conn, y.conn, wins, y.answers == 1, m.resp && InFlight(y, false), !m.resp && InFlight(y, true))
    ensures ProgressOk(Absorb(x, o), Delivered(y, m), wins)
  {
  }

  lemma DeliverySeen(x: Peer, y: Peer, wins: bool, m: Msg, o: Out)
    requires ProgressOk(y, x, !wins) && (o.conn.dir == Outgoing <==> x.conn.dir == Outgoing)
    requires o.conn.clientid == x.conn.clientid && o.conn.sessidLocal == x.conn.sessidLocal
    requires Absorb(x, o).net == x.net && Absorb(x, o).answers == x.answers
    ensures ProgressOk(Delivered(y, m), Absorb(x, o), !wins)
  {
    assert InFlight(Absorb(x, o), true) == InFlight(x, true) && InFlight(Absorb(x, o), false) == InFlight(x, false);
  }

  // ---- Whole runs --------------------------------------------------------

  lemma PairSwaps(x: Peer, y: Peer, wins: bool)
    requires PairOk(x, y, wins)
    ensures PairOk(y, x, !wins)
  {
  }

  lemma OwnMoveKeepsPair(x: Peer, y: Peer, wins: bool, ev: Event, o: Out)
    requires PairOk(x, y, wins) && !ev.EvRecv? && !ev.EvUpdateReq? && Diagram(x.conn, ev, o) && LocalMove(x.conn, o)
    ensures PairOk(Absorb(x, o), y, wins)
  {
    MoverKeepsRole(x, y, wins, ev, o);
    OtherKeepsRole(x, y, wins, ev, o);
    OwnMoveProgresses(x, y, wins, o);
  }

  /** Roles do not depend on what is in flight. */
  lemma DeliveredKeepsRoles(x: Peer, y: Peer, wins: bool, m: Msg)
    requires RoleOk(x, y, wins) && RoleOk(y, x, !wins)
    ensures RoleOk(x, Delivered(y, m), wins) && RoleOk(Delivered(y, m), x, !wins)
  {
  }

  lemma DeliveryKeepsPair(x: Peer, y: Peer, wins: bool, ev: Event, o: Out)
    requires PairOk(x, y, wins) && ev.EvRecv? && ev.m in y.net && FromPeer(ev, y.conn) && Diagram(x.conn, ev, o)
    requires o == RecvSetup(x.conn, y.conn.userid, y.conn.clientid, ev.m)
    ensures PairOk(Absorb(x, o), Delivered(y, ev.m), wins)
  {
    MoverKeepsRole(x, y, wins, ev, o);
    OtherKeepsRole(x, y, wins, ev, o);
    DeliveredKeepsRoles(Absorb(x, o), y, wins, ev.m);
    DeliveryProgresses(x, y, wins, ev.m, o);
  }

  lemma SetupIsReceived(c: Conn, y: Peer, ev: Event)
    requires NetOk(y) && ev.EvRecv? && ev.m in y.net && FromPeer(ev, y.conn)
    ensures Apply(c, ev) == RecvSetup(c, y.conn.userid, y.conn.clientid, ev.m)
  {
  }

  lemma FairKeepsPair(x: Peer, y: Peer, wins: bool, ev: Event, o: Out)
    requires PairOk(x, y, wins) && FairEnabled(y, ev) && o == Apply(x.conn, ev)
    ensures PairOk(Absorb(x, o), if ev.EvRecv? then Delivered(y, ev.m) else y, wins)
  {
    ApplyFollowsDiagram(x.conn, ev);
    if ev.EvRecv? {
      SetupIsReceived(x.conn, y, ev);
      DeliveryKeepsPair(x, y, wins, ev, o);
    } else {
      LocalMoves(x.conn, ev);
      OwnMoveKeepsPair(x, y, wins, ev, o);
    }
  }

  /** The two peers after an act, whichever of them is called p. */
  lemma AfterIs(s: Sys, a: Act, o: Out)
    requires a.p < 2
    ensures After(s, a, o)[a.p] == Absorb(s[a.p], o)
    ensures After(s, a, o)[1 - a.p] == if a.ev.EvRecv? then Delivered(s[1 - a.p], a.ev.m) else s[1 - a.p]
  {
  }

  lemma TakeOut(s: Sys, w: nat, p: nat)
    requires Progress(s, w) && p < 2
    ensures PairOk(s[p], s[1 - p], p == w)
  {
    PairSwaps(s[w], s[1 - w], true);
  }

  lemma PutBack(s: Sys, w: nat, p: nat, x: Peer, y: Peer)
    requires w < 2 && p < 2 && s[p] == x && s[1 - p] == y && PairOk(x, y, p == w)
    ensures Progress(s, w)
  {
    PairSwaps(x, y, p == w);
  }

  lemma FairActKeepsPair(s: Sys, w: nat, p: nat, x: Peer, y: Peer, ev: Event, o: Out)
    requires Progress(s, w) && p < 2 && x == s[p] && y == s[1 - p] && FairEnabled(y, ev) && o == Apply(x.conn, ev)
    ensures PairOk(Absorb(x, o), if ev.EvRecv? then Delivered(y, ev.m) else y, p == w)
  {
    TakeOut(s, w, p);
    FairKeepsPair(x, y, p == w, ev, o);
  }

  lemma ProgressAfter(s: Sys, w: nat, a: Act, x: Peer, y: Peer, o: Out)
    requires w < 2 && a.p < 2 && x == s[a.p] && y == s[1 - a.p]
    requires PairOk(Absorb(x, o), if a.ev.EvRecv? then Delivered(y, a.ev.m) else y, a.p == w)
    ensures Progress(After(s, a, o), w)
  {
    AfterIs(s, a, o);
    PutBack(After(s, a, o), w, a.p, Absorb(x, o), if a.ev.EvRecv? then Delivered(y, a.ev.m) else y);
  }

  lemma FairKeepsProgress(s: Sys, w: nat, a: Act)
    requires Progress(s, w) && a.p < 2 && FairEnabled(s[1 - a.p], a.ev)
    ensures Progress(FairStep(s, a), w)
  {
    var x, y := s[a.p], s[1 - a.p];
    FairActKeepsPair(s, w, a.p, x, y, a.ev, Apply(x.conn, a.ev));
    ProgressAfter(s, w, a, x, y, Apply(x.conn, a.ev));
  }

  lemma {:induction false} ProgressAlong(s: Sys, w: nat, acts: seq<Act>)
    requires Progress(s, w)
    ensures Progress(FairRun(s, acts), w)
    decreases |acts|
  {
    if acts == [] {
    } else {
      if acts[0].p < 2 && FairEnabled(s[1 - acts[0].p], acts[0].ev) {
        FairKeepsProgress(s, w, acts[0]);
        ProgressAlong(FairStep(s, acts[0]), w, acts[1..]);
      } else {
        ProgressAlong(s, w, acts[1..]);
      }
    }
  }

  /** Two freshly allocated peers. */
  predicate Starters(a: Conn, b: Conn) {
    IsFresh(a) && IsFresh(b) && Different(a, b)
  }

  predicate Resolved(s: Sys) {
    Quiescent(s) && (s[0].conn.dir == Outgoing || s[1].conn.dir == Outgoing) ==> Connected(s)
  }

  /** No glare deadlock: whatever the interleaving of starts, answers and deliveries,
      once things come to rest after a SETUP was sent both peers hold the same call. */
  lemma {:induction false} NoGlareDeadlock(a: Conn, b: Conn, acts: seq<Act>)
    requires Starters(a, b)
    requires |(if Wins(a, b) then b else a).clientid| < CLIENTID_SIZE
    ensures Resolved(FairRun(Init(a, b), acts))
  {
    var s := Init(a, b);
    var w := WinnerExists(s);
    ProgressAlong(s, w, acts);
    if Quiescent(FairRun(s, acts))
       && (FairRun(s, acts)[0].conn.dir == Outgoing || FairRun(s, acts)[1].conn.dir == Outgoing) {
      QuiescentIsConnected(FairRun(s, acts), w);
    }
  }

  /** The crossed call: a wins the tie-break, b loses it and answers. Each stage is the
      state reached, and Script the run through all of them. */
  function SetupOf(c: Conn, resp: bool): Msg {
    Msg(Setup, resp, c.sessidLocal, NoSdp)
  }

  function Calling(c: Conn): Conn {
    c.(state := PendingOutgoing, dir := Outgoing, tmr := if c.timeoutSetup > 0 then SetupTimer else c.tmr)
  }

  function Won(a: Conn, b: Conn): Conn {
    Calling(a).(clientidRemote := StrNcpy(b.clientid, CLIENTID_SIZE), sessidRemote := b.sessidLocal, conflict := 1)
  }

  function Lost(b: Conn, a: Conn): Conn {
    Calling(b).(clientidRemote := StrNcpy(a.clientid, CLIENTID_SIZE), sessidRemote := a.sessidLocal, conflict := -1,
                state := ConflictResolution)
  }

  function BothCalling(a: Conn, b: Conn): Sys {
    [Peer(Calling(a), {SetupOf(a, false)}, multiset{SetupOf(a, false)}, 0),
     Peer(Calling(b), {SetupOf(b, false)}, multiset{SetupOf(b, false)}, 0)]
  }

  function Crossed(a: Conn, b: Conn): Sys {
    [Peer(Won(a, b), {SetupOf(a, false)}, multiset{}, 0), Peer(Lost(b, a), {SetupOf(b, false)}, multiset{}, 0)]
  }

  function AnswerDropped(a: Conn, b: Conn): Sys {
    [Crossed(a, b)[0],
     Peer(Lost(b, a).(state := Answered, tmr := Off), {SetupOf(b, false), SetupOf(b, true)}, multiset{}, 1)]
  }

  function Arrives(c: Conn, resp: bool): Event {
    EvRecv(c.userid, c.clientid, SetupOf(c, resp), true)
  }

  function Script(a: Conn, b: Conn): seq<Act> {
    [Act(0, EvStart(NoSdp, true)), Act(1, EvStart(NoSdp, true)), Act(0, Arrives(b, false)),
     Act(1, Arrives(a, false)), Act(1, EvAnswer(NoSdp, true)), Act(0, Arrives(b, true))]
  }

  /** The act takes s to s'. */
  ghost predicate Leads(s: Sys, x: Act, s': Sys) {
    x.p < 2 && FairEnabled(s[1 - x.p], x.ev) && s' == FairStep(s, x)
  }

  lemma {:induction false} FirstOfRun(s: Sys, acts: seq<Act>, s': Sys, rest: seq<Act>)
    requires acts != [] && Leads(s, acts[0], s') && rest == acts[1..]
    ensures FairRun(s, acts) == FairRun(s', rest)
  {
  }

  /** Act k of a run that has got from s0 to s. */
  lemma {:induction false} RunGoesOn(s0: Sys, acts: seq<Act>, k: nat, s: Sys, x: Act, s': Sys)
    requires k < |acts| && acts[k] == x && Leads(s, x, s') && FairRun(s0, acts) == FairRun(s, acts[k..])
    ensures FairRun(s0, acts) == FairRun(s', acts[k + 1..])
  {
    assert acts[k..][0] == x && acts[k..][1..] == acts[k + 1..];
    FirstOfRun(s, acts[k..], s', acts[k + 1..]);
  }

  lemma AbsorbOne(x: Peer, o: Out, m: Msg)
    requires o.sent == [m] && m.kind == Setup
    ensures Absorb(x, o) == Peer(o.conn, x.sent + {m}, x.net + multiset{m}, x.answers + if m.resp then 1 else 0)
  {
    CountOne(o);
    assert (set n | n in [m]) == {m};
  }

  lemma AbsorbNone(x: Peer, o: Out)
    requires o.sent == []
    ensures Absorb(x, o) == x.(conn := o.conn)
  {
    assert x.sent + (set n: Msg | n in o.sent) == x.sent;
  }

  lemma FirstCalls(a: Conn, b: Conn)
    requires Starters(a, b)
    ensures Leads(Init(a, b), Act(0, EvStart(NoSdp, true)), [BothCalling(a, b)[0], Init(a, b)[1]])
  {
    AbsorbOne(Init(a, b)[0], Start(a, NoSdp, true), SetupOf(a, false));
    assert Absorb(Init(a, b)[0], Start(a, NoSdp, true)) == BothCalling(a, b)[0];
  }

  lemma SecondCalls(a: Conn, b: Conn)
    requires Starters(a, b)
    ensures Leads([BothCalling(a, b)[0], Init(a, b)[1]], Act(1, EvStart(NoSdp, true)), BothCalling(a, b))
  {
    AbsorbOne(Init(a, b)[1], Start(b, NoSdp, true), SetupOf(b, false));
    assert Absorb(Init(a, b)[1], Start(b, NoSdp, true)) == BothCalling(a, b)[1];
  }

  /** b's SETUP has reached a, a's is still on its way. */
  function HalfCrossed(a: Conn, b: Conn): Sys {
    [BothCalling(a, b)[0].(conn := Won(a, b)), BothCalling(a, b)[1].(net := multiset{})]
  }

  lemma WinnerHears(a: Conn, b: Conn)
    requires Starters(a, b) && Wins(a, b)
    ensures Leads(BothCalling(a, b), Act(0, Arrives(b, false)), HalfCrossed(a, b))
  {
    AbsorbNone(BothCalling(a, b)[0], Apply(Calling(a), Arrives(b, false)));
  }

  lemma LoserHears(a: Conn, b: Conn)
    requires Starters(a, b) && Wins(a, b)
    ensures Leads(HalfCrossed(a, b), Act(1, Arrives(a, false)), Crossed(a, b))
  {
    WinnerTotal(a.userid, a.clientid, b.userid, b.clientid);
    AbsorbNone(HalfCrossed(a, b)[1], Apply(Calling(b), Arrives(a, false)));
  }

  /** The loser's answer is on its way. */
  function AnswerSent(a: Conn, b: Conn): Sys {
    [Crossed(a, b)[0], AnswerDropped(a, b)[1].(net := multiset{SetupOf(b, true)})]
  }

  lemma LoserAnswers(a: Conn, b: Conn)
    ensures Leads(Crossed(a, b), Act(1, EvAnswer(NoSdp, true)), AnswerSent(a, b))
  {
    AbsorbOne(Crossed(a, b)[1], Answer(Lost(b, a), NoSdp, true), SetupOf(b, true));
    assert Absorb(Crossed(a, b)[1], Answer(Lost(b, a), NoSdp, true)) == AnswerSent(a, b)[1];
  }

  lemma WinnerDropsAnswer(a: Conn, b: Conn)
    requires |b.clientid| >= CLIENTID_SIZE
    ensures Leads(AnswerSent(a, b), Act(0, Arrives(b, true)), AnswerDropped(a, b))
  {
    StrNcpyKeeps(b.clientid, CLIENTID_SIZE);
    AbsorbNone(Crossed(a, b)[0], Apply(Won(a, b), Arrives(b, true)));
  }

  lemma DroppedIsStuck(a: Conn, b: Conn)
    ensures !Resolved(AnswerDropped(a, b))
  {
  }

  lemma {:induction false} CallsCross(a: Conn, b: Conn, acts: seq<Act>)
    requires Starters(a, b) && Wins(a, b) && acts == Script(a, b)
    ensures FairRun(Init(a, b), acts) == FairRun(BothCalling(a, b), acts[2..])
  {
    FirstCalls(a, b);
    SecondCalls(a, b);
    var s1: Sys := [BothCalling(a, b)[0], Init(a, b)[1]];
    assert acts[0..] == acts;
    RunGoesOn(Init(a, b), acts, 0, Init(a, b), Act(0, EvStart(NoSdp, true)), s1);
    RunGoesOn(Init(a, b), acts, 1, s1, Act(1, EvStart(NoSdp, true)), BothCalling(a, b));
  }

  lemma {:induction false} BothHear(a: Conn, b: Conn, acts: seq<Act>)
    requires Starters(a, b) && Wins(a, b) && acts == Script(a, b)
    ensures FairRun(Init(a, b), acts) == FairRun(Crossed(a, b), acts[4..])
  {
    CallsCross(a, b, acts);
    WinnerHears(a, b);
    LoserHears(a, b);
    RunGoesOn(Init(a, b), acts, 2, BothCalling(a, b), Act(0, Arrives(b, false)), HalfCrossed(a, b));
    RunGoesOn(Init(a, b), acts, 3, HalfCrossed(a, b), Act(1, Arrives(a, false)), Crossed(a, b));
  }

  lemma {:induction false} AnswerIsDropped(a: Conn, b: Conn, acts: seq<Act>)
    requires Starters(a, b) && Wins(a, b) && |b.clientid| >= CLIENTID_SIZE && acts == Script(a, b)
    ensures FairRun(Init(a, b), acts) == AnswerDropped(a, b)
  {
    BothHear(a, b, acts);
    LoserAnswers(a, b);
    WinnerDropsAnswer(a, b);
    RunGoesOn(Init(a, b), acts, 4, Crossed(a, b), Act(1, EvAnswer(NoSdp, true)), AnswerSent(a, b));
    RunGoesOn(Init(a, b), acts, 5, AnswerSent(a, b), Act(0, Arrives(b, true)), AnswerDropped(a, b));
    assert acts[6..] == [];
  }

  /** With a loser's id that was cut short, the winner drops the answer it is waiting for. */
  lemma LongLoserDeadlocks(a: Conn, b: Conn)
    requires Starters(a, b) && Wins(a, b) && |b.clientid| >= CLIENTID_SIZE
    ensures !Resolved(FairRun(Init(a, b), Script(a, b)))
  {
    AnswerIsDropped(a, b, Script(a, b));
    DroppedIsStuck(a, b);
  }

  /** The exact condition: a glare between these two devices always resolves if and only
      if the loser's client id is shorter than the winner's 32-byte buffer. */
  lemma GlareResolvesIffLoserFits(a: Conn, b: Conn)
    requires Starters(a, b) && Wins(a, b)
    ensures (forall acts :: Resolved(FairRun(Init(a, b), acts))) <==> |b.clientid| < CLIENTID_SIZE
  {
    if |b.clientid| < CLIENTID_SIZE {
      forall acts ensures Resolved(FairRun(Init(a, b), acts)) {
        NoGlareDeadlock(a, b, acts);
      }
    } else {
      LongLoserDeadlocks(a, b);
    }
  }
}
