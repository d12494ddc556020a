/** Two connected peers renegotiating over lossless FIFO channels. Either may
    request an update at any time, also both at once. */
module UpdateGlare {
  import opened Text
  import opened Econn
  import SetupGlare
  import SetupProgress

  /** A peer, its outgoing channel, the number of its latest offer, and the number of
      the remote offer last handed to its media layer (which an answer answers). */
  datatype Side = Side(conn: Conn, out: seq<Msg>, offer: nat, owed: nat)

  type Sys = s: seq<Side> | |s| == 2
    witness [Side(Fresh("", "", 0, ""), [], 0, 0), Side(Fresh("", "", 0, ""), [], 0, 0)]

  datatype What = Request | Late | Respond | Deliver | Establish

  /** Peer p requests, requests although it owes an answer, answers, receives the next
      message, or sees its data channel open. */
  datatype Act = Act(p: nat, what: What)

  predicate Stable(c: Conn) {
    c.state == Answered || c.state == DatachanEstablished
  }

  /** A request made whatever the state, as the gather handler makes it. */
  function RequestedAnyway(x: Side): Side {
    var o := UpdateReq(x.conn, Offer(x.offer + 1), true);
    x.(conn := o.conn, out := x.out + o.sent, offer := x.offer + 1)
  }

  /** ecall_restart requests an update only on an answered or established call. */
  function Requested(x: Side): Side {
    if Stable(x.conn) then RequestedAnyway(x) else x
  }

  /** The gather handler requests an update on a call that has just accepted one. */
  function RequestedLate(x: Side): Side {
    if x.conn.state == UpdateRecv then RequestedAnyway(x) else x
  }

  function Responded(x: Side): Side {
    var o := UpdateResp(x.conn, AnswerTo(x.owed), true);
    x.(conn := o.conn, out := x.out + o.sent)
  }

  /** x receives the head of y's channel; an offer it accepts is the one it now owes. */
  function Received(x: Side, y: Side): Side
    requires y.out != []
  {
    var o := Recv(x.conn, y.conn.userid, y.conn.clientid, y.out[0], true);
    var accepted := |o.calls| == 1 && o.calls[0].CallUpdateReq? && o.calls[0].sdp.Offer?;
    x.(conn := o.conn, out := x.out + o.sent, owed := if accepted then o.calls[0].sdp.id else x.owed)
  }

  function Consumed(y: Side): Side
    requires y.out != []
  {
    y.(out := y.out[1..])
  }

  /** Both peers after x has acted. */
  function Moved(x: Side, y: Side, what: What): (Side, Side) {
    match what
    case Request => (Requested(x), y)
    case Late => (RequestedLate(x), y)
    case Respond => (Responded(x), y)
    case Deliver => if y.out == [] then (x, y) else (Received(x, y), Consumed(y))
    case Establish => (x.(conn := Datachan(x.conn).conn), y)
  }

  function Step(s: Sys, a: Act): Sys {
    if a.p >= 2 then s else
    var m := Moved(s[a.p], s[1 - a.p], a.what);
    s[a.p := m.0][1 - a.p := m.1]
  }

  function Run(s: Sys, acts: seq<Act>): Sys
    decreases |acts|
  {
    if acts == [] then s else Run(Step(s, acts[0]), acts[1..])
  }

  // ---- The invariant -----------------------------------------------------

  /** x knows y by session and device. */
  predicate Knows(x: Conn, y: Conn) {
    CaseEq(x.sessidRemote, y.sessidLocal) && CaseEq(x.clientidRemote, y.clientid)
  }

  predicate IsOffer(m: Msg, x: Side) {
    m.kind == Update && !m.resp && m.sessid == x.conn.sessidLocal && m.sdp.Offer?
  }

  /** x's latest offer. */
  function LatestOffer(x: Side): Msg {
    Msg(Update, false, x.conn.sessidLocal, Offer(x.offer))
  }

  /** x's answer to y's latest offer. */
  function AnswerOf(x: Side, y: Side): Msg {
    Msg(Update, true, x.conn.sessidLocal, AnswerTo(y.offer))
  }

  /** The loser's channel before its answer: empty, or one offer the winner will ignore. */
  predicate Ignorable(out: seq<Msg>, l: Side) {
    out == [] || (|out| == 1 && IsOffer(out[0], l))
  }

  /** No negotiation by the winner is under way. */
  predicate WinnerStable(w: Side, l: Side) {
    && Stable(w.conn)
    && (|| (Stable(l.conn) && w.out == [] && l.out == [])
        || (l.conn.state == UpdateSent && w.out == [] && l.out == [LatestOffer(l)])
        || (l.conn.state == UpdateSent && w.out == [AnswerOf(w, l)] && l.out == []))
  }

  /** The winner owes an answer. */
  predicate WinnerOwes(w: Side, l: Side) {
    w.conn.state == UpdateRecv && l.conn.state == UpdateSent && w.owed == l.offer && w.out == [] && l.out == []
  }

  /** The winner's offer is on its way to the loser. */
  predicate OfferOut(w: Side, l: Side) {
    && w.conn.state == UpdateSent
    && (|| (l.conn.state == UpdateSent && w.out == [AnswerOf(w, l), LatestOffer(w)] && l.out == [])
        || (Stable(l.conn) && w.out == [LatestOffer(w)] && l.out == [])
        || (l.conn.state == UpdateSent && w.out == [LatestOffer(w)] && Ignorable(l.out, l)))
  }

  /** The loser holds the winner's offer and owes an answer. */
  predicate LoserOwes(w: Side, l: Side) {
    && w.conn.state == UpdateSent && w.out == []
    && l.conn.state == UpdateRecv && l.owed == w.offer && Ignorable(l.out, l)
  }

  /** The loser's answer is on its way, perhaps behind an offer the winner will ignore
      and perhaps before a new one. */
  predicate AnswerBack(w: Side, l: Side, k: nat) {
    && w.conn.state == UpdateSent && w.out == []
    && k < |l.out| && Ignorable(l.out[..k], l) && l.out[k] == AnswerOf(l, w)
    && (|| (Stable(l.conn) && |l.out| == k + 1)
        || (l.conn.state == UpdateSent && |l.out| == k + 2 && l.out[k + 1] == LatestOffer(l)))
  }

  predicate Negotiation(w: Side, l: Side) {
    || WinnerStable(w, l) || WinnerOwes(w, l) || OfferOut(w, l) || LoserOwes(w, l)
    || AnswerBack(w, l, 0) || AnswerBack(w, l, 1)
  }

  predicate Pair(w: Side, l: Side) {
    && Knows(w.conn, l.conn) && Knows(l.conn, w.conn)
    && SetupGlare.Wins(w.conn, l.conn) && !SetupGlare.Wins(l.conn, w.conn)
  }

  predicate Inv(s: Sys, w: nat) {
    w < 2 && Pair(s[w], s[1 - w]) && Negotiation(s[w], s[1 - w])
  }

  // ---- One step ----------------------------------------------------------

  /** A negotiation step leaves identities, sessions and the lock alone. */
  predicate SameParty(c: Conn, c': Conn) {
    c'.(state := c.state, tmr := c.tmr) == c
  }

  lemma WinnerRequests(w: Side, l: Side)
    requires Negotiation(w, l)
    ensures Negotiation(Requested(w), l) && SameParty(w.conn, Requested(w).conn)
  {
  }

  lemma LoserRequests(w: Side, l: Side)
    requires Negotiation(w, l)
    ensures Negotiation(w, Requested(l)) && SameParty(l.conn, Requested(l).conn)
  {
    if Stable(l.conn) && AnswerBack(w, l, 0) {
      assert AnswerBack(w, Requested(l), 0);
    } else if Stable(l.conn) && AnswerBack(w, l, 1) {
      assert Requested(l).out[..1] == l.out[..1];
      assert AnswerBack(w, Requested(l), 1);
    }
  }

  lemma RequestKeeps(w: Side, l: Side)
    requires Negotiation(w, l)
    ensures Negotiation(Requested(w), l) && SameParty(w.conn, Requested(w).conn)
    ensures Negotiation(w, Requested(l)) && SameParty(l.conn, Requested(l).conn)
  {
    WinnerRequests(w, l);
    LoserRequests(w, l);
  }

  lemma AnywayIs(x: Side, x': Side)
    requires x' == RequestedAnyway(x)
    ensures x'.conn.state == UpdateSent && SameParty(x.conn, x'.conn)
    ensures x'.offer == x.offer + 1 && x'.owed == x.owed && x'.out == x.out + [LatestOffer(x')]
  {
  }

  /** The winner may change its mind: the loser, still waiting, takes its offer instead. */
  lemma WinnerRequestsLate(w: Side, l: Side)
    requires Negotiation(w, l)
    ensures Negotiation(RequestedLate(w), l) && SameParty(w.conn, RequestedLate(w).conn)
  {
    if w.conn.state == UpdateRecv {
      AnywayIs(w, RequestedLate(w));
      assert OfferOut(RequestedLate(w), l);
    }
  }

  lemma RespondKeeps(w: Side, l: Side)
    requires Negotiation(w, l)
    ensures Negotiation(Responded(w), l) && SameParty(w.conn, Responded(w).conn)
    ensures Negotiation(w, Responded(l)) && SameParty(l.conn, Responded(l).conn)
  {
    if LoserOwes(w, l) {
      var l' := Responded(l);
      assert l'.out == l.out + [AnswerOf(l, w)] && l'.out[..|l.out|] == l.out;
      assert AnswerBack(w, l', |l.out|);
    }
  }

  lemma EstablishKeeps(w: Side, l: Side)
    requires Negotiation(w, l)
    ensures Negotiation(w.(conn := Datachan(w.conn).conn), l) && Negotiation(w, l.(conn := Datachan(l.conn).conn))
  {
    var l' := l.(conn := Datachan(l.conn).conn);
    assert AnswerBack(w, l, 0) ==> AnswerBack(w, l', 0);
    assert AnswerBack(w, l, 1) ==> AnswerBack(w, l', 1);
  }

  /** In the middle of its own negotiation the winner ignores an offer. */
  lemma WinnerIgnores(w: Side, l: Side, w': Side)
    requires Pair(w, l) && w.conn.state == UpdateSent && l.out != [] && IsOffer(l.out[0], l) && w' == Received(w, l)
    ensures w' == w
  {
    assert w.out + [] == w.out;
  }

  lemma IgnoredIsGone(w: Side, l: Side)
    requires Negotiation(w, l) && w.conn.state == UpdateSent && l.out != [] && !l.out[0].resp
    ensures IsOffer(l.out[0], l) && Negotiation(w, Consumed(l))
  {
    var l' := Consumed(l);
    if AnswerBack(w, l, 1) {
      assert l'.out[..0] == [];
      assert AnswerBack(w, l', 0);
    }
  }

  lemma WinnerTakesOffer(w: Side, l: Side, w': Side)
    requires Pair(w, l) && Negotiation(w, l) && Stable(w.conn) && l.out != [] && w' == Received(w, l)
    ensures !l.out[0].resp && WinnerOwes(w', Consumed(l)) && SameParty(w.conn, w'.conn)
  {
  }

  lemma WinnerTakesAnswer(w: Side, l: Side, w': Side)
    requires Pair(w, l) && AnswerBack(w, l, 0) && w' == Received(w, l)
    ensures WinnerStable(w', Consumed(l)) && SameParty(w.conn, w'.conn)
  {
    var l' := Consumed(l);
    assert |l'.out| == 1 ==> l'.out == [l.out[1]];
  }

  /** The winner hears an offer or an answer; an answer finds it waiting and answers its
      latest offer. */
  lemma WinnerHears(w: Side, l: Side)
    requires Pair(w, l) && Negotiation(w, l) && l.out != []
    ensures Negotiation(Received(w, l), Consumed(l)) && SameParty(w.conn, Received(w, l).conn)
    ensures l.out[0].resp ==> w.conn.state == UpdateSent && l.out[0].sdp == AnswerTo(w.offer)
  {
    if Stable(w.conn) {
      WinnerTakesOffer(w, l, Received(w, l));
    } else if l.out[0].resp {
      WinnerTakesAnswer(w, l, Received(w, l));
    } else {
      IgnoredIsGone(w, l);
      WinnerIgnores(w, l, Received(w, l));
    }
  }

  lemma LoserHearsAnswer(w: Side, l: Side, l': Side)
    requires Pair(w, l) && (WinnerStable(w, l) || OfferOut(w, l)) && w.out != [] && w.out[0] == AnswerOf(w, l)
    requires l' == Received(l, w)
    ensures Negotiation(Consumed(w), l') && SameParty(l.conn, l'.conn) && l.conn.state == UpdateSent
  {
    assert w.out[1..] == [] || w.out[1..] == [LatestOffer(w)];
  }

  /** The loser gives up its own offer for the winner's. */
  lemma LoserHearsOffer(w: Side, l: Side, l': Side)
    requires Pair(w, l) && OfferOut(w, l) && w.out == [LatestOffer(w)] && l' == Received(l, w)
    ensures LoserOwes(Consumed(w), l') && SameParty(l.conn, l'.conn)
  {
  }

  lemma LoserHears(w: Side, l: Side)
    requires Pair(w, l) && Negotiation(w, l) && w.out != []
    ensures Negotiation(Consumed(w), Received(l, w)) && SameParty(l.conn, Received(l, w).conn)
    ensures w.out[0].resp ==> l.conn.state == UpdateSent && w.out[0].sdp == AnswerTo(l.offer)
  {
    if w.out[0].resp {
      LoserHearsAnswer(w, l, Received(l, w));
    } else {
      LoserHearsOffer(w, l, Received(l, w));
    }
  }

  lemma PairStays(w: Side, l: Side, w': Side, l': Side)
    requires Pair(w, l) && SameParty(w.conn, w'.conn) && SameParty(l.conn, l'.conn)
    ensures Pair(w', l')
  {
  }

  lemma WinnerMoves(w: Side, l: Side, what: What)
    requires Pair(w, l) && Negotiation(w, l)
    ensures var (w', l') := Moved(w, l, what); Pair(w', l') && Negotiation(w', l')
  {
    match what
    case Request => RequestKeeps(w, l);
    case Late => WinnerRequestsLate(w, l);
    case Respond => RespondKeeps(w, l);
    case Establish => EstablishKeeps(w, l);
    case Deliver => if l.out != [] { WinnerHears(w, l); }
    var (w', l') := Moved(w, l, what);
    PairStays(w, l, w', l');
  }

  lemma LoserMoves(w: Side, l: Side, what: What)
    requires Pair(w, l) && Negotiation(w, l) && what != Late
    ensures var (l', w') := Moved(l, w, what); Pair(w', l') && Negotiation(w', l')
  {
    match what
    case Request => RequestKeeps(w, l);
    case Respond => RespondKeeps(w, l);
    case Establish => EstablishKeeps(w, l);
    case Deliver => if w.out != [] { LoserHears(w, l); }
    var (l', w') := Moved(l, w, what);
    PairStays(w, l, w', l');
  }

  lemma InvOf(s: Sys, w: nat, p: nat, x: Side, y: Side)
    requires w < 2 && p < 2
    requires if p == w then Pair(x, y) && Negotiation(x, y) else Pair(y, x) && Negotiation(y, x)
    ensures Inv(s[p := x][1 - p := y], w)
  {
    var s' := s[p := x][1 - p := y];
    assert s'[p] == x && s'[1 - p] == y;
  }

  /** Nobody but w requests late. */
  predicate OnTime(a: Act, w: nat) {
    a.what == Late ==> a.p == w
  }

  predicate AllOnTime(acts: seq<Act>, w: nat) {
    forall a :: a in acts ==> OnTime(a, w)
  }

  lemma WinnerStep(s: Sys, w: nat, what: What)
    requires Inv(s, w)
    ensures Inv(Step(s, Act(w, what)), w)
  {
    WinnerMoves(s[w], s[1 - w], what);
    var m := Moved(s[w], s[1 - w], what);
    InvOf(s, w, w, m.0, m.1);
  }

  lemma LoserStep(s: Sys, w: nat, what: What)
    requires Inv(s, w) && what != Late
    ensures Inv(Step(s, Act(1 - w, what)), w)
  {
    LoserMoves(s[w], s[1 - w], what);
    var m := Moved(s[1 - w], s[w], what);
    InvOf(s, w, 1 - w, m.0, m.1);
  }

  lemma StepKeeps(s: Sys, w: nat, a: Act)
    requires Inv(s, w) && OnTime(a, w)
    ensures Inv(Step(s, a), w)
  {
    if a.p == w {
      WinnerStep(s, w, a.what);
    } else if a.p == 1 - w {
      LoserStep(s, w, a.what);
    }
  }

  lemma {:induction false} InvAlong(s: Sys, w: nat, acts: seq<Act>)
    requires Inv(s, w) && AllOnTime(acts, w)
    ensures Inv(Run(s, acts), w)
    decreases |acts|
  {
    if acts == [] {
    } else {
      assert acts[0] in acts;
      StepKeeps(s, w, acts[0]);
      InvAlong(Step(s, acts[0]), w, acts[1..]);
    }
  }

  // ---- The theorem -------------------------------------------------------

  /** Two peers, each holding the call and knowing the other. */
  predicate Ready(c: Conn, d: Conn) {
    Stable(c) && Stable(d) && Knows(c, d) && Knows(d, c) && SetupGlare.Different(c, d)
  }

  function Init(c: Conn, d: Conn): Sys {
    [Side(c, [], 0, 0), Side(d, [], 0, 0)]
  }

  /** The head of y's channel, if it is an UPDATE response, is what x is waiting for. */
  predicate AwaitedBy(x: Side, y: Side) {
    y.out != [] && y.out[0].resp ==> x.conn.state == UpdateSent && y.out[0].sdp == AnswerTo(x.offer)
  }

  predicate Settled(x: Side, y: Side) {
    && !(x.conn.state == UpdateRecv && y.conn.state == UpdateRecv)
    && AwaitedBy(x, y) && AwaitedBy(y, x)
    && (x.out == [] && y.out == [] && x.conn.state != UpdateRecv && y.conn.state != UpdateRecv
        ==> Stable(x.conn) && Stable(y.conn))
  }

  lemma NegotiationSettles(w: Side, l: Side)
    requires Negotiation(w, l)
    ensures Settled(w, l)
  {
  }

  predicate AllSettled(s: Sys) {
    Settled(s[0], s[1])
  }

  lemma InvSettles(s: Sys, w: nat)
    requires Inv(s, w)
    ensures AllSettled(s)
  {
    NegotiationSettles(s[w], s[1 - w]);
  }

  function TieBreak(c: Conn, d: Conn): nat {
    if SetupGlare.Wins(c, d) then 0 else 1
  }

  lemma ReadyIsInv(c: Conn, d: Conn)
    requires Ready(c, d)
    ensures Inv(Init(c, d), TieBreak(c, d))
  {
    WinnerTotal(c.userid, c.clientid, d.userid, d.clientid);
  }

  /** UPDATE glare. After any sequence of requests, answers and in-order deliveries, in which
      only the tie-break's winner requests an update while it owes an answer: the peers do
      not both owe an answer; an UPDATE response about to be delivered finds its receiver in
      UPDATE_SENT and answers that receiver's latest offer; and with nothing in flight and no
      answer owed, neither peer is left in an update state. */
  lemma {:induction false} UpdateGlareResolves(c: Conn, d: Conn, acts: seq<Act>)
    requires Ready(c, d) && AllOnTime(acts, TieBreak(c, d))
    ensures AllSettled(Run(Init(c, d), acts))
  {
    ReadyIsInv(c, d);
    InvAlong(Init(c, d), TieBreak(c, d), acts);
    InvSettles(Run(Init(c, d), acts), TieBreak(c, d));
  }

  /** A resolved glare hands over: the connected peers it ends in are ready to update,
      provided both client ids survived being copied. */
  lemma ConnectedIsReady(s: SetupGlare.Sys)
    requires SetupProgress.Connected(s) && SetupGlare.Different(s[0].conn, s[1].conn)
    ensures Ready(s[0].conn, s[1].conn)
            <==> |s[0].conn.clientid| < CLIENTID_SIZE && |s[1].conn.clientid| < CLIENTID_SIZE
  {
    StrNcpyKeeps(s[0].conn.clientid, CLIENTID_SIZE);
    StrNcpyKeeps(s[1].conn.clientid, CLIENTID_SIZE);
    assert s[0].conn.state == Answered && s[1].conn.state == Answered;
    assert s[1].conn.clientidRemote == StrNcpy(s[1 - 1].conn.clientid, CLIENTID_SIZE);
    assert s[0].conn.clientidRemote == StrNcpy(s[1 - 0].conn.clientid, CLIENTID_SIZE);
  }

  // ---- Requests out of place ---------------------------------------------

  /** The winner hears of an update that it ignores, and the channel gets shorter. */
  lemma IgnoredDelivery(s: Sys, w: nat, s': Sys)
    requires w < 2 && Pair(s[w], s[1 - w]) && s[w].conn.state == UpdateSent && s[1 - w].out != []
    requires IsOffer(s[1 - w].out[0], s[1 - w]) && s' == Step(s, Act(w, Deliver))
    ensures s' == s[1 - w := Consumed(s[1 - w])]
  {
    WinnerIgnores(s[w], s[1 - w], Received(s[w], s[1 - w]));
    assert s[w := s[w]] == s;
  }

  predicate Stranded(s: Sys) {
    s[0].out == s[1].out == [] && s[0].conn.state == s[1].conn.state == UpdateSent
  }

  predicate AllOffers(out: seq<Msg>, l: Side) {
    forall m :: m in out ==> IsOffer(m, l)
  }

  /** Both wait, and all that is in flight are offers of the loser that the winner ignores. */
  predicate Doomed(s: Sys, w: nat) {
    && w < 2 && Pair(s[w], s[1 - w])
    && s[w].conn.state == s[1 - w].conn.state == UpdateSent && s[w].out == []
    && AllOffers(s[1 - w].out, s[1 - w])
  }

  /** Delivering everything leaves both waiting. */
  function Drain(s: Sys, w: nat): seq<Act>
    requires w < 2
  {
    seq(|s[1 - w].out|, _ => Act(w, Deliver))
  }

  lemma DoomedStep(s: Sys, w: nat)
    requires Doomed(s, w) && s[1 - w].out != []
    ensures var s' := Step(s, Act(w, Deliver)); Doomed(s', w) && |s'[1 - w].out| == |s[1 - w].out| - 1
  {
    assert s[1 - w].out[0] in s[1 - w].out;
    var s' := Step(s, Act(w, Deliver));
    IgnoredDelivery(s, w, s');
    var out := s[1 - w].out;
    assert forall m :: m in out[1..] ==> m in out;
  }

  lemma {:induction false} DoomedStrands(s: Sys, w: nat)
    requires Doomed(s, w)
    ensures Stranded(Run(s, Drain(s, w)))
    decreases |s[1 - w].out|
  {
    if s[1 - w].out == [] {
    } else {
      var s' := Step(s, Act(w, Deliver));
      DoomedStep(s, w);
      assert Drain(s, w)[1..] == Drain(s', w);
      DoomedStrands(s', w);
    }
  }

  /** The loser, owing an answer to the winner's offer, requests an update itself. */
  lemma LateLoserIsDoomed(w: Side, l: Side, l': Side)
    requires Pair(w, l) && LoserOwes(w, l) && l' == RequestedLate(l)
    ensures Pair(w, l') && l'.conn.state == UpdateSent && AllOffers(l'.out, l')
  {
    AnywayIs(l, l');
    PairStays(w, l, w, l');
  }

  lemma LateLoserStep(s: Sys, w: nat, s': Sys)
    requires Inv(s, w) && s[1 - w].conn.state == UpdateRecv && s' == Step(s, Act(1 - w, Late))
    ensures Doomed(s', w)
  {
    LateLoserIsDoomed(s[w], s[1 - w], RequestedLate(s[1 - w]));
    assert s'[w] == s[w] && s'[1 - w] == RequestedLate(s[1 - w]);
  }

  /** From any state of a negotiation in which the loser owes an answer, its late request
      leads to both peers waiting with nothing in flight and no answer owed. */
  lemma OutOfPlaceRequestStrands(s: Sys, w: nat)
    requires Inv(s, w) && s[1 - w].conn.state == UpdateRecv
    ensures var s' := Step(s, Act(1 - w, Late));
            var end := Run(s', Drain(s', w)); Stranded(end) && !AllSettled(end)
  {
    LateLoserStep(s, w, Step(s, Act(1 - w, Late)));
    DoomedStrands(Step(s, Act(1 - w, Late)), w);
  }

  lemma {:induction false} RunTwo(s: Sys, a: Act, b: Act)
    ensures Run(s, [a, b]) == Step(Step(s, a), b)
  {
    assert [a, b][1..] == [b] && [b][1..] == [];
    assert Run(Step(s, a), [b]) == Run(Step(Step(s, a), b), []);
  }

  lemma OfferIsTaken(w: Side, l: Side, w': Side)
    requires Pair(w, l) && Stable(w.conn) && Stable(l.conn) && w.out == l.out == [] && w' == Requested(w)
    ensures w'.out != [] && Received(l, w').conn.state == UpdateRecv
  {
    AnywayIs(w, w');
    PairStays(w, l, w', l);
    LoserHearsOffer(w', l, Received(l, w'));
  }

  /** Such states are reached: the winner requests and the loser hears of it. */
  lemma LoserComesToOwe(c: Conn, d: Conn)
    requires Ready(c, d)
    ensures var w := TieBreak(c, d);
            Run(Init(c, d), [Act(w, Request), Act(1 - w, Deliver)])[1 - w].conn.state == UpdateRecv
  {
    ReadyIsInv(c, d);
    var w, s := TieBreak(c, d), Init(c, d);
    OfferIsTaken(s[w], s[1 - w], Requested(s[w]));
    RunTwo(s, Act(w, Request), Act(1 - w, Deliver));
    var s1 := Step(s, Act(w, Request));
    assert s1[w] == Requested(s[w]) && s1[1 - w] == s[1 - w];
  }

  /** Whether a late request is safe. In any state that a negotiation reaches, a peer that
      owes an answer and requests an update instead leaves every continuation settled if and
      only if it wins the tie-break. */
  lemma {:induction false} LateRequestSafeIffWinner(c: Conn, d: Conn, before: seq<Act>, p: nat)
    requires Ready(c, d) && p < 2 && AllOnTime(before, TieBreak(c, d))
    requires Run(Init(c, d), before)[p].conn.state == UpdateRecv
    ensures var s' := Step(Run(Init(c, d), before), Act(p, Late));
            (forall after :: AllOnTime(after, TieBreak(c, d)) ==> AllSettled(Run(s', after)))
            <==> p == TieBreak(c, d)
  {
    var s, w := Run(Init(c, d), before), TieBreak(c, d);
    ReadyIsInv(c, d);
    InvAlong(Init(c, d), w, before);
    var s' := Step(s, Act(p, Late));
    if p == w {
      StepKeeps(s, w, Act(p, Late));
      forall after | AllOnTime(after, w) ensures AllSettled(Run(s', after)) {
        InvAlong(s', w, after);
        InvSettles(Run(s', after), w);
      }
    } else {
      OutOfPlaceRequestStrands(s, w);
      assert AllOnTime(Drain(s', w), w);
    }
  }
}
