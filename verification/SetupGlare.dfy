/** Two peers setting up one call. `LossyRun` lets the network lose, duplicate
    and reorder everything ever sent; `FairRun` delivers each message once, in
    any order. Both peers may call at the same time (glare). */
module SetupGlare {
  import opened Text
  import opened Econn

  /** A peer, everything it ever sent, what of it is still in flight, and how many
      SETUP responses it has sent. */
  datatype Peer = Peer(conn: Conn, sent: set<Msg>, net: multiset<Msg>, answers: nat)

  /** The two peers. */
  type Sys = s: seq<Peer> | |s| == 2
    witness [Peer(Fresh("", "", 0, ""), {}, multiset{}, 0), Peer(Fresh("", "", 0, ""), {}, multiset{}, 0)]

  /** Peer `p` undergoes `ev`; a received message comes from the other peer. */
  datatype Act = Act(p: nat, ev: Event)

  function Init(a: Conn, b: Conn): Sys {
    [Peer(a, {}, multiset{}, 0), Peer(b, {}, multiset{}, 0)]
  }

  function CountAnswers(ms: seq<Msg>): nat {
    if ms == [] then 0
    else (if ms[0].kind == Setup && ms[0].resp then 1 else 0) + CountAnswers(ms[1..])
  }

  /** The peer has made the move `o`: its messages enter the network. */
  function Absorb(x: Peer, o: Out): Peer {
    Peer(o.conn, x.sent + (set m | m in o.sent), x.net + multiset(o.sent), x.answers + CountAnswers(o.sent))
  }

  function Moved(s: Sys, p: nat, o: Out): Sys
    requires p < 2
  {
    s[p := Absorb(s[p], o)]
  }

  function Move(s: Sys, a: Act): Sys
    requires a.p < 2
  {
    Moved(s, a.p, Apply(s[a.p].conn, a.ev))
  }

  /** States reached only through an answered call. */
  predicate Post(st: State) {
    st.Answered? || st.DatachanEstablished? || st.HangupSent? || st.HangupRecv? || st.UpdateSent? || st.UpdateRecv?
  }

  predicate FromPeer(ev: Event, d: Conn)
    requires ev.EvRecv?
  {
    ev.userid == d.userid && ev.clientid == d.clientid
  }

  /** Anything may happen, sends may fail, and any message the other ever sent may
      arrive. Updates are requested only on an answered call. */
  predicate LossyEnabled(x: Peer, y: Peer, ev: Event) {
    && (ev.EvRecv? ==> ev.m in y.sent && FromPeer(ev, y.conn))
    && (ev.EvUpdateReq? ==> Post(x.conn.state))
  }

  function LossyRun(s: Sys, acts: seq<Act>): Sys
    decreases |acts|
  {
    if acts == [] then s
    else if acts[0].p < 2 && LossyEnabled(s[acts[0].p], s[1 - acts[0].p], acts[0].ev) then
      LossyRun(Move(s, acts[0]), acts[1..])
    else LossyRun(s, acts[1..])
  }

  predicate Wins(c: Conn, d: Conn) {
    IsWinner(c.userid, c.clientid, d.userid, d.clientid)
  }

  /** Peer w wins the tie-break and the other loses it. */
  predicate Winner(s: Sys, w: nat) {
    w < 2 && Wins(s[w].conn, s[1 - w].conn) && !Wins(s[1 - w].conn, s[w].conn)
  }

  /** Two devices: different users, or different clients of one user. */
  predicate Different(c: Conn, d: Conn) {
    c.userid != d.userid || c.clientid != d.clientid
  }

  lemma WinnerExists(s: Sys) returns (w: nat)
    requires Different(s[0].conn, s[1].conn)
    ensures Winner(s, w)
  {
    WinnerTotal(s[0].conn.userid, s[0].conn.clientid, s[1].conn.userid, s[1].conn.clientid);
    w := if Wins(s[0].conn, s[1].conn) then 0 else 1;
  }

  // ---- The state diagram -------------------------------------------------

  predicate SetupArrives(ev: Event, resp: bool) {
    ev.EvRecv? && ev.m.kind == Setup && ev.m.resp == resp
  }

  predicate SendsSetup(o: Out, resp: bool) {
    |o.sent| == 1 && o.sent[0].kind == Setup && o.sent[0].resp == resp
  }

  /** The state diagram of one connection, as far as setting up a call goes:
      which event leads into which state, from where, and what it sends. */
  predicate Diagram(c: Conn, ev: Event, o: Out) {
    var c' := o.conn;
    var answered := ev.EvAnswer? && c.state in {PendingIncoming, ConflictResolution} && c'.state == Answered;
    && c'.userid == c.userid && c'.clientid == c.clientid
    && |o.sent| <= 1
    && (SendsSetup(o, true) <==> answered)
    && (SendsSetup(o, false) ==> c'.dir == Outgoing)
    && (c'.dir != c.dir ==>
          || (c'.dir == Outgoing && c.state in {Idle, PendingOutgoing} && c'.state in {PendingOutgoing, Terminating})
          || (c'.dir == Incoming && c.state == Idle && c'.state == PendingIncoming))
    && (c'.state != c.state ==>
          match c'.state
          case Idle => false
          case PendingOutgoing => c.state == Idle
          case PendingIncoming => c.state == Idle && SetupArrives(ev, false) && c'.dir == Incoming
          case ConflictResolution =>
            && c.state == PendingOutgoing && SetupArrives(ev, false)
            && !IsWinner(c.userid, c.clientid, ev.userid, ev.clientid)
          case Terminating => true
          case _ =>
            || answered || Post(c.state) || ev.EvUpdateReq?
            || (c.state in {PendingOutgoing, ConflictResolution} && SetupArrives(ev, true)))
  }

  lemma SetupFollowsDiagram(c: Conn, ev: Event, o: Out)
    requires ev.EvRecv? && ev.m.kind == Setup && o == RecvSetup(c, ev.userid, ev.clientid, ev.m)
    ensures Diagram(c, ev, o)
  {
  }

  lemma UpdateFollowsDiagram(c: Conn, ev: Event, o: Out)
    requires ev.EvRecv? && ev.m.kind == Update && o == RecvUpdate(c, ev.userid, ev.clientid, ev.m)
    ensures Diagram(c, ev, o)
  {
  }

  lemma CancelFollowsDiagram(c: Conn, ev: Event, o: Out)
    requires ev.EvRecv? && ev.m.kind == Cancel && o == RecvCancel(c, ev.clientid, ev.m, ev.ok)
    ensures Diagram(c, ev, o)
  {
  }

  lemma HangupFollowsDiagram(c: Conn, ev: Event, o: Out)
    requires ev.EvRecv? && ev.m.kind == Hangup && o == RecvHangup(c, ev.m, ev.ok)
    ensures Diagram(c, ev, o)
  {
  }

  lemma EndFollowsDiagram(c: Conn, ev: Event, o: Out)
    requires ev.EvEnd? && o == End(c, ev.ok)
    ensures Diagram(c, ev, o)
  {
  }

  lemma CloseFollowsDiagram(c: Conn, ev: Event, o: Out)
    requires (ev.EvClose? || ev.EvExpire?) && o == Apply(c, ev)
    ensures Diagram(c, ev, o)
  {
  }

  lemma LocalFollowsDiagram(c: Conn, ev: Event, o: Out)
    requires !ev.EvRecv? && !ev.EvEnd? && !ev.EvClose? && !ev.EvExpire? && o == Apply(c, ev)
    ensures Diagram(c, ev, o)
  {
  }

  lemma ApplyFollowsDiagram(c: Conn, ev: Event)
    ensures Diagram(c, ev, Apply(c, ev))
  {
    var o := Apply(c, ev);
    if ev.EvEnd? {
      EndFollowsDiagram(c, ev, o);
    } else if ev.EvClose? || ev.EvExpire? {
      CloseFollowsDiagram(c, ev, o);
    } else if !ev.EvRecv? {
      LocalFollowsDiagram(c, ev, o);
    } else {
      match ev.m.kind {
        case Setup => SetupFollowsDiagram(c, ev, o);
        case Update => UpdateFollowsDiagram(c, ev, o);
        case Cancel => CancelFollowsDiagram(c, ev, o);
        case Hangup => HangupFollowsDiagram(c, ev, o);
        case Propsync =>
      }
    }
  }

  lemma CountOne(o: Out)
    requires |o.sent| <= 1
    ensures CountAnswers(o.sent) == if SendsSetup(o, true) then 1 else 0
  {
  }

  // ---- Unique answerer ---------------------------------------------------

  /** What a peer's history allows its state to be; `wins` says it wins the tie-break. */
  predicate RoleOk(x: Peer, y: Peer, wins: bool) {
    var c, d := x.conn, y.conn;
    && (forall m :: m in x.sent && m.kind == Setup ==> if m.resp then x.answers == 1 else c.dir == Outgoing)
    && x.answers <= 1
    && (x.answers == 1 ==>
          (Post(c.state) || c.state == Terminating) && d.dir == Outgoing && (c.dir == Incoming || !wins))
    && (c.state == Idle ==> c.dir == UnknownDir)
    && (c.state == PendingIncoming ==> c.dir == Incoming)
    && (c.dir == Incoming ==> c.state !in {Idle, PendingOutgoing, ConflictResolution} && d.dir == Outgoing)
    && (c.dir == Outgoing ==> c.state !in {Idle, PendingIncoming})
    && (c.state == ConflictResolution ==> !wins && d.dir == Outgoing)
    && (Post(c.state) ==> x.answers == 1 || y.answers == 1)
  }

  predicate RolesOk(s: Sys, w: nat) {
    RoleOk(s[0], s[1], w == 0) && RoleOk(s[1], s[0], w == 1)
  }

  /** The mover keeps to its role. */
  lemma MoverKeepsRole(x: Peer, y: Peer, wins: bool, ev: Event, o: Out)
    requires RoleOk(x, y, wins) && RoleOk(y, x, !wins) && LossyEnabled(x, y, ev) && Diagram(x.conn, ev, o)
    requires wins == Wins(x.conn, y.conn)
    ensures RoleOk(Absorb(x, o), y, wins)
  {
    CountOne(o);
  }

  /** So does the peer looking on. */
  lemma OtherKeepsRole(x: Peer, y: Peer, wins: bool, ev: Event, o: Out)
    requires RoleOk(x, y, wins) && RoleOk(y, x, !wins) && Diagram(x.conn, ev, o)
    ensures RoleOk(y, Absorb(x, o), !wins)
  {
    CountOne(o);
  }

  lemma RolesMoved(s: Sys, w: nat, a: Act, o: Out)
    requires Winner(s, w) && RolesOk(s, w) && a.p < 2 && LossyEnabled(s[a.p], s[1 - a.p], a.ev)
    requires Diagram(s[a.p].conn, a.ev, o)
    ensures Winner(Moved(s, a.p, o), w) && RolesOk(Moved(s, a.p, o), w)
  {
    MoverKeepsRole(s[a.p], s[1 - a.p], a.p == w, a.ev, o);
    OtherKeepsRole(s[a.p], s[1 - a.p], a.p == w, a.ev, o);
  }

  lemma RolesMove(s: Sys, w: nat, a: Act)
    requires Winner(s, w) && RolesOk(s, w) && a.p < 2 && LossyEnabled(s[a.p], s[1 - a.p], a.ev)
    ensures Winner(Move(s, a), w) && RolesOk(Move(s, a), w)
  {
    ApplyFollowsDiagram(s[a.p].conn, a.ev);
    RolesMoved(s, w, a, Apply(s[a.p].conn, a.ev));
  }

  lemma {:induction false} RolesAlong(s: Sys, w: nat, acts: seq<Act>)
    requires Winner(s, w) && RolesOk(s, w)
    ensures Winner(LossyRun(s, acts), w) && RolesOk(LossyRun(s, acts), w)
    decreases |acts|
  {
    if acts == [] {
    } else if acts[0].p < 2 && LossyEnabled(s[acts[0].p], s[1 - acts[0].p], acts[0].ev) {
      RolesMove(s, w, acts[0]);
      RolesAlong(Move(s, acts[0]), w, acts[1..]);
    } else {
      RolesAlong(s, w, acts[1..]);
    }
  }

  /** An answer by x to y is in order: y called, and x was called or lost the tie-break. */
  predicate MayAnswer(x: Peer, y: Peer) {
    y.conn.dir == Outgoing && (x.conn.dir == Incoming || Wins(y.conn, x.conn))
  }

  /** Unique answerer. Over a network that loses, duplicates and reorders, and with
      sends that may fail: at most one peer ever sends a SETUP response and sends it
      once, that peer was called or lost the tie-break and the other one called, the
      peers are never both resolving a conflict, and whoever has a call got it from
      that one answer. */
  lemma {:induction false} UniqueAnswerer(a: Conn, b: Conn, acts: seq<Act>)
    requires IsFresh(a) && IsFresh(b) && Different(a, b)
    ensures var s := LossyRun(Init(a, b), acts);
            && s[0].answers + s[1].answers <= 1
            && (s[0].answers == 1 ==> MayAnswer(s[0], s[1])) && (s[1].answers == 1 ==> MayAnswer(s[1], s[0]))
            && !(s[0].conn.state == ConflictResolution && s[1].conn.state == ConflictResolution)
            && (Post(s[0].conn.state) || Post(s[1].conn.state) ==> s[0].answers + s[1].answers == 1)
  {
    var w := WinnerExists(Init(a, b));
    RolesAlong(Init(a, b), w, acts);
  }
}
