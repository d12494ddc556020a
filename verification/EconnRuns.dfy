/** What holds of one connection over every sequence of events. */
module EconnRuns {
  import opened Text
  import opened Econn

  lemma {:induction false} RunSplit(c: Conn, a: seq<Event>, b: seq<Event>)
    ensures Run(c, a + b) == Run(Run(c, a), b)
    decreases |a|
  {
    if a == [] {
      assert a + b == b;
    } else {
      assert (a + b)[1..] == a[1..] + b;
      RunSplit(Apply(c, a[0]).conn, a[1..], b);
    }
  }

  // ---- Device lock -------------------------------------------------------

  /** A message whose sender the connection must tell apart by device. */
  predicate FromDevice(ev: Event) {
    ev.EvRecv? && ev.m.kind in {Setup, Update, Cancel}
  }

  /** Once set, the remote client id survives every further event. */
  lemma {:induction false} LockIsStable(c: Conn, evs: seq<Event>)
    requires c.clientidRemote != ""
    ensures Run(c, evs).clientidRemote == c.clientidRemote
    decreases |evs|
  {
    if evs == [] {
    } else {
      LockStays(c, evs[0]);
      LockIsStable(Apply(c, evs[0]).conn, evs[1..]);
    }
  }

  lemma LockStays(c: Conn, ev: Event)
    requires c.clientidRemote != ""
    ensures Apply(c, ev).conn.clientidRemote == c.clientidRemote
  {
  }

  /** An unlocked connection that receives a SETUP locks on to its sender exactly
      when the sender's client id is non-empty and fits the 32-byte buffer. */
  lemma LockTakesShortIds(c: Conn, userid: string, clientid: string, m: Msg)
    requires c.clientidRemote == "" && m.kind == Setup
    ensures var c' := Recv(c, userid, clientid, m, true).conn;
            c'.clientidRemote != "" && CaseEq(c'.clientidRemote, clientid) <==> 0 < |clientid| < CLIENTID_SIZE
  {
    StrNcpyKeeps(clientid, CLIENTID_SIZE);
  }

  lemma DeviceStep(c: Conn, ev: Event)
    requires ev.EvRecv? && Apply(c, ev).conn.state != c.state
    ensures FromDevice(ev) && |ev.clientid| < CLIENTID_SIZE ==> CaseEq(Apply(c, ev).conn.clientidRemote, ev.clientid)
    ensures ev.m.kind != Setup ==> CaseEq(c.sessidRemote, ev.m.sessid)
  {
    StrNcpyKeeps(ev.clientid, CLIENTID_SIZE);
  }

  /** Device lock. In any run, every SETUP, UPDATE or CANCEL that changed the state
      came from the one device the connection ends up locked to, and an UPDATE,
      CANCEL or HANGUP that changed the state carried the remote session id. */
  lemma {:induction false} DeviceLock(c: Conn, evs: seq<Event>, i: nat)
    requires IsFresh(c)
    requires i < |evs| && evs[i].EvRecv?
    requires Apply(Run(c, evs[..i]), evs[i]).conn.state != Run(c, evs[..i]).state
    ensures FromDevice(evs[i]) && 0 < |evs[i].clientid| < CLIENTID_SIZE
            ==> CaseEq(Run(c, evs).clientidRemote, evs[i].clientid)
    ensures evs[i].m.kind != Setup ==> CaseEq(Run(c, evs[..i]).sessidRemote, evs[i].m.sessid)
  {
    var before := Run(c, evs[..i]);
    RunThrough(c, evs, i);
    DeviceStep(before, evs[i]);
    if FromDevice(evs[i]) && 0 < |evs[i].clientid| < CLIENTID_SIZE {
      LockHolds(Apply(before, evs[i]).conn, evs[i].clientid, evs[i + 1..]);
    }
  }

  lemma {:induction false} RunThrough(c: Conn, evs: seq<Event>, i: nat)
    requires i < |evs|
    ensures Run(c, evs) == Run(Apply(Run(c, evs[..i]), evs[i]).conn, evs[i + 1..])
  {
    var rest := evs[i..];
    assert evs == evs[..i] + rest;
    RunSplit(c, evs[..i], rest);
    assert rest[0] == evs[i] && rest[1..] == evs[i + 1..];
  }

  lemma {:induction false} LockHolds(c: Conn, clientid: string, evs: seq<Event>)
    requires clientid != "" && CaseEq(c.clientidRemote, clientid)
    ensures CaseEq(Run(c, evs).clientidRemote, clientid)
  {
    assert |Lower(c.clientidRemote)| == |Lower(clientid)|;
    LockIsStable(c, evs);
  }

  /** Where the lock fails: a device whose id does not fit is shut out by its own
      first SETUP. Nothing it sends afterwards, in any later state, is acted on. */
  lemma {:induction false} LongIdShutsItselfOut(c: Conn, userid: string, clientid: string, m: Msg, evs: seq<Event>,
                                                later: Msg)
    requires c.clientidRemote == "" && m.kind == Setup
    requires |clientid| >= CLIENTID_SIZE
    requires later.kind in {Setup, Update, Cancel}
    ensures var c' := Run(Recv(c, userid, clientid, m, true).conn, evs);
            Recv(c', userid, clientid, later, true) == Ignore(c')
  {
    var c1 := Recv(c, userid, clientid, m, true).conn;
    LockIsStable(c1, evs);
    assert |Lower(c1.clientidRemote)| < |Lower(clientid)|;
  }

  // ---- Timer and close ---------------------------------------------------

  /** States in which somebody is waiting. Before econn_start has been called an
      outgoing connection is only being prepared, and nothing is timed yet. */
  predicate Waiting(c: Conn) {
    match c.state
    case PendingOutgoing | ConflictResolution => c.dir == Outgoing
    case PendingIncoming | UpdateSent | UpdateRecv | HangupSent => true
    case Terminating => c.closeh
    case _ => false
  }

  predicate TimerExact(c: Conn) {
    && (c.tmr != Off <==> Waiting(c))
    && (!c.closeh ==> c.state == Terminating)
    && (c.state == Idle ==> c.dir == UnknownDir)
    && (c.state in {PendingOutgoing, ConflictResolution} ==> c.dir != Incoming)
  }

  /** Sends succeed, and an update is not requested on a terminated connection
      (which ecall_restart and mf_gather_handler both check). */
  predicate Good(c: Conn, ev: Event) {
    && (ev.EvStart? || ev.EvAnswer? || ev.EvUpdateReq? || ev.EvUpdateResp? ==> ev.ok)
    && (ev.EvUpdateReq? ==> c.state != Terminating)
  }

  predicate GoodRun(c: Conn, evs: seq<Event>)
    decreases |evs|
  {
    evs == [] || (Good(c, evs[0]) && GoodRun(Apply(c, evs[0]).conn, evs[1..]))
  }

  lemma TimerExactStep(c: Conn, ev: Event)
    requires TimerExact(c) && c.timeoutSetup > 0 && Good(c, ev)
    ensures TimerExact(Apply(c, ev).conn) && Apply(c, ev).conn.timeoutSetup > 0
  {
    match ev {
      case EvRecv(userid, clientid, m, ok) => TimerExactRecv(c, userid, clientid, m, ok);
      case _ => TimerExactLocal(c, ev);
    }
  }

  lemma TimerExactLocal(c: Conn, ev: Event)
    requires TimerExact(c) && c.timeoutSetup > 0 && Good(c, ev) && !ev.EvRecv?
    ensures TimerExact(Apply(c, ev).conn) && Apply(c, ev).conn.timeoutSetup > 0
  {
  }

  lemma TimerExactRecv(c: Conn, userid: string, clientid: string, m: Msg, ok: bool)
    requires TimerExact(c) && c.timeoutSetup > 0
    ensures TimerExact(Recv(c, userid, clientid, m, ok).conn) && Recv(c, userid, clientid, m, ok).conn.timeoutSetup > 0
  {
    match m.kind {
      case Setup => TimerExactSetup(c, RecvSetup(c, userid, clientid, m), userid, clientid, m);
      case Update => TimerExactUpdate(c, RecvUpdate(c, userid, clientid, m), userid, clientid, m);
      case _ =>
    }
  }

  lemma TimerExactSetup(c: Conn, o: Out, userid: string, clientid: string, m: Msg)
    requires TimerExact(c) && o == RecvSetup(c, userid, clientid, m)
    ensures TimerExact(o.conn) && o.conn.timeoutSetup == c.timeoutSetup
  {
  }

  lemma TimerExactUpdate(c: Conn, o: Out, userid: string, clientid: string, m: Msg)
    requires TimerExact(c) && o == RecvUpdate(c, userid, clientid, m)
    ensures TimerExact(o.conn) && o.conn.timeoutSetup == c.timeoutSetup
  {
  }

  lemma {:induction false} TimerExactAlong(c: Conn, evs: seq<Event>)
    requires TimerExact(c) && c.timeoutSetup > 0 && GoodRun(c, evs)
    ensures TimerExact(Run(c, evs))
    decreases |evs|
  {
    if evs == [] {
    } else {
      TimerExactStep(c, evs[0]);
      TimerExactAlong(Apply(c, evs[0]).conn, evs[1..]);
    }
  }

  /** Timer discipline: after any run, the local timer is running exactly in the
      waiting states, and its expiry then reports the close to the owner. */
  lemma {:induction false} TimerDiscipline(c: Conn, evs: seq<Event>, ok: bool)
    requires IsFresh(c) && c.timeoutSetup > 0 && GoodRun(c, evs)
    ensures var c' := Run(c, evs);
            && (c'.tmr != Off <==> Waiting(c'))
            && (Waiting(c') ==> exists e :: Apply(c', EvExpire(ok)).calls == [CallClose(e)])
  {
    TimerExactAlong(c, evs);
    var c' := Run(c, evs);
    if Waiting(c') {
      var e := if c'.tmr == SetupTimer then ETIMEDOUT else c'.err;
      assert Apply(c', EvExpire(ok)).calls == [CallClose(e)];
    }
  }

  /** The gap before econn_start: a prepared call that loses a glare waits for
      its own answer with no timer. Whether the timer runs there is decided by
      whether econn_start was called, and by nothing else. */
  lemma {:induction false} PreparedGlareIsUntimed(c: Conn, userid: string, clientid: string, m: Msg)
    requires IsFresh(c) && c.timeoutSetup > 0
    requires m.kind == Setup && !m.resp && !IsWinner(c.userid, c.clientid, userid, clientid)
    ensures var recv := EvRecv(userid, clientid, m, true);
            var prepared := Run(c, [EvPrepare, recv]);
            var started := Run(c, [EvPrepare, EvStart(NoSdp, true), recv]);
            && prepared.state == started.state == ConflictResolution
            && prepared.tmr == Off && started.tmr == SetupTimer
  {
    var recv := EvRecv(userid, clientid, m, true);
    var p := c.(state := PendingOutgoing);
    var s := p.(dir := Outgoing, tmr := SetupTimer);
    LostGlare(p, userid, clientid, m);
    LostGlare(s, userid, clientid, m);
    RunOne(p, recv);
    RunOne(s, recv);
    assert [EvPrepare, recv][1..] == [recv];
    assert [EvPrepare, EvStart(NoSdp, true), recv][1..] == [EvStart(NoSdp, true), recv];
    assert [EvStart(NoSdp, true), recv][1..] == [recv];
    assert Apply(c, EvPrepare).conn == p && Apply(p, EvStart(NoSdp, true)).conn == s;
  }

  lemma {:induction false} RunOne(c: Conn, ev: Event)
    ensures Run(c, [ev]) == Apply(c, ev).conn
  {
    assert Run(Apply(c, ev).conn, [ev][1..]) == Apply(c, ev).conn;
  }

  lemma LostGlare(c: Conn, userid: string, clientid: string, m: Msg)
    requires c.state == PendingOutgoing && c.clientidRemote == ""
    requires m.kind == Setup && !m.resp && !IsWinner(c.userid, c.clientid, userid, clientid)
    ensures var c' := Apply(c, EvRecv(userid, clientid, m, true)).conn;
            c'.state == ConflictResolution && c'.tmr == c.tmr
  {
  }

  function Closes(calls: seq<Call>): nat {
    if calls == [] then 0 else (if calls[0].CallClose? then 1 else 0) + Closes(calls[1..])
  }

  lemma {:induction false} ClosesSplit(a: seq<Call>, b: seq<Call>)
    ensures Closes(a + b) == Closes(a) + Closes(b)
  {
    if a == [] {
      assert a + b == b;
    } else {
      assert (a + b)[1..] == a[1..] + b;
      ClosesSplit(a[1..], b);
    }
  }

  lemma RecvCloses(c: Conn, userid: string, clientid: string, m: Msg, ok: bool, o: Out)
    requires o == Recv(c, userid, clientid, m, ok)
    ensures Closes(o.calls) == (if c.closeh && !o.conn.closeh then 1 else 0) && (o.conn.closeh ==> c.closeh)
  {
  }

  lemma LocalCloses(c: Conn, ev: Event)
    requires !ev.EvRecv?
    ensures Closes(Apply(c, ev).calls) == (if c.closeh && !Apply(c, ev).conn.closeh then 1 else 0)
    ensures Apply(c, ev).conn.closeh ==> c.closeh
  {
  }

  lemma CloseStep(c: Conn, ev: Event)
    ensures Closes(Apply(c, ev).calls) == (if c.closeh && !Apply(c, ev).conn.closeh then 1 else 0)
    ensures Apply(c, ev).conn.closeh ==> c.closeh
  {
    match ev {
      case EvRecv(userid, clientid, m, ok) => RecvCloses(c, userid, clientid, m, ok, Recv(c, userid, clientid, m, ok));
      case _ => LocalCloses(c, ev);
    }
  }

  /** The close callback is made at most once in any run whatsoever, and exactly
      when the handler has been consumed. */
  lemma {:induction false} ClosedAtMostOnce(c: Conn, evs: seq<Event>)
    ensures Closes(Calls(c, evs)) == (if c.closeh && !Run(c, evs).closeh then 1 else 0)
    ensures Run(c, evs).closeh ==> c.closeh
    decreases |evs|
  {
    if evs == [] {
    } else {
      var o := Apply(c, evs[0]);
      CloseStep(c, evs[0]);
      ClosedAtMostOnce(o.conn, evs[1..]);
      ClosesSplit(o.calls, Calls(o.conn, evs[1..]));
    }
  }

  lemma NoMessageRevives(c: Conn, userid: string, clientid: string, m: Msg, ok: bool)
    requires c.state == Terminating
    ensures Recv(c, userid, clientid, m, ok).conn.state == Terminating
  {
  }

  /** A terminated connection is left by one event only: an update request that
      gets sent, which is why the callers have to guard it. */
  lemma TerminatingIsAbsorbing(c: Conn, ev: Event)
    requires c.state == Terminating
    ensures Apply(c, ev).conn.state == Terminating <==> !(ev.EvUpdateReq? && ev.ok)
  {
    if ev.EvRecv? {
      NoMessageRevives(c, ev.userid, ev.clientid, ev.m, ev.ok);
    }
  }

  // ---- What the entry points report -----------------------------------------------

  /** The states in which an entry point that sends does not refuse. */
  predicate Takes(ev: Event, st: State) {
    match ev
    case EvStart(_, _) => st == Idle || st == PendingOutgoing
    case EvAnswer(_, _) => st == PendingIncoming || st == ConflictResolution
    case EvUpdateResp(_, _) => st == UpdateRecv
    case _ => true
  }

  /** The error codes of the four entry points that send a SETUP or UPDATE. Refused: nothing
      happens. The send fails: the connection is TERMINATING without a callback. Otherwise
      exactly one message is sent, with the local session and the given description, and the
      only complaint is about a wait that has no timeout. */
  lemma EntryPointsReport(c: Conn, ev: Event)
    requires ev.EvStart? || ev.EvAnswer? || ev.EvUpdateReq? || ev.EvUpdateResp?
    ensures var o, waits := Apply(c, ev), ev.EvStart? || ev.EvUpdateReq?;
            var c1 := if ev.EvStart? then c.(dir := Outgoing) else if waits then c else c.(tmr := Off);
            && o.calls == []
            && (if !Takes(ev, c.state) then o == Out(c, [], [], EPROTO)
                else if !ev.ok then o == Out(c1.(state := Terminating, setupErr := SEND_FAILED), [], [], SEND_FAILED)
                else && o.err == (if waits && c.timeoutSetup == 0 then EPROTO else Success)
                     && o.sent == [Msg(if ev.EvStart? || ev.EvAnswer? then Setup else Update, !waits,
                                       c.sessidLocal, ev.sdp)]
                     && o.conn == c1.(state := if ev.EvStart? then PendingOutgoing
                                               else if ev.EvUpdateReq? then UpdateSent else Answered,
                                      tmr := if waits && c.timeoutSetup > 0 then SetupTimer else c1.tmr))
  {
  }

  /** The other entry points report nothing. */
  lemma OthersReportNothing(c: Conn, ev: Event)
    requires !ev.EvStart? && !ev.EvAnswer? && !ev.EvUpdateReq? && !ev.EvUpdateResp?
    ensures Apply(c, ev).err == Success
  {
  }
}
