/** The connection as the mutable object of econn.c. Every method is proved to
    do what its function in `Econn` says; the protocol theorems are about those
    functions. Every entry point keeps the timer running exactly while somebody
    waits, and calls the close handler exactly when it gives it up. */
module EconnObject {
  import opened Text
  import opened Econn
  import opened EconnRuns

  /** What receiving any message keeps. */
  lemma ReceivingKeeps(c: Conn, userid: string, clientid: string, m: Msg, ok: bool, o: Out)
    requires o == Recv(c, userid, clientid, m, ok)
    ensures c.timeoutSetup > 0 && TimerExact(c) ==> o.conn.timeoutSetup > 0 && TimerExact(o.conn)
    ensures Closes(o.calls) == if c.closeh && !o.conn.closeh then 1 else 0
  {
    if c.timeoutSetup > 0 && TimerExact(c) {
      TimerExactRecv(c, userid, clientid, m, ok);
    }
    RecvCloses(c, userid, clientid, m, ok, o);
  }

  class Connection {
    const userid: string
    const clientid: string
    const timeoutSetup: nat
    const sessidLocal: string
    var state: State
    var dir: Dir
    var tmr: Timer
    var sessidRemote: string
    var clientidRemote: string
    var conflict: int
    var closeh: bool
    var setupErr: Errno
    var err: Errno

    ghost function View(): Conn
      reads this
    {
      Conn(userid, clientid, timeoutSetup, state, dir, tmr, sessidLocal, sessidRemote,
           clientidRemote, conflict, closeh, setupErr, err)
    }

    /** The timer runs exactly while somebody waits. */
    ghost predicate Valid()
      reads this
    {
      timeoutSetup > 0 && TimerExact(View())
    }

    /** econn_alloc, once both identities are known to be set. */
    constructor (userid: string, clientid: string, timeoutSetup: nat, sessid: string)
      requires userid != "" && clientid != "" && |sessid| < SESSID_SIZE
      ensures IsFresh(View())
      ensures View() == Fresh(userid, clientid, timeoutSetup, sessid)
      ensures state == Idle && dir == UnknownDir && tmr == Off && sessidRemote == clientidRemote == ""
      ensures conflict == 0 && closeh && setupErr == err == Success
      ensures timeoutSetup > 0 ==> Valid()
    {
      this.userid, this.clientid, this.timeoutSetup, this.sessidLocal := userid, clientid, timeoutSetup, sessid;
      state, dir, tmr := Idle, UnknownDir, Off;
      sessidRemote, clientidRemote, conflict := "", "", 0;
      closeh, setupErr, err := true, Success, Success;
    }

    method SetState(s: State)
      modifies this`state
      ensures View() == old(View()).(state := s)
    {
      if state != s {
        state := s;
      }
    }

    method Close(e: Errno, ok: bool) returns (sent: seq<Msg>, calls: seq<Call>)
      modifies this
      ensures Out(View(), sent, calls, Success) == Econn.Close(old(View()), e, ok)
      ensures old(Valid()) ==> Valid()
      ensures Closes(calls) == if old(closeh) && !closeh then 1 else 0
    {
      sent, calls := [], [];
      var handler := closeh;
      tmr := Off;
      setupErr := e;
      if state == PendingOutgoing && ok {
        sent := [Msg(Cancel, false, sessidLocal, NoSdp)];
      }
      state := Terminating;
      if handler {
        closeh := false;
        calls := [CallClose(e)];
      }
    }

    /** econn_send_setup */
    method SendSetup(resp: bool, sdp: Sdp, update: bool, ok: bool) returns (sent: seq<Msg>, e: Errno)
      modifies this`state, this`setupErr
      ensures ok ==> View() == old(View()) && e == Success
                     && sent == [Msg(if update then Update else Setup, resp, sessidLocal, sdp)]
      ensures !ok ==> Out(View(), sent, [], e) == SendFailed(old(View()))
    {
      if ok {
        return [Msg(if update then Update else Setup, resp, sessidLocal, sdp)], Success;
      }
      setupErr := SEND_FAILED;
      SetState(Terminating);
      return [], SEND_FAILED;
    }

    method Start(sdp: Sdp, ok: bool) returns (sent: seq<Msg>, e: Errno)
      modifies this
      ensures Out(View(), sent, [], e) == Econn.Start(old(View()), sdp, ok)
      ensures old(Valid()) && ok ==> Valid()
    {
      if state != Idle && state != PendingOutgoing {
        return [], EPROTO;
      }
      SetState(PendingOutgoing);
      dir := Outgoing;
      sent, e := SendSetup(false, sdp, false, ok);
      if e != Success {
        return;
      }
      if timeoutSetup == 0 {
        return sent, EPROTO;
      }
      tmr := SetupTimer;
    }

    method Answer(sdp: Sdp, ok: bool) returns (sent: seq<Msg>, e: Errno)
      modifies this
      ensures Out(View(), sent, [], e) == Econn.Answer(old(View()), sdp, ok)
      ensures old(Valid()) && ok ==> Valid()
    {
      if state != PendingIncoming && state != ConflictResolution {
        return [], EPROTO;
      }
      tmr := Off;
      sent, e := SendSetup(true, sdp, false, ok);
      if e != Success {
        return;
      }
      SetState(Answered);
    }

    method UpdateReq(sdp: Sdp, ok: bool) returns (sent: seq<Msg>, e: Errno)
      modifies this
      ensures Out(View(), sent, [], e) == Econn.UpdateReq(old(View()), sdp, ok)
      ensures old(Valid()) && old(state) != Terminating && ok ==> Valid()
    {
      SetState(UpdateSent);
      sent, e := SendSetup(false, sdp, true, ok);
      if e != Success {
        return;
      }
      if timeoutSetup == 0 {
        return sent, EPROTO;
      }
      tmr := SetupTimer;
    }

    method UpdateResp(sdp: Sdp, ok: bool) returns (sent: seq<Msg>, e: Errno)
      modifies this
      ensures Out(View(), sent, [], e) == Econn.UpdateResp(old(View()), sdp, ok)
      ensures old(Valid()) && ok ==> Valid()
    {
      if state != UpdateRecv {
        return [], EPROTO;
      }
      tmr := Off;
      sent, e := SendSetup(true, sdp, true, ok);
      if e != Success {
        return;
      }
      SetState(Answered);
    }

    method End(ok: bool) returns (sent: seq<Msg>)
      modifies this
      ensures Out(View(), sent, [], Success) == Econn.End(old(View()), ok)
      ensures old(Valid()) ==> Valid()
    {
      sent := [];
      match state {
        case PendingIncoming =>
          SetState(Terminating);
          tmr := CancelTimer;
        case PendingOutgoing | Answered | ConflictResolution =>
          if ok { sent := [Msg(Cancel, false, sessidLocal, NoSdp)]; }
          SetState(Terminating);
          tmr := CancelTimer;
        case DatachanEstablished =>
          if ok { sent := [Msg(Hangup, false, sessidLocal, NoSdp)]; }
          SetState(HangupSent);
          tmr := TermTimer;
        case _ =>
      }
    }

    /** tmr_local_handler, tmr_term_handler and tmr_cancel_handler. */
    method Expire(ok: bool) returns (sent: seq<Msg>, calls: seq<Call>)
      modifies this
      ensures Out(View(), sent, calls, Success) == Econn.Expire(old(View()), ok)
      ensures old(Valid()) ==> Valid()
      ensures Closes(calls) == if old(closeh) && !closeh then 1 else 0
      ensures old(Valid() && Waiting(View())) ==> exists e :: calls == [CallClose(e)]
    {
      sent, calls := [], [];
      var handler := tmr;
      tmr := Off;
      if handler == SetupTimer {
        sent, calls := Close(ETIMEDOUT, ok);
      } else if handler != Off {
        sent, calls := Close(err, ok);
      }
    }

    method SetDatachanEstablished()
      modifies this`state
      ensures Out(View(), [], [], Success) == Econn.Datachan(old(View()))
      ensures old(Valid()) ==> Valid()
    {
      if state == Answered {
        SetState(DatachanEstablished);
      }
    }

    method HandleSetupRequest(useridSender: string, clientidSender: string, m: Msg) returns (calls: seq<Call>)
      modifies this
      ensures Out(View(), [], calls, Success) == SetupRequest(old(View()), useridSender, clientidSender, m)
    {
      calls := [];
      match state {
        case Idle =>
          SetState(PendingIncoming);
          dir := Incoming;
          sessidRemote := StrNcpy(m.sessid, SESSID_SIZE);
          tmr := SetupTimer;
          calls := [CallConn(useridSender, clientidSender, m.sdp)];
        case PendingOutgoing =>
          var isWinner := IsWinner(userid, clientid, useridSender, clientidSender);
          sessidRemote := StrNcpy(m.sessid, SESSID_SIZE);
          if isWinner {
            conflict := 1;
          } else {
            conflict := -1;
            SetState(ConflictResolution);
            calls := [CallAnswer(true, m.sdp)];
          }
        case _ =>
      }
    }

    method HandleSetupResponse(m: Msg) returns (calls: seq<Call>)
      modifies this
      ensures Out(View(), [], calls, Success) == SetupResponse(old(View()), m)
    {
      if state != PendingOutgoing && state != ConflictResolution {
        return [];
      }
      tmr := Off;
      SetState(Answered);
      sessidRemote := StrNcpy(m.sessid, SESSID_SIZE);
      calls := [CallAnswer(false, m.sdp)];
    }

    method RecvSetup(useridSender: string, clientidSender: string, m: Msg) returns (calls: seq<Call>)
      modifies this
      ensures Out(View(), [], calls, Success) == Econn.RecvSetup(old(View()), useridSender, clientidSender, m)
    {
      if clientidRemote != "" {
        if !CaseEq(clientidRemote, clientidSender) {
          return [];
        }
      } else {
        clientidRemote := StrNcpy(clientidSender, CLIENTID_SIZE);
      }
      if m.resp {
        calls := HandleSetupResponse(m);
      } else {
        calls := HandleSetupRequest(useridSender, clientidSender, m);
      }
    }

    method HandleUpdateRequest(useridSender: string, clientidSender: string, m: Msg) returns (calls: seq<Call>)
      modifies this
      ensures Out(View(), [], calls, Success) == UpdateRequest(old(View()), useridSender, clientidSender, m)
    {
      if !CaseEq(clientidRemote, clientidSender) {
        return [];
      }
      var shouldReset := false;
      match state {
        case Answered | DatachanEstablished =>
          SetState(UpdateRecv);
        case UpdateSent =>
          if IsWinner(userid, clientid, useridSender, clientidSender) {
            return [];
          }
          SetState(UpdateRecv);
          shouldReset := true;
        case _ =>
          return [];
      }
      tmr := SetupTimer;
      calls := [CallUpdateReq(m.sdp, shouldReset)];
    }

    method HandleUpdateResponse(clientidSender: string, m: Msg) returns (calls: seq<Call>)
      modifies this
      ensures Out(View(), [], calls, Success) == UpdateResponse(old(View()), clientidSender, m)
    {
      if !CaseEq(clientidRemote, clientidSender) {
        return [];
      }
      if state != UpdateSent {
        return [];
      }
      tmr := Off;
      SetState(Answered);
      calls := [CallUpdateResp(m.sdp)];
    }

    method RecvCancel(clientidSender: string, m: Msg, ok: bool) returns (sent: seq<Msg>, calls: seq<Call>)
      modifies this
      ensures Out(View(), sent, calls, Success) == Econn.RecvCancel(old(View()), clientidSender, m, ok)
    {
      if !CaseEq(clientidSender, clientidRemote) {
        return [], [];
      }
      if state != PendingIncoming && state != Answered && state != DatachanEstablished {
        return [], [];
      }
      if !CaseEq(sessidRemote, m.sessid) {
        return [], [];
      }
      SetState(Terminating);
      sent, calls := Close(ECANCELED, ok);
    }

    method RecvHangup(m: Msg, ok: bool) returns (sent: seq<Msg>, calls: seq<Call>)
      modifies this
      ensures Out(View(), sent, calls, Success) == Econn.RecvHangup(old(View()), m, ok)
    {
      if !CaseEq(sessidRemote, m.sessid) {
        return [], [];
      }
      if state != DatachanEstablished && state != HangupSent {
        return [], [];
      }
      SetState(HangupRecv);
      var reply := [];
      if !m.resp && ok {
        reply := [Msg(Hangup, true, sessidLocal, NoSdp)];
      }
      SetState(Terminating);
      sent, calls := Close(Success, ok);
      sent := reply + sent;
    }

    method RecvMessage(useridSender: string, clientidSender: string, m: Msg, ok: bool)
      returns (sent: seq<Msg>, calls: seq<Call>)
      modifies this
      ensures Out(View(), sent, calls, Success) == Recv(old(View()), useridSender, clientidSender, m, ok)
      ensures old(Valid()) ==> Valid()
      ensures Closes(calls) == if old(closeh) && !closeh then 1 else 0
    {
      ReceivingKeeps(View(), useridSender, clientidSender, m, ok, Recv(View(), useridSender, clientidSender, m, ok));
      sent, calls := Dispatch(useridSender, clientidSender, m, ok);
    }

    /** The switch of econn_recv_message. */
    method Dispatch(useridSender: string, clientidSender: string, m: Msg, ok: bool)
      returns (sent: seq<Msg>, calls: seq<Call>)
      modifies this
      ensures Out(View(), sent, calls, Success) == Recv(old(View()), useridSender, clientidSender, m, ok)
    {
      sent, calls := [], [];
      match m.kind {
        case Setup =>
          calls := RecvSetup(useridSender, clientidSender, m);
        case Update =>
          if CaseEq(sessidRemote, m.sessid) {
            if m.resp {
              calls := HandleUpdateResponse(clientidSender, m);
            } else {
              calls := HandleUpdateRequest(useridSender, clientidSender, m);
            }
          }
        case Cancel =>
          sent, calls := RecvCancel(clientidSender, m, ok);
        case Hangup =>
          sent, calls := RecvHangup(m, ok);
        case Propsync =>
      }
    }
  }

  /** econn_alloc: refuses a missing user id or client id; `mem` says that there is memory. */
  method Alloc(userid: string, clientid: string, timeoutSetup: nat, sessid: string, mem: bool)
    returns (c: Connection?, e: Errno)
    requires |sessid| < SESSID_SIZE
    ensures e == if userid == "" || clientid == "" then EINVAL else if mem then Success else ENOMEM
    ensures c == null <==> e != Success
    ensures c != null ==> fresh(c) && c.View() == Fresh(userid, clientid, timeoutSetup, sessid)
  {
    if userid == "" || clientid == "" {
      return null, EINVAL;
    }
    if !mem {
      return null, ENOMEM;
    }
    e := Success;
    c := new Connection(userid, clientid, timeoutSetup, sessid);
  }
}
