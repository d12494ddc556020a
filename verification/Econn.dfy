/** One end of the 1:1 call-signalling protocol, as a value and one function per
    entry point. `EconnObject` holds the mutable object these functions specify.

    A send either reaches the transport (`ok`) or fails; callbacks into the
    application are always the last thing an entry point does, so each is
    recorded in `calls` and its reaction is a separate, later step. */
module Econn {
  import opened Text

  datatype State =
    | Idle | PendingOutgoing | PendingIncoming | ConflictResolution | Answered
    | DatachanEstablished | HangupSent | HangupRecv | UpdateSent | UpdateRecv | Terminating

  datatype Dir = UnknownDir | Outgoing | Incoming

  /** The local timer: not running, or armed with one of its three handlers. */
  datatype Timer = Off | SetupTimer | TermTimer | CancelTimer

  datatype Kind = Setup | Cancel | Update | Hangup | Propsync

  /** Session descriptions: an offer has an identity, an answer names the offer it answers. */
  datatype Sdp = NoSdp | Offer(id: nat) | AnswerTo(offer: nat)

  datatype Msg = Msg(kind: Kind, resp: bool, sessid: string, sdp: Sdp)

  datatype Errno = Success | EINVAL | EPROTO | ETIMEDOUT | ECANCELED | EALREADY | Failed(code: int)

  /** Callbacks into the owner of the connection. */
  datatype Call =
    | CallConn(userid: string, clientid: string, sdp: Sdp)
    | CallAnswer(reset: bool, sdp: Sdp)
    | CallUpdateReq(sdp: Sdp, shouldReset: bool)
    | CallUpdateResp(sdp: Sdp)
    | CallClose(err: Errno)

  datatype Conn = Conn(
    userid: string, clientid: string, timeoutSetup: nat,
    state: State, dir: Dir, tmr: Timer,
    sessidLocal: string, sessidRemote: string, clientidRemote: string,
    conflict: int, closeh: bool, setupErr: Errno, err: Errno)

  /** What one entry point leaves behind. */
  datatype Out = Out(conn: Conn, sent: seq<Msg>, calls: seq<Call>, err: Errno)

  const SESSID_SIZE: nat := 64
  const CLIENTID_SIZE: nat := 32
  const SEND_FAILED: Errno := Failed(1)
  const ENOMEM: Errno := Failed(12)

  function Fresh(userid: string, clientid: string, timeoutSetup: nat, sessid: string): Conn {
    Conn(userid, clientid, timeoutSetup, Idle, UnknownDir, Off, sessid, "", "", 0, true, Success, Success)
  }

  /** A fresh connection: both identities set, and a generated session id that fits its buffer. */
  predicate IsFresh(c: Conn) {
    && c == Fresh(c.userid, c.clientid, c.timeoutSetup, c.sessidLocal)
    && c.userid != "" && c.clientid != "" && |c.sessidLocal| < SESSID_SIZE
  }

  /** Nothing happens. */
  function Ignore(c: Conn): Out { Out(c, [], [], Success) }

  function Refuse(c: Conn): Out { Out(c, [], [], EPROTO) }

  /** econn_send_setup failing: the connection is given up without a callback. */
  function SendFailed(c: Conn): Out {
    Out(c.(state := Terminating, setupErr := SEND_FAILED), [], [], SEND_FAILED)
  }

  /** econn_close */
  function Close(c: Conn, err: Errno, ok: bool): Out {
    Out(c.(tmr := Off, setupErr := err, state := Terminating, closeh := false),
        if c.state == PendingOutgoing && ok then [Msg(Cancel, false, c.sessidLocal, NoSdp)] else [],
        if c.closeh then [CallClose(err)] else [],
        Success)
  }

  /** econn_start */
  function Start(c: Conn, sdp: Sdp, ok: bool): Out {
    if c.state != Idle && c.state != PendingOutgoing then Refuse(c) else
    var c1 := c.(state := PendingOutgoing, dir := Outgoing);
    var m := Msg(Setup, false, c.sessidLocal, sdp);
    if !ok then SendFailed(c1)
    else if c.timeoutSetup == 0 then Out(c1, [m], [], EPROTO)
    else Out(c1.(tmr := SetupTimer), [m], [], Success)
  }

  /** econn_answer */
  function Answer(c: Conn, sdp: Sdp, ok: bool): Out {
    if c.state != PendingIncoming && c.state != ConflictResolution then Refuse(c)
    else if !ok then SendFailed(c.(tmr := Off))
    else Out(c.(tmr := Off, state := Answered), [Msg(Setup, true, c.sessidLocal, sdp)], [], Success)
  }

  /** econn_update_req: no check of the source state. */
  function UpdateReq(c: Conn, sdp: Sdp, ok: bool): Out {
    var c1 := c.(state := UpdateSent);
    var m := Msg(Update, false, c.sessidLocal, sdp);
    if !ok then SendFailed(c1)
    else if c.timeoutSetup == 0 then Out(c1, [m], [], EPROTO)
    else Out(c1.(tmr := SetupTimer), [m], [], Success)
  }

  /** econn_update_resp */
  function UpdateResp(c: Conn, sdp: Sdp, ok: bool): Out {
    if c.state != UpdateRecv then Refuse(c)
    else if !ok then SendFailed(c.(tmr := Off))
    else Out(c.(tmr := Off, state := Answered), [Msg(Update, true, c.sessidLocal, sdp)], [], Success)
  }

  /** econn_end */
  function End(c: Conn, ok: bool): Out {
    match c.state
    case PendingIncoming =>
      Out(c.(state := Terminating, tmr := CancelTimer), [], [], Success)
    case PendingOutgoing | Answered | ConflictResolution =>
      Out(c.(state := Terminating, tmr := CancelTimer),
          if ok then [Msg(Cancel, false, c.sessidLocal, NoSdp)] else [], [], Success)
    case DatachanEstablished =>
      Out(c.(state := HangupSent, tmr := TermTimer),
          if ok then [Msg(Hangup, false, c.sessidLocal, NoSdp)] else [], [], Success)
    case _ => Ignore(c)
  }

  /** The one-shot timer fires: it stops, then its handler closes the connection. */
  function Expire(c: Conn, ok: bool): Out {
    match c.tmr
    case Off => Ignore(c)
    case SetupTimer => Close(c.(tmr := Off), ETIMEDOUT, ok)
    case _ => Close(c.(tmr := Off), c.err, ok)
  }

  /** econn_set_datachan_established */
  function Datachan(c: Conn): Out {
    Ignore(if c.state == Answered then c.(state := DatachanEstablished) else c)
  }

  /** handle_setup_request */
  function SetupRequest(c: Conn, userid: string, clientid: string, m: Msg): Out {
    var remote := StrNcpy(m.sessid, SESSID_SIZE);
    match c.state
    case Idle =>
      Out(c.(state := PendingIncoming, dir := Incoming, sessidRemote := remote, tmr := SetupTimer),
          [], [CallConn(userid, clientid, m.sdp)], Success)
    case PendingOutgoing =>
      if IsWinner(c.userid, c.clientid, userid, clientid) then
        Out(c.(sessidRemote := remote, conflict := 1), [], [], Success)
      else
        Out(c.(sessidRemote := remote, conflict := -1, state := ConflictResolution),
            [], [CallAnswer(true, m.sdp)], Success)
    case _ => Ignore(c)
  }

  /** handle_setup_response */
  function SetupResponse(c: Conn, m: Msg): Out {
    if c.state != PendingOutgoing && c.state != ConflictResolution then Ignore(c) else
    Out(c.(tmr := Off, state := Answered, sessidRemote := StrNcpy(m.sessid, SESSID_SIZE)),
        [], [CallAnswer(false, m.sdp)], Success)
  }

  /** recv_setup: lock on to the first remote device, then dispatch. */
  function RecvSetup(c: Conn, userid: string, clientid: string, m: Msg): Out {
    if c.clientidRemote != "" && !CaseEq(c.clientidRemote, clientid) then Ignore(c) else
    var c1 := if c.clientidRemote == "" then c.(clientidRemote := StrNcpy(clientid, CLIENTID_SIZE)) else c;
    if m.resp then SetupResponse(c1, m) else SetupRequest(c1, userid, clientid, m)
  }

  /** handle_update_request */
  function UpdateRequest(c: Conn, userid: string, clientid: string, m: Msg): Out {
    if !CaseEq(c.clientidRemote, clientid) then Ignore(c) else
    var c1 := c.(state := UpdateRecv, tmr := SetupTimer);
    match c.state
    case Answered | DatachanEstablished => Out(c1, [], [CallUpdateReq(m.sdp, false)], Success)
    case UpdateSent =>
      if IsWinner(c.userid, c.clientid, userid, clientid) then Ignore(c)
      else Out(c1, [], [CallUpdateReq(m.sdp, true)], Success)
    case _ => Ignore(c)
  }

  /** handle_update_response */
  function UpdateResponse(c: Conn, clientid: string, m: Msg): Out {
    if !CaseEq(c.clientidRemote, clientid) || c.state != UpdateSent then Ignore(c)
    else Out(c.(tmr := Off, state := Answered), [], [CallUpdateResp(m.sdp)], Success)
  }

  /** recv_update */
  function RecvUpdate(c: Conn, userid: string, clientid: string, m: Msg): Out {
    if !CaseEq(c.sessidRemote, m.sessid) then Ignore(c)
    else if m.resp then UpdateResponse(c, clientid, m)
    else UpdateRequest(c, userid, clientid, m)
  }

  /** recv_cancel */
  function RecvCancel(c: Conn, clientid: string, m: Msg, ok: bool): Out {
    if !CaseEq(clientid, c.clientidRemote) then Ignore(c)
    else if c.state != PendingIncoming && c.state != Answered && c.state != DatachanEstablished then Ignore(c)
    else if !CaseEq(c.sessidRemote, m.sessid) then Ignore(c)
    else Close(c.(state := Terminating), ECANCELED, ok)
  }

  /** recv_hangup: the device is not checked, only the session. */
  function RecvHangup(c: Conn, m: Msg, ok: bool): Out {
    if !CaseEq(c.sessidRemote, m.sessid) then Ignore(c)
    else if c.state != DatachanEstablished && c.state != HangupSent then Ignore(c)
    else
      var o := Close(c.(state := Terminating), Success, ok);
      o.(sent := if !m.resp && ok then [Msg(Hangup, true, c.sessidLocal, NoSdp)] else [])
  }

  /** econn_recv_message */
  function Recv(c: Conn, userid: string, clientid: string, m: Msg, ok: bool): Out {
    match m.kind
    case Setup => RecvSetup(c, userid, clientid, m)
    case Update => RecvUpdate(c, userid, clientid, m)
    case Cancel => RecvCancel(c, clientid, m, ok)
    case Hangup => RecvHangup(c, m, ok)
    case Propsync => Ignore(c)
  }

  /** Everything that can happen to a connection. `EvPrepare` is ecall_start
      marking a new connection as outgoing before its offer is ready. */
  datatype Event =
    | EvPrepare
    | EvStart(sdp: Sdp, ok: bool)
    | EvAnswer(sdp: Sdp, ok: bool)
    | EvUpdateReq(sdp: Sdp, ok: bool)
    | EvUpdateResp(sdp: Sdp, ok: bool)
    | EvEnd(ok: bool)
    | EvClose(err: Errno, ok: bool)
    | EvExpire(ok: bool)
    | EvDatachan
    | EvSetError(err: Errno)
    | EvRecv(userid: string, clientid: string, m: Msg, ok: bool)

  function Apply(c: Conn, ev: Event): Out {
    match ev
    case EvPrepare => Ignore(if c.state == Idle then c.(state := PendingOutgoing) else c)
    case EvStart(sdp, ok) => Start(c, sdp, ok)
    case EvAnswer(sdp, ok) => Answer(c, sdp, ok)
    case EvUpdateReq(sdp, ok) => UpdateReq(c, sdp, ok)
    case EvUpdateResp(sdp, ok) => UpdateResp(c, sdp, ok)
    case EvEnd(ok) => End(c, ok)
    case EvClose(err, ok) => Close(c, err, ok)
    case EvExpire(ok) => Expire(c, ok)
    case EvDatachan => Datachan(c)
    case EvSetError(err) => Ignore(c.(err := err))
    case EvRecv(userid, clientid, m, ok) => Recv(c, userid, clientid, m, ok)
  }

  /** The connection after a sequence of events. */
  function Run(c: Conn, evs: seq<Event>): Conn
    decreases |evs|
  {
    if evs == [] then c else Run(Apply(c, evs[0]).conn, evs[1..])
  }

  /** The callbacks made by a sequence of events. */
  function Calls(c: Conn, evs: seq<Event>): seq<Call>
    decreases |evs|
  {
    if evs == [] then [] else Apply(c, evs[0]).calls + Calls(Apply(c, evs[0]).conn, evs[1..])
  }
}
