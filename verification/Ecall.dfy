/** The owner of a connection: ecall.c as the driver of econn. The media layer is
    represented by the answers it gives (`Env`); everything it does with media is
    left out. */
module Ecall {
  import opened Text
  import opened Econn
  import opened Wrappers

  /** Which session description the media layer still has to gather for. */
  datatype Async = AsyncNone | AsyncOffer | AsyncAnswer | AsyncComplete

  /** `closes` counts the calls of the application's close handler, `requestedIn` records the
      connection state in which each update was requested, and `sent` the messages handed to
      the transport. */
  datatype Call = Call(
    userid: string, clientid: string, timeoutSetup: nat,
    econn: Option<Conn>, mf: bool, async: Async, econnPending: bool, answered: bool, update: bool,
    propsRemote: bool, closeh: bool, closes: nat, requestedIn: seq<State>, sent: seq<Msg>)

  /** What the environment answers while one event is handled: is there a TURN server,
      does a mediaflow get allocated, has it gathered, do its operations succeed, does the
      remote side support data channels, is the data channel open, is this a mere stream
      change, does a send reach the transport; and the descriptions it generates. */
  datatype Env = Env(turn: bool, alloc: bool, gathered: bool, offer: bool, answer: bool, handled: bool,
                     ice: bool, hasData: bool, chanOpen: bool, streamChange: bool, send: bool, sdp: Sdp,
                     sessid: string)

  /** The call after an operation, and the operation's error code. */
  datatype Res = Res(call: Call, err: Errno)

  const EALLOC: Errno := Failed(2)
  const EMEDIA: Errno := Failed(3)
  const EINTR: Errno := Failed(4)
  const ENOENT: Errno := Failed(5)

  function Alloc(userid: string, clientid: string, timeoutSetup: nat): Call {
    Call(userid, clientid, timeoutSetup, None, false, AsyncNone, false, false, false, false, true, 0, [], [])
  }

  /** ecall_close: the close handler is taken out before it is called. */
  function Close(e: Call): Call {
    e.(mf := false, closeh := false, closes := e.closes + if e.closeh then 1 else 0)
  }

  function CloseIf(r: Res): Call {
    if r.err == Success then r.call else Close(r.call)
  }

  function StateOf(e: Call): State {
    if e.econn.Some? then e.econn.value.state else Idle
  }

  function SetConn(e: Call, c: Conn): Call {
    e.(econn := Some(c))
  }

  /** The connection made the move o. */
  function Took(e: Call, o: Out): Call {
    e.(econn := Some(o.conn), sent := e.sent + o.sent)
  }

  /** offer_and_connect */
  function OfferAndConnect(e: Call, env: Env): Res {
    if !env.offer then Res(e, EPROTO)
    else if e.econn.None? then Res(e, EINVAL)
    else if e.update then
      var o := UpdateReq(e.econn.value, env.sdp, env.send);
      Res(Took(e, o).(requestedIn := e.requestedIn + [e.econn.value.state]), o.err)
    else
      var o := Econn.Start(e.econn.value, env.sdp, env.send);
      Res(Took(e, o), o.err)
  }

  /** generate_offer */
  function GenerateOffer(e: Call, env: Env): Res {
    if env.gathered then OfferAndConnect(e, env)
    else if e.async != AsyncNone then Res(e, EPROTO)
    else Res(e.(async := AsyncOffer), Success)
  }

  /** generate_answer */
  function GenerateAnswer(e: Call, pending: bool, env: Env): Res {
    if !pending || e.econn.None? then Res(e, EPROTO)
    else if !env.answer || !env.ice then Res(e, EMEDIA)
    else if e.update then
      var o := UpdateResp(e.econn.value, env.sdp, env.send);
      Res(if env.chanOpen then SetConn(Took(e, o), Datachan(o.conn).conn) else Took(e, o), o.err)
    else
      var o := Econn.Answer(e.econn.value, env.sdp, env.send);
      Res(Took(e, o), o.err)
  }

  /** generate_or_gather_answer */
  function GenerateOrGatherAnswer(e: Call, env: Env): Res {
    if env.gathered then GenerateAnswer(e, true, env)
    else if e.async != AsyncNone && e.async != AsyncOffer then Res(e, EPROTO)
    else Res(e.(async := AsyncAnswer, econnPending := true), Success)
  }

  // ---- Callbacks from the connection --------------------------------------

  /** econn_conn_handler */
  function OnConn(e: Call, env: Env): Call {
    if !e.mf && !env.alloc then Close(e)
    else if !env.handled then Close(e.(mf := true))
    else if !env.hasData then e.(mf := true)
    else if e.propsRemote then Close(e.(mf := true))
    else e.(mf := true, propsRemote := true)
  }

  /** econn_answer_handler */
  function OnAnswer(e: Call, reset: bool, env: Env): Call {
    if reset then
      if !env.handled then Close(e) else
      var r := GenerateOrGatherAnswer(e, env);
      if r.err != Success then Close(r.call) else r.call.(answered := true)
    else if e.answered then e
    else if !env.handled || !env.hasData || !env.ice then Close(e)
    else e.(propsRemote := true, answered := true)
  }

  /** econn_update_req_handler, once there is a mediaflow to hand the offer to. */
  function AnswerUpdate(e: Call, env: Env): Call {
    if !env.handled then Close(e)
    else if !env.hasData then e
    else CloseIf(GenerateOrGatherAnswer(e.(propsRemote := true, async := AsyncNone), env))
  }

  /** econn_update_req_handler */
  function OnUpdateReq(e: Call, env: Env): Call {
    if !(e.mf && env.streamChange) && !env.alloc then Close(e.(update := true, mf := false))
    else AnswerUpdate(e.(update := true, mf := true), env)
  }

  /** econn_update_resp_handler */
  function OnUpdateResp(e: Call, env: Env): Call {
    if !e.update then e
    else if !env.handled || !env.hasData || !env.ice then Close(e)
    else if env.chanOpen && e.econn.Some? then SetConn(e, Datachan(e.econn.value).conn).(propsRemote := true)
    else e.(propsRemote := true)
  }

  /** The callbacks of one entry point; there is never more than one. */
  function OnCalls(e: Call, calls: seq<Econn.Call>, env: Env): Call {
    if calls == [] then e else
    match calls[0]
    case CallConn(_, _, _) => OnConn(e, env)
    case CallAnswer(reset, _) => OnAnswer(e, reset, env)
    case CallUpdateReq(_, _) => OnUpdateReq(e, env)
    case CallUpdateResp(_) => OnUpdateResp(e, env)
    case CallClose(_) => Close(e)
  }

  /** ... and then called back. */
  function React(e: Call, o: Out, env: Env): Call {
    OnCalls(Took(e, o), o.calls, env)
  }

  // ---- Entry points ------------------------------------------------------

  /** ecall_start */
  function Start(e: Call, env: Env): Res {
    if e.econn.Some? then Res(e, EALREADY)
    else if !env.turn then Res(e, EINTR)
    else if e.userid == "" || e.clientid == "" then Res(e, EINVAL) else
    var e1 := SetConn(e, Fresh(e.userid, e.clientid, e.timeoutSetup, env.sessid).(state := PendingOutgoing));
    if !env.alloc then Res(e1.(mf := false), EALLOC)
    else GenerateOffer(e1.(mf := true, async := AsyncNone), env)
  }

  /** ecall_answer */
  function Answer(e: Call, env: Env): Res {
    if e.econn.None? then Res(e, ENOENT)
    else if e.econn.value.state != PendingIncoming || !e.mf then Res(e, EPROTO) else
    var r := GenerateOrGatherAnswer(e, env);
    if r.err != Success then r else Res(r.call.(answered := true), Success)
  }

  /** ecall_restart */
  function Restart(e: Call, env: Env): Res {
    if StateOf(e) != Answered && StateOf(e) != DatachanEstablished then Res(e, EPROTO) else
    var e1 := e.(update := true);
    if !env.alloc then Res(e1.(mf := false), EALLOC)
    else GenerateOffer(e1.(mf := true, async := AsyncNone), env)
  }

  /** ecall_end */
  function End(e: Call, env: Env): Call {
    if e.econn.None? then e else Took(e, Econn.End(e.econn.value, env.send))
  }

  /** ecall_msg_recv: messages of the own user are ignored, except that an answer given on
      another device stops the ringing here. A SETUP request creates the connection. */
  function MsgRecv(e: Call, userid: string, clientid: string, m: Msg, env: Env): Call {
    if CaseEq(e.userid, userid) then
      if m.kind == Setup && m.resp && e.econn.Some? && e.econn.value.state == PendingIncoming then
        React(e, Econn.Close(e.econn.value, EALREADY, env.send), env)
      else e
    else
      var isCreator := e.userid != "" && userid != "" && !m.resp && m.kind == Setup;
      var e1 := if e.econn.None? && isCreator && e.clientid != ""
                then SetConn(e, Fresh(e.userid, e.clientid, e.timeoutSetup, env.sessid)) else e;
      if e1.econn.None? then e1 else React(e1, Recv(e1.econn.value, userid, clientid, m, env.send), env)
  }

  /** data_channel_handler: a message that arrived over the data channel. */
  function ChannelRecv(e: Call, m: Msg, env: Env): Call {
    if m.kind == Propsync || e.econn.None? then e
    else React(e, Recv(e.econn.value, "na", e.econn.value.clientidRemote, m, env.send), env)
  }

  /** mf_gather_handler */
  function GatherDone(e: Call, env: Env): Call {
    if StateOf(e) == Terminating then e else
    match e.async
    case AsyncOffer =>
      var r := OfferAndConnect(e, env);
      if r.err != Success then Close(r.call) else r.call.(async := AsyncComplete)
    case AsyncAnswer =>
      var r := GenerateAnswer(e, e.econnPending, env);
      if r.err != Success then Close(r.call) else r.call.(async := AsyncComplete)
    case _ => e
  }

  /** The connection's timer fires. */
  function Expire(e: Call, env: Env): Call {
    if e.econn.None? then e else React(e, Econn.Expire(e.econn.value, env.send), env)
  }

  /** mf_close_handler and media_start_timeout_handler */
  function MediaFailed(e: Call, err: Errno, env: Env): Call {
    if e.econn.None? then Close(e) else End(SetConn(e, e.econn.value.(err := err)), env)
  }

  /** channel_estab_handler */
  function ChannelEstablished(e: Call): Call {
    if e.econn.None? then e else SetConn(e, Datachan(e.econn.value).conn)
  }

  datatype Event =
    | DoStart | DoAnswer | DoRestart | DoEnd
    | GotMessage(userid: string, clientid: string, m: Msg)
    | GotChannelMessage(m: Msg)
    | Gathered | TimerFired | MediaLost(err: Errno) | ChannelUp | ChannelFailed

  function Apply(e: Call, ev: Event, env: Env): Call {
    match ev
    case DoStart => Start(e, env).call
    case DoAnswer => Answer(e, env).call
    case DoRestart => Restart(e, env).call
    case DoEnd => End(e, env)
    case GotMessage(userid, clientid, m) => MsgRecv(e, userid, clientid, m, env)
    case GotChannelMessage(m) => ChannelRecv(e, m, env)
    case Gathered => GatherDone(e, env)
    case TimerFired => Expire(e, env)
    case MediaLost(err) => MediaFailed(e, err, env)
    case ChannelUp => ChannelEstablished(e)
    case ChannelFailed => Close(e)
  }

  function Run(e: Call, evs: seq<(Event, Env)>): Call
    decreases |evs|
  {
    if evs == [] then e else Run(Apply(e, evs[0].0, evs[0].1), evs[1..])
  }
}
