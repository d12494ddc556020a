/** The call as the mutable object of ecall.c, holding its connection by reference.
    Every method is proved to do what its function in `Ecall` says, and every entry point
    keeps the call sound and leads onward: no second close, no way out of TERMINATING. */
module EcallObject {
  import opened Text
  import opened Econn
  import opened EconnObject
  import opened Ecall
  import opened Wrappers
  import opened EcallRuns

  class Session {
    const userid: string
    const clientid: string
    const timeoutSetup: nat
    var econn: Connection?
    var mf: bool
    var async: Async
    var econnPending: bool
    var answered: bool
    var update: bool
    var propsRemote: bool
    var closeh: bool
    var closes: nat
    ghost var requestedIn: seq<State>
    ghost var sent: seq<Msg>

    ghost function View(): Ecall.Call
      reads this, econn
    {
      Ecall.Call(userid, clientid, timeoutSetup, if econn == null then None else Some(econn.View()),
                 mf, async, econnPending, answered, update, propsRemote, closeh, closes, requestedIn, sent)
    }

    ghost predicate Valid()
      reads this, econn
    {
      Sound(View())
    }

    constructor (userid: string, clientid: string, timeoutSetup: nat)
      ensures View() == Ecall.Alloc(userid, clientid, timeoutSetup) && Valid()
      ensures econn == null && !mf && async == AsyncNone && !econnPending && !answered && !update && !propsRemote
      ensures closeh && closes == 0 && requestedIn == [] && sent == []
    {
      this.userid, this.clientid, this.timeoutSetup := userid, clientid, timeoutSetup;
      econn, mf, async, econnPending := null, false, AsyncNone, false;
      answered, update, propsRemote, closeh, closes, requestedIn, sent := false, false, false, true, 0, [], [];
    }

    method Close()
      modifies this`mf, this`closeh, this`closes
      ensures View() == Ecall.Close(old(View()))
      ensures old(Valid()) ==> Onward(old(View()), View())
    {
      if Valid() {
        CloseGoesOn(View(), View());
      }
      mf := false;
      if closeh {
        closeh := false;
        closes := closes + 1;
      }
    }

    /** create_econn, with both identities known to be set. */
    method CreateEconn(sessid: string)
      requires econn == null && userid != "" && clientid != "" && |sessid| < SESSID_SIZE
      modifies this`econn
      ensures econn != null && fresh(econn)
      ensures View() == SetConn(old(View()), Fresh(userid, clientid, timeoutSetup, sessid))
    {
      econn := new Connection(userid, clientid, timeoutSetup, sessid);
    }

    method OfferAndConnect(env: Env) returns (e: Errno)
      modifies this`requestedIn, this`sent, econn
      ensures econn == old(econn)
      ensures Res(View(), e) == Ecall.OfferAndConnect(old(View()), env)
    {
      if !env.offer {
        return EPROTO;
      }
      if econn == null {
        return EINVAL;
      }
      var ms;
      if update {
        requestedIn := requestedIn + [econn.state];
        ms, e := econn.UpdateReq(env.sdp, env.send);
      } else {
        ms, e := econn.Start(env.sdp, env.send);
      }
      sent := sent + ms;
    }

    method GenerateOffer(env: Env) returns (e: Errno)
      modifies this`requestedIn, this`sent, this`async, econn
      ensures econn == old(econn)
      ensures Res(View(), e) == Ecall.GenerateOffer(old(View()), env)
    {
      if env.gathered {
        e := OfferAndConnect(env);
      } else {
        if async != AsyncNone {
          return EPROTO;
        }
        async := AsyncOffer;
        e := Success;
      }
    }

    method GenerateAnswer(pending: bool, env: Env) returns (e: Errno)
      modifies this`sent, econn
      ensures econn == old(econn)
      ensures Res(View(), e) == Ecall.GenerateAnswer(old(View()), pending, env)
    {
      if !pending || econn == null {
        return EPROTO;
      }
      if !env.answer || !env.ice {
        return EMEDIA;
      }
      var ms;
      if update {
        ms, e := econn.UpdateResp(env.sdp, env.send);
        if env.chanOpen {
          econn.SetDatachanEstablished();
        }
      } else {
        ms, e := econn.Answer(env.sdp, env.send);
      }
      sent := sent + ms;
    }

    method GenerateOrGatherAnswer(env: Env) returns (e: Errno)
      modifies this`async, this`econnPending, this`sent, econn
      ensures econn == old(econn)
      ensures Res(View(), e) == Ecall.GenerateOrGatherAnswer(old(View()), env)
    {
      if env.gathered {
        e := GenerateAnswer(true, env);
      } else {
        if async != AsyncNone && async != AsyncOffer {
          return EPROTO;
        }
        async := AsyncAnswer;
        econnPending := true;
        e := Success;
      }
    }

    method ConnHandler(env: Env)
      modifies this
      ensures econn == old(econn) && View() == OnConn(old(View()), env)
    {
      if !mf {
        if !env.alloc {
          Close();
          return;
        }
        mf := true;
      }
      if !env.handled {
        Close();
      } else if env.hasData {
        if propsRemote {
          Close();
        } else {
          propsRemote := true;
        }
      }
    }

    method AnswerHandler(reset: bool, env: Env)
      modifies this, econn
      ensures econn == old(econn) && View() == OnAnswer(old(View()), reset, env)
    {
      if reset {
        if !env.handled {
          Close();
          return;
        }
        var e := GenerateOrGatherAnswer(env);
        if e != Success {
          Close();
          return;
        }
        answered := true;
        return;
      }
      if answered {
        return;
      }
      if !env.handled || !env.hasData || !env.ice {
        Close();
        return;
      }
      propsRemote := true;
      answered := true;
    }

    /** The part of econn_update_req_handler after the mediaflow is in place. */
    method AnswerUpdate(env: Env)
      modifies this, econn
      ensures econn == old(econn) && View() == Ecall.AnswerUpdate(old(View()), env)
    {
      if !env.handled {
        Close();
        return;
      }
      if !env.hasData {
        return;
      }
      propsRemote := true;
      async := AsyncNone;
      var e := GenerateOrGatherAnswer(env);
      if e != Success {
        Close();
      }
    }

    method UpdateReqHandler(env: Env)
      modifies this, econn
      ensures econn == old(econn) && View() == OnUpdateReq(old(View()), env)
    {
      update := true;
      if !(mf && env.streamChange) {
        mf := false;
        if !env.alloc {
          Close();
          return;
        }
        mf := true;
      }
      AnswerUpdate(env);
    }

    method UpdateRespHandler(env: Env)
      modifies this, econn
      ensures econn == old(econn) && View() == OnUpdateResp(old(View()), env)
    {
      if !update {
        return;
      }
      if !env.handled || !env.hasData || !env.ice {
        Close();
        return;
      }
      propsRemote := true;
      if env.chanOpen && econn != null {
        econn.SetDatachanEstablished();
      }
    }

    /** Run the handler of the callback the connection made, if it made one. */
    method Dispatch(calls: seq<Econn.Call>, env: Env)
      modifies this, econn
      ensures econn == old(econn) && View() == OnCalls(old(View()), calls, env)
    {
      if calls == [] {
        return;
      }
      match calls[0] {
        case CallConn(_, _, _) => ConnHandler(env);
        case CallAnswer(reset, _) => AnswerHandler(reset, env);
        case CallUpdateReq(_, _) => UpdateReqHandler(env);
        case CallUpdateResp(_) => UpdateRespHandler(env);
        case CallClose(_) => Close();
      }
    }

    method Start(env: Env) returns (e: Errno)
      requires |env.sessid| < SESSID_SIZE
      modifies this, econn
      ensures Res(View(), e) == Ecall.Start(old(View()), env)
      ensures old(Valid()) ==> Onward(old(View()), View())
    {
      if Valid() {
        StartCallGoesOn(View(), env);
      }
      if econn != null {
        return EALREADY;
      }
      if !env.turn {
        return EINTR;
      }
      if userid == "" || clientid == "" {
        return EINVAL;
      }
      CreateEconn(env.sessid);
      econn.SetState(PendingOutgoing);
      if !env.alloc {
        mf := false;
        return EALLOC;
      }
      mf := true;
      async := AsyncNone;
      e := GenerateOffer(env);
    }

    method Answer(env: Env) returns (e: Errno)
      modifies this, econn
      ensures Res(View(), e) == Ecall.Answer(old(View()), env)
      ensures old(Valid()) ==> Onward(old(View()), View())
    {
      if Valid() {
        AnswerCallGoesOn(View(), env);
      }
      if econn == null {
        return ENOENT;
      }
      if econn.state != PendingIncoming || !mf {
        return EPROTO;
      }
      e := GenerateOrGatherAnswer(env);
      if e == Success {
        answered := true;
      }
    }

    method Restart(env: Env) returns (e: Errno)
      modifies this, econn
      ensures Res(View(), e) == Ecall.Restart(old(View()), env)
      ensures old(Valid()) ==> Onward(old(View()), View())
    {
      if Valid() {
        RestartGoesOn(View(), env);
      }
      if econn == null || (econn.state != Answered && econn.state != DatachanEstablished) {
        return EPROTO;
      }
      update := true;
      mf := false;
      if !env.alloc {
        return EALLOC;
      }
      mf := true;
      async := AsyncNone;
      e := GenerateOffer(env);
    }

    method End(env: Env)
      modifies this`sent, econn
      ensures View() == Ecall.End(old(View()), env)
      ensures old(Valid()) ==> Onward(old(View()), View())
    {
      if Valid() {
        EndGoesOn(View(), env);
      }
      if econn != null {
        var ms := econn.End(env.send);
        sent := sent + ms;
      }
    }

    method MsgRecv(useridSender: string, clientidSender: string, m: Msg, env: Env)
      requires |env.sessid| < SESSID_SIZE
      modifies this, econn
      ensures View() == Ecall.MsgRecv(old(View()), useridSender, clientidSender, m, env)
      ensures old(Valid()) ==> Onward(old(View()), View())
    {
      if Valid() {
        MsgRecvGoesOn(View(), useridSender, clientidSender, m, env);
      }
      if CaseEq(userid, useridSender) {
        if m.kind == Setup && m.resp && econn != null && econn.state == PendingIncoming {
          var ms, calls := econn.Close(EALREADY, env.send);
          sent := sent + ms;
          Dispatch(calls, env);
        }
        return;
      }
      if econn == null {
        if userid != "" && useridSender != "" && !m.resp && m.kind == Setup && clientid != "" {
          CreateEconn(env.sessid);
        } else {
          return;
        }
      }
      Forward(useridSender, clientidSender, m, env);
    }

    /** Hand a message to the connection and run the callback it makes. */
    method Forward(useridSender: string, clientidSender: string, m: Msg, env: Env)
      requires econn != null
      modifies this, econn
      ensures econn == old(econn)
      ensures View() == React(old(View()), Recv(old(econn.View()), useridSender, clientidSender, m, env.send), env)
    {
      var ms, calls := econn.RecvMessage(useridSender, clientidSender, m, env.send);
      sent := sent + ms;
      Dispatch(calls, env);
    }

    method ChannelRecv(m: Msg, env: Env)
      modifies this, econn
      ensures View() == Ecall.ChannelRecv(old(View()), m, env)
      ensures old(Valid()) ==> Onward(old(View()), View())
    {
      if Valid() {
        ChannelRecvGoesOn(View(), m, env);
      }
      if m.kind == Propsync || econn == null {
        return;
      }
      Forward("na", econn.clientidRemote, m, env);
    }

    method GatherHandler(env: Env)
      modifies this, econn
      ensures View() == GatherDone(old(View()), env)
      ensures old(Valid()) ==> Onward(old(View()), View())
    {
      if Valid() {
        GatherDoneGoesOn(View(), env);
      }
      if econn != null && econn.state == Terminating {
        return;
      }
      var e := Success;
      match async {
        case AsyncOffer =>
          e := OfferAndConnect(env);
        case AsyncAnswer =>
          e := GenerateAnswer(econnPending, env);
        case _ =>
          return;
      }
      Complete(e);
    }

    method Complete(e: Errno)
      modifies this
      ensures econn == old(econn)
      ensures View() == if e != Success then Ecall.Close(old(View())) else old(View()).(async := AsyncComplete)
    {
      if e != Success {
        Close();
      } else {
        async := AsyncComplete;
      }
    }

    method TimerHandler(env: Env)
      modifies this, econn
      ensures View() == Ecall.Expire(old(View()), env)
      ensures old(Valid()) ==> Onward(old(View()), View())
    {
      if Valid() {
        ExpireGoesOn(View(), env);
      }
      if econn != null {
        var ms, calls := econn.Expire(env.send);
        sent := sent + ms;
        Dispatch(calls, env);
      }
    }

    method MediaCloseHandler(err: Errno, env: Env)
      modifies this, econn
      ensures View() == MediaFailed(old(View()), err, env)
      ensures old(Valid()) ==> Onward(old(View()), View())
    {
      if Valid() {
        MediaFailedGoesOn(View(), err, env);
      }
      if econn != null {
        econn.err := err;
        End(env);
      } else {
        Close();
      }
    }
  }
}
