/** What holds of a call under every sequence of API calls, received messages, gather
    completions, media failures and timer expiries. */
module EcallRuns {
  import opened Econn
  import opened Ecall
  import opened Wrappers
  import opened SetupGlare

  /** Answered at some point, and maybe over. */
  predicate Settled(st: State) {
    Post(st) || st == Terminating
  }

  /** A terminated connection stays terminated, and an answered one stays answered. */
  predicate Later(c: Conn, c': Conn) {
    && (c.state == Terminating ==> c'.state == Terminating)
    && (Settled(c.state) ==> Settled(c'.state))
  }

  predicate Sound(e: Ecall.Call) {
    && e.closes == (if e.closeh then 0 else 1)
    && (e.update ==> e.econn.Some? && Settled(e.econn.value.state))
    && (forall st :: st in e.requestedIn ==> Post(st))
  }

  /** e' is a sound successor of e. */
  predicate Onward(e: Ecall.Call, e': Ecall.Call) {
    && Sound(e')
    && (e.econn.Some? ==> e'.econn.Some? && Later(e.econn.value, e'.econn.value))
  }

  /** Every event of a connection but an update request leads onward. */
  lemma ConnGoesOn(c: Conn, ev: Econn.Event)
    ensures !ev.EvUpdateReq? ==> Later(c, Econn.Apply(c, ev).conn)
    ensures ev.EvUpdateReq? && Post(c.state) ==> Later(c, Econn.Apply(c, ev).conn)
  {
    ApplyFollowsDiagram(c, ev);
  }

  lemma UpdateReqGoesOn(c: Conn, sdp: Sdp, ok: bool)
    requires Post(c.state)
    ensures Later(c, UpdateReq(c, sdp, ok).conn) && Settled(UpdateReq(c, sdp, ok).conn.state)
  {
  }

  lemma StartGoesOn(c: Conn, sdp: Sdp, ok: bool)
    ensures Later(c, Econn.Start(c, sdp, ok).conn)
  {
  }

  lemma OfferGoesOn(e: Ecall.Call, env: Env)
    requires Sound(e) && (e.update ==> StateOf(e) != Terminating)
    ensures Onward(e, OfferAndConnect(e, env).call)
  {
    if e.econn.Some? {
      if e.update {
        UpdateReqGoesOn(e.econn.value, env.sdp, env.send);
      } else {
        StartGoesOn(e.econn.value, env.sdp, env.send);
      }
    }
  }

  lemma GenerateGoesOn(e: Ecall.Call, env: Env)
    requires Sound(e) && (e.update ==> StateOf(e) != Terminating)
    ensures Onward(e, GenerateOffer(e, env).call)
  {
    if env.gathered {
      OfferGoesOn(e, env);
    }
  }

  lemma AnswerGoesOn(e: Ecall.Call, pending: bool, env: Env)
    requires Sound(e)
    ensures Onward(e, GenerateAnswer(e, pending, env).call)
  {
  }

  lemma GatherGoesOn(e: Ecall.Call, env: Env)
    requires Sound(e)
    ensures Onward(e, GenerateOrGatherAnswer(e, env).call)
  {
    AnswerGoesOn(e, true, env);
  }

  lemma CloseGoesOn(e: Ecall.Call, e1: Ecall.Call)
    requires Onward(e, e1)
    ensures Onward(e, Ecall.Close(e1))
  {
  }

  lemma CompletionGoesOn(e: Ecall.Call, r: Res)
    requires Onward(e, r.call)
    ensures Onward(e, if r.err != Success then Ecall.Close(r.call) else r.call.(async := AsyncComplete))
  {
  }

  lemma OnAnswerGoesOn(e: Ecall.Call, reset: bool, env: Env)
    requires Sound(e)
    ensures Onward(e, OnAnswer(e, reset, env))
  {
    GatherGoesOn(e, env);
    CloseGoesOn(e, GenerateOrGatherAnswer(e, env).call);
  }

  lemma OnUpdateReqGoesOn(e: Ecall.Call, env: Env)
    requires Sound(e) && e.econn.Some? && Settled(e.econn.value.state)
    ensures Onward(e, OnUpdateReq(e, env))
  {
    var e1 := e.(update := true, mf := true, propsRemote := true, async := AsyncNone);
    GatherGoesOn(e1, env);
    CloseGoesOn(e1, GenerateOrGatherAnswer(e1, env).call);
  }

  lemma OnUpdateRespGoesOn(e: Ecall.Call, env: Env)
    requires Sound(e)
    ensures Onward(e, OnUpdateResp(e, env))
  {
  }

  /** An accepted update request leaves the connection in UPDATE_RECV. */
  lemma UpdateReqIsSettled(c: Conn, userid: string, clientid: string, m: Msg, ok: bool)
    ensures var o := Recv(c, userid, clientid, m, ok);
            && |o.calls| <= 1
            && (|o.calls| == 1 && o.calls[0].CallUpdateReq? ==> Settled(o.conn.state))
  {
  }

  lemma OnConnGoesOn(e: Ecall.Call, env: Env)
    requires Sound(e)
    ensures Onward(e, OnConn(e, env))
  {
  }

  lemma CallsGoOn(e: Ecall.Call, calls: seq<Econn.Call>, env: Env)
    requires Sound(e) && e.econn.Some?
    requires |calls| >= 1 && calls[0].CallUpdateReq? ==> Settled(e.econn.value.state)
    ensures Onward(e, OnCalls(e, calls, env))
  {
    if calls != [] {
      match calls[0]
      case CallConn(_, _, _) => OnConnGoesOn(e, env);
      case CallAnswer(reset, _) => OnAnswerGoesOn(e, reset, env);
      case CallUpdateReq(_, _) => OnUpdateReqGoesOn(e, env);
      case CallUpdateResp(_) => OnUpdateRespGoesOn(e, env);
      case CallClose(_) => CloseGoesOn(e, e);
    }
  }

  lemma ReactGoesOn(e: Ecall.Call, o: Out, env: Env)
    requires Sound(e) && (e.econn.Some? ==> Later(e.econn.value, o.conn))
    requires |o.calls| >= 1 && o.calls[0].CallUpdateReq? ==> Settled(o.conn.state)
    ensures Onward(e, React(e, o, env))
  {
    CallsGoOn(Took(e, o), o.calls, env);
  }

  lemma MoveGoesOn(c: Conn, ev: Econn.Event, o: Out)
    requires !ev.EvUpdateReq? && o == Econn.Apply(c, ev)
    ensures Later(c, o.conn)
  {
    ConnGoesOn(c, ev);
  }

  lemma RecvConnGoesOn(c: Conn, userid: string, clientid: string, m: Msg, ok: bool, o: Out)
    requires o == Recv(c, userid, clientid, m, ok)
    ensures Later(c, o.conn) && (|o.calls| >= 1 && o.calls[0].CallUpdateReq? ==> Settled(o.conn.state))
  {
    MoveGoesOn(c, EvRecv(userid, clientid, m, ok), o);
    UpdateReqIsSettled(c, userid, clientid, m, ok);
  }

  lemma RecvGoesOn(e: Ecall.Call, userid: string, clientid: string, m: Msg, env: Env)
    requires Sound(e) && e.econn.Some?
    ensures Onward(e, React(e, Recv(e.econn.value, userid, clientid, m, env.send), env))
  {
    var o := Recv(e.econn.value, userid, clientid, m, env.send);
    RecvConnGoesOn(e.econn.value, userid, clientid, m, env.send, o);
    ReactGoesOn(e, o, env);
  }

  lemma MsgRecvGoesOn(e: Ecall.Call, userid: string, clientid: string, m: Msg, env: Env)
    requires Sound(e)
    ensures Onward(e, MsgRecv(e, userid, clientid, m, env))
  {
    if e.econn.Some? {
      ReactGoesOn(e, Econn.Close(e.econn.value, EALREADY, env.send), env);
      RecvGoesOn(e, userid, clientid, m, env);
    } else {
      var e1 := SetConn(e, Fresh(e.userid, e.clientid, e.timeoutSetup, env.sessid));
      RecvGoesOn(e1, userid, clientid, m, env);
    }
  }

  lemma ChannelRecvGoesOn(e: Ecall.Call, m: Msg, env: Env)
    requires Sound(e)
    ensures Onward(e, ChannelRecv(e, m, env))
  {
    if e.econn.Some? {
      RecvGoesOn(e, "na", e.econn.value.clientidRemote, m, env);
    }
  }

  lemma GatherDoneGoesOn(e: Ecall.Call, env: Env)
    requires Sound(e)
    ensures Onward(e, GatherDone(e, env))
  {
    if StateOf(e) != Terminating {
      if e.async == AsyncOffer {
        OfferGoesOn(e, env);
        CompletionGoesOn(e, OfferAndConnect(e, env));
      } else if e.async == AsyncAnswer {
        AnswerGoesOn(e, e.econnPending, env);
        CompletionGoesOn(e, GenerateAnswer(e, e.econnPending, env));
      }
    }
  }

  lemma ExpireGoesOn(e: Ecall.Call, env: Env)
    requires Sound(e)
    ensures Onward(e, Ecall.Expire(e, env))
  {
    if e.econn.Some? {
      ReactGoesOn(e, Econn.Expire(e.econn.value, env.send), env);
    }
  }

  lemma StartCallGoesOn(e: Ecall.Call, env: Env)
    requires Sound(e)
    ensures Onward(e, Ecall.Start(e, env).call)
  {
    if e.econn.None? {
      var c := Fresh(e.userid, e.clientid, e.timeoutSetup, env.sessid).(state := PendingOutgoing);
      GenerateGoesOn(SetConn(e, c).(mf := true, async := AsyncNone), env);
    }
  }

  lemma AnswerCallGoesOn(e: Ecall.Call, env: Env)
    requires Sound(e)
    ensures Onward(e, Ecall.Answer(e, env).call)
  {
    GatherGoesOn(e, env);
  }

  lemma RestartGoesOn(e: Ecall.Call, env: Env)
    requires Sound(e)
    ensures Onward(e, Restart(e, env).call)
  {
    if StateOf(e) == Answered || StateOf(e) == DatachanEstablished {
      GenerateGoesOn(e.(update := true, mf := true, async := AsyncNone), env);
    }
  }

  lemma ConnMoveGoesOn(e: Ecall.Call, c': Conn)
    requires Sound(e) && e.econn.Some? && Later(e.econn.value, c')
    ensures Onward(e, SetConn(e, c'))
  {
  }

  lemma EndConnGoesOn(c: Conn, ok: bool, o: Out)
    requires o == Econn.End(c, ok)
    ensures Later(c, o.conn)
  {
    MoveGoesOn(c, EvEnd(ok), o);
  }

  lemma EndGoesOn(e: Ecall.Call, env: Env)
    requires Sound(e)
    ensures Onward(e, Ecall.End(e, env))
  {
    if e.econn.Some? {
      var o := Econn.End(e.econn.value, env.send);
      EndConnGoesOn(e.econn.value, env.send, o);
      ConnMoveGoesOn(e, o.conn);
    }
  }

  lemma MediaFailedGoesOn(e: Ecall.Call, err: Errno, env: Env)
    requires Sound(e)
    ensures Onward(e, MediaFailed(e, err, env))
  {
    if e.econn.Some? {
      EndGoesOn(SetConn(e, e.econn.value.(err := err)), env);
    }
  }

  lemma ChannelGoesOn(e: Ecall.Call)
    requires Sound(e)
    ensures Onward(e, ChannelEstablished(e))
  {
    if e.econn.Some? {
      ConnMoveGoesOn(e, Datachan(e.econn.value).conn);
    }
  }

  lemma StepGoesOn(e: Ecall.Call, ev: Ecall.Event, env: Env)
    requires Sound(e)
    ensures Onward(e, Ecall.Apply(e, ev, env))
  {
    match ev
    case DoStart => StartCallGoesOn(e, env);
    case DoAnswer => AnswerCallGoesOn(e, env);
    case DoRestart => RestartGoesOn(e, env);
    case DoEnd => EndGoesOn(e, env);
    case GotMessage(userid, clientid, m) => MsgRecvGoesOn(e, userid, clientid, m, env);
    case GotChannelMessage(m) => ChannelRecvGoesOn(e, m, env);
    case Gathered => GatherDoneGoesOn(e, env);
    case TimerFired => ExpireGoesOn(e, env);
    case MediaLost(err) => MediaFailedGoesOn(e, err, env);
    case ChannelUp => ChannelGoesOn(e);
    case ChannelFailed => CloseGoesOn(e, e);
  }

  lemma {:induction false} RunGoesOn(e: Ecall.Call, evs: seq<(Ecall.Event, Env)>)
    requires Sound(e)
    ensures Onward(e, Ecall.Run(e, evs))
    decreases |evs|
  {
    if evs == [] {
    } else {
      var e1 := Ecall.Apply(e, evs[0].0, evs[0].1);
      StepGoesOn(e, evs[0].0, evs[0].1);
      RunGoesOn(e1, evs[1..]);
    }
  }

  /** Life of a call. Whatever happens to a newly allocated call, the application's close
      handler has been called at most once, updates were only ever requested on an answered
      connection that had not terminated, and from any point on where the connection is
      terminated it stays terminated. */
  lemma {:induction false} LifeOfACall(userid: string, clientid: string, timeoutSetup: nat,
                    before: seq<(Ecall.Event, Env)>, after: seq<(Ecall.Event, Env)>)
    ensures var e := Ecall.Run(Ecall.Alloc(userid, clientid, timeoutSetup), before);
            && e.closes <= 1
            && (forall st :: st in e.requestedIn ==> Post(st))
            && (e.econn.Some? && e.econn.value.state == Terminating
                ==> StateOf(Ecall.Run(e, after)) == Terminating)
  {
    var e0 := Ecall.Alloc(userid, clientid, timeoutSetup);
    RunGoesOn(e0, before);
    RunGoesOn(Ecall.Run(e0, before), after);
  }
}
