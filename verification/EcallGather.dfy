/** When updates are requested. ecall_restart checks that the call is answered or has its data
    channel; the gather handler, which sends an offer that was not ready then, checks only
    that the connection has not terminated. */
module EcallGather {
  import opened Text
  import opened Econn
  import opened Ecall
  import opened Wrappers
  import EcallRuns

  /** The states ecall_restart accepts. */
  predicate InPlace(st: State) {
    st == Answered || st == DatachanEstablished
  }

  /** An update offer is waiting for its gathering to end, and can be generated. */
  predicate OfferDue(e: Ecall.Call, env: Env) {
    e.econn.Some? && e.async == AsyncOffer && e.update && env.offer
  }

  /** The events that request an update. */
  predicate Requests(e: Ecall.Call, ev: Ecall.Event, env: Env) {
    || (ev.Gathered? && StateOf(e) != Terminating && OfferDue(e, env))
    || (ev.DoRestart? && InPlace(StateOf(e)) && env.alloc && env.gathered && env.offer)
  }

  function RequestedNow(e: Ecall.Call, ev: Ecall.Event, env: Env): seq<State> {
    if Requests(e, ev, env) then [StateOf(e)] else []
  }

  lemma AnswerRequestsNothing(e: Ecall.Call, env: Env)
    ensures GenerateOrGatherAnswer(e, env).call.requestedIn == e.requestedIn
  {
    GenerateAnswerRequestsNothing(e, true, env);
  }

  lemma OnAnswerRequestsNothing(e: Ecall.Call, reset: bool, env: Env)
    ensures OnAnswer(e, reset, env).requestedIn == e.requestedIn
  {
    AnswerRequestsNothing(e, env);
  }

  lemma OnUpdateReqRequestsNothing(e: Ecall.Call, env: Env)
    ensures OnUpdateReq(e, env).requestedIn == e.requestedIn
  {
    AnswerRequestsNothing(e.(update := true, mf := true, propsRemote := true, async := AsyncNone), env);
  }

  lemma OnUpdateRespRequestsNothing(e: Ecall.Call, env: Env)
    ensures OnUpdateResp(e, env).requestedIn == e.requestedIn
  {
  }

  lemma OnConnRequestsNothing(e: Ecall.Call, env: Env)
    ensures OnConn(e, env).requestedIn == e.requestedIn
  {
  }

  /** No callback of the connection requests an update. */
  lemma CallsRequestNothing(e: Ecall.Call, calls: seq<Econn.Call>, env: Env)
    ensures OnCalls(e, calls, env).requestedIn == e.requestedIn
  {
    if calls != [] {
      match calls[0] {
        case CallConn(_, _, _) => OnConnRequestsNothing(e, env);
        case CallAnswer(reset, _) => OnAnswerRequestsNothing(e, reset, env);
        case CallUpdateReq(_, _) => OnUpdateReqRequestsNothing(e, env);
        case CallUpdateResp(_) => OnUpdateRespRequestsNothing(e, env);
        case CallClose(_) =>
      }
    }
  }

  lemma ReactRequestsNothing(e: Ecall.Call, o: Out, env: Env)
    ensures React(e, o, env).requestedIn == e.requestedIn
  {
    CallsRequestNothing(Took(e, o), o.calls, env);
  }

  lemma MessageRequestsNothing(e: Ecall.Call, userid: string, clientid: string, m: Msg, env: Env)
    ensures MsgRecv(e, userid, clientid, m, env).requestedIn == e.requestedIn
  {
    if e.econn.Some? {
      ReactRequestsNothing(e, Econn.Close(e.econn.value, EALREADY, env.send), env);
      ReactRequestsNothing(e, Recv(e.econn.value, userid, clientid, m, env.send), env);
    } else {
      var e1 := SetConn(e, Fresh(e.userid, e.clientid, e.timeoutSetup, env.sessid));
      ReactRequestsNothing(e1, Recv(e1.econn.value, userid, clientid, m, env.send), env);
    }
  }

  lemma OfferRequests(e: Ecall.Call, r: Res, env: Env)
    requires r == OfferAndConnect(e, env)
    ensures r.call.requestedIn
            == e.requestedIn + if e.econn.Some? && e.update && env.offer then [StateOf(e)] else []
  {
  }

  lemma GenerateRequests(e: Ecall.Call, r: Res, env: Env)
    requires r == GenerateOffer(e, env)
    ensures r.call.requestedIn
            == e.requestedIn + if env.gathered && e.econn.Some? && e.update && env.offer then [StateOf(e)] else []
  {
    if env.gathered {
      OfferRequests(e, r, env);
    }
  }

  lemma StartRequestsNothing(e: Ecall.Call, env: Env)
    requires EcallRuns.Sound(e)
    ensures Ecall.Start(e, env).call.requestedIn == e.requestedIn
  {
    if e.econn.None? && env.turn && e.userid != "" && e.clientid != "" && env.alloc {
      var c := Fresh(e.userid, e.clientid, e.timeoutSetup, env.sessid).(state := PendingOutgoing);
      var e1 := SetConn(e, c).(mf := true, async := AsyncNone);
      GenerateRequests(e1, GenerateOffer(e1, env), env);
    }
  }

  lemma RestartRequests(e: Ecall.Call, env: Env)
    ensures Restart(e, env).call.requestedIn == e.requestedIn + RequestedNow(e, DoRestart, env)
  {
    if InPlace(StateOf(e)) && env.alloc {
      var e1 := e.(update := true, mf := true, async := AsyncNone);
      GenerateRequests(e1, GenerateOffer(e1, env), env);
    }
  }

  lemma GenerateAnswerRequestsNothing(e: Ecall.Call, pending: bool, env: Env)
    ensures GenerateAnswer(e, pending, env).call.requestedIn == e.requestedIn
  {
  }

  /** The call after the offer or answer that was waiting has been made. */
  lemma GatherCompletes(e: Ecall.Call, r: Res, env: Env)
    requires StateOf(e) != Terminating && e.async in {AsyncOffer, AsyncAnswer}
    requires r == if e.async == AsyncOffer then OfferAndConnect(e, env) else GenerateAnswer(e, e.econnPending, env)
    ensures GatherDone(e, env) == if r.err != Success then Ecall.Close(r.call) else r.call.(async := AsyncComplete)
  {
  }

  lemma GatherIdles(e: Ecall.Call, env: Env)
    requires StateOf(e) == Terminating || e.async !in {AsyncOffer, AsyncAnswer}
    ensures GatherDone(e, env) == e
  {
  }

  lemma GatherOfferRequests(e: Ecall.Call, r: Res, e': Ecall.Call, env: Env)
    requires StateOf(e) != Terminating && e.async == AsyncOffer && r == OfferAndConnect(e, env)
    requires e' == if r.err != Success then Ecall.Close(r.call) else r.call.(async := AsyncComplete)
    ensures e'.requestedIn == e.requestedIn + RequestedNow(e, Gathered, env)
  {
    OfferRequests(e, r, env);
  }

  lemma GatherRequests(e: Ecall.Call, e': Ecall.Call, env: Env)
    requires e' == GatherDone(e, env)
    ensures e'.requestedIn == e.requestedIn + RequestedNow(e, Gathered, env)
  {
    if StateOf(e) == Terminating || e.async !in {AsyncOffer, AsyncAnswer} {
      GatherIdles(e, env);
    } else if e.async == AsyncOffer {
      GatherCompletes(e, OfferAndConnect(e, env), env);
      GatherOfferRequests(e, OfferAndConnect(e, env), e', env);
    } else {
      GenerateAnswerRequestsNothing(e, e.econnPending, env);
      GatherCompletes(e, GenerateAnswer(e, e.econnPending, env), env);
    }
  }

  lemma ChannelRequestsNothing(e: Ecall.Call, m: Msg, env: Env)
    ensures ChannelRecv(e, m, env).requestedIn == e.requestedIn
  {
    if e.econn.Some? {
      ReactRequestsNothing(e, Recv(e.econn.value, "na", e.econn.value.clientidRemote, m, env.send), env);
    }
  }

  lemma ExpireRequestsNothing(e: Ecall.Call, env: Env)
    ensures Ecall.Expire(e, env).requestedIn == e.requestedIn
  {
    if e.econn.Some? {
      ReactRequestsNothing(e, Econn.Expire(e.econn.value, env.send), env);
    }
  }

  lemma AnswerCallRequestsNothing(e: Ecall.Call, env: Env)
    ensures Ecall.Answer(e, env).call.requestedIn == e.requestedIn
  {
    AnswerRequestsNothing(e, env);
  }

  lemma EndRequestsNothing(e: Ecall.Call, env: Env)
    ensures Ecall.End(e, env).requestedIn == e.requestedIn
  {
  }

  lemma MediaRequestsNothing(e: Ecall.Call, err: Errno, env: Env)
    ensures MediaFailed(e, err, env).requestedIn == e.requestedIn
  {
    if e.econn.Some? {
      EndRequestsNothing(SetConn(e, e.econn.value.(err := err)), env);
    }
  }

  /** Which events request an update, and in which state: those and no others. */
  lemma RequestedExactly(e: Ecall.Call, ev: Ecall.Event, env: Env)
    requires EcallRuns.Sound(e)
    ensures Ecall.Apply(e, ev, env).requestedIn == e.requestedIn + RequestedNow(e, ev, env)
  {
    match ev
    case DoStart => StartRequestsNothing(e, env);
    case DoAnswer => AnswerCallRequestsNothing(e, env);
    case DoRestart => RestartRequests(e, env);
    case DoEnd => EndRequestsNothing(e, env);
    case GotMessage(userid, clientid, m) => MessageRequestsNothing(e, userid, clientid, m, env);
    case GotChannelMessage(m) => ChannelRequestsNothing(e, m, env);
    case Gathered => GatherRequests(e, GatherDone(e, env), env);
    case TimerFired => ExpireRequestsNothing(e, env);
    case MediaLost(err) => MediaRequestsNothing(e, err, env);
    case ChannelUp =>
    case ChannelFailed =>
  }

  /** The end of gathering for an update offer, too late for its state. */
  predicate Late(e: Ecall.Call, ev: Ecall.Event, env: Env) {
    ev.Gathered? && OfferDue(e, env) && StateOf(e) !in {Answered, DatachanEstablished, Terminating}
  }

  /** Out of place: an event requests an update on a call that is neither answered nor has its
      data channel if and only if it is the end of gathering for an update offer and the
      connection has not terminated. */
  lemma OutOfPlaceIffLateGather(e: Ecall.Call, ev: Ecall.Event, env: Env)
    requires EcallRuns.Sound(e)
    ensures Ecall.Apply(e, ev, env).requestedIn != e.requestedIn && !InPlace(StateOf(e)) <==> Late(e, ev, env)
  {
    RequestedExactly(e, ev, env);
  }

  /** The states in which a run requests updates, in order. */
  function RequestedBy(e: Ecall.Call, evs: seq<(Ecall.Event, Env)>): seq<State>
    decreases |evs|
  {
    if evs == [] then []
    else RequestedNow(e, evs[0].0, evs[0].1) + RequestedBy(Ecall.Apply(e, evs[0].0, evs[0].1), evs[1..])
  }

  predicate NeverLate(e: Ecall.Call, evs: seq<(Ecall.Event, Env)>)
    decreases |evs|
  {
    evs == []
    || (!Late(e, evs[0].0, evs[0].1) && NeverLate(Ecall.Apply(e, evs[0].0, evs[0].1), evs[1..]))
  }

  lemma StepRequests(e: Ecall.Call, ev: Ecall.Event, env: Env, e1: Ecall.Call)
    requires EcallRuns.Sound(e) && e1 == Ecall.Apply(e, ev, env)
    ensures EcallRuns.Sound(e1) && e1.requestedIn == e.requestedIn + RequestedNow(e, ev, env)
  {
    RequestedExactly(e, ev, env);
    EcallRuns.StepGoesOn(e, ev, env);
  }

  lemma {:induction false} RunUnfolds(e: Ecall.Call, evs: seq<(Ecall.Event, Env)>, e1: Ecall.Call)
    requires evs != [] && e1 == Ecall.Apply(e, evs[0].0, evs[0].1)
    ensures Ecall.Run(e, evs) == Ecall.Run(e1, evs[1..])
    ensures RequestedBy(e, evs) == RequestedNow(e, evs[0].0, evs[0].1) + RequestedBy(e1, evs[1..])
  {
  }

  lemma Associates(xs: seq<State>, ys: seq<State>, zs: seq<State>)
    ensures (xs + ys) + zs == xs + (ys + zs)
  {
  }

  lemma {:induction false} RequestedAlong(e: Ecall.Call, evs: seq<(Ecall.Event, Env)>)
    requires EcallRuns.Sound(e)
    ensures Ecall.Run(e, evs).requestedIn == e.requestedIn + RequestedBy(e, evs)
    decreases |evs|
  {
    if evs == [] {
    } else {
      var e1 := Ecall.Apply(e, evs[0].0, evs[0].1);
      StepRequests(e, evs[0].0, evs[0].1, e1);
      RunUnfolds(e, evs, e1);
      RequestedAlong(e1, evs[1..]);
      Associates(e.requestedIn, RequestedNow(e, evs[0].0, evs[0].1), RequestedBy(e1, evs[1..]));
    }
  }

  predicate AllInPlace(sts: seq<State>) {
    forall st :: st in sts ==> InPlace(st)
  }

  lemma AllOfBoth(xs: seq<State>, ys: seq<State>)
    ensures AllInPlace(xs + ys) <==> AllInPlace(xs) && AllInPlace(ys)
  {
    forall st | st in xs || st in ys ensures st in xs + ys {
    }
  }

  lemma NowInPlaceIff(e: Ecall.Call, ev: Ecall.Event, env: Env)
    ensures AllInPlace(RequestedNow(e, ev, env)) <==> !Late(e, ev, env)
  {
    if Requests(e, ev, env) {
      assert StateOf(e) in RequestedNow(e, ev, env);
    }
  }

  lemma {:induction false} InPlaceIffNeverLate(e: Ecall.Call, evs: seq<(Ecall.Event, Env)>)
    ensures AllInPlace(RequestedBy(e, evs)) <==> NeverLate(e, evs)
    decreases |evs|
  {
    if evs == [] {
    } else {
      NowInPlaceIff(e, evs[0].0, evs[0].1);
      LaterInPlaceIff(e, evs, Ecall.Apply(e, evs[0].0, evs[0].1));
    }
  }

  lemma {:induction false} LaterInPlaceIff(e: Ecall.Call, evs: seq<(Ecall.Event, Env)>, e1: Ecall.Call)
    requires evs != [] && e1 == Ecall.Apply(e, evs[0].0, evs[0].1)
    ensures AllInPlace(RequestedBy(e, evs))
            <==> AllInPlace(RequestedNow(e, evs[0].0, evs[0].1)) && NeverLate(e1, evs[1..])
    decreases |evs|, 0
  {
    InPlaceIffNeverLate(e1, evs[1..]);
    AllOfBoth(RequestedNow(e, evs[0].0, evs[0].1), RequestedBy(e1, evs[1..]));
  }

  /** Over the whole life of a call, every update is requested on an answered call or one with
      its data channel if and only if no gathering ends late. */
  lemma {:induction false} UpdatesInPlaceIffNeverLate(userid: string, clientid: string, timeoutSetup: nat,
                                   evs: seq<(Ecall.Event, Env)>)
    ensures var e := Ecall.Alloc(userid, clientid, timeoutSetup);
            AllInPlace(Ecall.Run(e, evs).requestedIn) <==> NeverLate(e, evs)
  {
    var e := Ecall.Alloc(userid, clientid, timeoutSetup);
    RequestedAlong(e, evs);
    InPlaceIffNeverLate(e, evs);
  }

  /** A restart whose offer has to be gathered for. */
  lemma RestartWaits(e: Ecall.Call, env: Env)
    requires InPlace(StateOf(e)) && env.alloc && !env.gathered
    ensures Restart(e, env).call == e.(update := true, mf := true, async := AsyncOffer)
  {
  }

  /** The gather handler sends the offer that was due. */
  lemma GatherSends(e: Ecall.Call, env: Env)
    requires OfferDue(e, env) && StateOf(e) != Terminating && env.send && e.econn.value.timeoutSetup > 0
    ensures GatherDone(e, env)
            == e.(econn := Some(e.econn.value.(state := UpdateSent, tmr := SetupTimer)), async := AsyncComplete,
                  requestedIn := e.requestedIn + [StateOf(e)],
                  sent := e.sent + [Msg(Update, false, e.econn.value.sessidLocal, env.sdp)])
  {
  }

  /** A late gather undoes a hangup: restart, hang up, and when gathering ends the connection
      is back in UPDATE_SENT with its setup timer. */
  lemma LateGatherUndoesHangup(e: Ecall.Call, restart: Env, end: Env, gather: Env)
    requires e.econn.Some? && StateOf(e) == DatachanEstablished && e.econn.value.timeoutSetup > 0
    requires restart.alloc && !restart.gathered && gather.offer && gather.send
    ensures var e2 := Ecall.End(Restart(e, restart).call, end);
            var e3 := GatherDone(e2, gather);
            && StateOf(e2) == HangupSent && StateOf(e3) == UpdateSent && e3.econn.value.tmr == SetupTimer
            && e3.requestedIn == e.requestedIn + [HangupSent]
  {
    RestartWaits(e, restart);
    var e1 := e.(update := true, mf := true, async := AsyncOffer);
    var e2 := Ecall.End(e1, end);
    assert e2.econn == Some(e.econn.value.(state := HangupSent, tmr := TermTimer));
    GatherSends(e2, gather);
  }

  /** A late gather overrides an update that is still to be answered: restart, receive the
      peer's update without a data channel, and when gathering ends the connection leaves
      UPDATE_RECV for UPDATE_SENT. */
  lemma LateGatherOverridesUpdate(e: Ecall.Call, userid: string, clientid: string, sdp: Sdp,
                                  restart: Env, recv: Env, gather: Env)
    requires e.econn.Some? && InPlace(StateOf(e)) && !CaseEq(e.userid, userid)
    requires CaseEq(e.econn.value.clientidRemote, clientid) && e.econn.value.timeoutSetup > 0
    requires restart.alloc && !restart.gathered && recv.alloc && recv.handled && !recv.hasData
    requires gather.offer && gather.send
    ensures var m := Msg(Update, false, e.econn.value.sessidRemote, sdp);
            var e2 := MsgRecv(Restart(e, restart).call, userid, clientid, m, recv);
            var e3 := GatherDone(e2, gather);
            && StateOf(e2) == UpdateRecv && StateOf(e3) == UpdateSent
            && e3.requestedIn == e.requestedIn + [UpdateRecv]
  {
    var m := Msg(Update, false, e.econn.value.sessidRemote, sdp);
    RestartWaits(e, restart);
    var e1 := e.(update := true, mf := true, async := AsyncOffer);
    UpdateWithoutData(e1, userid, clientid, m, recv);
    GatherSends(SetConn(e1, e.econn.value.(state := UpdateRecv, tmr := SetupTimer)), gather);
  }

  /** An update offer without a data channel is left unanswered, and the own offer pending. */
  lemma UpdateWithoutData(e: Ecall.Call, userid: string, clientid: string, m: Msg, env: Env)
    requires e.econn.Some? && InPlace(StateOf(e)) && !CaseEq(e.userid, userid)
    requires CaseEq(e.econn.value.clientidRemote, clientid)
    requires m.kind == Update && !m.resp && m.sessid == e.econn.value.sessidRemote
    requires env.alloc && env.handled && !env.hasData
    ensures MsgRecv(e, userid, clientid, m, env)
            == e.(update := true, mf := true, econn := Some(e.econn.value.(state := UpdateRecv, tmr := SetupTimer)))
  {
    assert e.sent + [] == e.sent;
  }
}
