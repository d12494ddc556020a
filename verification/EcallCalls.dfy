/** What a call comes to: calling, ringing, answering, updating and hanging up, each as exactly
    what the environment decides. */
module EcallCalls {
  import opened Text
  import opened Econn
  import opened Ecall
  import opened Wrappers
  import Teardown

  type History = seq<(Ecall.Event, Env)>

  lemma {:induction false} RunOne(e: Ecall.Call, x: (Ecall.Event, Env))
    ensures Ecall.Run(e, [x]) == Ecall.Apply(e, x.0, x.1)
  {
    assert [x][1..] == [];
  }

  lemma {:induction false} RunTwo(e: Ecall.Call, x: (Ecall.Event, Env), y: (Ecall.Event, Env), e1: Ecall.Call)
    requires e1 == Ecall.Apply(e, x.0, x.1)
    ensures Ecall.Run(e, [x, y]) == Ecall.Apply(e1, y.0, y.1)
  {
    assert [x, y][1..] == [y];
    RunOne(e1, y);
  }

  lemma {:induction false} RunThree(e: Ecall.Call, x: (Ecall.Event, Env), y: (Ecall.Event, Env), z: (Ecall.Event, Env),
                 e1: Ecall.Call, e2: Ecall.Call)
    requires e1 == Ecall.Apply(e, x.0, x.1) && e2 == Ecall.Apply(e1, y.0, y.1)
    ensures Ecall.Run(e, [x, y, z]) == Ecall.Apply(e2, z.0, z.1)
  {
    assert [x, y, z][1..] == [y, z];
    RunTwo(e1, y, z, e2);
  }

  // ---- Being called ----------------------------------------------------------

  /** A call of the user u that rings because another user's SETUP was taken in. */
  predicate Rings(e: Ecall.Call, sessid: string) {
    StateOf(e) == PendingIncoming && e.mf && e.econn.value.sessidLocal == sessid && !e.update && e.async == AsyncNone
    && e.closes == 0 && e.sent == []
  }

  /** A new call rings if and only if it and the caller are named, the caller is another user,
      and the media layer takes the offer. */
  lemma RingsIff(u: string, cl: string, t: nat, userid: string, clientid: string, m: Msg, env: Env, e: Ecall.Call)
    requires m.kind == Setup && !m.resp
    requires e == Ecall.Apply(Ecall.Alloc(u, cl, t), GotMessage(userid, clientid, m), env)
    ensures Rings(e, env.sessid) <==>
              u != "" && cl != "" && userid != "" && !CaseEq(u, userid) && env.alloc && env.handled
    ensures !Rings(e, env.sessid) ==>
              !e.mf && e.async == AsyncNone && e.sent == [] && StateOf(e) in {Idle, PendingIncoming}
    ensures e.closeh == (Rings(e, env.sessid) || StateOf(e) == Idle)
    ensures Rings(e, env.sessid) ==> !e.answered && e.propsRemote == env.hasData
  {
  }

  /** Answering a call that rings answers it if and only if the media layer has an answer ready
      and the send succeeds. */
  lemma AnswersIff(e: Ecall.Call, sessid: string, env: Env, e': Ecall.Call)
    requires Rings(e, sessid) && e' == Ecall.Apply(e, DoAnswer, env) && env.gathered
    ensures StateOf(e') == Answered <==> env.answer && env.ice && env.send
    ensures StateOf(e') == Answered ==> e'.answered && e'.sent == [Msg(Setup, true, sessid, env.sdp)]
    ensures StateOf(e') != Answered ==> e'.sent == [] && StateOf(e') in {PendingIncoming, Terminating}
    ensures e'.async == AsyncNone
  {
  }

  /** A call that is to be answered once the media layer has gathered. */
  predicate AnswerPends(e: Ecall.Call, sessid: string) {
    StateOf(e) == PendingIncoming && e.econn.value.sessidLocal == sessid && !e.update && e.async == AsyncAnswer
    && e.econnPending && e.answered && e.closeh && e.sent == []
  }

  lemma AnswerWaits(e: Ecall.Call, sessid: string, env: Env, e': Ecall.Call)
    requires Rings(e, sessid) && e.closeh && e' == Ecall.Apply(e, DoAnswer, env) && !env.gathered
    ensures AnswerPends(e', sessid)
  {
  }

  lemma GatherAnswersIff(e: Ecall.Call, sessid: string, env: Env, e': Ecall.Call)
    requires AnswerPends(e, sessid) && e' == Ecall.Apply(e, Gathered, env)
    ensures if env.answer && env.ice && env.send
            then && StateOf(e') == Answered && e'.answered && e'.closes == e.closes
                 && e'.sent == [Msg(Setup, true, sessid, env.sdp)]
            else StateOf(e') in {PendingIncoming, Terminating} && e'.closes == e.closes + 1 && e'.sent == []
  {
  }

  /** Nothing further comes of gathering where nothing waits for it. */
  lemma GatherIdles(e: Ecall.Call, env: Env)
    requires e.async == AsyncNone
    ensures Ecall.Apply(e, Gathered, env) == e
  {
  }

  /** Without a connection neither offer nor answer is sent, and the caller is told so. */
  lemma SendsNeedConnection(e: Ecall.Call, pending: bool, env: Env)
    requires e.econn == None
    ensures OfferAndConnect(e, env).call == e && OfferAndConnect(e, env).err != Success
    ensures GenerateAnswer(e, pending, env) == Res(e, EPROTO)
  {
  }

  /** The media layer has an answer and it is sent. */
  predicate CanAnswer(env: Env) {
    env.answer && env.ice && env.send
  }

  lemma AnswerNeedsRinging(e: Ecall.Call, env: Env)
    requires !e.mf
    ensures Ecall.Apply(e, DoAnswer, env) == e
  {
  }

  /** Answering a call answers it. Another user's SETUP arrives, the application answers, and if
      the media layer has to gather first that ends at some time: the call is ANSWERED and
      the one message sent is its SETUP(r) if and only if all parties are named and
      different, the offer was taken in, and at the time of answering, or of the end of
      gathering, there was an answer and it could be sent. */
  lemma IncomingIsAnsweredIff(u: string, cl: string, t: nat, userid: string, clientid: string, m: Msg,
                              ring: Env, answer: Env, gather: Env)
    requires m.kind == Setup && !m.resp
    ensures var e := Ecall.Run(Ecall.Alloc(u, cl, t),
                               [(GotMessage(userid, clientid, m), ring), (DoAnswer, answer), (Gathered, gather)]);
            var now := if answer.gathered then answer else gather;
            && (StateOf(e) == Answered
                <==> && u != "" && cl != "" && userid != "" && !CaseEq(u, userid)
                     && ring.alloc && ring.handled && CanAnswer(now))
            && (StateOf(e) == Answered ==> e.answered && e.sent == [Msg(Setup, true, ring.sessid, now.sdp)])
            && (StateOf(e) != Answered ==> e.sent == [])
  {
    var e0 := Ecall.Alloc(u, cl, t);
    var e1 := Ecall.Apply(e0, GotMessage(userid, clientid, m), ring);
    var e2 := Ecall.Apply(e1, DoAnswer, answer);
    RunThree(e0, (GotMessage(userid, clientid, m), ring), (DoAnswer, answer), (Gathered, gather), e1, e2);
    RingsIff(u, cl, t, userid, clientid, m, ring, e1);
    if !Rings(e1, ring.sessid) {
      AnswerNeedsRinging(e1, answer);
      GatherIdles(e1, gather);
    } else if answer.gathered {
      AnswersIff(e1, ring.sessid, answer, e2);
      GatherIdles(e2, gather);
    } else {
      AnswerWaits(e1, ring.sessid, answer, e2);
      GatherAnswersIff(e2, ring.sessid, gather, Ecall.Apply(e2, Gathered, gather));
    }
  }

  // ---- Calling -------------------------------------------------------------------

  /** Starting a call sends its SETUP if and only if there is a TURN server, the call is named,
      and the media layer has an offer ready, which is sent. */
  lemma StartsIff(u: string, cl: string, t: nat, env: Env, e: Ecall.Call)
    requires e == Ecall.Apply(Ecall.Alloc(u, cl, t), DoStart, env)
    ensures e.sent == (if env.turn && u != "" && cl != "" && env.alloc && env.gathered && env.offer && env.send
                       then [Msg(Setup, false, env.sessid, env.sdp)] else [])
    ensures e.sent != [] ==>
              && e.econn == Some(Fresh(u, cl, t, env.sessid).(state := PendingOutgoing, dir := Outgoing,
                                                              tmr := if t == 0 then Off else SetupTimer))
              && e.mf && !e.answered && !e.update && e.closes == 0 && e.closeh
    ensures env.gathered ==> e.async == AsyncNone
  {
  }

  /** A call whose offer is still gathered for has an outgoing connection that waits. */
  predicate OfferPends(e: Ecall.Call, c: Conn) {
    e.econn == Some(c) && c.state == PendingOutgoing && e.async == AsyncOffer && !e.update && e.sent == [] && e.closeh
  }

  lemma StartWaitsIff(u: string, cl: string, t: nat, env: Env, e: Ecall.Call)
    requires e == Ecall.Apply(Ecall.Alloc(u, cl, t), DoStart, env) && !env.gathered
    ensures OfferPends(e, Fresh(u, cl, t, env.sessid).(state := PendingOutgoing))
            <==> env.turn && u != "" && cl != "" && env.alloc
    ensures !(env.turn && u != "" && cl != "" && env.alloc) ==> e.async == AsyncNone && e.sent == []
  {
  }

  lemma StartOut(c: Conn, sdp: Sdp, ok: bool, o: Out)
    requires c.state == PendingOutgoing && o == Econn.Start(c, sdp, ok)
    ensures o.sent == if ok then [Msg(Setup, false, c.sessidLocal, sdp)] else []
    ensures o.err == Success <==> ok && c.timeoutSetup > 0
  {
  }

  lemma GatherStartsIff(e: Ecall.Call, c: Conn, env: Env, e': Ecall.Call)
    requires OfferPends(e, c) && e' == Ecall.Apply(e, Gathered, env)
    ensures e'.sent == if env.offer && env.send then [Msg(Setup, false, c.sessidLocal, env.sdp)] else []
    ensures e'.closes == if env.offer && env.send && c.timeoutSetup > 0 then e.closes else e.closes + 1
  {
    var o := Econn.Start(c, env.sdp, env.send);
    StartOut(c, env.sdp, env.send, o);
    if env.offer {
      assert OfferAndConnect(e, env) == Res(Took(e, o), o.err);
    }
  }

  /** Calling calls. The application starts a call, and if the media layer has to gather first
      that ends at some time: exactly one SETUP is sent if and only if there is a TURN
      server, the call is named, and at the time of starting, or of the end of gathering,
      there was an offer and it could be sent. */
  lemma OutgoingIsSentIff(u: string, cl: string, t: nat, start: Env, gather: Env)
    ensures var e := Ecall.Run(Ecall.Alloc(u, cl, t), [(DoStart, start), (Gathered, gather)]);
            var now := if start.gathered then start else gather;
            e.sent == if start.turn && u != "" && cl != "" && start.alloc && now.offer && now.send
                      then [Msg(Setup, false, start.sessid, now.sdp)] else []
  {
    var e0 := Ecall.Alloc(u, cl, t);
    var e1 := Ecall.Apply(e0, DoStart, start);
    RunTwo(e0, (DoStart, start), (Gathered, gather), e1);
    StartsIff(u, cl, t, start, e1);
    if start.gathered {
      GatherIdles(e1, gather);
    } else {
      StartWaitsIff(u, cl, t, start, e1);
      if e1.async == AsyncNone {
        GatherIdles(e1, gather);
      } else {
        GatherStartsIff(e1, e1.econn.value, gather, Ecall.Apply(e1, Gathered, gather));
      }
    }
  }

  // ---- Messages ------------------------------------------------------------------

  /** Another user's message reaches the connection, whose one callback is then handled. */
  lemma MessageReaches(e: Ecall.Call, c: Conn, userid: string, clientid: string, m: Msg, env: Env, o: Out)
    requires e.econn == Some(c) && !CaseEq(e.userid, userid) && o == Recv(c, userid, clientid, m, env.send)
    ensures Ecall.Apply(e, GotMessage(userid, clientid, m), env) == OnCalls(Took(e, o), o.calls, env)
  {
  }

  lemma TookSilently(e: Ecall.Call, o: Out)
    requires o.sent == []
    ensures Took(e, o) == e.(econn := Some(o.conn))
  {
    assert e.sent + [] == e.sent;
  }

  // ---- Being answered --------------------------------------------------------------

  /** The SETUP(r) of another user's device, the first one or the one locked to. */
  predicate FromCallee(e: Ecall.Call, c: Conn, userid: string, clientid: string, m: Msg) {
    m.kind == Setup && m.resp && !CaseEq(e.userid, userid)
    && (c.clientidRemote == "" || CaseEq(c.clientidRemote, clientid))
  }

  /** The media layer can use an answer, and the remote side has data channels. */
  predicate CanConnect(env: Env) {
    env.handled && env.hasData && env.ice
  }

  lemma ReplyIs(c: Conn, userid: string, clientid: string, m: Msg, ok: bool, o: Out)
    requires c.state in {PendingOutgoing, ConflictResolution} && m.kind == Setup && m.resp
    requires (c.clientidRemote == "" || CaseEq(c.clientidRemote, clientid)) && o == Recv(c, userid, clientid, m, ok)
    ensures o.sent == [] && o.calls == [CallAnswer(false, m.sdp)]
    ensures o.conn == c.(state := Answered, tmr := Off, sessidRemote := StrNcpy(m.sessid, SESSID_SIZE),
                         clientidRemote := if c.clientidRemote == "" then StrNcpy(clientid, CLIENTID_SIZE)
                                           else c.clientidRemote)
  {
  }

  /** A caller that gets its answer is ANSWERED and untimed; the call goes on if and only if the
      media layer can use the answer, and is closed otherwise. */
  lemma ReplyConnectsIff(e: Ecall.Call, c: Conn, userid: string, clientid: string, m: Msg, env: Env, e': Ecall.Call)
    requires e.econn == Some(c) && c.state in {PendingOutgoing, ConflictResolution} && !e.answered && e.closeh
    requires FromCallee(e, c, userid, clientid, m)
    requires e' == Ecall.Apply(e, GotMessage(userid, clientid, m), env)
    ensures e'.sent == e.sent && e'.econn.Some?
    ensures var c' := e'.econn.value;
            c' == c.(state := Answered, tmr := Off, sessidRemote := StrNcpy(m.sessid, SESSID_SIZE),
                     clientidRemote := if c.clientidRemote == "" then StrNcpy(clientid, CLIENTID_SIZE)
                                       else c.clientidRemote)
    ensures if CanConnect(env)
            then e'.answered && e'.propsRemote && e'.closeh && e'.closes == e.closes && e'.mf == e.mf
            else !e'.closeh && e'.closes == e.closes + 1 && !e'.mf
  {
    var o := Recv(c, userid, clientid, m, env.send);
    ReplyIs(c, userid, clientid, m, env.send, o);
    MessageReaches(e, c, userid, clientid, m, env, o);
    TookSilently(e, o);
  }

  // ---- Calling each other -----------------------------------------------------------

  /** The SETUP of another user's device that reaches a call which is calling itself. */
  predicate Crosses(e: Ecall.Call, c: Conn, userid: string, clientid: string, m: Msg) {
    m.kind == Setup && !m.resp && !CaseEq(e.userid, userid) && c.state == PendingOutgoing
    && (c.clientidRemote == "" || CaseEq(c.clientidRemote, clientid))
  }

  /** The connection that has learnt of the other one's device and session. */
  function Learnt(c: Conn, clientid: string, m: Msg): Conn {
    c.(sessidRemote := StrNcpy(m.sessid, SESSID_SIZE),
       clientidRemote := if c.clientidRemote == "" then StrNcpy(clientid, CLIENTID_SIZE) else c.clientidRemote)
  }

  lemma CrossingIs(c: Conn, userid: string, clientid: string, m: Msg, ok: bool, o: Out)
    requires m.kind == Setup && !m.resp && c.state == PendingOutgoing
    requires (c.clientidRemote == "" || CaseEq(c.clientidRemote, clientid)) && o == Recv(c, userid, clientid, m, ok)
    ensures o.sent == []
    ensures if IsWinner(c.userid, c.clientid, userid, clientid)
            then o.conn == Learnt(c, clientid, m).(conflict := 1) && o.calls == []
            else && o.conn == Learnt(c, clientid, m).(conflict := -1, state := ConflictResolution)
                 && o.calls == [CallAnswer(true, m.sdp)]
  {
  }

  lemma SetupAnswerIs(e: Ecall.Call, c: Conn, env: Env, r: Res)
    requires e.econn == Some(c) && c.state in {PendingIncoming, ConflictResolution} && !e.update
    requires r == GenerateAnswer(e, true, env)
    ensures if CanAnswer(env)
            then && r.err == Success && StateOf(r.call) == Answered
                 && r.call.sent == e.sent + [Msg(Setup, true, c.sessidLocal, env.sdp)]
            else r.err != Success && StateOf(r.call) in {c.state, Terminating} && r.call.sent == e.sent
    ensures r.call.closes == e.closes && r.call.closeh == e.closeh
  {
    assert e.sent + [] == e.sent;
  }

  /** Of two calls that cross, the winner's goes on as if nothing had been heard ... */
  lemma WonGlareGoesOn(e: Ecall.Call, c: Conn, userid: string, clientid: string, m: Msg, env: Env, e': Ecall.Call)
    requires e.econn == Some(c) && Crosses(e, c, userid, clientid, m)
    requires IsWinner(c.userid, c.clientid, userid, clientid)
    requires e' == Ecall.Apply(e, GotMessage(userid, clientid, m), env)
    ensures e' == e.(econn := Some(Learnt(c, clientid, m).(conflict := 1)))
  {
    var o := Recv(c, userid, clientid, m, env.send);
    CrossingIs(c, userid, clientid, m, env.send, o);
    MessageReaches(e, c, userid, clientid, m, env, o);
    TookSilently(e, o);
  }

  /** ... and the loser's is answered without asking: at once if the media layer takes the offer
      in and has an answer that is sent, later if it has to gather first, and otherwise the
      call is closed. */
  lemma LostGlareAnswersIff(e: Ecall.Call, c: Conn, userid: string, clientid: string, m: Msg, env: Env,
                            e': Ecall.Call)
    requires e.econn == Some(c) && Crosses(e, c, userid, clientid, m) && !e.update && e.closeh
    requires !IsWinner(c.userid, c.clientid, userid, clientid)
    requires e' == Ecall.Apply(e, GotMessage(userid, clientid, m), env)
    ensures if env.handled && env.gathered && CanAnswer(env)
            then && StateOf(e') == Answered && e'.answered && e'.closes == e.closes
                 && e'.sent == e.sent + [Msg(Setup, true, c.sessidLocal, env.sdp)]
            else && e'.sent == e.sent
                 && (if env.handled && !env.gathered && e.async in {AsyncNone, AsyncOffer}
                     then && StateOf(e') == ConflictResolution && e'.async == AsyncAnswer && e'.econnPending
                          && e'.answered && e'.closes == e.closes
                     else StateOf(e') in {ConflictResolution, Terminating} && e'.closes == e.closes + 1)
  {
    var o := Recv(c, userid, clientid, m, env.send);
    CrossingIs(c, userid, clientid, m, env.send, o);
    MessageReaches(e, c, userid, clientid, m, env, o);
    TookSilently(e, o);
    SetupAnswerIs(e.(econn := Some(o.conn)), o.conn, env, GenerateAnswer(e.(econn := Some(o.conn)), true, env));
  }

  // ---- Updating ----------------------------------------------------------------------

  /** An UPDATE from the device and in the session of the call. */
  predicate FromPeer(e: Ecall.Call, c: Conn, userid: string, clientid: string, m: Msg, resp: bool) {
    m.kind == Update && m.resp == resp && !CaseEq(e.userid, userid)
    && CaseEq(c.clientidRemote, clientid) && CaseEq(c.sessidRemote, m.sessid)
  }

  /** There is a mediaflow for the update, it takes the offer, and there are data channels. */
  predicate CanUpdate(e: Ecall.Call, env: Env) {
    ((e.mf && env.streamChange) || env.alloc) && env.handled && env.hasData
  }

  function Resumed(env: Env): State {
    if env.chanOpen then DatachanEstablished else Answered
  }

  lemma OfferIs(c: Conn, userid: string, clientid: string, m: Msg, ok: bool, o: Out)
    requires c.state in {Answered, DatachanEstablished} && m.kind == Update && !m.resp
    requires CaseEq(c.clientidRemote, clientid) && CaseEq(c.sessidRemote, m.sessid)
    requires o == Recv(c, userid, clientid, m, ok)
    ensures o.sent == [] && o.calls == [CallUpdateReq(m.sdp, false)]
    ensures o.conn == c.(state := UpdateRecv, tmr := SetupTimer)
  {
  }

  lemma AnswerIs(c: Conn, sdp: Sdp, ok: bool, o: Out)
    requires c.state == UpdateRecv && o == UpdateResp(c, sdp, ok)
    ensures if ok then o.err == Success && o.conn == c.(state := Answered, tmr := Off)
                       && o.sent == [Msg(Update, true, c.sessidLocal, sdp)]
            else o.err != Success && o.conn.state == Terminating && o.sent == []
  {
  }

  /** The answer to an update, made now. */
  lemma UpdateAnswerIs(e: Ecall.Call, c: Conn, env: Env, r: Res)
    requires e.econn == Some(c) && c.state == UpdateRecv && e.update && r == GenerateAnswer(e, true, env)
    ensures if CanAnswer(env)
            then && r.err == Success && StateOf(r.call) == Resumed(env)
                 && r.call.sent == e.sent + [Msg(Update, true, c.sessidLocal, env.sdp)]
            else r.err != Success && StateOf(r.call) in {UpdateRecv, Terminating} && r.call.sent == e.sent
    ensures r.call == e.(econn := r.call.econn, sent := r.call.sent)
  {
    AnswerIs(c, env.sdp, env.send, UpdateResp(c, env.sdp, env.send));
    assert e.sent + [] == e.sent;
  }

  /** The update is answered now. */
  predicate UpdateAnswered(e: Ecall.Call, c: Conn, env: Env, e': Ecall.Call) {
    StateOf(e') == Resumed(env) && e'.sent == e.sent + [Msg(Update, true, c.sessidLocal, env.sdp)]
    && e'.update && e'.propsRemote && e'.async == AsyncNone && e'.closeh == e.closeh && e'.closes == e.closes
  }

  lemma OfferIsAnswered(e: Ecall.Call, c: Conn, env: Env, r: Res, e': Ecall.Call)
    requires e.econn == Some(c) && c.state == UpdateRecv && e.update && e.propsRemote && e.async == AsyncNone
    requires r == GenerateAnswer(e, true, env) && e' == CloseIf(r)
    ensures if CanAnswer(env)
            then UpdateAnswered(e, c, env, e')
            else && StateOf(e') in {UpdateRecv, Terminating} && e'.sent == e.sent && e'.update && !e'.closeh
                 && e'.closes == e.closes + if e.closeh then 1 else 0
  {
    UpdateAnswerIs(e, c, env, r);
  }

  lemma OfferIsTaken(e: Ecall.Call, c: Conn, env: Env, e': Ecall.Call)
    requires e.econn == Some(c) && c.state == UpdateRecv && e.update && e' == Ecall.AnswerUpdate(e, env)
    ensures if env.handled && env.hasData && env.gathered && CanAnswer(env)
            then UpdateAnswered(e, c, env, e')
            else && StateOf(e') in {UpdateRecv, Terminating} && e'.sent == e.sent && e'.update
                 && e'.closeh == (e.closeh && env.handled && !(env.hasData && env.gathered))
                 && e'.closes == e.closes + if e.closeh && !e'.closeh then 1 else 0
  {
    if env.handled && env.hasData && env.gathered {
      var e1 := e.(propsRemote := true, async := AsyncNone);
      OfferIsAnswered(e1, c, env, GenerateAnswer(e1, true, env), e');
    }
  }

  /** The update in e is answered now, or the call waits, or it is closed. */
  predicate UpdateDealtWith(e: Ecall.Call, c: Conn, env: Env, e': Ecall.Call) {
    if CanUpdate(e, env) && env.gathered && CanAnswer(env)
    then UpdateAnswered(e, c, env, e')
    else
      && StateOf(e') in {UpdateRecv, Terminating} && e'.sent == e.sent && e'.update
      && e'.closeh == (e.closeh && ((e.mf && env.streamChange) || env.alloc) && env.handled
                       && !(env.hasData && env.gathered))
      && e'.closes == e.closes + if e.closeh && !e'.closeh then 1 else 0
  }

  lemma UpdateComesIn(e: Ecall.Call, c: Conn, env: Env, e': Ecall.Call)
    requires e.econn == Some(c) && c.state == UpdateRecv && e' == OnUpdateReq(e, env)
    ensures UpdateDealtWith(e, c, env, e')
  {
    var e1 := e.(update := true, mf := true);
    OfferIsTaken(e1, c, env, Ecall.AnswerUpdate(e1, env));
  }

  /** An UPDATE request on a call in progress is answered at once if and only if the media layer
      takes it in, has an answer, and that is sent; the call is then as before, with its data
      channel exactly if that is open. Otherwise it is closed, unless the media layer has to
      gather first, or the peer has no data channels and the update is left unanswered. */
  lemma UpdateIsAnsweredIff(e: Ecall.Call, c: Conn, userid: string, clientid: string, m: Msg, env: Env, e': Ecall.Call)
    requires e.econn == Some(c) && c.state in {Answered, DatachanEstablished}
    requires FromPeer(e, c, userid, clientid, m, false)
    requires e' == Ecall.Apply(e, GotMessage(userid, clientid, m), env)
    ensures UpdateDealtWith(e, c, env, e')
  {
    var o := Recv(c, userid, clientid, m, env.send);
    OfferIs(c, userid, clientid, m, env.send, o);
    MessageReaches(e, c, userid, clientid, m, env, o);
    TookSilently(e, o);
    UpdateComesIn(e.(econn := Some(o.conn)), o.conn, env, e');
  }

  /** An update that is to be answered once the media layer has gathered. */
  predicate UpdatePends(e: Ecall.Call, c: Conn) {
    e.econn == Some(c) && c.state == UpdateRecv && e.async == AsyncAnswer && e.econnPending && e.update && e.closeh
  }

  lemma UpdateWaits(e: Ecall.Call, c: Conn, userid: string, clientid: string, m: Msg, env: Env, e': Ecall.Call)
    requires e.econn == Some(c) && c.state in {Answered, DatachanEstablished} && e.closeh
    requires FromPeer(e, c, userid, clientid, m, false) && CanUpdate(e, env) && !env.gathered
    requires e' == Ecall.Apply(e, GotMessage(userid, clientid, m), env)
    ensures UpdatePends(e', c.(state := UpdateRecv, tmr := SetupTimer)) && e'.sent == e.sent && e'.closes == e.closes
  {
    var o := Recv(c, userid, clientid, m, env.send);
    OfferIs(c, userid, clientid, m, env.send, o);
    MessageReaches(e, c, userid, clientid, m, env, o);
    TookSilently(e, o);
  }

  lemma GatherUpdatesIff(e: Ecall.Call, c: Conn, env: Env, e': Ecall.Call)
    requires UpdatePends(e, c) && e' == Ecall.Apply(e, Gathered, env)
    ensures if CanAnswer(env)
            then && StateOf(e') == Resumed(env) && e'.closes == e.closes
                 && e'.sent == e.sent + [Msg(Update, true, c.sessidLocal, env.sdp)]
            else StateOf(e') in {UpdateRecv, Terminating} && e'.closes == e.closes + 1 && e'.sent == e.sent
  {
    UpdateAnswerIs(e, c, env, GenerateAnswer(e, true, env));
  }

  lemma RequestIs(c: Conn, sdp: Sdp, ok: bool, o: Out)
    requires o == UpdateReq(c, sdp, ok)
    ensures o.sent == if ok then [Msg(Update, false, c.sessidLocal, sdp)] else []
    ensures o.conn.state == if ok then UpdateSent else Terminating
  {
  }

  lemma OfferUpdates(e: Ecall.Call, c: Conn, env: Env, r: Res)
    requires e.econn == Some(c) && e.update && e.async == AsyncNone && r == GenerateOffer(e, env)
    ensures r.call.update && r.call.sent == e.sent + if env.gathered && env.offer && env.send
                                                     then [Msg(Update, false, c.sessidLocal, env.sdp)] else []
    ensures StateOf(r.call) == if env.gathered && env.offer
                               then (if env.send then UpdateSent else Terminating) else c.state
  {
    RequestIs(c, env.sdp, env.send, UpdateReq(c, env.sdp, env.send));
    assert e.sent + [] == e.sent;
  }

  /** Restarting a call in progress sends an UPDATE if and only if the media layer has an offer
      ready and it is sent. */
  lemma RestartSendsIff(e: Ecall.Call, c: Conn, env: Env, e': Ecall.Call)
    requires e.econn == Some(c) && c.state in {Answered, DatachanEstablished}
    requires e' == Ecall.Apply(e, DoRestart, env)
    ensures e'.update && e'.sent == e.sent + if env.alloc && env.gathered && env.offer && env.send
                                             then [Msg(Update, false, c.sessidLocal, env.sdp)] else []
    ensures StateOf(e') == if env.alloc && env.gathered && env.offer
                           then (if env.send then UpdateSent else Terminating) else c.state
  {
    assert e.sent + [] == e.sent;
    if env.alloc {
      var e1 := e.(update := true, mf := true, async := AsyncNone);
      OfferUpdates(e1, c, env, GenerateOffer(e1, env));
    }
  }

  lemma UpdateReplyIs(c: Conn, userid: string, clientid: string, m: Msg, ok: bool, o: Out)
    requires c.state == UpdateSent && m.kind == Update && m.resp
    requires CaseEq(c.clientidRemote, clientid) && CaseEq(c.sessidRemote, m.sessid)
    requires o == Recv(c, userid, clientid, m, ok)
    ensures o.sent == [] && o.calls == [CallUpdateResp(m.sdp)] && o.conn == c.(state := Answered, tmr := Off)
  {
  }

  /** Its answer brings the call back to where it was, or closes it. */
  lemma UpdateConnectsIff(e: Ecall.Call, c: Conn, userid: string, clientid: string, m: Msg, env: Env, e': Ecall.Call)
    requires e.econn == Some(c) && c.state == UpdateSent && e.update && e.closeh
    requires FromPeer(e, c, userid, clientid, m, true)
    requires e' == Ecall.Apply(e, GotMessage(userid, clientid, m), env)
    ensures e'.sent == e.sent && e'.econn.Some? && e'.econn.value.tmr == Off
    ensures if CanConnect(env)
            then StateOf(e') == Resumed(env) && e'.propsRemote && e'.closeh && e'.closes == e.closes
            else StateOf(e') == Answered && !e'.closeh && e'.closes == e.closes + 1
  {
    var o := Recv(c, userid, clientid, m, env.send);
    UpdateReplyIs(c, userid, clientid, m, env.send, o);
    MessageReaches(e, c, userid, clientid, m, env, o);
    TookSilently(e, o);
  }

  // ---- The own user ----------------------------------------------------------------------

  lemma CloseIs(c: Conn, ok: bool, o: Out)
    requires c.state == PendingIncoming && o == Econn.Close(c, EALREADY, ok)
    ensures o.sent == [] && o.conn.state == Terminating && o.conn.tmr == Off
    ensures o.calls == if c.closeh then [CallClose(EALREADY)] else []
  {
  }

  lemma StopsRinging(e: Ecall.Call, o: Out, env: Env, e': Ecall.Call)
    requires o.sent == [] && o.conn.state == Terminating && o.conn.tmr == Off
    requires o.calls == [] || o.calls == [CallClose(EALREADY)]
    requires e' == React(e, o, env)
    ensures StateOf(e') == Terminating && e'.econn.value.tmr == Off && e'.sent == e.sent
    ensures o.calls != [] ==> e'.closes == e.closes + (if e.closeh then 1 else 0) && !e'.closeh && !e'.mf
  {
    TookSilently(e, o);
  }

  /** Messages of the own user do nothing, but for an answer given on another device: that ends
      a call that rings here, silently, and closes it. */
  lemma OwnUserOnlyStopsRinging(e: Ecall.Call, userid: string, clientid: string, m: Msg, env: Env, e': Ecall.Call)
    requires CaseEq(e.userid, userid) && e' == Ecall.Apply(e, GotMessage(userid, clientid, m), env)
    ensures if m.kind == Setup && m.resp && StateOf(e) == PendingIncoming
            then && StateOf(e') == Terminating && e'.econn.value.tmr == Off && e'.sent == e.sent
                 && (e.econn.value.closeh ==>
                       e'.closes == e.closes + (if e.closeh then 1 else 0) && !e'.closeh && !e'.mf)
            else e' == e
  {
    if m.kind == Setup && m.resp && StateOf(e) == PendingIncoming {
      var o := Econn.Close(e.econn.value, EALREADY, env.send);
      CloseIs(e.econn.value, env.send, o);
      StopsRinging(e, o, env, e');
    }
  }

  // ---- Over the data channel ---------------------------------------------------------------

  /** A message over the data channel reaches the connection, without asking which device it is
      from, unless it is about properties. */
  lemma ChannelReaches(e: Ecall.Call, c: Conn, m: Msg, env: Env, o: Out)
    requires e.econn == Some(c) && m.kind != Propsync && o == Recv(c, "na", c.clientidRemote, m, env.send)
    ensures Ecall.Apply(e, GotChannelMessage(m), env) == OnCalls(Took(e, o), o.calls, env)
  {
  }

  lemma MoveCloses(e: Ecall.Call, o: Out, env: Env, e': Ecall.Call)
    requires o.calls == [CallClose(Success)] && e' == OnCalls(Took(e, o), o.calls, env)
    ensures e'.econn == Some(o.conn) && !e'.closeh && !e'.mf && e'.sent == e.sent + o.sent
    ensures e'.closes == e.closes + if e.closeh then 1 else 0
  {
  }

  lemma NoMove(e: Ecall.Call, c: Conn, o: Out, env: Env)
    requires e.econn == Some(c) && Teardown.Unaffected(c, o)
    ensures OnCalls(Took(e, o), o.calls, env) == e
  {
    TookSilently(e, o);
  }

  lemma ChannelHangupIs(c: Conn, m: Msg, ok: bool, o: Out)
    requires c.closeh && m.kind == Hangup && o == Recv(c, "na", c.clientidRemote, m, ok)
    ensures if c.state in {DatachanEstablished, HangupSent} && CaseEq(c.sessidRemote, m.sessid)
            then && o.conn.state == Terminating && o.calls == [CallClose(Success)]
                 && o.sent == if m.resp || !ok then [] else [Msg(Hangup, true, c.sessidLocal, NoSdp)]
            else Teardown.Unaffected(c, o)
  {
    Teardown.HangupEndsIff(c, "na", c.clientidRemote, m, ok);
  }

  /** A HANGUP over the data channel closes the call if and only if that has its data channel, or
      has hung up itself, and the session is its own; otherwise it does nothing. */
  lemma ChannelHangupEndsIff(e: Ecall.Call, c: Conn, m: Msg, env: Env, e': Ecall.Call)
    requires e.econn == Some(c) && c.closeh && m.kind == Hangup && e' == Ecall.Apply(e, GotChannelMessage(m), env)
    ensures if c.state in {DatachanEstablished, HangupSent} && CaseEq(c.sessidRemote, m.sessid)
            then && StateOf(e') == Terminating && !e'.closeh && !e'.mf
                 && e'.closes == e.closes + (if e.closeh then 1 else 0)
                 && e'.sent == e.sent + if m.resp || !env.send then [] else [Msg(Hangup, true, c.sessidLocal, NoSdp)]
            else e' == e
  {
    var o := Recv(c, "na", c.clientidRemote, m, env.send);
    ChannelHangupIs(c, m, env.send, o);
    ChannelReaches(e, c, m, env, o);
    if o.calls == [] {
      NoMove(e, c, o, env);
    } else {
      MoveCloses(e, o, env, e');
    }
  }

  // ---- Error codes -----------------------------------------------------------------------

  /** What ecall_start reports: the first thing that stands in its way. */
  lemma StartReports(e: Ecall.Call, env: Env)
    ensures var err := Ecall.Start(e, env).err;
            && (err == EALREADY <==> e.econn.Some?)
            && (err == EINTR <==> e.econn.None? && !env.turn)
            && (err == EINVAL <==> e.econn.None? && env.turn && (e.userid == "" || e.clientid == ""))
            && (err == EALLOC <==> e.econn.None? && env.turn && e.userid != "" && e.clientid != "" && !env.alloc)
            && (err == EALLOC ==> !Ecall.Start(e, env).call.mf)
            && (err == Success <==> e.econn.None? && env.turn && e.userid != "" && e.clientid != "" && env.alloc
                                    && (env.gathered ==> env.offer && env.send && e.timeoutSetup > 0))
  {
  }

  /** What ecall_answer reports. */
  lemma AnswerReports(e: Ecall.Call, env: Env)
    requires !e.update
    ensures var err := Ecall.Answer(e, env).err;
            && (err == ENOENT <==> e.econn.None?)
            && (err == Success <==> e.econn.Some? && StateOf(e) == PendingIncoming && e.mf
                                    && if env.gathered then CanAnswer(env) else e.async in {AsyncNone, AsyncOffer})
            && (err == EMEDIA <==> e.econn.Some? && StateOf(e) == PendingIncoming && e.mf && env.gathered
                                   && !(env.answer && env.ice))
  {
  }

  /** What ecall_restart reports. */
  lemma RestartReports(e: Ecall.Call, env: Env)
    ensures var err, on := Restart(e, env).err, e.econn.Some? && StateOf(e) in {Answered, DatachanEstablished};
            && (err == EALLOC <==> on && !env.alloc)
            && (err == EALLOC ==> !Restart(e, env).call.mf)
            && (err == Success <==>
                  on && env.alloc && (env.gathered ==> env.offer && env.send && e.econn.value.timeoutSetup > 0))
  {
  }

  // ---- A whole call ------------------------------------------------------------------------

  /** An environment in which everything works. */
  predicate AllWell(env: Env) {
    && env.turn && env.alloc && env.gathered && env.offer && env.answer && env.handled && env.ice && env.hasData
    && env.send && |env.sessid| < SESSID_SIZE
  }

  /** A call in progress: ANSWERED or with its data channel, and knowing its peer's session. */
  predicate Talks(e: Ecall.Call, state: State, own: string, peer: string) {
    && e.econn.Some? && e.econn.value.state == state && e.econn.value.closeh && e.closeh && e.closes == 0 && e.answered
    && e.econn.value.sessidLocal == own && e.econn.value.sessidRemote == peer
  }

  lemma RingsAs(u: string, cl: string, t: nat, userid: string, clientid: string, m: Msg, env: Env, e: Ecall.Call)
    requires m.kind == Setup && !m.resp && |m.sessid| < SESSID_SIZE
    requires u != "" && cl != "" && userid != "" && !CaseEq(u, userid) && AllWell(env)
    requires e == Ecall.Apply(Ecall.Alloc(u, cl, t), GotMessage(userid, clientid, m), env)
    ensures Rings(e, env.sessid) && e.econn.value.sessidRemote == m.sessid && e.econn.value.closeh && e.closeh
    ensures e.userid == u
  {
    RingsIff(u, cl, t, userid, clientid, m, env, e);
    StrNcpyKeeps(m.sessid, SESSID_SIZE);
  }

  lemma AnswersAs(e: Ecall.Call, env: Env, e': Ecall.Call)
    requires e.econn.Some? && Rings(e, e.econn.value.sessidLocal) && e.econn.value.closeh && e.closeh && AllWell(env)
    requires e' == Ecall.Apply(e, DoAnswer, env)
    ensures Talks(e', Answered, e.econn.value.sessidLocal, e.econn.value.sessidRemote)
    ensures e'.sent == [Msg(Setup, true, e.econn.value.sessidLocal, env.sdp)] && e'.userid == e.userid
  {
    AnswersIff(e, e.econn.value.sessidLocal, env, e');
  }

  lemma ConnectsAs(e: Ecall.Call, c: Conn, userid: string, clientid: string, m: Msg, env: Env, e': Ecall.Call)
    requires e.econn == Some(c) && c.state == PendingOutgoing && c.clientidRemote == "" && c.closeh
    requires !e.answered && e.closeh && e.closes == 0 && AllWell(env)
    requires m.kind == Setup && m.resp && !CaseEq(e.userid, userid) && |m.sessid| < SESSID_SIZE
    requires e' == Ecall.Apply(e, GotMessage(userid, clientid, m), env)
    ensures Talks(e', Answered, c.sessidLocal, m.sessid) && e'.sent == e.sent && e'.userid == e.userid
  {
    ReplyConnectsIff(e, c, userid, clientid, m, env, e');
    StrNcpyKeeps(m.sessid, SESSID_SIZE);
  }

  lemma ChannelOpens(e: Ecall.Call, own: string, peer: string, env: Env, e': Ecall.Call)
    requires Talks(e, Answered, own, peer) && e' == Ecall.Apply(e, ChannelUp, env)
    ensures Talks(e', DatachanEstablished, own, peer) && e'.sent == e.sent && e'.userid == e.userid
  {
  }

  lemma HangsUp(e: Ecall.Call, own: string, peer: string, env: Env, e': Ecall.Call)
    requires Talks(e, DatachanEstablished, own, peer) && AllWell(env) && e' == Ecall.Apply(e, DoEnd, env)
    ensures Talks(e', HangupSent, own, peer) && e'.userid == e.userid
    ensures e'.sent == e.sent + [Msg(Hangup, false, own, NoSdp)]
  {
  }

  lemma HangupIs(c: Conn, userid: string, clientid: string, m: Msg, o: Out)
    requires c.state in {DatachanEstablished, HangupSent} && c.closeh && m.kind == Hangup && m.sessid == c.sessidRemote
    requires o == Recv(c, userid, clientid, m, true)
    ensures o.conn.state == Terminating && o.calls == [CallClose(Success)]
    ensures o.sent == if m.resp then [] else [Msg(Hangup, true, c.sessidLocal, NoSdp)]
  {
  }

  /** A HANGUP of another user closes the call; a request is answered. */
  lemma IsHungUp(e: Ecall.Call, own: string, peer: string, userid: string, clientid: string, m: Msg, env: Env,
                 e': Ecall.Call)
    requires (Talks(e, DatachanEstablished, own, peer) || Talks(e, HangupSent, own, peer)) && AllWell(env)
    requires m.kind == Hangup && m.sessid == peer && !CaseEq(e.userid, userid)
    requires e' == Ecall.Apply(e, GotMessage(userid, clientid, m), env)
    ensures StateOf(e') == Terminating && e'.closes == 1 && !e'.closeh && e'.userid == e.userid
    ensures e'.sent == e.sent + if m.resp then [] else [Msg(Hangup, true, own, NoSdp)]
  {
    var c := e.econn.value;
    var o := Recv(c, userid, clientid, m, env.send);
    HangupIs(c, userid, clientid, m, o);
    MessageReaches(e, c, userid, clientid, m, env, o);
  }

  /** The message sent last. */
  function LastSent(e: Ecall.Call): Msg {
    if e.sent == [] then Msg(Propsync, false, "", NoSdp) else e.sent[|e.sent| - 1]
  }

  /** The two calls between which everything happens. */
  datatype Duet = Duet(a: Ecall.Call, b: Ecall.Call)

  /** The caller starts, the callee rings and answers, the caller hears of it, and both data
      channels open. */
  function SetUp(ua: string, ca: string, ta: nat, ub: string, cb: string, tb: nat, env: Env, env': Env): Duet {
    var a1 := Ecall.Apply(Ecall.Alloc(ua, ca, ta), DoStart, env);
    var b1 := Ecall.Apply(Ecall.Alloc(ub, cb, tb), GotMessage(ua, ca, LastSent(a1)), env');
    var b2 := Ecall.Apply(b1, DoAnswer, env');
    var a2 := Ecall.Apply(a1, GotMessage(ub, cb, LastSent(b2)), env);
    Duet(Ecall.Apply(a2, ChannelUp, env), Ecall.Apply(b2, ChannelUp, env'))
  }

  /** The first one hangs up, and both hear of it. */
  function TornDown(d: Duet, ca: string, cb: string, env: Env, env': Env): Duet {
    var a1 := Ecall.Apply(d.a, DoEnd, env);
    var b1 := Ecall.Apply(d.b, GotMessage(d.a.userid, ca, LastSent(a1)), env');
    Duet(Ecall.Apply(a1, GotMessage(d.b.userid, cb, LastSent(b1)), env), b1)
  }

  lemma SetUpTalks(ua: string, ca: string, ta: nat, ub: string, cb: string, tb: nat, env: Env, env': Env, d: Duet)
    requires ua != "" && ca != "" && ub != "" && cb != "" && !CaseEq(ua, ub) && AllWell(env) && AllWell(env')
    requires d == SetUp(ua, ca, ta, ub, cb, tb, env, env')
    ensures Talks(d.a, DatachanEstablished, env.sessid, env'.sessid) && d.a.userid == ua
    ensures Talks(d.b, DatachanEstablished, env'.sessid, env.sessid) && d.b.userid == ub
    ensures d.a.sent == [Msg(Setup, false, env.sessid, env.sdp)]
    ensures d.b.sent == [Msg(Setup, true, env'.sessid, env'.sdp)]
  {
    var a1 := Ecall.Apply(Ecall.Alloc(ua, ca, ta), DoStart, env);
    StartsIff(ua, ca, ta, env, a1);
    var b1 := Ecall.Apply(Ecall.Alloc(ub, cb, tb), GotMessage(ua, ca, LastSent(a1)), env');
    RingsAs(ub, cb, tb, ua, ca, LastSent(a1), env', b1);
    var b2 := Ecall.Apply(b1, DoAnswer, env');
    AnswersAs(b1, env', b2);
    var a2 := Ecall.Apply(a1, GotMessage(ub, cb, LastSent(b2)), env);
    ConnectsAs(a1, a1.econn.value, ub, cb, LastSent(b2), env, a2);
    ChannelOpens(a2, env.sessid, env'.sessid, env, d.a);
    ChannelOpens(b2, env'.sessid, env.sessid, env', d.b);
  }

  lemma TearDownEnds(d: Duet, ca: string, cb: string, env: Env, env': Env, own: string, peer: string, d': Duet)
    requires Talks(d.a, DatachanEstablished, own, peer) && Talks(d.b, DatachanEstablished, peer, own)
    requires !CaseEq(d.a.userid, d.b.userid) && AllWell(env) && AllWell(env') && d' == TornDown(d, ca, cb, env, env')
    ensures StateOf(d'.a) == StateOf(d'.b) == Terminating && d'.a.closes == d'.b.closes == 1
    ensures d'.a.sent == d.a.sent + [Msg(Hangup, false, own, NoSdp)]
    ensures d'.b.sent == d.b.sent + [Msg(Hangup, true, peer, NoSdp)]
  {
    var a1 := Ecall.Apply(d.a, DoEnd, env);
    HangsUp(d.a, own, peer, env, a1);
    IsHungUp(d.b, peer, own, d.a.userid, ca, LastSent(a1), env', d'.b);
    IsHungUp(a1, own, peer, d.b.userid, cb, LastSent(d'.b), env, d'.a);
    assert a1.sent + [] == a1.sent;
  }

  /** A whole call between two users, everything working. The caller starts it, the callee rings
      and answers, both data channels open, the caller hangs up: both calls end TERMINATING
      and closed exactly once, after SETUP and HANGUP one way and their responses the other. */
  lemma WholeCall(ua: string, ca: string, ta: nat, ub: string, cb: string, tb: nat, env: Env, env': Env)
    requires ua != "" && ca != "" && ub != "" && cb != "" && !CaseEq(ua, ub) && AllWell(env) && AllWell(env')
    ensures var d := SetUp(ua, ca, ta, ub, cb, tb, env, env');
            var d' := TornDown(d, ca, cb, env, env');
            && StateOf(d.a) == StateOf(d.b) == DatachanEstablished && d.a.answered && d.b.answered
            && StateOf(d'.a) == StateOf(d'.b) == Terminating && d'.a.closes == d'.b.closes == 1
            && d'.a.sent == [Msg(Setup, false, env.sessid, env.sdp), Msg(Hangup, false, env.sessid, NoSdp)]
            && d'.b.sent == [Msg(Setup, true, env'.sessid, env'.sdp), Msg(Hangup, true, env'.sessid, NoSdp)]
  {
    var d := SetUp(ua, ca, ta, ub, cb, tb, env, env');
    SetUpTalks(ua, ca, ta, ub, cb, tb, env, env', d);
    TearDownEnds(d, ca, cb, env, env', env.sessid, env'.sessid, TornDown(d, ca, cb, env, env'));
  }
}
