/** The open handshake completes: with streams available at the acceptor, an opener is never
    left waiting once nothing is in flight and nothing is deferred. */
module DceCompletes {
  import opened DceCodec
  import opened Dce
  import opened DceHandshake
  import DceTables

  /** Some message of the queue is a control message. */
  predicate HasControl(xs: seq<Wire>) {
    exists i :: 0 <= i < |xs| && xs[i].control
  }

  lemma ControlStays(xs: seq<Wire>, ws: seq<Wire>)
    requires HasControl(xs) || HasControl(ws)
    ensures HasControl(xs + ws)
  {
    if HasControl(xs) {
      var i :| 0 <= i < |xs| && xs[i].control;
      assert (xs + ws)[i].control;
    } else {
      var i :| 0 <= i < |ws| && ws[i].control;
      assert (xs + ws)[|xs| + i].control;
    }
  }

  lemma ControlBehindData(xs: seq<Wire>)
    requires HasControl(xs) && !xs[0].control
    ensures HasControl(xs[1..])
  {
    var i :| 0 <= i < |xs| && xs[i].control;
    assert xs[1..][i - 1].control;
  }

  /** Someone still has to act on stream s, or its opener has its channel open. */
  predicate LiveStream(x: Tables, xs: seq<Wire>, y: Tables, ys: seq<Wire>, s: nat)
    requires Sized(x) && Sized(y) && s < STREAMS
  {
    var c, d := x.oIndex[s], y.oIndex[s];
    c == -1 ||
    if d == -1 then x.chans[c].sendReq || HasControl(xs)
    else x.chans[c].state == Open || y.chans[d].sendAck || ys != []
  }

  predicate LiveOn(x: End, y: End, s: nat)
    requires Shaped(x) && Shaped(y) && s < STREAMS
  {
    if OwnParity(x.t.even, s) then LiveStream(x.t, x.out[s], y.t, y.out[s], s)
    else LiveStream(y.t, y.out[s], x.t, x.out[s], s)
  }

  predicate Live(x: End, y: End) {
    Joint(x, y) && forall s :: 1 <= s < STREAMS ==> LiveOn(x, y, s)
  }

  lemma LiveSymmetric(x: End, y: End)
    requires Live(x, y)
    ensures Live(y, x)
  {
    JointSymmetric(x, y);
    forall s | 1 <= s < STREAMS ensures LiveOn(y, x, s) {
      assert LiveOn(x, y, s);
    }
  }

  /** Ten slots in use would need ten distinct streams out of nine. */
  lemma AlwaysRoom(t: Tables)
    requires TableOk(t)
    ensures FreeSlot(t.chans, 0) != -1
  {
    if FreeSlot(t.chans, 0) == -1 {
      var xs := seq(CHANNELS, c requires 0 <= c < CHANNELS => t.chans[c].oStream) + [0];
      forall c, d | 0 <= c < d < CHANNELS ensures xs[c] != xs[d] {
        assert t.oIndex[xs[c]] == c;
      }
      assert DceTables.Distinct(xs) && forall x :: x in xs ==> x < STREAMS;
      DceTables.DistinctFits(xs, STREAMS);
    }
  }

  lemma OneStreamLive(x: End, y: End, x': End, y': End, r: nat)
    requires Live(x, y) && Joint(x', y') && r < STREAMS
    requires x'.t.even == x.t.even
    requires forall s :: 1 <= s < STREAMS && s != r ==> Untouched(x, x', s) && Untouched(y, y', s)
    requires r >= 1 ==> LiveOn(x', y', r)
    ensures Live(x', y')
  {
    forall s | 1 <= s < STREAMS ensures LiveOn(x', y', s) {
      assert LiveOn(x, y, s);
      if s != r {
        assert Untouched(x, x', s) && Untouched(y, y', s);
      }
    }
  }

  lemma OpenLive(x: End, y: End, p: Params, st: Status, sent: Sent)
    requires Live(x, y) && Enabled(x, y, DoOpen(p, st, sent))
    ensures Live(Opened(x, p, st, sent), y)
  {
    OpenKeeps(x, y, p, st, sent);
    var r, x' := FreeStream(x.t, st), Opened(x, p, st, sent);
    assert OnStream(x, y, r);
    AlwaysRoom(x.t);
    if sent == SentOk {
      assert x'.out[r][|x.out[r]|].control;
    }
    OneStreamLive(x, y, x', y, r);
  }

  lemma DeferLive(x: End, y: End, c: nat, reqOk: bool, ackOk: bool)
    requires Live(x, y) && c < CHANNELS
    ensures Live(Deferred(x, c, reqOk, ackOk), y)
  {
    DeferKeeps(x, y, c, reqOk, ackOk);
    var r, x' := x.t.chans[c].oStream, Deferred(x, c, reqOk, ackOk);
    if x.t.chans[c].state == Closed {
      FreeSlotDefersNothing(x, c, reqOk, ackOk);
    } else {
      assert x.t.oIndex[r] == c && OnStream(x, y, r) && LiveOn(x, y, r);
      var ws := DeferredSlot(x.t.chans[c], reqOk, ackOk).1;
      if x.t.chans[c].sendReq && !x'.t.chans[c].sendReq {
        assert ws[0].control;
      }
      if HasControl(x.out[r]) || HasControl(ws) {
        ControlStays(x.out[r], ws);
      }
      OneStreamLive(x, y, x', y, r);
    }
  }

  lemma SendLive(x: End, y: End, c: nat, bytes: Bytes)
    requires Live(x, y) && Enabled(x, y, DoSend(c, bytes))
    ensures Live(SentData(x, c, bytes), y)
  {
    SendKeeps(x, y, c, bytes);
    var r := x.t.chans[c].oStream;
    assert x.t.oIndex[r] == c && LiveOn(x, y, r);
    if HasControl(x.out[r]) {
      ControlStays(x.out[r], [Wire(r, false, bytes)]);
    }
    OneStreamLive(x, y, SentData(x, c, bytes), y, r);
  }

  lemma AckLive(x: End, y: End, s: nat, x': End)
    requires Live(x, y) && 1 <= s < STREAMS && OwnParity(x.t.even, s) && x.t.oIndex[s] != -1 && y.out[s] != []
    requires x' == x.(t := HandleAck(x.t, s)) && Joint(x', Consumed(y, s))
    ensures Live(x', Consumed(y, s))
  {
    assert LiveOn(x, y, s) && OnStream(x, y, s);
    SlotMove(x, x', s, x.t.oIndex[s]);
    OneStreamLive(x, y, x', Consumed(y, s), s);
  }

  lemma OpenerHearsLive(x: End, y: End, s: nat, m: Wire, st: Status, sent: Sent)
    requires Live(x, y) && 1 <= s < STREAMS && OwnParity(x.t.even, s) && y.out[s] != [] && y.out[s][0] == m
    ensures m.stream == s && Live(Received(x, s, m, st, sent), Consumed(y, s))
  {
    OpenerHears(x, y, s, st, sent);
    assert OnStream(x, y, s) && FromAcceptor(m, s);
    AckIsHeard(x, s, m, st, sent);
    AckLive(x, y, s, x.(t := HandleAck(x.t, s)));
  }

  /** The request finds a free slot and an unused stream, so it is accepted. */
  lemma RequestLive(x: End, y: End, s: nat, m: Wire, st: Status, sent: Sent)
    requires Live(x, y) && 1 <= s < STREAMS && !OwnParity(x.t.even, s) && sent != Failure
    requires y.out[s] != [] && y.out[s][0] == m && m.control && st.OutStreams? && s <= Limit(st)
    ensures m.stream == s && Live(Received(x, s, m, st, sent), Consumed(y, s))
  {
    AcceptorHearsRequest(x, y, s, m, st, sent);
    assert OnStream(x, y, s) && LiveOn(x, y, s);
    var ch := y.t.chans[y.t.oIndex[s]];
    assert FromOpener(m, s, ch);
    OpenRequestRoundTrip(ParamsOf(ch));
    AlwaysRoom(x.t);
    var o := HandleOpenRequest(x.t, s, ParamsOf(ch), st, sent);
    AcceptLive(x, y, s, o, st, sent, ParamsOf(ch));
  }

  lemma AcceptLive(x: End, y: End, s: nat, o: Out, st: Status, sent: Sent, p: Params)
    requires Live(x, y) && 1 <= s < STREAMS && !OwnParity(x.t.even, s) && sent != Failure
    requires y.out[s] != [] && st.OutStreams? && s <= Limit(st) && FreeSlot(x.t.chans, 0) != -1
    requires o == HandleOpenRequest(x.t, s, p, st, sent) && Joint(Push(x.(t := o.t), s, o.wire), Consumed(y, s))
    ensures Live(Push(x.(t := o.t), s, o.wire), Consumed(y, s))
  {
    assert LiveOn(x, y, s);
    var x' := Push(x.(t := o.t), s, o.wire);
    if Accepts(x.t, s, st) {
      AcceptedLive(x, y, s, p, FreeSlot(x.t.chans, 0), o, sent, x');
      SlotMove(x, x', s, FreeSlot(x.t.chans, 0));
    } else {
      PushNothing(x, s);
    }
    OneStreamLive(x, y, x', Consumed(y, s), s);
  }

  lemma AcceptedLive(x: End, y: End, s: nat, p: Params, c: nat, o: Out, sent: Sent, x': End)
    requires Joint(x, y) && 1 <= s < STREAMS && !OwnParity(x.t.even, s) && sent != Failure && y.out[s] != []
    requires c < CHANNELS && x.t.iIndex[s] == -1 && o == AcceptSlot(x.t, c, s, p, sent)
    requires x' == Push(x.(t := o.t), s, o.wire)
    ensures LiveOn(x', Consumed(y, s), s)
  {
  }

  lemma DataLive(x: End, y: End, s: nat, m: Wire, st: Status, sent: Sent)
    requires Live(x, y) && 1 <= s < STREAMS && !OwnParity(x.t.even, s)
    requires y.out[s] != [] && y.out[s][0] == m && !m.control
    ensures m.stream == s && Live(Received(x, s, m, st, sent), Consumed(y, s))
  {
    AcceptorHearsData(x, y, s, m, st, sent);
    assert OnStream(x, y, s) && LiveOn(x, y, s);
    var x', y' := Received(x, s, m, st, sent), Consumed(y, s);
    assert x'.t == x.t && x'.out[s] == x.out[s];
    if HasControl(y.out[s]) {
      ControlBehindData(y.out[s]);
    }
    OneStreamLive(x, y, x', y', s);
  }

  /** Streams are available: the association has a stream for the one a message came in on. */
  predicate Supplied(m: Move) {
    m.DoReceive? ==> m.st.OutStreams? && m.s <= Limit(m.st)
  }

  lemma MoveLive(x: End, y: End, m: Move)
    requires Live(x, y) && Supplied(m)
    ensures var q := Moved(x, y, m); Live(q.a, q.b)
  {
    if Enabled(x, y, m) {
      match m
      case DoOpen(p, st, sent) => OpenLive(x, y, p, st, sent);
      case DoDefer(c, reqOk, ackOk) => DeferLive(x, y, c, reqOk, ackOk);
      case DoSend(c, bytes) => SendLive(x, y, c, bytes);
      case DoReceive(s, st, sent) =>
        if OwnParity(x.t.even, s) {
          OpenerHearsLive(x, y, s, y.out[s][0], st, sent);
        } else if y.out[s][0].control {
          RequestLive(x, y, s, y.out[s][0], st, sent);
        } else {
          DataLive(x, y, s, y.out[s][0], st, sent);
        }
    }
  }

  lemma {:induction false} LiveAlong(p: Pair, acts: seq<Act>)
    requires Live(p.a, p.b) && forall a :: a in acts ==> Supplied(a.move)
    ensures Live(Run(p, acts).a, Run(p, acts).b)
    decreases |acts|
  {
    if acts == [] {
    } else {
      assert acts[0] in acts;
      LiveSymmetric(p.a, p.b);
      MoveLive(p.a, p.b, acts[0].move);
      MoveLive(p.b, p.a, acts[0].move);
      var q := Moved(p.b, p.a, acts[0].move);
      LiveSymmetric(q.a, q.b);
      LiveAlong(Step(p, acts[0]), acts[1..]);
    }
  }

  /** Nothing in flight from x and nothing deferred at x. */
  predicate Quiet(x: End)
    requires Shaped(x)
  {
    && (forall s :: 0 <= s < STREAMS ==> x.out[s] == [])
    && (forall c :: 0 <= c < CHANNELS ==> !x.t.chans[c].sendReq && !x.t.chans[c].sendAck)
  }

  lemma QuietIsOpen(x: End, y: End, c: nat)
    requires Live(x, y) && Quiet(x) && Quiet(y) && c < CHANNELS && x.t.chans[c].state != Closed
    ensures exists d :: 0 <= d < CHANNELS && Matches(x.t.chans[c], y.t.chans[d])
    ensures x.t.chans[c].state == Open
  {
    var s := x.t.chans[c].oStream;
    assert x.t.oIndex[s] == c && OnStream(x, y, s) && LiveOn(x, y, s);
    assert Matches(x.t.chans[c], y.t.chans[y.t.oIndex[s]]);
  }

  /** Every slot in use at x is open, and open at y with equal parameters. */
  predicate Complete(x: End, y: End)
    requires Shaped(x) && Shaped(y)
  {
    forall c :: 0 <= c < CHANNELS && x.t.chans[c].state != Closed ==>
      x.t.chans[c].state == Open && exists d :: 0 <= d < CHANNELS && Matches(x.t.chans[c], y.t.chans[d])
  }

  lemma QuietIsComplete(x: End, y: End)
    requires Live(x, y) && Quiet(x) && Quiet(y)
    ensures Complete(x, y)
  {
    forall c | 0 <= c < CHANNELS && x.t.chans[c].state != Closed
      ensures x.t.chans[c].state == Open && exists d :: 0 <= d < CHANNELS && Matches(x.t.chans[c], y.t.chans[d])
    {
      QuietIsOpen(x, y, c);
    }
  }

  /** Completion. In every quiet state of a run with streams available, whatever is in use
      at either end is open at both, with equal parameters. */
  lemma HandshakeCompletes(even: bool, acts: seq<Act>)
    requires forall a :: a in acts ==> Supplied(a.move)
    ensures var p := Run(Pair(Start(even), Start(!even)), acts);
            Quiet(p.a) && Quiet(p.b) ==> Complete(p.a, p.b) && Complete(p.b, p.a)
  {
    StartJoint(even);
    LiveAlong(Pair(Start(even), Start(!even)), acts);
    var p := Run(Pair(Start(even), Start(!even)), acts);
    LiveSymmetric(p.a, p.b);
    if Quiet(p.a) && Quiet(p.b) {
      QuietIsComplete(p.a, p.b);
      QuietIsComplete(p.b, p.a);
    }
  }
}
