/** Two data-channel engines with opposite DTLS roles, joined by reliable streams that
    each keep their order. Sends succeed or are deferred; no stream is reset. */
module DceHandshake {
  import opened DceCodec
  import opened Dce
  import DceTables

  /** One engine and, per stream, what it has sent and the other has not yet received. */
  datatype End = End(t: Tables, out: seq<seq<Wire>>)

  /** Both ends. */
  datatype Pair = Pair(a: End, b: End)

  function Start(even: bool): End {
    End(Dce.Init(even), seq(STREAMS, _ => []))
  }

  predicate Shaped(x: End) {
    Sized(x.t) && |x.out| == STREAMS
  }

  function Push(x: End, s: nat, ws: seq<Wire>): End
    requires s < |x.out|
  {
    x.(out := x.out[s := x.out[s] + ws])
  }

  lemma PushNothing(x: End, s: nat)
    requires s < |x.out|
    ensures Push(x, s, []) == x
  {
    assert x.out[s] + [] == x.out[s];
    assert x.out[s := x.out[s]] == x.out;
  }

  /** What one end can do. `Defer` is one slot's turn in send_deferred_messages. */
  datatype Move =
    | DoOpen(p: Params, st: Status, sent: Sent)
    | DoDefer(c: nat, reqOk: bool, ackOk: bool)
    | DoSend(c: nat, bytes: Bytes)
    | DoReceive(s: nat, st: Status, sent: Sent)

  /** A move by the first end or by the second. */
  datatype Act = Act(first: bool, move: Move)

  /** Streams are available when a channel is opened, and no send fails for good. */
  predicate Enabled(x: End, y: End, m: Move)
    requires Shaped(x) && Shaped(y)
  {
    match m
    case DoOpen(p, st, sent) =>
      sent != Failure && (st.OutStreams? ==> st.n >= 1) && Openable(p) && FreeStream(x.t, st) != 0
    case DoDefer(c, _, _) => c < CHANNELS
    case DoSend(c, _) => c < CHANNELS && (x.t.chans[c].state == Connecting || x.t.chans[c].state == Open)
    case DoReceive(s, _, sent) => sent != Failure && s < STREAMS && y.out[s] != []
  }

  function Opened(x: End, p: Params, st: Status, sent: Sent): End
    requires Shaped(x) && (st.OutStreams? ==> st.n >= 1)
  {
    var o := OpenChannel(x.t, p, st, sent);
    Push(x.(t := o.t), FreeStream(x.t, st), o.wire)
  }

  function Deferred(x: End, c: nat, reqOk: bool, ackOk: bool): End
    requires Shaped(x) && c < CHANNELS
  {
    var d := DeferredSlot(x.t.chans[c], reqOk, ackOk);
    Push(x.(t := SetChan(x.t, c, d.0)), x.t.chans[c].oStream, d.1)
  }

  function SentData(x: End, c: nat, bytes: Bytes): End
    requires Shaped(x) && c < CHANNELS
  {
    Push(x, x.t.chans[c].oStream, [Wire(x.t.chans[c].oStream, false, bytes)])
  }

  /** x handles the message m on stream s. */
  function Received(x: End, s: nat, m: Wire, st: Status, sent: Sent): End
    requires Shaped(x) && s < STREAMS && m.stream == s
  {
    var o := HandleMessage(x.t, m, st, sent);
    Push(x.(t := o.t), s, o.wire)
  }

  function Consumed(y: End, s: nat): End
    requires s < |y.out| && y.out[s] != []
  {
    y.(out := y.out[s := y.out[s][1..]])
  }

  // ---- The invariant -----------------------------------------------------

  /** Without resets the tables stay simple: both indexes agree, a slot in use has the same
      stream in both directions, and a slot not in use has never been used. */
  predicate TableOk(t: Tables) {
    && DceTables.OutExact(t) && t.iIndex == t.oIndex && t.resets == []
    && (forall c :: 0 <= c < CHANNELS ==>
          if t.chans[c].state == Closed then t.chans[c] == FREE_SLOT
          else t.chans[c].iStream == t.chans[c].oStream != 0 && t.chans[c].state != Closing)
  }

  /** What the opener may have in flight on a stream: its one request, and data. */
  predicate FromOpener(m: Wire, s: nat, ch: Channel) {
    m.stream == s && (m.control ==> Sendable(ParamsOf(ch)) && m.bytes == Encode(ParamsOf(ch)))
  }

  /** What the acceptor may have in flight: acknowledgements, and data. */
  predicate FromAcceptor(m: Wire, s: nat) {
    m.stream == s && (m.control ==> m.bytes == [OPEN_ACK])
  }

  /** Stream s with its two ends' outgoing queues: x opens it, y accepts it. */
  predicate StreamOk(x: Tables, xs: seq<Wire>, y: Tables, ys: seq<Wire>, s: nat)
    requires Sized(x) && Sized(y) && s < STREAMS
  {
    var c, d := x.oIndex[s], y.oIndex[s];
    if c == -1 then d == -1 && xs == [] && ys == []
    else
      && !x.chans[c].sendAck && Openable(ParamsOf(x.chans[c]))
      && (forall m :: m in xs ==> FromOpener(m, s, x.chans[c]))
      && (forall m :: m in ys ==> FromAcceptor(m, s))
      && (if d == -1 then ys == [] && x.chans[c].state == Connecting
          else y.chans[d].state == Open && !y.chans[d].sendReq && ParamsOf(y.chans[d]) == ParamsOf(x.chans[c]))
  }

  predicate Joint(x: End, y: End) {
    && Shaped(x) && Shaped(y) && TableOk(x.t) && TableOk(y.t) && x.t.even != y.t.even
    && x.out[0] == [] && y.out[0] == []
    && forall s :: 1 <= s < STREAMS ==> OnStream(x, y, s)
  }

  /** The stream belongs to whichever end's parity it has. */
  predicate OnStream(x: End, y: End, s: nat)
    requires Shaped(x) && Shaped(y) && s < STREAMS
  {
    if OwnParity(x.t.even, s) then StreamOk(x.t, x.out[s], y.t, y.out[s], s)
    else StreamOk(y.t, y.out[s], x.t, x.out[s], s)
  }

  lemma JointSymmetric(x: End, y: End)
    requires Joint(x, y)
    ensures Joint(y, x)
  {
    forall s | 1 <= s < STREAMS ensures OnStream(y, x, s) {
      assert OnStream(x, y, s);
    }
  }

  lemma StartJoint(even: bool)
    ensures Joint(Start(even), Start(!even))
  {
    DceTables.InitOut(even);
    DceTables.InitOut(!even);
  }

  // ---- One move ----------------------------------------------------------

  /** Nothing on stream s has changed at end x. */
  predicate Untouched(x: End, x': End, s: nat)
    requires Shaped(x) && Shaped(x') && s < STREAMS
  {
    && x'.out[s] == x.out[s] && x'.t.oIndex[s] == x.t.oIndex[s] && x'.t.even == x.t.even
    && (x.t.oIndex[s] != -1 ==> x'.t.chans[x.t.oIndex[s]] == x.t.chans[x.t.oIndex[s]])
  }

  lemma UntouchedStays(x: End, y: End, x': End, y': End, s: nat)
    requires Shaped(x) && Shaped(y) && Shaped(x') && Shaped(y') && s < STREAMS && OnStream(x, y, s)
    requires Untouched(x, x', s) && Untouched(y, y', s)
    ensures OnStream(x', y', s)
  {
  }

  /** Both ends change on stream r only; if r is fine afterwards, so is everything. */
  lemma OneStreamMove(x: End, y: End, x': End, y': End, r: nat)
    requires Joint(x, y) && Shaped(x') && Shaped(y') && TableOk(x'.t) && TableOk(y'.t) && 1 <= r < STREAMS
    requires x'.t.even == x.t.even && y'.t.even == y.t.even && x'.out[0] == [] && y'.out[0] == []
    requires forall s :: 1 <= s < STREAMS && s != r ==> Untouched(x, x', s) && Untouched(y, y', s)
    requires OnStream(x', y', r)
    ensures Joint(x', y')
  {
    forall s | 1 <= s < STREAMS ensures OnStream(x', y', s) {
      if s != r {
        UntouchedStays(x, y, x', y', s);
      }
    }
  }

  /** A move that touches one slot, which no other stream leads to, and one stream. */
  lemma SlotMove(x: End, x': End, r: nat, c: nat)
    requires Shaped(x) && Shaped(x') && r < STREAMS && c < CHANNELS && x'.t.even == x.t.even
    requires x'.t.chans == x.t.chans[c := x'.t.chans[c]] && x'.t.oIndex == x.t.oIndex[r := x'.t.oIndex[r]]
    requires x'.out == x.out[r := x'.out[r]] && forall s :: 1 <= s < STREAMS && s != r ==> x.t.oIndex[s] != c
    ensures forall s :: 1 <= s < STREAMS && s != r ==> Untouched(x, x', s)
  {
  }

  lemma OpenTable(t: Tables, p: Params, st: Status, sent: Sent)
    requires TableOk(t) && (st.OutStreams? ==> st.n >= 1) && sent != Failure && Openable(p) && FreeStream(t, st) != 0
    ensures TableOk(OpenChannel(t, p, st, sent).t)
  {
    DceTables.OpenOut(t, p, st, sent);
  }

  /** The opener's side of a new channel. */
  lemma OpenedStream(x: End, y: End, r: nat, c: nat, p: Params, sent: Sent, o: Out, x': End)
    requires Joint(x, y) && 1 <= r < STREAMS && c < CHANNELS && OwnParity(x.t.even, r) && x.t.oIndex[r] == -1
    requires x.t.chans[c].state == Closed && Openable(p) && sent != Failure && o == ConnectSlot(x.t, c, r, p, sent)
    requires x' == Push(x.(t := o.t), r, o.wire)
    ensures OnStream(x', y, r)
  {
    assert OnStream(x, y, r);
    assert ParamsOf(x'.t.chans[c]) == p;
  }

  lemma OpenKeepsAt(x: End, y: End, r: nat, c: nat, p: Params, sent: Sent, o: Out, x': End)
    requires Joint(x, y) && 1 <= r < STREAMS && c < CHANNELS && OwnParity(x.t.even, r) && x.t.oIndex[r] == -1
    requires x.t.chans[c].state == Closed && Openable(p) && sent != Failure && o == ConnectSlot(x.t, c, r, p, sent)
    requires x' == Push(x.(t := o.t), r, o.wire) && TableOk(o.t)
    ensures Joint(x', y)
  {
    OpenedStream(x, y, r, c, p, sent, o, x');
    SlotMove(x, x', r, c);
    OneStreamMove(x, y, x', y, r);
  }

  lemma OpenKeeps(x: End, y: End, p: Params, st: Status, sent: Sent)
    requires Joint(x, y) && Enabled(x, y, DoOpen(p, st, sent))
    ensures Joint(Opened(x, p, st, sent), y)
  {
    var r, c := FreeStream(x.t, st), FreeSlot(x.t.chans, 0);
    if c != -1 {
      OpenTable(x.t, p, st, sent);
      OpenKeepsAt(x, y, r, c, p, sent, ConnectSlot(x.t, c, r, p, sent), Opened(x, p, st, sent));
    } else {
      PushNothing(x, r);
    }
  }

  /** Stream s, about to be chosen by x, is new: y has no channel on it, nothing is in flight
      on it in either direction, and y would not choose it. */
  predicate StreamNew(x: End, y: End, s: nat, s': nat)
    requires Shaped(x) && Shaped(y)
  {
    1 <= s < STREAMS ==> y.t.oIndex[s] == y.t.iIndex[s] == -1 && x.out[s] == [] && y.out[s] == [] && s' != s
  }

  lemma ChosenStreamIsNew(x: End, y: End, st: Status, st': Status)
    requires Joint(x, y) && (st.OutStreams? ==> st.n >= 1) && (st'.OutStreams? ==> st'.n >= 1)
    ensures StreamNew(x, y, FreeStream(x.t, st), FreeStream(y.t, st'))
  {
    var s := FreeStream(x.t, st);
    if s != 0 {
      assert OnStream(x, y, s);
    }
  }

  /** A slot not in use has nothing deferred. */
  lemma FreeSlotDefersNothing(x: End, c: nat, reqOk: bool, ackOk: bool)
    requires Shaped(x) && c < CHANNELS && x.t.chans[c] == FREE_SLOT
    ensures Deferred(x, c, reqOk, ackOk) == x
  {
    assert x.t.chans[c := x.t.chans[c]] == x.t.chans;
    assert x.out[0] + ([] + []) == x.out[0];
    assert x.out[0 := x.out[0]] == x.out;
  }

  lemma DeferredStream(x: End, y: End, c: nat, r: nat, d: (Channel, seq<Wire>), reqOk: bool, ackOk: bool, x': End)
    requires Joint(x, y) && c < CHANNELS && x.t.chans[c].state != Closed && r == x.t.chans[c].oStream
    requires d == DeferredSlot(x.t.chans[c], reqOk, ackOk) && x' == Push(x.(t := SetChan(x.t, c, d.0)), r, d.1)
    ensures 1 <= r < STREAMS && OnStream(x', y, r)
  {
    assert x.t.oIndex[r] == c && OnStream(x, y, r);
  }

  lemma DeferKeeps(x: End, y: End, c: nat, reqOk: bool, ackOk: bool)
    requires Joint(x, y) && c < CHANNELS
    ensures Joint(Deferred(x, c, reqOk, ackOk), y)
  {
    var r, d := x.t.chans[c].oStream, DeferredSlot(x.t.chans[c], reqOk, ackOk);
    if x.t.chans[c].state == Closed {
      FreeSlotDefersNothing(x, c, reqOk, ackOk);
    } else {
      DeferKeepsAt(x, y, c, r, d, reqOk, ackOk, Push(x.(t := SetChan(x.t, c, d.0)), r, d.1));
    }
  }

  lemma DeferKeepsAt(x: End, y: End, c: nat, r: nat, d: (Channel, seq<Wire>), reqOk: bool, ackOk: bool, x': End)
    requires Joint(x, y) && c < CHANNELS && x.t.chans[c].state != Closed && r == x.t.chans[c].oStream
    requires d == DeferredSlot(x.t.chans[c], reqOk, ackOk) && x' == Push(x.(t := SetChan(x.t, c, d.0)), r, d.1)
    ensures Joint(x', y)
  {
    DeferredStream(x, y, c, r, d, reqOk, ackOk, x');
    DeferredTable(x.t, c, d.0);
    SlotMove(x, x', r, c);
    OneStreamMove(x, y, x', y, r);
  }

  lemma DeferredTable(t: Tables, c: nat, ch: Channel)
    requires TableOk(t) && c < CHANNELS && t.chans[c].state != Closed
    requires ch.(sendReq := t.chans[c].sendReq, sendAck := t.chans[c].sendAck) == t.chans[c]
    ensures TableOk(SetChan(t, c, ch))
  {
  }

  lemma SendKeeps(x: End, y: End, c: nat, bytes: Bytes)
    requires Joint(x, y) && Enabled(x, y, DoSend(c, bytes))
    ensures Joint(SentData(x, c, bytes), y)
  {
    var r := x.t.chans[c].oStream;
    assert x.t.oIndex[r] == c && OnStream(x, y, r);
    OneStreamMove(x, y, SentData(x, c, bytes), y, r);
  }

  lemma AckTable(t: Tables, s: nat)
    requires TableOk(t)
    ensures TableOk(HandleAck(t, s))
  {
    DceTables.AckOut(t, s);
  }

  lemma AcceptTable(t: Tables, s: nat, p: Params, st: Status, sent: Sent)
    requires TableOk(t) && 1 <= s < STREAMS && sent != Failure
    ensures TableOk(HandleOpenRequest(t, s, p, st, sent).t)
  {
    DceTables.AcceptOut(t, s, p, st, sent);
  }

  lemma Fewer(y: End, s: nat, n: Wire)
    requires s < |y.out| && y.out[s] != [] && n in Consumed(y, s).out[s]
    ensures n in y.out[s]
  {
  }

  lemma OpenedByAck(x: End, y: End, s: nat, t': Tables, x': End)
    requires Joint(x, y) && 1 <= s < STREAMS && y.out[s] != [] && OwnParity(x.t.even, s) && t' == HandleAck(x.t, s)
    requires x' == x.(t := t')
    ensures x.t.oIndex[s] != -1 && OnStream(x', Consumed(y, s), s)
  {
    assert OnStream(x, y, s);
    forall n | n in Consumed(y, s).out[s] ensures n in y.out[s] {
      Fewer(y, s, n);
    }
  }

  lemma AckKeeps(x: End, y: End, s: nat, t': Tables, x': End)
    requires Joint(x, y) && 1 <= s < STREAMS && y.out[s] != [] && OwnParity(x.t.even, s) && t' == HandleAck(x.t, s)
    requires x' == x.(t := t') && TableOk(t')
    ensures Joint(x', Consumed(y, s))
  {
    OpenedByAck(x, y, s, t', x');
    SlotMove(x, x', s, x.t.oIndex[s]);
    OneStreamMove(x, y, x', Consumed(y, s), s);
  }

  lemma AckIsHeard(x: End, s: nat, m: Wire, st: Status, sent: Sent)
    requires Shaped(x) && s < STREAMS && FromAcceptor(m, s)
    ensures Received(x, s, m, st, sent) == x.(t := HandleAck(x.t, s))
  {
    PushNothing(x.(t := HandleAck(x.t, s)), s);
  }

  /** The opener hears from the acceptor: an acknowledgement, or data that stands for one. */
  lemma OpenerHears(x: End, y: End, s: nat, st: Status, sent: Sent)
    requires Joint(x, y) && 1 <= s < STREAMS && y.out[s] != [] && OwnParity(x.t.even, s)
    ensures y.out[s][0].stream == s && Joint(Received(x, s, y.out[s][0], st, sent), Consumed(y, s))
  {
    assert OnStream(x, y, s);
    var m := y.out[s][0];
    assert FromAcceptor(m, s);
    AckIsHeard(x, s, m, st, sent);
    AckTable(x.t, s);
    AckKeeps(x, y, s, HandleAck(x.t, s), x.(t := HandleAck(x.t, s)));
  }

  /** The acceptor hears the request: what it decodes is what the opener's slot holds. */
  lemma AcceptorHearsRequest(x: End, y: End, s: nat, m: Wire, st: Status, sent: Sent)
    requires Joint(x, y) && 1 <= s < STREAMS && !OwnParity(x.t.even, s) && sent != Failure
    requires y.out[s] != [] && y.out[s][0] == m && m.control
    ensures m.stream == s && Joint(Received(x, s, m, st, sent), Consumed(y, s))
  {
    assert OnStream(x, y, s);
    var ch := y.t.chans[y.t.oIndex[s]];
    assert FromOpener(m, s, ch);
    OpenRequestRoundTrip(ParamsOf(ch));
    AcceptTable(x.t, s, ParamsOf(ch), st, sent);
    AcceptKeeps(x, y, s, ParamsOf(ch), HandleOpenRequest(x.t, s, ParamsOf(ch), st, sent), st, sent);
  }

  lemma AcceptedStream(x: End, y: End, s: nat, p: Params, c: int, o: Out, st: Status, sent: Sent, x': End)
    requires Joint(x, y) && 1 <= s < STREAMS && !OwnParity(x.t.even, s) && sent != Failure
    requires y.out[s] != [] && y.t.oIndex[s] != -1 && p == ParamsOf(y.t.chans[y.t.oIndex[s]])
    requires c == FreeSlot(x.t.chans, 0) != -1 && x.t.oIndex[s] == -1 && o == AcceptSlot(x.t, c, s, p, sent)
    requires x' == Push(x.(t := o.t), s, o.wire)
    ensures OnStream(x', Consumed(y, s), s)
  {
    assert OnStream(x, y, s);
    forall n | n in Consumed(y, s).out[s] ensures n in y.out[s] {
      Fewer(y, s, n);
    }
  }

  lemma RefusedStream(x: End, y: End, s: nat)
    requires Joint(x, y) && 1 <= s < STREAMS && !OwnParity(x.t.even, s) && y.out[s] != []
    ensures OnStream(x, Consumed(y, s), s)
  {
    assert OnStream(x, y, s);
    forall n | n in Consumed(y, s).out[s] ensures n in y.out[s] {
      Fewer(y, s, n);
    }
  }

  lemma AcceptKeeps(x: End, y: End, s: nat, p: Params, o: Out, st: Status, sent: Sent)
    requires Joint(x, y) && 1 <= s < STREAMS && !OwnParity(x.t.even, s) && sent != Failure
    requires y.out[s] != [] && y.t.oIndex[s] != -1 && p == ParamsOf(y.t.chans[y.t.oIndex[s]])
    requires o == HandleOpenRequest(x.t, s, p, st, sent) && TableOk(o.t)
    ensures Joint(Push(x.(t := o.t), s, o.wire), Consumed(y, s))
  {
    var x' := Push(x.(t := o.t), s, o.wire);
    if Accepts(x.t, s, st) {
      AcceptedStream(x, y, s, p, FreeSlot(x.t.chans, 0), o, st, sent, x');
      SlotMove(x, x', s, FreeSlot(x.t.chans, 0));
    } else {
      PushNothing(x, s);
      RefusedStream(x, y, s);
    }
    OneStreamMove(x, y, x', Consumed(y, s), s);
  }

  /** The acceptor hears data: its channel, if there is one, is already open. */
  lemma AcceptorHearsData(x: End, y: End, s: nat, m: Wire, st: Status, sent: Sent)
    requires Joint(x, y) && 1 <= s < STREAMS && !OwnParity(x.t.even, s)
    requires y.out[s] != [] && y.out[s][0] == m && !m.control
    ensures m.stream == s && Joint(Received(x, s, m, st, sent), Consumed(y, s))
  {
    assert OnStream(x, y, s);
    assert FromOpener(m, s, y.t.chans[y.t.oIndex[s]]);
    var x', y' := Received(x, s, m, st, sent), Consumed(y, s);
    assert x'.t == x.t && x'.out[s] == x.out[s];
    assert forall n :: n in y'.out[s] ==> n in y.out[s];
    OneStreamMove(x, y, x', y', s);
  }

  // ---- Runs --------------------------------------------------------------

  /** x moves, facing y; a move that is not enabled does nothing. */
  function Moved(x: End, y: End, m: Move): Pair
    requires Shaped(x) && Shaped(y)
  {
    if !Enabled(x, y, m) then Pair(x, y) else
    match m
    case DoOpen(p, st, sent) => Pair(Opened(x, p, st, sent), y)
    case DoDefer(c, reqOk, ackOk) => Pair(Deferred(x, c, reqOk, ackOk), y)
    case DoSend(c, bytes) => Pair(SentData(x, c, bytes), y)
    case DoReceive(s, st, sent) =>
      if y.out[s][0].stream != s then Pair(x, y)
      else Pair(Received(x, s, y.out[s][0], st, sent), Consumed(y, s))
  }

  function Step(p: Pair, a: Act): Pair
    requires Shaped(p.a) && Shaped(p.b)
  {
    if a.first then Moved(p.a, p.b, a.move)
    else var q := Moved(p.b, p.a, a.move); Pair(q.b, q.a)
  }

  lemma MovedShaped(x: End, y: End, m: Move)
    requires Shaped(x) && Shaped(y)
    ensures var q := Moved(x, y, m); Shaped(q.a) && Shaped(q.b)
  {
  }

  function Run(p: Pair, acts: seq<Act>): (q: Pair)
    requires Shaped(p.a) && Shaped(p.b)
    ensures Shaped(q.a) && Shaped(q.b)
    decreases |acts|
  {
    if acts == [] then p
    else
      assert Shaped(Step(p, acts[0]).a) && Shaped(Step(p, acts[0]).b) by {
        MovedShaped(p.a, p.b, acts[0].move);
        MovedShaped(p.b, p.a, acts[0].move);
      }
      Run(Step(p, acts[0]), acts[1..])
  }

  lemma MoveKeeps(x: End, y: End, m: Move)
    requires Joint(x, y)
    ensures var q := Moved(x, y, m); Joint(q.a, q.b)
  {
    if Enabled(x, y, m) {
      match m
      case DoOpen(p, st, sent) => OpenKeeps(x, y, p, st, sent);
      case DoDefer(c, reqOk, ackOk) => DeferKeeps(x, y, c, reqOk, ackOk);
      case DoSend(c, bytes) => SendKeeps(x, y, c, bytes);
      case DoReceive(s, st, sent) =>
        if OwnParity(x.t.even, s) {
          OpenerHears(x, y, s, st, sent);
        } else if y.out[s][0].control {
          AcceptorHearsRequest(x, y, s, y.out[s][0], st, sent);
        } else {
          AcceptorHearsData(x, y, s, y.out[s][0], st, sent);
        }
    }
  }

  lemma {:induction false} JointAlong(p: Pair, acts: seq<Act>)
    requires Joint(p.a, p.b)
    ensures Joint(Run(p, acts).a, Run(p, acts).b)
    decreases |acts|
  {
    if acts == [] {
    } else {
      JointSymmetric(p.a, p.b);
      MoveKeeps(p.a, p.b, acts[0].move);
      MoveKeeps(p.b, p.a, acts[0].move);
      var q := Moved(p.b, p.a, acts[0].move);
      JointSymmetric(q.a, q.b);
      JointAlong(Step(p, acts[0]), acts[1..]);
    }
  }

  /** What an open channel guarantees its opener: the other end has an open channel on the same
      stream that asks for the same ordering, reliability, label and protocol. */
  predicate Agreed(x: End, y: End)
    requires Shaped(x) && Shaped(y)
  {
    forall c :: 0 <= c < CHANNELS && x.t.chans[c].state == Open && OwnParity(x.t.even, x.t.chans[c].oStream) ==>
      exists d :: 0 <= d < CHANNELS && Matches(x.t.chans[c], y.t.chans[d])
  }

  predicate Matches(ch: Channel, ch': Channel) {
    ch'.state == Open && ch'.oStream == ch'.iStream == ch.oStream == ch.iStream && ParamsOf(ch') == ParamsOf(ch)
  }

  lemma JointAgrees(x: End, y: End)
    requires Joint(x, y)
    ensures Agreed(x, y)
  {
    forall c | 0 <= c < CHANNELS && x.t.chans[c].state == Open && OwnParity(x.t.even, x.t.chans[c].oStream)
      ensures exists d :: 0 <= d < CHANNELS && Matches(x.t.chans[c], y.t.chans[d])
    {
      var s := x.t.chans[c].oStream;
      assert x.t.oIndex[s] == c && OnStream(x, y, s);
      assert Matches(x.t.chans[c], y.t.chans[y.t.oIndex[s]]);
    }
  }

  /** The open handshake. Whatever both ends do, from a fresh association: a channel open at
      its opener is open at its acceptor with equal parameters, and a stream either end would
      choose next is unknown to the other, has nothing in flight, and is not one the other
      would choose. */
  lemma HandshakeAgrees(even: bool, acts: seq<Act>, st: Status, st': Status)
    requires (st.OutStreams? ==> st.n >= 1) && (st'.OutStreams? ==> st'.n >= 1)
    ensures var p := Run(Pair(Start(even), Start(!even)), acts);
            && Agreed(p.a, p.b) && Agreed(p.b, p.a)
            && StreamNew(p.a, p.b, FreeStream(p.a.t, st), FreeStream(p.b.t, st'))
            && StreamNew(p.b, p.a, FreeStream(p.b.t, st'), FreeStream(p.a.t, st))
  {
    StartJoint(even);
    JointAlong(Pair(Start(even), Start(!even)), acts);
    var p := Run(Pair(Start(even), Start(!even)), acts);
    JointSymmetric(p.a, p.b);
    JointAgrees(p.a, p.b);
    JointAgrees(p.b, p.a);
    ChosenStreamIsNew(p.a, p.b, st, st');
    ChosenStreamIsNew(p.b, p.a, st', st);
  }
}
