/** The whole life of data channels between two engines: channels are opened, used and closed
    and their streams reset and used again, all interleaved. The association takes every
    message at once and keeps the order of a stream: its messages come before its reset, and
    the news that a reset was performed comes before what the peer sends on the stream
    afterwards. A channel is opened on a stream that is unused in both directions. */
module DceLifetime {
  import opened DceCodec
  import opened Dce
  import opened DceTables
  import opened DceClosing

  /** One engine with its resets and, per stream, what it has sent and the other has not yet
      received. */
  datatype Node = Node(h: Half, out: seq<seq<Wire>>)

  datatype Nodes = Nodes(a: Node, b: Node)

  datatype Move =
    | DoOpen(p: Params, st: Status)
    | DoSend(c: nat, bytes: Bytes)
    | DoReceive(s: nat, st: Status)
    | DoClosing(m: DceClosing.Move)

  datatype Turn = Turn(first: bool, move: Move)

  predicate Shaped(x: Node) {
    Sized(x.h.t) && |x.out| == STREAMS
  }

  function Start(even: bool): Node {
    Node(Half(Dce.Init(even), {}, {}), seq(STREAMS, _ => []))
  }

  function WithTables(x: Node, t: Tables): Node {
    x.(h := x.h.(t := t))
  }

  function Push(x: Node, s: nat, ws: seq<Wire>): Node
    requires s < |x.out|
  {
    x.(out := x.out[s := x.out[s] + ws])
  }

  function Consumed(y: Node, s: nat): Node
    requires s < |y.out| && y.out[s] != []
  {
    y.(out := y.out[s := y.out[s][1..]])
  }

  predicate Enabled(x: Node, y: Node, m: Move)
    requires Shaped(x) && Shaped(y)
  {
    match m
    case DoOpen(p, st) =>
      && (st.OutStreams? ==> st.n >= 1) && Openable(p)
      && FreeStream(x.h.t, st) != 0 && x.h.t.iIndex[FreeStream(x.h.t, st)] == -1
    case DoSend(c, _) => c < CHANNELS && (x.h.t.chans[c].state == Connecting || x.h.t.chans[c].state == Open)
    case DoReceive(s, st) =>
      && s < STREAMS && y.out[s] != [] && y.out[s][0].stream == s
      && !(s in x.h.done && x.h.t.iIndex[s] == -1) && st.OutStreams? && s <= Limit(st)
    case DoClosing(m') =>
      DceClosing.Enabled(x.h, y.h, m') && (m'.HearReset? ==> m'.s < STREAMS && y.out[m'.s] == [])
  }

  function Opened(x: Node, p: Params, st: Status): Node
    requires Shaped(x) && (st.OutStreams? ==> st.n >= 1)
  {
    var o := OpenChannel(x.h.t, p, st, SentOk);
    Push(WithTables(x, o.t), FreeStream(x.h.t, st), o.wire)
  }

  function SentData(x: Node, c: nat, bytes: Bytes): Node
    requires Shaped(x) && c < CHANNELS
  {
    Push(x, x.h.t.chans[c].oStream, [Wire(x.h.t.chans[c].oStream, false, bytes)])
  }

  function Received(x: Node, s: nat, m: Wire, st: Status): Node
    requires Shaped(x) && s < STREAMS && m.stream == s
  {
    var o := HandleMessage(x.h.t, m, st, SentOk);
    Push(WithTables(x, o.t), s, o.wire)
  }

  /** x moves, facing y; a move that is not enabled does nothing. */
  function Moved(x: Node, y: Node, m: Move): Nodes
    requires Shaped(x) && Shaped(y)
  {
    if !Enabled(x, y, m) then Nodes(x, y) else
    match m
    case DoOpen(p, st) => Nodes(Opened(x, p, st), y)
    case DoSend(c, bytes) => Nodes(SentData(x, c, bytes), y)
    case DoReceive(s, st) => Nodes(Received(x, s, y.out[s][0], st), Consumed(y, s))
    case DoClosing(m') => var q := DceClosing.Moved(x.h, y.h, m'); Nodes(x.(h := q.a), y.(h := q.b))
  }

  // ---- The invariant -------------------------------------------------------

  /** What both ends of a channel have to agree on: ordering and reliability. */
  function Terms(ch: Channel): (bool, Policy, nat) {
    (ch.unordered, ch.policy, ch.value)
  }

  predicate IsData(m: Wire, s: nat) {
    m.stream == s && !m.control
  }

  predicate IsReply(m: Wire, s: nat) {
    m.stream == s && (m.control ==> m.bytes == [OPEN_ACK])
  }

  /** The request by which the opener's slot asks for its channel. */
  predicate IsRequest(m: Wire, s: nat, ch: Channel) {
    && m.stream == s && m.control && |m.bytes| >= FIXED_SIZE && m.bytes[0] == OPEN_REQUEST
    && (var p := Decode(m.bytes); (p.unordered, p.policy, p.value) == Terms(ch))
  }

  predicate AllData(ws: seq<Wire>, s: nat) {
    forall m :: m in ws ==> IsData(m, s)
  }

  predicate AllReplies(ws: seq<Wire>, s: nat) {
    forall m :: m in ws ==> IsReply(m, s)
  }

  /** The slot that sends on stream s is in state st. */
  predicate SendsIn(x: Half, s: nat, st: ChannelState)
    requires Sized(x.t) && s < STREAMS
  {
    x.t.oIndex[s] != -1 && x.t.chans[x.t.oIndex[s]].state == st
  }

  /** x has asked for a channel on stream s and y has not heard; y may still wait for the news
      that the reset of the stream's last use was performed. */
  predicate Calling(x: Node, y: Node, s: nat)
    requires Shaped(x) && Shaped(y) && s < STREAMS
  {
    && SendsIn(x.h, s, Connecting) && y.h.t.iIndex[s] == -1
    && s !in x.h.t.resets && s !in x.h.asked && s !in x.h.done && s !in y.h.t.resets && s !in y.h.asked
    && x.out[s] != [] && IsRequest(x.out[s][0], s, x.h.t.chans[x.h.t.oIndex[s]]) && AllData(x.out[s][1..], s)
    && y.out[s] == [] && (if y.h.t.oIndex[s] == -1 then s !in y.h.done else SendsIn(y.h, s, Closing) && s in y.h.done)
  }

  /** Both ends have stream s in use, or neither, or it is being given up. An opener that waits
      has an answer on its way. */
  predicate Joined(x: Node, y: Node, s: nat)
    requires Shaped(x) && Shaped(y) && s < STREAMS
  {
    && Dirs(x.h, y.h, s) && AllData(x.out[s], s) && AllReplies(y.out[s], s)
    && (y.h.t.iIndex[s] == -1 ==> x.out[s] == []) && (x.h.t.iIndex[s] == -1 ==> y.out[s] == [])
    && !SendsIn(y.h, s, Connecting) && (SendsIn(x.h, s, Connecting) ==> y.out[s] != [])
    && (!SendsIn(x.h, s, Closing) && x.h.t.oIndex[s] != -1 && SendsIn(y.h, s, Open) ==>
          Terms(x.h.t.chans[x.h.t.oIndex[s]]) == Terms(y.h.t.chans[y.h.t.oIndex[s]]))
  }

  /** Stream s, which x opens and y accepts. */
  predicate Lane(x: Node, y: Node, s: nat)
    requires Shaped(x) && Shaped(y) && s < STREAMS
  {
    Calling(x, y, s) || Joined(x, y, s)
  }

  predicate Fine(x: Node, y: Node, s: nat)
    requires Shaped(x) && Shaped(y) && s < STREAMS
  {
    if OwnParity(x.h.t.even, s) then Lane(x, y, s) else Lane(y, x, s)
  }

  predicate Inv(x: Node, y: Node) {
    && Shaped(x) && Shaped(y) && HalfFine(x.h) && HalfFine(y.h) && x.h.t.even != y.h.t.even
    && x.out[0] == [] && y.out[0] == []
    && forall s :: 1 <= s < STREAMS ==> Fine(x, y, s)
  }

  lemma InvSwaps(x: Node, y: Node)
    requires Inv(x, y)
    ensures Inv(y, x)
  {
    forall s | 1 <= s < STREAMS ensures Fine(y, x, s) {
      assert Fine(x, y, s);
    }
  }

  lemma StartTable(even: bool)
    ensures HalfFine(Start(even).h)
  {
    InitOut(even);
  }

  lemma StartInv(even: bool)
    ensures Inv(Start(even), Start(!even))
  {
    StartTable(even);
    StartTable(!even);
  }

  // ---- One move ------------------------------------------------------------

  predicate SameAt(x: Node, x': Node, s: nat)
    requires Shaped(x) && Shaped(x') && s < STREAMS
  {
    Same(x.h, x'.h, s) && x'.out[s] == x.out[s]
  }

  /** A channel on stream s, which x opens, is asked for or in use at both ends. */
  predicate Alive(x: Node, y: Node, s: nat)
    requires Shaped(x) && Shaped(y) && s < STREAMS
  {
    || Calling(x, y, s)
    || (x.h.t.oIndex[s] != -1 && !SendsIn(x.h, s, Closing) && SendsIn(y.h, s, Open))
  }

  predicate AliveOn(x: Node, y: Node, s: nat)
    requires Shaped(x) && Shaped(y) && s < STREAMS
  {
    if OwnParity(x.h.t.even, s) then Alive(x, y, s) else Alive(y, x, s)
  }

  /** No channel comes to life. */
  predicate NoneRevives(x: Node, y: Node, x': Node, y': Node) {
    && Shaped(x) && Shaped(y) && Shaped(x') && Shaped(y')
    && forall s :: 1 <= s < STREAMS ==> (AliveOn(x', y', s) ==> AliveOn(x, y, s))
  }

  lemma LaneStays(x: Node, y: Node, x': Node, y': Node, s: nat)
    requires Shaped(x) && Shaped(y) && Shaped(x') && Shaped(y') && s < STREAMS
    requires Lane(x, y, s) && SameAt(x, x', s) && SameAt(y, y', s)
    ensures Lane(x', y', s) && (Alive(x', y', s) ==> Alive(x, y, s))
  {
  }

  /** Both ends change on stream r only; if r is fine afterwards, so is everything. */
  lemma OneLane(x: Node, y: Node, x': Node, y': Node, r: nat)
    requires Inv(x, y) && Shaped(x') && Shaped(y') && HalfFine(x'.h) && HalfFine(y'.h) && 1 <= r < STREAMS
    requires x'.h.t.even == x.h.t.even && y'.h.t.even == y.h.t.even && x'.out[0] == [] && y'.out[0] == []
    requires forall s :: 1 <= s < STREAMS && s != r ==> SameAt(x, x', s) && SameAt(y, y', s)
    requires Fine(x', y', r)
    ensures Inv(x', y') && ((AliveOn(x', y', r) ==> AliveOn(x, y, r)) ==> NoneRevives(x, y, x', y'))
  {
    forall s | 1 <= s < STREAMS ensures Fine(x', y', s) && (s != r && AliveOn(x', y', s) ==> AliveOn(x, y, s)) {
      assert Fine(x, y, s);
      if s != r {
        assert SameAt(x, x', s) && SameAt(y, y', s);
        if OwnParity(x.h.t.even, s) {
          LaneStays(x, y, x', y', s);
        } else {
          LaneStays(y, x, y', x', s);
        }
      }
    }
  }

  /** A move that touches one slot, which has to do with stream r only, and that stream. */
  lemma SlotMoves(x: Node, x': Node, c: nat, r: nat)
    requires Shaped(x) && Shaped(x') && HalfFine(x.h) && HalfFine(x'.h) && c < CHANNELS && 1 <= r < STREAMS
    requires Touches(x.h.t.chans[c], r) && x'.h == x.h.(t := x'.h.t) && x'.h.t.resets == x.h.t.resets
    requires x'.h.t.chans == x.h.t.chans[c := x'.h.t.chans[c]] && x'.out == x.out[r := x'.out[r]]
    requires x'.h.t.iIndex == x.h.t.iIndex[r := x'.h.t.iIndex[r]]
    requires x'.h.t.oIndex == x.h.t.oIndex[r := x'.h.t.oIndex[r]]
    ensures forall s :: 1 <= s < STREAMS && s != r ==> SameAt(x, x', s)
  {
    SameElsewhere(x.h, x'.h, c, r);
    forall s | 1 <= s < STREAMS && s != r ensures SameAt(x, x', s) {
      assert Same(x.h, x'.h, s);
    }
  }

  // ---- Opening -------------------------------------------------------------

  lemma OpenedTable(t: Tables, c: nat, r: nat, p: Params, t': Tables)
    requires TableFine(t) && c < CHANNELS && t.chans[c].state == Closed && 1 <= r < STREAMS && Openable(p)
    requires t.oIndex[r] == t.iIndex[r] == -1 && t' == ConnectSlot(t, c, r, p, SentOk).t
    ensures TableFine(t') && Touches(t.chans[c], r)
    ensures t'.chans == t.chans[c := t'.chans[c]] && t'.iIndex == t.iIndex[r := c] && t'.oIndex == t.oIndex[r := c]
    ensures t'.chans[c].state == Connecting && Terms(t'.chans[c]) == (p.unordered, p.policy, p.value)
    ensures t'.resets == t.resets && t'.even == t.even
  {
    assert SlotFine(t.chans[c]);
    TableAt(t, t', c, r, OpenedSlot(t.chans[c], r, p, false), c, c);
  }

  lemma RequestIs(p: Params, s: nat, ch: Channel)
    requires Openable(p) && Terms(ch) == (p.unordered, p.policy, p.value)
    ensures IsRequest(Wire(s, true, Encode(p)), s, ch)
  {
    OpenRequestRoundTrip(p);
  }

  lemma OpenedLane(x: Node, y: Node, r: nat, c: nat, p: Params, x': Node)
    requires Shaped(x) && Shaped(y) && Shaped(x') && 1 <= r < STREAMS && c < CHANNELS && Lane(x, y, r) && Openable(p)
    requires x.h.t.oIndex[r] == x.h.t.iIndex[r] == -1
    requires x'.h == x.h.(t := x'.h.t) && x'.h.t.resets == x.h.t.resets && x'.h.t.oIndex[r] == c
    requires x'.h.t.chans[c].state == Connecting && x'.out[r] == x.out[r] + [Wire(r, true, Encode(p))]
    requires IsRequest(Wire(r, true, Encode(p)), r, x'.h.t.chans[c])
    ensures Calling(x', y, r)
  {
    assert Joined(x, y, r);
    assert x'.out[r] == [Wire(r, true, Encode(p))];
  }

  lemma OpenKeepsAt(x: Node, y: Node, r: nat, c: nat, p: Params, o: Out, x': Node)
    requires Inv(x, y) && 1 <= r < STREAMS && c < CHANNELS && OwnParity(x.h.t.even, r) && Openable(p)
    requires x.h.t.oIndex[r] == x.h.t.iIndex[r] == -1 && x.h.t.chans[c].state == Closed
    requires o == ConnectSlot(x.h.t, c, r, p, SentOk) && x' == Push(WithTables(x, o.t), r, o.wire)
    ensures Inv(x', y)
  {
    OpenedTable(x.h.t, c, r, p, o.t);
    RequestIs(p, r, o.t.chans[c]);
    assert Fine(x, y, r);
    OpenedLane(x, y, r, c, p, x');
    SlotMoves(x, x', c, r);
    OneLane(x, y, x', y, r);
  }

  lemma OpenKeeps(x: Node, y: Node, p: Params, st: Status)
    requires Inv(x, y) && Enabled(x, y, DoOpen(p, st))
    ensures Inv(Opened(x, p, st), y)
  {
    var r, c := FreeStream(x.h.t, st), FreeSlot(x.h.t.chans, 0);
    RoomLeft(x.h.t);
    OpenKeepsAt(x, y, r, c, p, ConnectSlot(x.h.t, c, r, p, SentOk), Opened(x, p, st));
  }

  // ---- Messages ------------------------------------------------------------

  lemma SentLane(x: Node, y: Node, r: nat, m: Wire, x': Node)
    requires Shaped(x) && Shaped(y) && 1 <= r < STREAMS && IsData(m, r) && x' == Push(x, r, [m])
    requires Fine(x, y, r) && (SendsIn(x.h, r, Connecting) || SendsIn(x.h, r, Open))
    ensures Fine(x', y, r) && (AliveOn(x', y, r) ==> AliveOn(x, y, r))
  {
    assert x'.out[r] == x.out[r] + [m];
    if OwnParity(x.h.t.even, r) {
      if Calling(x, y, r) {
        assert x'.out[r][1..] == x.out[r][1..] + [m];
      }
    } else {
      assert Joined(y, x, r);
    }
  }

  lemma SendKeeps(x: Node, y: Node, c: nat, bytes: Bytes)
    requires Inv(x, y) && Enabled(x, y, DoSend(c, bytes))
    ensures Inv(SentData(x, c, bytes), y) && NoneRevives(x, y, SentData(x, c, bytes), y)
  {
    var r := x.h.t.chans[c].oStream;
    assert SlotFine(x.h.t.chans[c]) && x.h.t.oIndex[r] == c && Fine(x, y, r);
    var x' := SentData(x, c, bytes);
    SentLane(x, y, r, Wire(r, false, bytes), x');
    OneLane(x, y, x', y, r);
  }

  lemma PushNothing(x: Node, s: nat)
    requires s < |x.out|
    ensures Push(x, s, []) == x
  {
    assert x.out[s] + [] == x.out[s];
    assert x.out[s := x.out[s]] == x.out;
  }

  lemma TailIn(ws: seq<Wire>, s: nat)
    requires ws != []
    ensures (AllData(ws, s) ==> AllData(ws[1..], s) && IsData(ws[0], s))
    ensures (AllReplies(ws, s) ==> AllReplies(ws[1..], s) && IsReply(ws[0], s))
  {
    assert ws[0] in ws && forall m :: m in ws[1..] ==> m in ws;
  }

  /** The table of an end that hears an acknowledgement, or data. */
  lemma AckTable(t: Tables, s: nat, t': Tables)
    requires TableFine(t) && 1 <= s < STREAMS && t' == HandleAck(t, s)
    ensures TableFine(t') && t'.iIndex == t.iIndex && t'.oIndex == t.oIndex
    ensures t'.resets == t.resets && t'.even == t.even
    ensures t.iIndex[s] == -1 || t.chans[t.iIndex[s]].state != Connecting ==> t' == t
    ensures t.iIndex[s] != -1 && t.chans[t.iIndex[s]].state == Connecting ==>
              && t.oIndex[s] == t.iIndex[s] && Touches(t.chans[t.iIndex[s]], s)
              && t'.chans == t.chans[t.iIndex[s] := t.chans[t.iIndex[s]].(state := Open)]
  {
    var c := t.iIndex[s];
    if c != -1 && t.chans[c].state == Connecting {
      assert SlotFine(t.chans[c]) && t.chans[c].iStream == s;
      TableAt(t, t', c, s, t.chans[c].(state := Open), c, c);
    }
  }

  /** The opener hears a reply. */
  lemma ReplyLane(x: Node, y: Node, s: nat, t': Tables, x': Node)
    requires Shaped(x) && Shaped(y) && TableFine(x.h.t) && 1 <= s < STREAMS && Joined(x, y, s) && y.out[s] != []
    requires t' == HandleAck(x.h.t, s) && x' == WithTables(x, t')
    ensures Joined(x', Consumed(y, s), s) && (Alive(x', Consumed(y, s), s) ==> Alive(x, y, s))
  {
    AckTable(x.h.t, s, t');
    TailIn(y.out[s], s);
  }

  lemma ReplyIsAck(x: Node, s: nat, m: Wire, st: Status)
    requires Shaped(x) && s < STREAMS && IsReply(m, s)
    ensures Received(x, s, m, st) == WithTables(x, HandleAck(x.h.t, s))
  {
    PushNothing(WithTables(x, HandleAck(x.h.t, s)), s);
  }

  /** Hearing an acknowledgement touches at most the slot of its stream. */
  lemma AckMoves(x: Node, s: nat, x': Node)
    requires Shaped(x) && HalfFine(x.h) && 1 <= s < STREAMS && x' == WithTables(x, HandleAck(x.h.t, s))
    ensures HalfFine(x'.h) && forall r :: 1 <= r < STREAMS && r != s ==> SameAt(x, x', r)
  {
    AckTable(x.h.t, s, x'.h.t);
    var c := x.h.t.iIndex[s];
    if c != -1 && x.h.t.chans[c].state == Connecting {
      SlotMoves(x, x', c, s);
    }
  }

  /** What an opener hears is a reply. */
  lemma HearsReply(x: Node, y: Node, s: nat)
    requires Inv(x, y) && 1 <= s < STREAMS && OwnParity(x.h.t.even, s) && y.out[s] != []
    ensures Joined(x, y, s) && IsReply(y.out[s][0], s)
  {
    assert Fine(x, y, s);
    TailIn(y.out[s], s);
  }

  lemma OpenerHears(x: Node, y: Node, s: nat, m: Wire, st: Status)
    requires Inv(x, y) && 1 <= s < STREAMS && OwnParity(x.h.t.even, s) && y.out[s] != [] && y.out[s][0] == m
    ensures m.stream == s && Inv(Received(x, s, m, st), Consumed(y, s))
    ensures NoneRevives(x, y, Received(x, s, m, st), Consumed(y, s))
  {
    HearsReply(x, y, s);
    ReplyIsAck(x, s, m, st);
    var x' := WithTables(x, HandleAck(x.h.t, s));
    ReplyLane(x, y, s, x'.h.t, x');
    AckMoves(x, s, x');
    OneLane(x, y, x', Consumed(y, s), s);
  }

  lemma AcceptedTable(t: Tables, c: nat, r: nat, p: Params, t': Tables)
    requires TableFine(t) && c < CHANNELS && t.chans[c].state == Closed && 1 <= r < STREAMS
    requires t.oIndex[r] == t.iIndex[r] == -1 && t' == AcceptSlot(t, c, r, p, SentOk).t
    ensures TableFine(t') && Touches(t.chans[c], r)
    ensures t'.chans == t.chans[c := t'.chans[c]] && t'.iIndex == t.iIndex[r := c] && t'.oIndex == t.oIndex[r := c]
    ensures t'.chans[c].state == Open && Terms(t'.chans[c]) == (p.unordered, p.policy, p.value)
    ensures t'.resets == t.resets && t'.even == t.even
  {
    assert SlotFine(t.chans[c]);
    TableAt(t, t', c, r, AcceptedSlot(t.chans[c], r, p, false), c, c);
  }

  /** The acceptor, free on the stream, has taken the request. */
  lemma AcceptedLane(x: Node, y: Node, s: nat, c: nat, p: Params, x': Node)
    requires Shaped(x) && Shaped(y) && Shaped(x') && TableFine(y.h.t) && 1 <= s < STREAMS && c < CHANNELS
    requires Calling(y, x, s) && x.h.t.oIndex[s] == -1 && p == Decode(y.out[s][0].bytes)
    requires x'.h == x.h.(t := x'.h.t) && x'.h.t.resets == x.h.t.resets
    requires x'.h.t.oIndex[s] == x'.h.t.iIndex[s] == c && x'.h.t.chans[c].state == Open
    requires Terms(x'.h.t.chans[c]) == (p.unordered, p.policy, p.value)
    requires x'.out[s] == x.out[s] + [Wire(s, true, [OPEN_ACK])]
    ensures Joined(Consumed(y, s), x', s)
  {
    assert SlotFine(y.h.t.chans[y.h.t.oIndex[s]]);
    assert x'.out[s] == [Wire(s, true, [OPEN_ACK])];
  }

  lemma AcceptKeeps(x: Node, y: Node, s: nat, c: nat, p: Params, o: Out, x': Node)
    requires Inv(x, y) && 1 <= s < STREAMS && !OwnParity(x.h.t.even, s) && Calling(y, x, s) && c < CHANNELS
    requires x.h.t.oIndex[s] == -1 && x.h.t.chans[c].state == Closed && p == Decode(y.out[s][0].bytes)
    requires o == AcceptSlot(x.h.t, c, s, p, SentOk) && x' == Push(WithTables(x, o.t), s, o.wire)
    ensures Inv(x', Consumed(y, s)) && NoneRevives(x, y, x', Consumed(y, s))
  {
    AcceptedTable(x.h.t, c, s, p, o.t);
    AcceptedLane(x, y, s, c, p, x');
    SlotMoves(x, x', c, s);
    OneLane(x, y, x', Consumed(y, s), s);
  }

  lemma RequestIsHeard(x: Node, s: nat, m: Wire, st: Status, ch: Channel)
    requires Shaped(x) && TableFine(x.h.t) && 1 <= s < STREAMS && IsRequest(m, s, ch)
    requires x.h.t.iIndex[s] == x.h.t.oIndex[s] == -1 && st.OutStreams? && s <= Limit(st)
    ensures var c := FreeSlot(x.h.t.chans, 0);
            c != -1 && (var o := AcceptSlot(x.h.t, c, s, Decode(m.bytes), SentOk);
                        Received(x, s, m, st) == Push(WithTables(x, o.t), s, o.wire))
  {
    RoomLeft(x.h.t);
  }

  lemma DataLane(x: Node, y: Node, s: nat)
    requires Shaped(x) && Shaped(y) && s < STREAMS && Joined(y, x, s) && y.out[s] != []
    ensures Joined(Consumed(y, s), x, s) && (Alive(Consumed(y, s), x, s) ==> Alive(y, x, s))
  {
    TailIn(y.out[s], s);
  }

  lemma DataChangesNothing(x: Node, y: Node, s: nat, m: Wire, st: Status)
    requires Inv(x, y) && 1 <= s < STREAMS && Joined(y, x, s) && IsData(m, s)
    ensures Received(x, s, m, st) == x
  {
    AckTable(x.h.t, s, HandleAck(x.h.t, s));
    if x.h.t.iIndex[s] != -1 {
      OneSlot(x.h.t, x.h.t.iIndex[s], s);
      assert SlotFine(x.h.t.chans[x.h.t.iIndex[s]]);
    }
    PushNothing(x, s);
  }

  lemma AcceptorHears(x: Node, y: Node, s: nat, m: Wire, st: Status)
    requires Inv(x, y) && 1 <= s < STREAMS && !OwnParity(x.h.t.even, s) && Enabled(x, y, DoReceive(s, st))
    requires y.out[s][0] == m
    ensures Inv(Received(x, s, m, st), Consumed(y, s))
    ensures NoneRevives(x, y, Received(x, s, m, st), Consumed(y, s))
  {
    assert Fine(x, y, s);
    if Calling(y, x, s) {
      RequestIsHeard(x, s, m, st, y.h.t.chans[y.h.t.oIndex[s]]);
      var c := FreeSlot(x.h.t.chans, 0);
      AcceptKeeps(x, y, s, c, Decode(m.bytes), AcceptSlot(x.h.t, c, s, Decode(m.bytes), SentOk), Received(x, s, m, st));
    } else {
      TailIn(y.out[s], s);
      DataLane(x, y, s);
      DataChangesNothing(x, y, s, m, st);
      OneLane(x, y, x, Consumed(y, s), s);
    }
  }

  // ---- Closing -------------------------------------------------------------

  lemma CloseLane(x: Node, y: Node, c: nat, s: nat, x': Node)
    requires Shaped(x) && Shaped(y) && TableFine(x.h.t) && c < CHANNELS && x.h.t.chans[c].state == Open
    requires s == x.h.t.chans[c].oStream && 1 <= s && x' == x.(h := CloseHere(x.h, c)) && Fine(x, y, s)
    ensures Fine(x', y, s) && !AliveOn(x', y, s)
  {
    assert x.h.t.oIndex[s] == c;
    if OwnParity(x.h.t.even, s) {
      assert Joined(x', y, s);
    } else {
      assert Joined(y, x', s);
    }
  }

  lemma CloseKeeps(x: Node, y: Node, c: nat, x': Node)
    requires Inv(x, y) && c < CHANNELS && x.h.t.chans[c].state == Open && x' == x.(h := CloseHere(x.h, c))
    ensures Inv(x', y) && NoneRevives(x, y, x', y)
    ensures 1 <= x.h.t.chans[c].oStream < STREAMS && !AliveOn(x', y, x.h.t.chans[c].oStream)
  {
    var s := x.h.t.chans[c].oStream;
    CloseTable(x.h, c, s, x'.h);
    assert x.h.t.oIndex[s] == c && Fine(x, y, s);
    CloseLane(x, y, c, s, x');
    SameElsewhere(x.h, x'.h, c, s);
    forall r | 1 <= r < STREAMS && r != s ensures SameAt(x, x', r) {
      assert Same(x.h, x'.h, r);
    }
    OneLane(x, y, x', y, s);
  }

  lemma RequestLane(x: Node, y: Node, s: nat, ok: bool, x': Node)
    requires Shaped(x) && Shaped(y) && s < STREAMS && x' == x.(h := Request(x.h, ok))
    ensures Lane(x, y, s) ==> Lane(x', y, s) && (Alive(x', y, s) ==> Alive(x, y, s))
    ensures Lane(y, x, s) ==> Lane(y, x', s) && (Alive(y, x', s) ==> Alive(y, x, s))
  {
  }

  lemma RequestKeeps(x: Node, y: Node, ok: bool, x': Node)
    requires Inv(x, y) && x' == x.(h := Request(x.h, ok))
    ensures Inv(x', y) && NoneRevives(x, y, x', y)
  {
    forall s | 1 <= s < STREAMS ensures Fine(x', y, s) && (AliveOn(x', y, s) ==> AliveOn(x, y, s)) {
      assert Fine(x, y, s);
      RequestLane(x, y, s, ok, x');
    }
  }

  /** A reset is heard of on a stream in use, by a channel that is not still connecting. */
  lemma ResetFindsChannel(x: Node, y: Node, s: nat)
    requires Inv(x, y) && s in y.h.asked && 1 <= s < STREAMS && y.out[s] == []
    ensures if OwnParity(x.h.t.even, s) then Joined(x, y, s) else Joined(y, x, s)
    ensures x.h.t.iIndex[s] != -1 && CanHear(x.h.t, s) && Dirs(x.h, y.h, s) && SendsIn(y.h, s, Closing)
  {
    assert Fine(x, y, s);
    if x.h.t.iIndex[s] != -1 {
      OneSlot(x.h.t, x.h.t.iIndex[s], s);
      assert SlotFine(x.h.t.chans[x.h.t.iIndex[s]]);
    }
  }

  lemma ResetLane(x: Node, y: Node, s: nat, x': Node, y': Node)
    requires Shaped(x) && Shaped(y) && Shaped(x') && Shaped(y') && s < STREAMS && y.out[s] == []
    requires x'.out == x.out && y'.out == y.out && x'.h.t.even == x.h.t.even && y'.h.t == y.h.t
    requires if OwnParity(x.h.t.even, s) then Joined(x, y, s) else Joined(y, x, s)
    requires Dirs(x'.h, y'.h, s) && (x'.h.t.oIndex[s] != -1 ==> x'.h.t.chans[x'.h.t.oIndex[s]].state == Closing)
    requires x'.h.t.iIndex[s] == -1 && SendsIn(y.h, s, Closing)
    ensures Fine(x', y', s) && !AliveOn(x', y', s)
  {
    if OwnParity(x.h.t.even, s) {
      assert Joined(x', y', s);
    } else {
      assert Joined(y', x', s);
    }
  }

  lemma ResetKeeps(x: Node, y: Node, s: nat, x': Node, y': Node)
    requires Inv(x, y) && s in y.h.asked && 1 <= s < STREAMS && y.out[s] == []
    requires x' == WithTables(x, ResetIncoming(x.h.t, s)) && y' == y.(h := Heard(y.h, s))
    ensures Inv(x', y') && NoneRevives(x, y, x', y')
  {
    ResetFindsChannel(x, y, s);
    var c := x.h.t.iIndex[s];
    ResetHalf(x.h, s, c, x'.h);
    ResetOnStream(x.h, y.h, s, c, x'.h);
    assert x.h.t.chans[c].iStream == s;
    ResetIs(x.h.t, s, c, x'.h.t);
    ResetLane(x, y, s, x', y');
    forall r | 1 <= r < STREAMS && r != s ensures SameAt(x, x', r) && SameAt(y, y', r) {
      assert Same(x.h, x'.h, r);
    }
    OneLane(x, y, x', y', s);
  }

  lemma DoneFindsClosing(x: Node, y: Node, s: nat)
    requires Inv(x, y) && s in x.h.done && 1 <= s < STREAMS
    ensures SendsIn(x.h, s, Closing) && Touches(x.h.t.chans[x.h.t.oIndex[s]], s)
  {
    assert Fine(x, y, s);
    if x.h.t.oIndex[s] != -1 {
      OneSlot(x.h.t, x.h.t.oIndex[s], s);
    }
  }

  lemma DoneIs(t: Tables, s: nat, c: nat, t': Tables)
    requires TableFine(t) && 1 <= s < STREAMS && t.oIndex[s] == c && t' == ResetOutgoing(t, s)
    ensures t'.chans == t.chans[c := Unsent(t.chans[c])] && t'.oIndex == t.oIndex[s := -1] && t'.iIndex == t.iIndex
    ensures t'.resets == t.resets && t'.even == t.even
  {
    assert t.chans[c].oStream == s;
  }

  lemma DoneLane(x: Node, y: Node, s: nat, x': Node)
    requires Shaped(x) && Shaped(y) && Shaped(x') && s < STREAMS && Fine(x, y, s) && s in x.h.done
    requires x'.out == x.out && x'.h.t.even == x.h.t.even && x'.h.asked == x.h.asked && x'.h.done == x.h.done - {s}
    requires x'.h.t.resets == x.h.t.resets && x'.h.t.iIndex == x.h.t.iIndex && x'.h.t.oIndex[s] == -1
    requires SendsIn(x.h, s, Closing)
    ensures Fine(x', y, s) && (AliveOn(x', y, s) ==> AliveOn(x, y, s))
  {
    if OwnParity(x.h.t.even, s) {
      assert Joined(x', y, s);
    } else if Calling(y, x, s) {
      assert Calling(y, x', s);
    } else {
      assert Joined(y, x', s);
    }
  }

  lemma DoneKeeps(x: Node, y: Node, s: nat, x': Node)
    requires Inv(x, y) && s in x.h.done && 1 <= s < STREAMS
    requires x' == x.(h := x.h.(t := ResetOutgoing(x.h.t, s), done := x.h.done - {s}))
    ensures Inv(x', y) && NoneRevives(x, y, x', y)
  {
    DoneFindsClosing(x, y, s);
    var c := x.h.t.oIndex[s];
    DoneTable(x.h.t, s);
    DoneIs(x.h.t, s, c, x'.h.t);
    assert Fine(x, y, s);
    DoneLane(x, y, s, x');
    SameElsewhere(x.h, x'.h, c, s);
    forall r | 1 <= r < STREAMS && r != s ensures SameAt(x, x', r) {
      assert Same(x.h, x'.h, r);
    }
    OneLane(x, y, x', y, s);
  }

  lemma ClosingKeeps(x: Node, y: Node, m: DceClosing.Move)
    requires Inv(x, y) && Enabled(x, y, DoClosing(m))
    ensures var q := DceClosing.Moved(x.h, y.h, m);
            Inv(x.(h := q.a), y.(h := q.b)) && NoneRevives(x, y, x.(h := q.a), y.(h := q.b))
  {
    match m
    case DoClose(c, ok) =>
      CloseMoves(x.h, y.h, c, ok);
      var x1 := x.(h := CloseHere(x.h, c));
      CloseKeeps(x, y, c, x1);
      RequestKeeps(x1, y, ok, x1.(h := Request(x1.h, ok)));
    case HearReset(s, oks, ok) =>
      assert InRange(s);
      ResetFindsChannel(x, y, s);
      ResetMoves(x.h, y.h, s, oks, ok);
      var x1, y1 := WithTables(x, ResetIncoming(x.h.t, s)), y.(h := Heard(y.h, s));
      ResetKeeps(x, y, s, x1, y1);
      RequestKeeps(x1, y1, ok, x1.(h := Request(x1.h, ok)));
    case HearDone(s, oks, ok) =>
      assert InRange(s);
      DoneFindsClosing(x, y, s);
      DoneMoves(x.h, y.h, s, oks, ok);
      var x1 := x.(h := x.h.(t := ResetOutgoing(x.h.t, s), done := x.h.done - {s}));
      DoneKeeps(x, y, s, x1);
      RequestKeeps(x1, y, ok, x1.(h := Request(x1.h, ok)));
    case HearOther(oks, ok) =>
      OtherMoves(x.h, y.h, oks, ok);
      RequestKeeps(x, y, ok, x.(h := Request(x.h, ok)));
  }

  // ---- Runs ----------------------------------------------------------------

  lemma MovedShaped(x: Node, y: Node, m: Move)
    requires Shaped(x) && Shaped(y)
    ensures var q := Moved(x, y, m); Shaped(q.a) && Shaped(q.b)
  {
    if m.DoClosing? {
      MovedSized(x.h, y.h, m.m);
    }
  }

  function Step(p: Nodes, t: Turn): (q: Nodes)
    requires Shaped(p.a) && Shaped(p.b)
    ensures Shaped(q.a) && Shaped(q.b)
  {
    MovedShaped(p.a, p.b, t.move);
    MovedShaped(p.b, p.a, t.move);
    if t.first then Moved(p.a, p.b, t.move) else var q := Moved(p.b, p.a, t.move); Nodes(q.b, q.a)
  }

  function Run(p: Nodes, turns: seq<Turn>): (q: Nodes)
    requires Shaped(p.a) && Shaped(p.b)
    ensures Shaped(q.a) && Shaped(q.b)
    decreases |turns|
  {
    if turns == [] then p else Run(Step(p, turns[0]), turns[1..])
  }

  lemma MoveKeeps(x: Node, y: Node, m: Move)
    requires Inv(x, y)
    ensures var q := Moved(x, y, m); Inv(q.a, q.b) && (!m.DoOpen? ==> NoneRevives(x, y, q.a, q.b))
  {
    if Enabled(x, y, m) {
      match m
      case DoOpen(p, st) => OpenKeeps(x, y, p, st);
      case DoSend(c, bytes) => SendKeeps(x, y, c, bytes);
      case DoReceive(s, st) =>
        if OwnParity(x.h.t.even, s) {
          OpenerHears(x, y, s, y.out[s][0], st);
        } else {
          AcceptorHears(x, y, s, y.out[s][0], st);
        }
      case DoClosing(m') => ClosingKeeps(x, y, m');
    }
  }

  lemma RevivalSwaps(x: Node, y: Node, x': Node, y': Node)
    requires NoneRevives(x, y, x', y') && x.h.t.even != y.h.t.even && x'.h.t.even != y'.h.t.even
    ensures NoneRevives(y, x, y', x')
  {
    forall s | 1 <= s < STREAMS ensures AliveOn(y', x', s) ==> AliveOn(y, x, s) {
      assert AliveOn(x', y', s) ==> AliveOn(x, y, s);
    }
  }

  lemma StepKeeps(p: Nodes, t: Turn)
    requires Inv(p.a, p.b)
    ensures var q := Step(p, t); Inv(q.a, q.b) && (!t.move.DoOpen? ==> NoneRevives(p.a, p.b, q.a, q.b))
  {
    if t.first {
      MoveKeeps(p.a, p.b, t.move);
    } else {
      InvSwaps(p.a, p.b);
      MoveKeeps(p.b, p.a, t.move);
      var q := Moved(p.b, p.a, t.move);
      InvSwaps(q.a, q.b);
      if !t.move.DoOpen? {
        RevivalSwaps(p.b, p.a, q.a, q.b);
      }
    }
  }

  lemma {:induction false} InvAlong(p: Nodes, turns: seq<Turn>)
    requires Inv(p.a, p.b)
    ensures Inv(Run(p, turns).a, Run(p, turns).b)
    decreases |turns|
  {
    if turns == [] {
    } else {
      StepKeeps(p, turns[0]);
      InvAlong(Step(p, turns[0]), turns[1..]);
    }
  }

  lemma {:induction false} DeadStays(p: Nodes, turns: seq<Turn>, s: nat)
    requires Inv(p.a, p.b) && 1 <= s < STREAMS && !AliveOn(p.a, p.b, s)
    requires forall t :: t in turns ==> !t.move.DoOpen?
    ensures !AliveOn(Run(p, turns).a, Run(p, turns).b, s)
    decreases |turns|
  {
    if turns == [] {
    } else {
      assert turns[0] in turns;
      StepKeeps(p, turns[0]);
      DeadStays(Step(p, turns[0]), turns[1..], s);
    }
  }

  // ---- Rest ----------------------------------------------------------------

  /** Nothing is in flight from x, and no reset is outstanding. */
  predicate Resting(x: Node)
    requires Shaped(x)
  {
    AtRest(x.h) && forall s :: 0 <= s < STREAMS ==> x.out[s] == []
  }

  /** Stream s is an open channel at both ends, with equal ordering and reliability. */
  predicate InUse(x: Node, y: Node, s: nat)
    requires Shaped(x) && Shaped(y) && s < STREAMS
  {
    var c, d := x.h.t.oIndex[s], y.h.t.oIndex[s];
    && c != -1 && c == x.h.t.iIndex[s] && d != -1 && d == y.h.t.iIndex[s]
    && x.h.t.chans[c].state == Open && y.h.t.chans[d].state == Open
    && Terms(x.h.t.chans[c]) == Terms(y.h.t.chans[d])
  }

  lemma LaneAtRest(x: Node, y: Node, s: nat)
    requires Shaped(x) && Shaped(y) && 1 <= s < STREAMS && Lane(x, y, s) && TableFine(x.h.t) && TableFine(y.h.t)
    requires AtRest(x.h) && AtRest(y.h) && x.out[s] == [] && y.out[s] == []
    ensures (Free(x.h, s) && Free(y.h, s)) || (InUse(x, y, s) && Alive(x, y, s))
  {
    var c, d := x.h.t.oIndex[s], y.h.t.oIndex[s];
    if c != -1 {
      OneSlot(x.h.t, c, s);
      assert SlotFine(x.h.t.chans[c]);
    }
    if d != -1 {
      OneSlot(y.h.t, d, s);
      assert SlotFine(y.h.t.chans[d]);
    }
  }

  lemma RestIsWhole(x: Node, y: Node, s: nat)
    requires Inv(x, y) && Resting(x) && Resting(y) && 1 <= s < STREAMS
    ensures (Free(x.h, s) && Free(y.h, s)) || (InUse(x, y, s) && AliveOn(x, y, s))
  {
    assert Fine(x, y, s);
    if OwnParity(x.h.t.even, s) {
      LaneAtRest(x, y, s);
    } else {
      LaneAtRest(y, x, s);
    }
  }

  lemma SlotsAtRest(x: Node, y: Node, c: nat)
    requires Inv(x, y) && Resting(x) && Resting(y) && c < CHANNELS && x.h.t.chans[c].state != Closed
    ensures var s := x.h.t.chans[c].oStream; 1 <= s < STREAMS && x.h.t.oIndex[s] == c && InUse(x, y, s)
  {
    var s := StreamOf(x.h.t.chans[c]);
    assert SlotFine(x.h.t.chans[c]);
    assert x.h.t.iIndex[s] == c || x.h.t.oIndex[s] == c;
    RestIsWhole(x, y, s);
  }

  /** The life of data channels. From a fresh association, with channels opened, used, closed
      and opened again by either end in any order: whenever nothing is in flight or
      outstanding, each stream is an open channel at both ends with equal ordering and
      reliability, or unknown to both; every slot in use belongs to such a channel; and there
      is always a free slot. */
  lemma LifetimeIsWhole(even: bool, turns: seq<Turn>, s: nat, c: nat)
    requires 1 <= s < STREAMS && c < CHANNELS
    ensures var q := Run(Nodes(Start(even), Start(!even)), turns);
            && FreeSlot(q.a.h.t.chans, 0) != -1
            && (Resting(q.a) && Resting(q.b) ==>
                  && ((Free(q.a.h, s) && Free(q.b.h, s)) || InUse(q.a, q.b, s))
                  && (q.a.h.t.chans[c].state != Closed ==>
                        var r := q.a.h.t.chans[c].oStream; r >= 1 && q.a.h.t.oIndex[r] == c && InUse(q.a, q.b, r)))
  {
    StartInv(even);
    InvAlong(Nodes(Start(even), Start(!even)), turns);
    var q := Run(Nodes(Start(even), Start(!even)), turns);
    RoomLeft(q.a.h.t);
    if Resting(q.a) && Resting(q.b) {
      RestIsWhole(q.a, q.b, s);
      if q.a.h.t.chans[c].state != Closed {
        SlotsAtRest(q.a, q.b, c);
      }
    }
  }

  // ---- Giving up a channel ---------------------------------------------------

  lemma {:induction false} RunSplits(p: Nodes, before: seq<Turn>, after: seq<Turn>)
    requires Shaped(p.a) && Shaped(p.b)
    ensures Run(p, before + after) == Run(Run(p, before), after)
    decreases |before|
  {
    if before == [] {
      assert before + after == after;
    } else {
      assert (before + after)[1..] == before[1..] + after;
      RunSplits(Step(p, before[0]), before[1..], after);
    }
  }

  lemma {:induction false} RunStarts(p: Nodes, t: Turn, after: seq<Turn>)
    requires Shaped(p.a) && Shaped(p.b)
    ensures Run(p, [t] + after) == Run(Step(p, t), after)
  {
    assert ([t] + after)[1..] == after;
  }

  lemma Regroups(before: seq<Turn>, t: Turn, after: seq<Turn>)
    ensures before + [t] + after == before + ([t] + after)
  {
  }

  lemma {:induction false} RunThrough(p: Nodes, before: seq<Turn>, t: Turn, after: seq<Turn>, q: Nodes)
    requires Shaped(p.a) && Shaped(p.b) && q == Run(p, before)
    ensures Run(p, before + [t] + after) == Run(Step(q, t), after)
  {
    Regroups(before, t, after);
    RunSplits(p, before, [t] + after);
    RunStarts(q, t, after);
  }

  /** The turn in which an end closes its channel on stream s. */
  predicate GivesUp(q: Nodes, t: Turn, s: nat)
    requires Shaped(q.a) && Shaped(q.b)
  {
    && t.move.DoClosing? && t.move.m.DoClose? && t.move.m.c < CHANNELS
    && (var ch := (if t.first then q.a else q.b).h.t.chans[t.move.m.c]; ch.state == Open && ch.oStream == s)
  }

  lemma CloseKills(x: Node, y: Node, c: nat, ok: bool, x': Node)
    requires Inv(x, y) && c < CHANNELS && x.h.t.chans[c].state == Open
    requires x' == x.(h := Request(CloseHere(x.h, c), ok))
    ensures Inv(x', y) && 1 <= x.h.t.chans[c].oStream < STREAMS && !AliveOn(x', y, x.h.t.chans[c].oStream)
  {
    var x1 := x.(h := CloseHere(x.h, c));
    CloseKeeps(x, y, c, x1);
    RequestKeeps(x1, y, ok, x');
  }

  lemma CloseTurn(x: Node, y: Node, c: nat, ok: bool, q: Nodes)
    requires Inv(x, y) && c < CHANNELS && x.h.t.chans[c].state == Open && q == Moved(x, y, DoClosing(DoClose(c, ok)))
    ensures Inv(q.a, q.b) && 1 <= x.h.t.chans[c].oStream < STREAMS && !AliveOn(q.a, q.b, x.h.t.chans[c].oStream)
  {
    CloseMoves(x.h, y.h, c, ok);
    CloseKills(x, y, c, ok, q.a);
  }

  lemma GivingUpKills(q: Nodes, t: Turn, s: nat)
    requires Inv(q.a, q.b) && 1 <= s < STREAMS && GivesUp(q, t, s)
    ensures !AliveOn(Step(q, t).a, Step(q, t).b, s)
  {
    var c, ok := t.move.m.c, t.move.m.ok;
    if t.first {
      CloseTurn(q.a, q.b, c, ok, Moved(q.a, q.b, t.move));
    } else {
      InvSwaps(q.a, q.b);
      CloseTurn(q.b, q.a, c, ok, Moved(q.b, q.a, t.move));
    }
  }

  /** A channel given up is forgotten. In any run, once either end has closed its channel on
      stream s, and as long as nobody opens another one, the stream is unknown to both ends
      whenever nothing is in flight or outstanding. */
  lemma {:induction false} GivenUpIsForgotten(even: bool, before: seq<Turn>, t: Turn, after: seq<Turn>, s: nat)
    requires 1 <= s < STREAMS && GivesUp(Run(Nodes(Start(even), Start(!even)), before), t, s)
    requires forall u :: u in after ==> !u.move.DoOpen?
    ensures var q := Run(Nodes(Start(even), Start(!even)), before + [t] + after);
            Resting(q.a) && Resting(q.b) ==> Free(q.a.h, s) && Free(q.b.h, s)
  {
    var p := Nodes(Start(even), Start(!even));
    StartInv(even);
    InvAlong(p, before);
    var q := Run(p, before);
    StepKeeps(q, t);
    GivingUpKills(q, t, s);
    DeadStays(Step(q, t), after, s);
    InvAlong(Step(q, t), after);
    RunThrough(p, before, t, after, q);
    var end := Run(Step(q, t), after);
    if Resting(end.a) && Resting(end.b) {
      RestIsWhole(end.a, end.b, s);
    }
  }

  // ---- Rest is reached -------------------------------------------------------

  /** What hearing a message can still lead to: a request, an acknowledgement and a channel. */
  function Load(ws: seq<Wire>): nat {
    if ws == [] then 0 else (if ws[0].control && ws[0].bytes != [OPEN_ACK] then 5 else 1) + Load(ws[1..])
  }

  function Loads(out: seq<seq<Wire>>): nat {
    if out == [] then 0 else Load(out[0]) + Loads(out[1..])
  }

  /** A channel not yet closing can still have its stream reset. */
  function Worth(ch: Channel): nat {
    if ch.state == Connecting || ch.state == Open then 3 else 0
  }

  function Worths(chans: seq<Channel>): nat {
    if chans == [] then 0 else Worth(chans[0]) + Worths(chans[1..])
  }

  function Pending(x: Half): nat {
    3 * |x.t.resets| + 2 * |x.asked| + |x.done|
  }

  /** What is left to do at x when nobody opens, sends or closes any more. */
  function Weight(x: Node): nat {
    Worths(x.h.t.chans) + Loads(x.out) + Pending(x.h)
  }

  lemma {:induction false} WorthsAt(chans: seq<Channel>, c: nat, ch: Channel)
    requires c < |chans|
    ensures Worths(chans[c := ch]) + Worth(chans[c]) == Worths(chans) + Worth(ch)
  {
    if c == 0 {
      assert chans[0 := ch][1..] == chans[1..];
    } else {
      assert chans[c := ch][1..] == chans[1..][c - 1 := ch];
      WorthsAt(chans[1..], c - 1, ch);
    }
  }

  lemma {:induction false} LoadsAt(out: seq<seq<Wire>>, s: nat, ws: seq<Wire>)
    requires s < |out|
    ensures Loads(out[s := ws]) + Load(out[s]) == Loads(out) + Load(ws)
  {
    if s == 0 {
      assert out[0 := ws][1..] == out[1..];
    } else {
      assert out[s := ws][1..] == out[1..][s - 1 := ws];
      LoadsAt(out[1..], s - 1, ws);
    }
  }

  lemma {:induction false} UnionFits(a: set<nat>, b: set<nat>)
    ensures |a + b| <= |a| + |b|
    decreases |b|
  {
    if b == {} {
      assert a + b == a;
    } else {
      var x :| x in b;
      UnionFits(a, b - {x});
      assert a + b == (a + (b - {x})) + {x};
    }
  }

  lemma {:induction false} SetFits(xs: seq<nat>, q: set<nat>)
    requires q == set x | x in xs
    ensures |q| <= |xs|
  {
    if xs == [] {
    } else {
      var rest := set x | x in xs[1..];
      SetFits(xs[1..], rest);
      assert q == rest + {xs[0]};
      UnionFits(rest, {xs[0]});
    }
  }

  /** Asking for the queued resets leaves less to do. */
  lemma RequestLightens(x: Half, ok: bool)
    ensures Request(x, ok).t.chans == x.t.chans
    ensures Pending(Request(x, ok)) <= Pending(x)
    ensures ok && x.t.resets != [] ==> Pending(Request(x, ok)) < Pending(x)
  {
    if ok {
      var q := set s | s in x.t.resets;
      SetFits(x.t.resets, q);
      UnionFits(x.asked, q);
      assert Request(x, ok).asked == x.asked + q;
    }
  }

  /** The deliveries: messages, resets and their completions, and the request of what is queued. */
  predicate Delivers(x: Node, m: Move) {
    || m.DoReceive?
    || (m.DoClosing? && (m.m.HearReset? || m.m.HearDone? || (m.m.HearOther? && m.m.ok && x.h.t.resets != [])))
  }

  lemma ConsumedIs(y: Node, s: nat)
    requires s < |y.out| && y.out[s] != []
    ensures Loads(Consumed(y, s).out) < Loads(y.out)
    ensures y.out[s][0].control && y.out[s][0].bytes != [OPEN_ACK] ==> Loads(Consumed(y, s).out) + 5 == Loads(y.out)
  {
    LoadsAt(y.out, s, y.out[s][1..]);
  }

  lemma AckLightens(x: Node, s: nat, x': Node)
    requires Shaped(x) && HalfFine(x.h) && 1 <= s < STREAMS && x' == WithTables(x, HandleAck(x.h.t, s))
    ensures Weight(x') == Weight(x)
  {
    AckTable(x.h.t, s, x'.h.t);
    var c := x.h.t.iIndex[s];
    if c != -1 && x.h.t.chans[c].state == Connecting {
      WorthsAt(x.h.t.chans, c, x.h.t.chans[c].(state := Open));
    }
  }

  lemma AcceptCosts(x: Node, s: nat, c: nat, p: Params, o: Out, x': Node)
    requires Shaped(x) && TableFine(x.h.t) && 1 <= s < STREAMS && c < CHANNELS && x.h.t.chans[c].state == Closed
    requires x.h.t.oIndex[s] == x.h.t.iIndex[s] == -1 && x.out[s] == []
    requires o == AcceptSlot(x.h.t, c, s, p, SentOk) && x' == Push(WithTables(x, o.t), s, o.wire)
    ensures Weight(x') == Weight(x) + 4
  {
    AcceptedTable(x.h.t, c, s, p, o.t);
    WorthsAt(x.h.t.chans, c, o.t.chans[c]);
    assert x.out[s] + o.wire == [Wire(s, true, [OPEN_ACK])];
    LoadsAt(x.out, s, [Wire(s, true, [OPEN_ACK])]);
  }

  lemma RequestWeighs(m: Wire, s: nat, ch: Channel)
    requires IsRequest(m, s, ch)
    ensures m.control && m.bytes != [OPEN_ACK]
  {
  }

  lemma ReceiveLightens(x: Node, y: Node, s: nat, st: Status)
    requires Inv(x, y) && Enabled(x, y, DoReceive(s, st)) && s >= 1
    ensures Weight(Received(x, s, y.out[s][0], st)) + Weight(Consumed(y, s)) < Weight(x) + Weight(y)
  {
    var m := y.out[s][0];
    assert Fine(x, y, s);
    ConsumedIs(y, s);
    if OwnParity(x.h.t.even, s) {
      TailIn(y.out[s], s);
      ReplyIsAck(x, s, m, st);
      AckLightens(x, s, WithTables(x, HandleAck(x.h.t, s)));
    } else if Calling(y, x, s) {
      RequestWeighs(m, s, y.h.t.chans[y.h.t.oIndex[s]]);
      RequestIsHeard(x, s, m, st, y.h.t.chans[y.h.t.oIndex[s]]);
      var c := FreeSlot(x.h.t.chans, 0);
      AcceptCosts(x, s, c, Decode(m.bytes), AcceptSlot(x.h.t, c, s, Decode(m.bytes), SentOk), Received(x, s, m, st));
    } else {
      TailIn(y.out[s], s);
      DataChangesNothing(x, y, s, m, st);
    }
  }

  lemma ResetLightens(x: Half, s: nat, x': Half)
    requires HalfFine(x) && 1 <= s < STREAMS && x.t.iIndex[s] != -1 && CanHear(x.t, s)
    requires x' == x.(t := ResetIncoming(x.t, s))
    ensures Worths(x'.t.chans) + Pending(x') <= Worths(x.t.chans) + Pending(x)
  {
    var c := x.t.iIndex[s];
    assert x.t.chans[c].iStream == s && SlotFine(x.t.chans[c]);
    ResetIs(x.t, s, c, x'.t);
    WorthsAt(x.t.chans, c, Unheard(x.t.chans[c]));
  }

  lemma DoneLightens(x: Half, s: nat, x': Half)
    requires HalfFine(x) && 1 <= s < STREAMS && SendsIn(x, s, Closing) && s in x.done
    requires x' == x.(t := ResetOutgoing(x.t, s), done := x.done - {s})
    ensures Worths(x'.t.chans) + Pending(x') < Worths(x.t.chans) + Pending(x)
  {
    var c := x.t.oIndex[s];
    DoneIs(x.t, s, c, x'.t);
    WorthsAt(x.t.chans, c, Unsent(x.t.chans[c]));
  }

  lemma HeardLightens(y: Half, s: nat)
    requires s in y.asked
    ensures Pending(Heard(y, s)) < Pending(y)
  {
    UnionFits(y.done, {s});
  }

  lemma ClosingLightens(x: Node, y: Node, m: DceClosing.Move)
    requires Inv(x, y) && Enabled(x, y, DoClosing(m)) && Delivers(x, DoClosing(m))
    ensures var q := DceClosing.Moved(x.h, y.h, m);
            Weight(x.(h := q.a)) + Weight(y.(h := q.b)) < Weight(x) + Weight(y)
  {
    match m
    case DoClose(_, _) =>
    case HearReset(s, oks, ok) =>
      assert InRange(s);
      ResetFindsChannel(x, y, s);
      ResetMoves(x.h, y.h, s, oks, ok);
      var h := x.h.(t := ResetIncoming(x.h.t, s));
      ResetLightens(x.h, s, h);
      HeardLightens(y.h, s);
      RequestLightens(h, ok);
    case HearDone(s, oks, ok) =>
      assert InRange(s);
      DoneFindsClosing(x, y, s);
      DoneMoves(x.h, y.h, s, oks, ok);
      var h := x.h.(t := ResetOutgoing(x.h.t, s), done := x.h.done - {s});
      DoneLightens(x.h, s, h);
      RequestLightens(h, ok);
    case HearOther(oks, ok) =>
      OtherMoves(x.h, y.h, oks, ok);
      RequestLightens(x.h, ok);
  }

  /** Every delivery leaves less to do, so deliveries come to an end. */
  lemma DeliveryLightens(x: Node, y: Node, m: Move)
    requires Inv(x, y) && Enabled(x, y, m) && Delivers(x, m)
    ensures var q := Moved(x, y, m); Weight(q.a) + Weight(q.b) < Weight(x) + Weight(y)
  {
    if m.DoReceive? {
      ReceiveLightens(x, y, m.s, m.st);
    } else {
      ClosingLightens(x, y, m.m);
    }
  }

  const NO_DEFERRALS: seq<(bool, bool)> :=
    [(true, true), (true, true), (true, true), (true, true), (true, true),
     (true, true), (true, true), (true, true), (true, true), (true, true)]

  /** If y has something outstanding, or x has, there is a delivery to be made at x or at y. */
  lemma MessageWaits(x: Node, y: Node, s: nat) returns (m: Move)
    requires Inv(x, y) && s < STREAMS && y.out[s] != []
    ensures Enabled(x, y, m) && Delivers(x, m)
  {
    assert s >= 1 && Fine(x, y, s);
    TailIn(y.out[s], s);
    if s in x.h.done {
      m := DoClosing(HearDone(s, NO_DEFERRALS, true));
    } else {
      m := DoReceive(s, OutStreams(STREAMS));
    }
  }

  /** Whatever is outstanding at y can be delivered, at one end or the other. */
  lemma SomethingWaits(x: Node, y: Node) returns (here: bool, m: Move)
    requires Inv(x, y) && !Resting(y)
    ensures if here then Enabled(x, y, m) && Delivers(x, m) else Enabled(y, x, m) && Delivers(y, m)
  {
    InvSwaps(x, y);
    if s :| 0 <= s < STREAMS && y.out[s] != [] {
      here := true;
      m := MessageWaits(x, y, s);
    } else if y.h.t.resets != [] {
      here, m := false, DoClosing(HearOther(NO_DEFERRALS, true));
    } else if s :| s in y.h.asked {
      assert InRange(s);
      here, m := true, DoClosing(HearReset(s, NO_DEFERRALS, true));
    } else {
      var s :| s in y.h.done;
      here, m := false, DoClosing(HearDone(s, NO_DEFERRALS, true));
    }
  }

  lemma NextDelivery(p: Nodes) returns (t: Turn)
    requires Inv(p.a, p.b) && !(Resting(p.a) && Resting(p.b))
    ensures var q := Step(p, t);
            IsDelivery(t.move) && Inv(q.a, q.b) && Weight(q.a) + Weight(q.b) < Weight(p.a) + Weight(p.b)
  {
    InvSwaps(p.a, p.b);
    if !Resting(p.b) {
      var here, m := SomethingWaits(p.a, p.b);
      t := Turn(here, m);
    } else {
      var here, m := SomethingWaits(p.b, p.a);
      t := Turn(!here, m);
    }
    if t.first {
      DeliveryLightens(p.a, p.b, t.move);
    } else {
      DeliveryLightens(p.b, p.a, t.move);
    }
    StepKeeps(p, t);
  }

  predicate IsDelivery(m: Move) {
    m.DoReceive? || (m.DoClosing? && !m.m.DoClose?)
  }

  /** Rest is reached: from every state of a run, deliveries alone lead to one in which nothing
      is in flight or outstanding. */
  lemma {:induction false} ComesToRest(p: Nodes) returns (turns: seq<Turn>)
    requires Inv(p.a, p.b)
    ensures (forall t :: t in turns ==> IsDelivery(t.move)) && Resting(Run(p, turns).a) && Resting(Run(p, turns).b)
    decreases Weight(p.a) + Weight(p.b)
  {
    if Resting(p.a) && Resting(p.b) {
      turns := [];
    } else {
      var t := NextDelivery(p);
      var more := ComesToRest(Step(p, t));
      turns := [t] + more;
      RunStarts(p, t, more);
    }
  }

  // ---- Opening at rest -------------------------------------------------------

  predicate EmptyBut(x: Node, r: nat) {
    forall s :: 0 <= s < |x.out| && s != r ==> x.out[s] == []
  }

  lemma OpenedIs(x: Node, p: Params, r: nat, c: nat, o: Out, x': Node)
    requires Shaped(x) && TableFine(x.h.t) && AtRest(x.h) && Openable(p) && 1 <= r < STREAMS && c < CHANNELS
    requires x.h.t.chans[c].state == Closed && x.h.t.oIndex[r] == x.h.t.iIndex[r] == -1 && x.out[r] == []
    requires o == ConnectSlot(x.h.t, c, r, p, SentOk) && x' == Push(WithTables(x, o.t), r, o.wire)
    ensures x'.out == x.out[r := [Wire(r, true, Encode(p))]] && SendsIn(x'.h, r, Connecting)
    ensures AtRest(x'.h) && x'.h.t.even == x.h.t.even && x'.h.t.oIndex == x.h.t.oIndex[r := x'.h.t.oIndex[r]]
  {
    OpenedTable(x.h.t, c, r, p, o.t);
    assert x.out[r] + o.wire == [Wire(r, true, Encode(p))];
  }

  /** The first turn: the request is on its way. */
  lemma OpensFirst(x: Node, y: Node, p: Params, r: nat, q: Nodes)
    requires Inv(x, y) && Resting(x) && Resting(y) && Openable(p) && r == FreeStream(x.h.t, OutStreams(STREAMS)) != 0
    requires q == Moved(x, y, DoOpen(p, OutStreams(STREAMS)))
    ensures Inv(q.a, q.b) && q.b == y && AtRest(q.a.h) && q.a.h.t.even == x.h.t.even
    ensures q.a.out == x.out[r := [Wire(r, true, Encode(p))]] && SendsIn(q.a.h, r, Connecting) && Free(y.h, r)
    ensures q.a.h.t.oIndex == x.h.t.oIndex[r := q.a.h.t.oIndex[r]]
  {
    RestIsWhole(x, y, r);
    OpenKeeps(x, y, p, OutStreams(STREAMS));
    RoomLeft(x.h.t);
    var c := FreeSlot(x.h.t.chans, 0);
    OpenedIs(x, p, r, c, ConnectSlot(x.h.t, c, r, p, SentOk), q.a);
  }

  lemma AcceptedIs(x: Node, s: nat, c: nat, p: Params, o: Out, x': Node)
    requires Shaped(x) && TableFine(x.h.t) && 1 <= s < STREAMS && c < CHANNELS && x.h.t.chans[c].state == Closed
    requires x.h.t.oIndex[s] == x.h.t.iIndex[s] == -1 && o == AcceptSlot(x.h.t, c, s, p, SentOk) && Resting(x)
    requires x' == Push(WithTables(x, o.t), s, o.wire)
    ensures EmptyBut(x', s) && |x'.out[s]| == 1 && SendsIn(x'.h, s, Open) && AtRest(x'.h) && x'.h.t.even == x.h.t.even
  {
    AcceptedTable(x.h.t, c, s, p, o.t);
    assert x.out[s] + o.wire == [Wire(s, true, [OPEN_ACK])];
  }

  /** The second turn: the acceptor has its channel and its answer is on its way. */
  lemma AcceptsSecond(x: Node, y: Node, r: nat, m: Wire, q: Nodes)
    requires Inv(x, y) && 1 <= r < STREAMS && !OwnParity(x.h.t.even, r) && Resting(x) && Free(x.h, r)
    requires y.out[r] == [m] && SendsIn(y.h, r, Connecting) && EmptyBut(y, r) && AtRest(y.h)
    requires q == Moved(x, y, DoReceive(r, OutStreams(STREAMS)))
    ensures Inv(q.a, q.b) && AtRest(q.a.h) && q.a.h.t.even == x.h.t.even && EmptyBut(q.a, r) && |q.a.out[r]| == 1
    ensures SendsIn(q.a.h, r, Open) && q.b.h == y.h && Resting(q.b)
  {
    assert Fine(x, y, r) && Calling(y, x, r);
    AcceptorHears(x, y, r, m, OutStreams(STREAMS));
    RequestIsHeard(x, r, m, OutStreams(STREAMS), y.h.t.chans[y.h.t.oIndex[r]]);
    var c := FreeSlot(x.h.t.chans, 0);
    AcceptedIs(x, r, c, Decode(m.bytes), AcceptSlot(x.h.t, c, r, Decode(m.bytes), SentOk), q.a);
    assert [m][1..] == [];
  }

  lemma ReplyEmpties(x: Node, y: Node, r: nat, x': Node)
    requires Shaped(x) && Shaped(y) && HalfFine(x.h) && 1 <= r < STREAMS && Resting(x) && AtRest(y.h)
    requires EmptyBut(y, r) && |y.out[r]| == 1 && x' == WithTables(x, HandleAck(x.h.t, r))
    ensures Resting(x') && Resting(Consumed(y, r)) && x'.h.t.oIndex == x.h.t.oIndex && x'.h.t.even == x.h.t.even
  {
    AckTable(x.h.t, r, x'.h.t);
    assert y.out[r][1..] == [];
  }

  lemma ReplyTurn(x: Node, y: Node, s: nat, q: Nodes)
    requires Inv(x, y) && 1 <= s < STREAMS && OwnParity(x.h.t.even, s) && y.out[s] != [] && s !in x.h.done
    requires q == Moved(x, y, DoReceive(s, OutStreams(STREAMS)))
    ensures q == Nodes(WithTables(x, HandleAck(x.h.t, s)), Consumed(y, s)) && Inv(q.a, q.b)
  {
    HearsReply(x, y, s);
    OpenerHears(x, y, s, y.out[s][0], OutStreams(STREAMS));
    ReplyIsAck(x, s, y.out[s][0], OutStreams(STREAMS));
  }

  /** The third turn: the opener has its channel. */
  lemma OpensThird(x: Node, y: Node, r: nat, q: Nodes)
    requires Inv(x, y) && 1 <= r < STREAMS && OwnParity(x.h.t.even, r) && Resting(x) && AtRest(y.h)
    requires EmptyBut(y, r) && |y.out[r]| == 1 && q == Moved(x, y, DoReceive(r, OutStreams(STREAMS)))
    ensures Inv(q.a, q.b) && Resting(q.a) && Resting(q.b)
    ensures q.a.h.t.oIndex == x.h.t.oIndex && q.a.h.t.even == x.h.t.even
  {
    ReplyTurn(x, y, r, q);
    ReplyEmpties(x, y, r, q.a);
  }

  lemma {:induction false} RunFirst(p: Nodes, turns: seq<Turn>, p1: Nodes, more: seq<Turn>)
    requires Shaped(p.a) && Shaped(p.b) && turns != [] && p1 == Step(p, turns[0]) && more == turns[1..]
    ensures Run(p, turns) == Run(p1, more)
  {
  }

  lemma {:induction false} RunThree(p: Nodes, turns: seq<Turn>, p1: Nodes, p2: Nodes, p3: Nodes)
    requires Shaped(p.a) && Shaped(p.b) && |turns| == 3
    requires p1 == Step(p, turns[0]) && p2 == Step(p1, turns[1]) && p3 == Step(p2, turns[2])
    ensures Run(p, turns) == p3
  {
    RunFirst(p, turns, p1, turns[1..]);
    RunFirst(p1, turns[1..], p2, turns[2..]);
    RunFirst(p2, turns[2..], p3, turns[3..]);
    assert turns[3..] == [];
  }

  function Hello(p: Params, r: nat): seq<Turn> {
    [Turn(true, DoOpen(p, OutStreams(STREAMS))), Turn(false, DoReceive(r, OutStreams(STREAMS))),
     Turn(true, DoReceive(r, OutStreams(STREAMS)))]
  }

  lemma HelloTurns(p: Nodes, pr: Params, r: nat, p1: Nodes, p2: Nodes, q: Nodes)
    requires Inv(p.a, p.b) && Resting(p.a) && Resting(p.b) && Openable(pr)
    requires r == FreeStream(p.a.h.t, OutStreams(STREAMS)) != 0
    requires p1 == Moved(p.a, p.b, DoOpen(pr, OutStreams(STREAMS)))
    requires Shaped(p1.a) && Shaped(p1.b) && Nodes(p2.b, p2.a) == Moved(p1.b, p1.a, DoReceive(r, OutStreams(STREAMS)))
    requires Shaped(p2.a) && Shaped(p2.b) && q == Moved(p2.a, p2.b, DoReceive(r, OutStreams(STREAMS)))
    ensures Inv(q.a, q.b) && Resting(q.a) && Resting(q.b) && q.a.h.t.oIndex[r] != -1
    ensures q.a.h.t.even == p.a.h.t.even && q.a.h.t.oIndex == p.a.h.t.oIndex[r := q.a.h.t.oIndex[r]]
  {
    OpensFirst(p.a, p.b, pr, r, p1);
    InvSwaps(p1.a, p1.b);
    AcceptsSecond(p1.b, p1.a, r, Wire(r, true, Encode(pr)), Nodes(p2.b, p2.a));
    InvSwaps(p2.b, p2.a);
    OpensThird(p2.a, p2.b, r, q);
  }

  /** At rest a channel can be opened whenever a stream is left: its request, the answer and
      nothing else lead to rest with the channel in use at both ends. */
  lemma {:induction false} AtRestOpens(p: Nodes, pr: Params, r: nat, q: Nodes)
    requires Inv(p.a, p.b) && Resting(p.a) && Resting(p.b) && Openable(pr)
    requires r == FreeStream(p.a.h.t, OutStreams(STREAMS)) != 0 && q == Run(p, Hello(pr, r))
    ensures Inv(q.a, q.b) && Resting(q.a) && Resting(q.b) && InUse(q.a, q.b, r)
    ensures q.a.h.t.even == p.a.h.t.even && q.a.h.t.oIndex == p.a.h.t.oIndex[r := q.a.h.t.oIndex[r]]
  {
    var h := Hello(pr, r);
    var p1 := Step(p, h[0]);
    var p2 := Step(p1, h[1]);
    RunThree(p, h, p1, p2, Step(p2, h[2]));
    HelloTurns(p, pr, r, p1, p2, q);
    RestIsWhole(q.a, q.b, r);
  }

  // ---- Reusing a stream too early ---------------------------------------------

  /** Closing on stream s, and hearing that its reset was performed. */
  function HalfGoodbye(c: nat, s: nat): seq<Turn> {
    [Turn(true, DoClosing(DoClose(c, true))), Turn(false, DoClosing(HearReset(s, NO_DEFERRALS, true))),
     Turn(true, DoClosing(HearDone(s, NO_DEFERRALS, true)))]
  }

  lemma ClosesFirst(x: Node, y: Node, c: nat, s: nat, q: Nodes)
    requires Inv(x, y) && 1 <= s < STREAMS && InUse(x, y, s) && c == x.h.t.oIndex[s]
    requires q == Moved(x, y, DoClosing(DoClose(c, true)))
    ensures q.b == y && q.a.out == x.out && s in q.a.h.asked && q.a.h.t.even == x.h.t.even
    ensures q.a.h.t.iIndex == x.h.t.iIndex && q.a.h.t.oIndex == x.h.t.oIndex
  {
    CloseMoves(x.h, y.h, c, true);
    assert x.h.t.chans[c].oStream == s;
  }

  lemma HearsSecond(x: Node, y: Node, s: nat, q: Nodes)
    requires Inv(x, y) && 1 <= s < STREAMS && s in y.h.asked && y.out[s] == []
    requires q == Moved(x, y, DoClosing(HearReset(s, NO_DEFERRALS, true)))
    ensures q.b == y.(h := Heard(y.h, s))
  {
    ResetFindsChannel(x, y, s);
    ResetMoves(x.h, y.h, s, NO_DEFERRALS, true);
  }

  lemma KnowsThird(x: Node, y: Node, s: nat, q: Nodes)
    requires Inv(x, y) && 1 <= s < STREAMS && s in x.h.done
    requires q == Moved(x, y, DoClosing(HearDone(s, NO_DEFERRALS, true)))
    ensures q.a.h.t.iIndex == x.h.t.iIndex && q.a.h.t.oIndex == x.h.t.oIndex[s := -1] && q.a.h.t.even == x.h.t.even
  {
    DoneFindsClosing(x, y, s);
    DoneMoves(x.h, y.h, s, NO_DEFERRALS, true);
    DoneIs(x.h.t, s, x.h.t.oIndex[s], ResetOutgoing(x.h.t, s));
  }

  lemma {:induction false} HalfwayLooksFree(p: Nodes, c: nat, s: nat, q: Nodes)
    requires Inv(p.a, p.b) && Resting(p.a) && 1 <= s < STREAMS && InUse(p.a, p.b, s) && c == p.a.h.t.oIndex[s]
    requires q == Run(p, HalfGoodbye(c, s))
    ensures Inv(q.a, q.b) && q.a.h.t.even == p.a.h.t.even
    ensures q.a.h.t.iIndex == p.a.h.t.iIndex && q.a.h.t.oIndex == p.a.h.t.oIndex[s := -1]
  {
    var g := HalfGoodbye(c, s);
    var p1 := Step(p, g[0]);
    var p2 := Step(p1, g[1]);
    RunThree(p, g, p1, p2, Step(p2, g[2]));
    InvAlong(p, g);
    StepKeeps(p, g[0]);
    StepKeeps(p1, g[1]);
    ClosesFirst(p.a, p.b, c, s, p1);
    InvSwaps(p1.a, p1.b);
    HearsSecond(p1.b, p1.a, s, Nodes(p2.b, p2.a));
    KnowsThird(p2.a, p2.b, s, q);
  }

  lemma StartRests(p: Nodes, even: bool, r: nat)
    requires p == Nodes(Start(even), Start(!even)) && r == if even then 2 else 1
    ensures Inv(p.a, p.b) && Resting(p.a) && Resting(p.b) && p.a.h.t.even == even
    ensures FreeStream(p.a.h.t, OutStreams(STREAMS)) == r
  {
    StartInv(even);
    FirstIsChosen(p.a.h.t, r);
  }

  /** A first channel from the resting state p0, closed halfway. */
  lemma {:induction false} HalfwayFrom(p0: Nodes, pr: Params, r: nat, p: Nodes, c: nat, q: Nodes)
    requires Inv(p0.a, p0.b) && Resting(p0.a) && Resting(p0.b) && Openable(pr)
    requires r == FreeStream(p0.a.h.t, OutStreams(STREAMS)) != 0 && p == Run(p0, Hello(pr, r))
    requires c == p.a.h.t.oIndex[r] && q == Run(p, HalfGoodbye(c, r))
    ensures TableFine(q.a.h.t) && q.a.h.t.iIndex[r] == c && q.a.h.t.oIndex[r] == -1 && OwnParity(q.a.h.t.even, r)
    ensures forall s :: 1 <= s < r && OwnParity(q.a.h.t.even, s) ==> q.a.h.t.oIndex[s] != -1
  {
    AtRestOpens(p0, pr, r, p);
    HalfwayLooksFree(p, c, r, q);
  }

  /** The leak is reached: from any state at rest, a fresh association's for one, an end opens a
      channel, closes it, and opens another one, however its send goes, when its own reset
      was performed and the peer's was not. The first channel's slot is then lost. */
  lemma {:induction false} EarlyReuseLeaks(p0: Nodes, pr: Params, r: nat, p: Nodes, c: nat, q: Nodes, pr': Params,
                                           sent: Sent)
    requires Inv(p0.a, p0.b) && Resting(p0.a) && Resting(p0.b) && Openable(pr)
    requires r == FreeStream(p0.a.h.t, OutStreams(STREAMS)) != 0 && p == Run(p0, Hello(pr, r))
    requires c == p.a.h.t.oIndex[r] && q == Run(p, HalfGoodbye(c, r)) && Openable(pr')
    ensures !Leaked(q.a.h.t, c) && Leaked(OpenChannel(q.a.h.t, pr', OutStreams(STREAMS), sent).t, c)
  {
    HalfwayFrom(p0, pr, r, p, c, q);
    ReuseLeaks(q.a.h.t, r, c, pr', sent);
  }

  // ---- What the order of a stream is needed for -------------------------------

  /** A request is taken if and only if the acceptor knows that its own last reset of the
      stream was performed. Otherwise it is lost, and the opener waits for nothing. */
  lemma RequestTakenIff(x: Node, y: Node, s: nat, st: Status)
    requires Inv(x, y) && 1 <= s < STREAMS && OwnParity(x.h.t.even, s) && Calling(x, y, s)
    requires st.OutStreams? && s <= Limit(st)
    ensures var o := HandleMessage(y.h.t, x.out[s][0], st, SentOk);
            if s in y.h.done then o == Out(y.h.t, [], -1) else SendsIn(y.h.(t := o.t), s, Open)
  {
    RoomLeft(y.h.t);
  }

  // ---- Texts of a slot used before ---------------------------------------------

  /** What is left of an old text behind a new one of length n. */
  function Tail(was: Bytes, n: nat): Bytes {
    if n < |was| then was[n..] else []
  }

  lemma OverlayIs(was: Bytes, text: Bytes)
    ensures Overlay(was, text) == text + Tail(was, |text|)
  {
  }

  lemma SameTail(text: Bytes, a: Bytes, b: Bytes)
    ensures text + a == text + b <==> a == b
  {
    if text + a == text + b {
      assert (text + a)[|text|..] == a && (text + b)[|text|..] == b;
    }
  }

  /** The two ends of a channel hold the same texts if and only if their slots' old texts end
      alike behind the new ones, and those asked for if and only if nothing sticks out. */
  lemma TextsAgreeIff(was: Channel, was': Channel, s: nat, p: Params)
    ensures ParamsOf(OpenedSlot(was, s, p, false)) == ParamsOf(AcceptedSlot(was', s, p, false))
            <==> && Tail(was.labelText, |p.labelText|) == Tail(was'.labelText, |p.labelText|)
                 && Tail(was.protocol, |p.protocol|) == Tail(was'.protocol, |p.protocol|)
    ensures ParamsOf(OpenedSlot(was, s, p, false)) == p
            <==> |was.labelText| <= |p.labelText| && |was.protocol| <= |p.protocol|
  {
    OverlayIs(was.labelText, p.labelText);
    OverlayIs(was'.labelText, p.labelText);
    OverlayIs(was.protocol, p.protocol);
    OverlayIs(was'.protocol, p.protocol);
    SameTail(p.labelText, Tail(was.labelText, |p.labelText|), Tail(was'.labelText, |p.labelText|));
    SameTail(p.protocol, Tail(was.protocol, |p.protocol|), Tail(was'.protocol, |p.protocol|));
  }

  /** No reset clears them. */
  lemma ResetsKeepTexts(t: Tables, s: nat, c: nat)
    requires Sized(t) && c < CHANNELS
    ensures ResetIncoming(t, s).chans[c].labelText == t.chans[c].labelText
    ensures ResetIncoming(t, s).chans[c].protocol == t.chans[c].protocol
    ensures ResetOutgoing(t, s).chans[c].labelText == t.chans[c].labelText
    ensures ResetOutgoing(t, s).chans[c].protocol == t.chans[c].protocol
  {
  }
}
