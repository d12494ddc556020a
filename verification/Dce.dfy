/** The data-channel engine's tables as values, and one function per operation on
    them. `DceObject` holds the arrays these functions specify. */
module Dce {
  import opened DceCodec

  const CHANNELS: nat := 10
  const STREAMS: nat := 10

  datatype ChannelState = Closed | Connecting | Open | Closing

  /** A channel slot. Stream 0 means "none". The texts are the buffers' contents as C strings. */
  datatype Channel = Channel(
    state: ChannelState, iStream: nat, oStream: nat, unordered: bool, policy: Policy, value: nat,
    sendReq: bool, sendAck: bool, labelText: Bytes, protocol: Bytes)

  /** The tables: slots, the two reverse indexes from stream to slot (-1 for NULL), the
      outgoing resets still to be requested, and whether this side opens even streams. */
  datatype Tables = Tables(chans: seq<Channel>, iIndex: seq<int>, oIndex: seq<int>, resets: seq<nat>, even: bool)

  /** The outcome of a send, and the association's number of outgoing streams if it could be read. */
  datatype Sent = SentOk | Again | Failure
  datatype Status = NoStatus | OutStreams(n: nat)

  /** A message on a stream: control or user data. */
  datatype Wire = Wire(stream: nat, control: bool, bytes: Bytes)

  /** Tables and messages after an operation; `slot` is the channel returned, or -1. */
  datatype Out = Out(t: Tables, wire: seq<Wire>, slot: int)

  const FREE_SLOT: Channel := Channel(Closed, 0, 0, false, PrNone, 0, false, false, [], [])

  function Init(even: bool): Tables {
    Tables(seq(CHANNELS, _ => FREE_SLOT), seq(STREAMS, _ => -1), seq(STREAMS, _ => -1), [], even)
  }

  predicate Sized(t: Tables) {
    && |t.chans| == CHANNELS && |t.iIndex| == STREAMS && |t.oIndex| == STREAMS
    && (forall s :: 0 <= s < STREAMS ==> -1 <= t.iIndex[s] < CHANNELS && -1 <= t.oIndex[s] < CHANNELS)
    && (forall c :: 0 <= c < CHANNELS ==> t.chans[c].iStream < STREAMS && t.chans[c].oStream < STREAMS)
  }

  function SetChan(t: Tables, c: nat, ch: Channel): Tables
    requires c < |t.chans|
  {
    t.(chans := t.chans[c := ch])
  }

  /** find_free_channel: the first closed slot from c on, or -1. */
  function FreeSlot(chans: seq<Channel>, c: nat): (r: int)
    requires c <= |chans|
    ensures r == -1 || (c <= r < |chans| && chans[r].state == Closed)
    ensures r == -1 <==> forall k :: c <= k < |chans| ==> chans[k].state != Closed
    ensures r != -1 ==> forall k :: c <= k < r ==> chans[k].state != Closed
    decreases |chans| - c
  {
    if c == |chans| then -1 else if chans[c].state == Closed then c else FreeSlot(chans, c + 1)
  }

  function Limit(st: Status): nat {
    match st
    case NoStatus => 0
    case OutStreams(n) => if n < STREAMS then n else STREAMS
  }

  predicate OwnParity(even: bool, s: nat) {
    s % 2 == if even then 0 else 1
  }

  /** The loop of find_free_o_stream: the first unused stream of our own parity from s on, or 0. */
  function FreeStreamFrom(t: Tables, s: nat, limit: nat): (r: nat)
    requires Sized(t) && limit <= STREAMS && s >= 1
    ensures r == 0 || (s <= r < limit && t.oIndex[r] == -1 && OwnParity(t.even, r))
    ensures r == 0 <==> forall k :: s <= k < limit ==> t.oIndex[k] != -1 || !OwnParity(t.even, k)
    ensures r != 0 ==> forall k :: s <= k < r ==> t.oIndex[k] != -1 || !OwnParity(t.even, k)
    decreases limit - s
  {
    if s >= limit then 0
    else if t.oIndex[s] == -1 && OwnParity(t.even, s) then s
    else FreeStreamFrom(t, s + 1, limit)
  }

  /** find_free_o_stream; the association is up, so it has at least one outgoing stream. */
  function FreeStream(t: Tables, st: Status): (r: nat)
    requires Sized(t) && (st.OutStreams? ==> st.n >= 1)
    ensures r == 0 || (1 <= r < STREAMS && t.oIndex[r] == -1 && OwnParity(t.even, r))
  {
    FreeStreamFrom(t, 1, Limit(st))
  }

  /** memcpy over a text buffer: what was there beyond the new text stays. */
  function Overlay(was: Bytes, text: Bytes): Bytes {
    if |text| < |was| then text + was[|text|..] else text
  }

  predicate Openable(p: Params) {
    && |p.labelText| <= MAX_TEXT && |p.protocol| <= MAX_TEXT && p.policy != PrOther
    && (p.policy == PrNone ==> p.value == 0) && p.value < 0x1_0000_0000
  }

  /** The slot as open_channel fills it in. */
  function OpenedSlot(was: Channel, s: nat, p: Params, deferred: bool): Channel {
    Channel(Connecting, s, s, p.unordered, p.policy, p.value, deferred, false,
            Overlay(was.labelText, p.labelText), Overlay(was.protocol, p.protocol))
  }

  /** open_channel, with the free slot c and the stream s (or 0) it found. */
  function ConnectSlot(t: Tables, c: nat, s: nat, p: Params, sent: Sent): (o: Out)
    requires Sized(t) && c < CHANNELS && s < STREAMS && Openable(p)
    ensures Sized(o.t)
  {
    var ch := OpenedSlot(t.chans[c], s, p, s != 0 && sent == Again);
    var t1 := SetChan(t, c, ch).(iIndex := t.iIndex[s := c]);
    if s == 0 then Out(t1, [], c)
    else if sent == Failure then
      // The slot is freed, but its incoming stream and its index entry stay behind.
      Out(SetChan(t1, c, ch.(state := Closed, unordered := false, policy := PrNone, value := 0, oStream := 0)), [], -1)
    else Out(t1.(oIndex := t.oIndex[s := c]),
             if sent == SentOk then [Wire(s, true, Encode(p))] else [], c)
  }

  /** open_channel */
  function OpenChannel(t: Tables, p: Params, st: Status, sent: Sent): (o: Out)
    requires Sized(t) && (st.OutStreams? ==> st.n >= 1)
    ensures Sized(o.t)
  {
    var c := FreeSlot(t.chans, 0);
    if !Openable(p) || c == -1 then Out(t, [], -1) else ConnectSlot(t, c, FreeStream(t, st), p, sent)
  }

  /** reset_outgoing_stream */
  function QueueReset(t: Tables, s: nat): Tables {
    if s in t.resets then t else t.(resets := t.resets + [s])
  }

  /** send_outgoing_stream_reset */
  function RequestResets(t: Tables, ok: bool): Tables {
    if ok then t.(resets := []) else t
  }

  /** close_channel */
  function CloseChannel(t: Tables, c: nat, ok: bool): (t': Tables)
    requires Sized(t) && c < CHANNELS
    ensures Sized(t')
  {
    if t.chans[c].state != Open then t else
    var t1 := RequestResets(QueueReset(t, t.chans[c].oStream), ok);
    SetChan(t1, c, t.chans[c].(state := Closing))
  }

  /** The slot as handle_open_request_message fills it in. */
  function AcceptedSlot(was: Channel, s: nat, p: Params, deferred: bool): Channel {
    Channel(Open, s, s, p.unordered, p.policy, p.value, false, deferred,
            Overlay(was.labelText, p.labelText), Overlay(was.protocol, p.protocol))
  }

  /** handle_open_request_message, once nothing stands in the way of using slot c. */
  function AcceptSlot(t: Tables, c: nat, s: nat, p: Params, sent: Sent): (o: Out)
    requires Sized(t) && c < CHANNELS && s < STREAMS && t.iIndex[s] == -1
    ensures Sized(o.t) && -1 <= o.slot < CHANNELS
  {
    var ch := AcceptedSlot(t.chans[c], s, p, s != 0 && sent == Again);
    if s == 0 then Out(SetChan(t, c, ch).(iIndex := t.iIndex[s := c]), [], c)
    else if sent == Failure then
      Out(SetChan(t, c, FREE_SLOT.(labelText := ch.labelText, protocol := ch.protocol)), [], -1)
    else Out(SetChan(t, c, ch).(iIndex := t.iIndex[s := c], oIndex := t.oIndex[s := c]),
             if sent == SentOk then [Wire(s, true, [OPEN_ACK])] else [], c)
  }

  /** Nothing stands in the way of a request on stream s. */
  predicate Accepts(t: Tables, s: nat, st: Status)
    requires Sized(t) && s < STREAMS
  {
    t.iIndex[s] == -1 && st.OutStreams? && s <= Limit(st) && t.oIndex[s] == -1 && FreeSlot(t.chans, 0) != -1
  }

  /** handle_open_request_message; the request came in on stream s. */
  function HandleOpenRequest(t: Tables, s: nat, p: Params, st: Status, sent: Sent): (o: Out)
    requires Sized(t) && s < STREAMS
    ensures Sized(o.t) && -1 <= o.slot < CHANNELS
  {
    if Accepts(t, s, st) then AcceptSlot(t, FreeSlot(t.chans, 0), s, p, sent) else Out(t, [], -1)
  }

  /** handle_open_ack_message, and the implicit acknowledgement in handle_data_message. */
  function HandleAck(t: Tables, s: nat): (t': Tables)
    requires Sized(t)
    ensures Sized(t')
  {
    if s >= STREAMS || t.iIndex[s] == -1 then t else
    var c := t.iIndex[s];
    if t.chans[c].state != Connecting then t else SetChan(t, c, t.chans[c].(state := Open))
  }

  /** handle_message: dispatch on the payload and, for control, on the first octet. */
  function HandleMessage(t: Tables, w: Wire, st: Status, sent: Sent): (o: Out)
    requires Sized(t) && w.stream < STREAMS
    ensures Sized(o.t) && -1 <= o.slot < CHANNELS
  {
    if !w.control then Out(HandleAck(t, w.stream), [], -1)
    else if w.bytes == [] then Out(t, [], -1)
    else if w.bytes[0] == OPEN_REQUEST && |w.bytes| >= FIXED_SIZE then
      HandleOpenRequest(t, w.stream, Decode(w.bytes), st, sent)
    else if w.bytes[0] == OPEN_ACK then Out(HandleAck(t, w.stream), [], -1)
    else Out(t, [], -1)
  }

  /** A slot that has given up both directions. */
  function Released(ch: Channel): Channel {
    ch.(policy := PrNone, value := 0, unordered := false, sendReq := false, sendAck := false, state := Closed)
  }

  /** handle_stream_reset_event for one stream: the incoming direction. */
  function ResetIncoming(t: Tables, s: nat): (t': Tables)
    requires Sized(t)
    ensures Sized(t')
  {
    if s >= STREAMS || t.iIndex[s] == -1 then t else
    var c := t.iIndex[s];
    var ch := t.chans[c].(iStream := 0);
    var t1 := t.(iIndex := t.iIndex[t.chans[c].iStream := -1]);
    if ch.oStream == 0 then SetChan(t1, c, Released(ch))
    else if ch.state == Open then QueueReset(SetChan(t1, c, ch.(state := Closing)), ch.oStream)
    else SetChan(t1, c, ch)
  }

  /** handle_stream_reset_event for one stream: the outgoing direction. */
  function ResetOutgoing(t: Tables, s: nat): (t': Tables)
    requires Sized(t)
    ensures Sized(t')
  {
    if s >= STREAMS || t.oIndex[s] == -1 then t else
    var c := t.oIndex[s];
    var ch := t.chans[c].(oStream := 0);
    var t1 := t.(oIndex := t.oIndex[t.chans[c].oStream := -1]);
    SetChan(t1, c, if ch.iStream == 0 then Released(ch) else ch)
  }

  function ResetStream(t: Tables, s: nat, incoming: bool, outgoing: bool): (t': Tables)
    requires Sized(t)
    ensures Sized(t')
  {
    var t1 := if incoming then ResetIncoming(t, s) else t;
    if outgoing then ResetOutgoing(t1, s) else t1
  }

  /** handle_stream_reset_event: the streams listed by an event that was not refused. */
  function ResetEvent(t: Tables, streams: seq<nat>, incoming: bool, outgoing: bool): (t': Tables)
    requires Sized(t)
    ensures Sized(t')
    decreases |streams|
  {
    if streams == [] then t
    else ResetEvent(ResetStream(t, streams[0], incoming, outgoing), streams[1..], incoming, outgoing)
  }

  /** handle_stream_change_event for one slot that still waits for an outgoing stream;
      false when no stream is left and the scan stops. */
  function ChangeSlot(t: Tables, c: nat, refused: bool, st: Status): (r: (Tables, bool))
    requires Sized(t) && c < CHANNELS && (st.OutStreams? ==> st.n >= 1)
    ensures Sized(r.0)
  {
    var ch := t.chans[c];
    if ch.state != Connecting || ch.oStream != 0 then (t, true)
    else if refused then
      var iIndex := if ch.iStream != 0 then t.iIndex[ch.iStream := -1] else t.iIndex;
      (SetChan(t, c, Released(ch).(iStream := 0)).(iIndex := iIndex), true)
    else
      var s := FreeStream(t, st);
      if s == 0 then (t, false)
      else
        (SetChan(t, c, ch.(oStream := s, sendReq := ch.sendReq || ch.iStream == 0)).(oIndex := t.oIndex[s := c]), true)
  }

  /** handle_stream_change_event from slot c on. */
  function StreamChange(t: Tables, c: nat, refused: bool, st: Status): (t': Tables)
    requires Sized(t) && c <= CHANNELS && (st.OutStreams? ==> st.n >= 1)
    ensures Sized(t')
    decreases |t.chans| - c
  {
    if c == CHANNELS then t else
    var r := ChangeSlot(t, c, refused, st);
    if r.1 then StreamChange(r.0, c + 1, refused, st) else r.0
  }

  /** The request a deferred slot still has to send. */
  function ParamsOf(ch: Channel): Params {
    Params(ch.unordered, ch.policy, ch.value, ch.labelText, ch.protocol)
  }

  /** send_deferred_messages for one slot; true results are sends that got through. */
  function DeferredSlot(ch: Channel, reqOk: bool, ackOk: bool): (Channel, seq<Wire>) {
    var sendReq := ch.sendReq && reqOk && Sendable(ParamsOf(ch));
    var sendAck := ch.sendAck && ackOk;
    (ch.(sendReq := ch.sendReq && !sendReq, sendAck := ch.sendAck && !sendAck),
     (if sendReq then [Wire(ch.oStream, true, Encode(ParamsOf(ch)))] else [])
     + (if sendAck then [Wire(ch.oStream, true, [OPEN_ACK])] else []))
  }

  /** send_deferred_messages from slot c on; `oks` says how each slot's two sends go. */
  function SendDeferred(t: Tables, c: nat, oks: seq<(bool, bool)>): (r: (Tables, seq<Wire>))
    requires Sized(t) && c <= CHANNELS && |oks| == CHANNELS
    ensures Sized(r.0)
    decreases |t.chans| - c
  {
    if c == CHANNELS then (t, []) else
    var d := DeferredSlot(t.chans[c], oks[c].0, oks[c].1);
    var r := SendDeferred(SetChan(t, c, d.0), c + 1, oks);
    (r.0, d.1 + r.1)
  }
}
