/** The peer_connection of dce.c: fixed-size arrays updated in place. Every method is
    proved to do to the tables what its function in `Dce` says. */
module DceObject {
  import opened DceCodec
  import opened Dce
  import opened DceTables

  /** The recursions followed by the two loops over the slots, one turn at a time. */
  lemma {:induction false} SendDeferredUnfolds(t: Tables, c: nat, oks: seq<(bool, bool)>)
    requires Sized(t) && c < CHANNELS && |oks| == CHANNELS
    ensures var d := DeferredSlot(t.chans[c], oks[c].0, oks[c].1);
            var r := SendDeferred(SetChan(t, c, d.0), c + 1, oks);
            Sized(SetChan(t, c, d.0)) && SendDeferred(t, c, oks) == (r.0, d.1 + r.1)
  {
  }

  lemma ConcatAssociates(a: seq<Wire>, b: seq<Wire>, c: seq<Wire>)
    ensures a + (b + c) == a + b + c
  {
  }

  class PeerConnection {
    const channels: array<Channel>
    const iStreamChannel: array<int>
    const oStreamChannel: array<int>
    const oStreamBuffer: array<nat>
    var oStreamBufferCounter: nat
    var openEvenSid: bool

    ghost predicate Laid()
      reads this
    {
      && channels.Length == CHANNELS && iStreamChannel.Length == STREAMS && oStreamChannel.Length == STREAMS
      && oStreamBuffer.Length == STREAMS && oStreamBufferCounter <= STREAMS
      && iStreamChannel != oStreamChannel
      && (oStreamBuffer as object) != iStreamChannel && (oStreamBuffer as object) != oStreamChannel
    }

    ghost function View(): Tables
      requires Laid()
      reads this, channels, iStreamChannel, oStreamChannel, oStreamBuffer
    {
      Tables(channels[..], iStreamChannel[..], oStreamChannel[..], oStreamBuffer[..oStreamBufferCounter], openEvenSid)
    }

    ghost predicate Valid()
      reads this, channels, iStreamChannel, oStreamChannel, oStreamBuffer
    {
      Laid() && Sized(View()) && ResetsOk(View())
    }

    /** init_peer_connection */
    constructor (even: bool)
      ensures Valid() && View() == Init(even)
      ensures fresh(channels) && fresh(iStreamChannel) && fresh(oStreamChannel) && fresh(oStreamBuffer)
    {
      channels := new Channel[CHANNELS](_ => FREE_SLOT);
      iStreamChannel := new int[STREAMS](_ => -1);
      oStreamChannel := new int[STREAMS](_ => -1);
      oStreamBuffer := new nat[STREAMS](_ => 0);
      oStreamBufferCounter := 0;
      openEvenSid := even;
      new;
      assert channels[..] == Init(even).chans;
      assert iStreamChannel[..] == Init(even).iIndex && oStreamChannel[..] == Init(even).oIndex;
      assert oStreamBuffer[..0] == [];
    }

    method FindFreeChannel() returns (c: int)
      requires Valid()
      ensures c == FreeSlot(channels[..], 0)
    {
      var i := 0;
      while i < CHANNELS
        invariant i <= CHANNELS && FreeSlot(channels[..], 0) == FreeSlot(channels[..], i)
      {
        if channels[i].state == Closed {
          return i;
        }
        i := i + 1;
      }
      return -1;
    }

    method FindFreeOStream(st: Status) returns (s: nat)
      requires Valid() && (st.OutStreams? ==> st.n >= 1)
      ensures s == FreeStream(View(), st)
    {
      if st == NoStatus {
        return 0;
      }
      var limit := if st.n < STREAMS then st.n else STREAMS;
      s := 1;
      while s < limit
        invariant 1 <= s <= limit && FreeStream(View(), st) == FreeStreamFrom(View(), s, limit)
      {
        if oStreamChannel[s] == -1 && s % 2 == (if openEvenSid then 0 else 1) {
          return;
        }
        s := s + 1;
      }
      s := 0;
    }

    /** The rest of open_channel, once it has found slot c and stream s. */
    method Connect(c: nat, s: nat, p: Params, sent: Sent) returns (wire: seq<Wire>, slot: int)
      requires Valid() && c < CHANNELS && s < STREAMS && Openable(p)
      modifies channels, iStreamChannel, oStreamChannel
      ensures Valid() && Out(View(), wire, slot) == ConnectSlot(old(View()), c, s, p, sent)
    {
      wire, slot := [], c;
      var was := channels[c];
      channels[c] := Channel(Connecting, s, s, p.unordered, p.policy, p.value, false, false,
                             Overlay(was.labelText, p.labelText), Overlay(was.protocol, p.protocol));
      iStreamChannel[s] := c;
      if s != 0 {
        if sent == SentOk {
          wire := [Wire(s, true, Encode(p))];
          oStreamChannel[s] := c;
        } else if sent == Again {
          oStreamChannel[s] := c;
          channels[c] := channels[c].(sendReq := true);
        } else {
          channels[c] := channels[c].(state := Closed, unordered := false, policy := PrNone, value := 0, oStream := 0);
          slot := -1;
        }
      }
      ghost var t := ConnectSlot(old(View()), c, s, p, sent).t;
      assert channels[..] == t.chans && iStreamChannel[..] == t.iIndex && oStreamChannel[..] == t.oIndex;
    }

    method OpenChannel(p: Params, st: Status, sent: Sent) returns (wire: seq<Wire>, slot: int)
      requires Valid() && (st.OutStreams? ==> st.n >= 1)
      modifies channels, iStreamChannel, oStreamChannel
      ensures Valid() && Out(View(), wire, slot) == Dce.OpenChannel(old(View()), p, st, sent)
    {
      if |p.labelText| > MAX_TEXT || |p.protocol| > MAX_TEXT || p.policy == PrOther
         || (p.policy == PrNone && p.value != 0) || p.value >= 0x1_0000_0000 {
        return [], -1;
      }
      slot := FindFreeChannel();
      if slot == -1 {
        return [], -1;
      }
      var s := FindFreeOStream(st);
      wire, slot := Connect(slot, s, p, sent);
    }

    method ResetOutgoingStream(s: nat)
      requires Valid() && s < STREAMS
      modifies this`oStreamBufferCounter, oStreamBuffer
      ensures Valid() && View() == QueueReset(old(View()), s)
    {
      var i := 0;
      while i < oStreamBufferCounter
        invariant i <= oStreamBufferCounter && s !in oStreamBuffer[..i]
      {
        if oStreamBuffer[i] == s {
          assert s in oStreamBuffer[..oStreamBufferCounter];
          return;
        }
        i := i + 1;
      }
      QueueFits(View(), s);
      oStreamBuffer[oStreamBufferCounter] := s;
      oStreamBufferCounter := oStreamBufferCounter + 1;
      assert oStreamBuffer[..oStreamBufferCounter] == old(oStreamBuffer[..oStreamBufferCounter]) + [s];
    }

    /** send_outgoing_stream_reset; `ok` is the result of the socket call. */
    method SendOutgoingStreamReset(ok: bool)
      requires Valid()
      modifies this`oStreamBufferCounter
      ensures Valid() && View() == RequestResets(old(View()), ok)
    {
      if oStreamBufferCounter != 0 && ok {
        oStreamBufferCounter := 0;
      }
    }

    method CloseChannel(c: nat, ok: bool)
      requires Valid() && c < CHANNELS
      modifies this`oStreamBufferCounter, oStreamBuffer, channels
      ensures Valid() && View() == Dce.CloseChannel(old(View()), c, ok)
    {
      if channels[c].state != Open {
        return;
      }
      ResetOutgoingStream(channels[c].oStream);
      SendOutgoingStreamReset(ok);
      channels[c] := channels[c].(state := Closing);
    }

    /** The rest of handle_open_request_message, once it has found slot c. */
    method Accept(c: nat, s: nat, p: Params, sent: Sent) returns (wire: seq<Wire>, slot: int)
      requires Valid() && c < CHANNELS && s < STREAMS && iStreamChannel[s] == -1
      modifies channels, iStreamChannel, oStreamChannel
      ensures Valid() && Out(View(), wire, slot) == AcceptSlot(old(View()), c, s, p, sent)
    {
      wire, slot := [], c;
      var was := channels[c];
      channels[c] := Channel(Open, s, s, p.unordered, p.policy, p.value, false, false,
                             Overlay(was.labelText, p.labelText), Overlay(was.protocol, p.protocol));
      iStreamChannel[s] := c;
      if s != 0 {
        if sent == SentOk {
          wire := [Wire(s, true, [OPEN_ACK])];
          oStreamChannel[s] := c;
        } else if sent == Again {
          channels[c] := channels[c].(sendAck := true);
          oStreamChannel[s] := c;
        } else {
          iStreamChannel[s] := -1;
          channels[c] := channels[c].(state := Closed, unordered := false, policy := PrNone, value := 0,
                                      iStream := 0, oStream := 0);
          slot := -1;
        }
      }
      ghost var t := AcceptSlot(old(View()), c, s, p, sent).t;
      assert channels[..] == t.chans && iStreamChannel[..] == t.iIndex && oStreamChannel[..] == t.oIndex;
    }

    method HandleOpenRequest(s: nat, p: Params, st: Status, sent: Sent) returns (wire: seq<Wire>, slot: int)
      requires Valid() && s < STREAMS
      modifies channels, iStreamChannel, oStreamChannel
      ensures Valid() && Out(View(), wire, slot) == Dce.HandleOpenRequest(old(View()), s, p, st, sent)
    {
      if iStreamChannel[s] != -1 || st == NoStatus {
        return [], -1;
      }
      var limit := if st.n < STREAMS then st.n else STREAMS;
      if s > limit || oStreamChannel[s] != -1 {
        return [], -1;
      }
      slot := FindFreeChannel();
      if slot == -1 {
        return [], -1;
      }
      wire, slot := Accept(slot, s, p, sent);
    }

    /** handle_open_ack_message, and the state change of handle_data_message. */
    method HandleAck(s: nat)
      requires Valid()
      modifies channels
      ensures Valid() && View() == Dce.HandleAck(old(View()), s)
    {
      if s >= STREAMS || iStreamChannel[s] == -1 {
        return;
      }
      var c := iStreamChannel[s];
      if channels[c].state == Connecting {
        channels[c] := channels[c].(state := Open);
      }
    }

    method HandleMessage(w: Wire, st: Status, sent: Sent) returns (wire: seq<Wire>, slot: int)
      requires Valid() && w.stream < STREAMS
      modifies channels, iStreamChannel, oStreamChannel
      ensures Valid() && Out(View(), wire, slot) == Dce.HandleMessage(old(View()), w, st, sent)
    {
      wire, slot := [], -1;
      if !w.control {
        HandleAck(w.stream);
      } else if |w.bytes| >= 1 {
        if w.bytes[0] == OPEN_REQUEST {
          if |w.bytes| >= FIXED_SIZE {
            wire, slot := HandleOpenRequest(w.stream, Decode(w.bytes), st, sent);
          }
        } else if w.bytes[0] == OPEN_ACK {
          HandleAck(w.stream);
        }
      }
    }

    method ResetIncomingStream(s: nat)
      requires Valid()
      modifies this`oStreamBufferCounter, oStreamBuffer, channels, iStreamChannel
      ensures Valid() && View() == ResetIncoming(old(View()), s)
    {
      if s >= STREAMS || iStreamChannel[s] == -1 {
        return;
      }
      var c := iStreamChannel[s];
      iStreamChannel[channels[c].iStream] := -1;
      channels[c] := channels[c].(iStream := 0);
      assert iStreamChannel[..] == ResetIncoming(old(View()), s).iIndex;
      if channels[c].oStream == 0 {
        channels[c] := Released(channels[c]);
      } else if channels[c].state == Open {
        channels[c] := channels[c].(state := Closing);
        ResetOutgoingStream(channels[c].oStream);
      }
    }

    method ResetOwnStream(s: nat)
      requires Valid()
      modifies channels, oStreamChannel
      ensures Valid() && View() == ResetOutgoing(old(View()), s)
    {
      if s >= STREAMS || oStreamChannel[s] == -1 {
        return;
      }
      var c := oStreamChannel[s];
      oStreamChannel[channels[c].oStream] := -1;
      channels[c] := channels[c].(oStream := 0);
      if channels[c].iStream == 0 {
        channels[c] := Released(channels[c]);
      }
    }

    method HandleStreamResetEvent(streams: seq<nat>, incoming: bool, outgoing: bool)
      requires Valid()
      modifies this`oStreamBufferCounter, oStreamBuffer, channels, iStreamChannel, oStreamChannel
      ensures Valid() && View() == ResetEvent(old(View()), streams, incoming, outgoing)
    {
      var i := 0;
      while i < |streams|
        invariant i <= |streams| && Valid()
        invariant ResetEvent(View(), streams[i..], incoming, outgoing)
                  == ResetEvent(old(View()), streams, incoming, outgoing)
      {
        assert streams[i..][1..] == streams[i + 1..];
        if incoming {
          ResetIncomingStream(streams[i]);
        }
        if outgoing {
          ResetOwnStream(streams[i]);
        }
        i := i + 1;
      }
    }

    method HandleStreamChangeEvent(refused: bool, st: Status, ghost goal: Tables)
      requires Valid() && (st.OutStreams? ==> st.n >= 1) && goal == StreamChange(View(), 0, refused, st)
      modifies channels, iStreamChannel, oStreamChannel
      ensures Valid() && View() == goal
    {
      var i, more := 0, true;
      while i < CHANNELS && more
        invariant i <= CHANNELS && Valid()
        invariant goal == if more then StreamChange(View(), i, refused, st) else View()
      {
        more := ChangeNext(i, refused, st, goal);
        i := i + 1;
      }
    }

    method ChangeNext(c: nat, refused: bool, st: Status, ghost goal: Tables) returns (more: bool)
      requires Valid() && c < CHANNELS && (st.OutStreams? ==> st.n >= 1) && goal == StreamChange(View(), c, refused, st)
      modifies channels, iStreamChannel, oStreamChannel
      ensures Valid() && goal == if more then StreamChange(View(), c + 1, refused, st) else View()
    {
      ghost var r := ChangeSlot(View(), c, refused, st);
      StreamChangeUnfolds(View(), c, refused, st, r);
      more := ChangeOne(c, refused, st, r);
    }

    /** One turn of the loop of handle_stream_change_event; false breaks it. */
    method ChangeOne(c: nat, refused: bool, st: Status, ghost r: (Tables, bool)) returns (more: bool)
      requires Valid() && c < CHANNELS && (st.OutStreams? ==> st.n >= 1) && r == ChangeSlot(View(), c, refused, st)
      modifies channels, iStreamChannel, oStreamChannel
      ensures Valid() && View() == r.0 && more == r.1
    {
      ghost var goal := r.0;
      var ch := channels[c];
      if ch.state != Connecting || ch.oStream != 0 {
        return true;
      }
      if refused {
        if ch.iStream != 0 {
          iStreamChannel[ch.iStream] := -1;
        }
        channels[c] := Released(ch).(iStream := 0);
        assert channels[..] == goal.chans && iStreamChannel[..] == goal.iIndex;
        return true;
      }
      var s := FindFreeOStream(st);
      if s == 0 {
        return false;
      }
      channels[c] := ch.(oStream := s, sendReq := ch.sendReq || ch.iStream == 0);
      oStreamChannel[s] := c;
      assert channels[..] == goal.chans && oStreamChannel[..] == goal.oIndex;
      return true;
    }

    /** One turn of the loop of send_deferred_messages. */
    method SendDeferredOf(c: nat, reqOk: bool, ackOk: bool) returns (wire: seq<Wire>)
      requires Valid() && c < CHANNELS
      modifies channels
      ensures Valid()
      ensures var d := DeferredSlot(old(View()).chans[c], reqOk, ackOk);
              View() == SetChan(old(View()), c, d.0) && wire == d.1
    {
      var ch := channels[c];
      wire := [];
      if ch.sendReq && Sendable(ParamsOf(ch)) && reqOk {
        wire := wire + [Wire(ch.oStream, true, Encode(ParamsOf(ch)))];
        channels[c] := channels[c].(sendReq := false);
      }
      if ch.sendAck && ackOk {
        wire := wire + [Wire(ch.oStream, true, [OPEN_ACK])];
        channels[c] := channels[c].(sendAck := false);
      }
    }

    method SendDeferredMessages(oks: seq<(bool, bool)>) returns (wire: seq<Wire>)
      requires Valid() && |oks| == CHANNELS
      modifies channels
      ensures Valid() && (View(), wire) == SendDeferred(old(View()), 0, oks)
    {
      wire := [];
      var i := 0;
      ghost var t := View();
      ghost var goal := SendDeferred(t, 0, oks);
      while i < CHANNELS
        invariant i <= CHANNELS && Valid() && t == View()
        invariant goal.0 == SendDeferred(t, i, oks).0 && goal.1 == wire + SendDeferred(t, i, oks).1
      {
        SendDeferredUnfolds(t, i, oks);
        t := SetChan(t, i, DeferredSlot(t.chans[i], oks[i].0, oks[i].1).0);
        var more := SendDeferredOf(i, oks[i].0, oks[i].1);
        ConcatAssociates(wire, more, SendDeferred(t, i + 1, oks).1);
        wire := wire + more;
        i := i + 1;
      }
      assert wire + [] == wire;
    }

    /** What handle_notification does after either stream event. */
    method FinishNotification(oks: seq<(bool, bool)>, ok: bool, ghost t: Tables) returns (wire: seq<Wire>)
      requires Valid() && t == View() && |oks| == CHANNELS
      modifies this`oStreamBufferCounter, channels
      ensures Valid() && View() == Afterwards(t, oks, ok) && wire == SendDeferred(t, 0, oks).1
    {
      wire := SendDeferredMessages(oks);
      SendOutgoingStreamReset(ok);
    }

    /** handle_notification for SCTP_STREAM_RESET_EVENT. */
    method NotifyStreamReset(streams: seq<nat>, incoming: bool, outgoing: bool, refused: bool,
                             oks: seq<(bool, bool)>, ok: bool) returns (wire: seq<Wire>)
      requires Valid() && |oks| == CHANNELS
      modifies this`oStreamBufferCounter, oStreamBuffer, channels, iStreamChannel, oStreamChannel
      ensures Valid() && View() == Apply(old(View()), EvReset(streams, incoming, outgoing, refused, oks, ok))
      ensures var t := if refused then old(View()) else ResetEvent(old(View()), streams, incoming, outgoing);
              wire == SendDeferred(t, 0, oks).1
    {
      if !refused {
        HandleStreamResetEvent(streams, incoming, outgoing);
      }
      wire := FinishNotification(oks, ok, View());
    }

    /** handle_notification for SCTP_STREAM_CHANGE_EVENT. */
    method NotifyStreamChange(refused: bool, st: Status, oks: seq<(bool, bool)>, ok: bool) returns (wire: seq<Wire>)
      requires Valid() && |oks| == CHANNELS && (st.OutStreams? ==> st.n >= 1)
      modifies this`oStreamBufferCounter, channels, iStreamChannel, oStreamChannel
      ensures Valid() && View() == Apply(old(View()), EvChange(refused, st, oks, ok))
      ensures wire == SendDeferred(StreamChange(old(View()), 0, refused, st), 0, oks).1
    {
      ghost var t := StreamChange(View(), 0, refused, st);
      HandleStreamChangeEvent(refused, st, t);
      wire := FinishNotification(oks, ok, t);
    }
  }
}
