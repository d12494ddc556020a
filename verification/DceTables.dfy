/** Invariants of the data-channel tables over every sequence of operations and events. */
module DceTables {
  import opened DceCodec
  import opened Dce

  /** Everything that reaches the tables. A notification is followed by the deferred sends
      (`oks`) and by the request of the queued resets (`ok`). */
  datatype Event =
    | EvOpen(p: Params, st: Status, sent: Sent)
    | EvClose(c: nat, ok: bool)
    | EvMessage(w: Wire, st: Status, sent: Sent)
    | EvReset(streams: seq<nat>, incoming: bool, outgoing: bool, refused: bool, oks: seq<(bool, bool)>, ok: bool)
    | EvChange(refused: bool, st: Status, oks: seq<(bool, bool)>, ok: bool)

  /** The association delivers on streams the engine has, and reports at least one stream. */
  predicate EnvOk(ev: Event) {
    match ev
    case EvOpen(_, st, _) => st.OutStreams? ==> st.n >= 1
    case EvClose(c, _) => c < CHANNELS
    case EvMessage(w, _, _) => w.stream < STREAMS
    case EvReset(_, _, _, _, oks, _) => |oks| == CHANNELS
    case EvChange(_, st, oks, _) => |oks| == CHANNELS && (st.OutStreams? ==> st.n >= 1)
  }

  /** handle_notification, after the event itself. */
  function Afterwards(t: Tables, oks: seq<(bool, bool)>, ok: bool): Tables
    requires Sized(t) && |oks| == CHANNELS
  {
    RequestResets(SendDeferred(t, 0, oks).0, ok)
  }

  function Apply(t: Tables, ev: Event): (t': Tables)
    requires Sized(t) && EnvOk(ev)
    ensures Sized(t')
  {
    match ev
    case EvOpen(p, st, sent) => OpenChannel(t, p, st, sent).t
    case EvClose(c, ok) => CloseChannel(t, c, ok)
    case EvMessage(w, st, sent) => HandleMessage(t, w, st, sent).t
    case EvReset(streams, incoming, outgoing, refused, oks, ok) =>
      Afterwards(if refused then t else ResetEvent(t, streams, incoming, outgoing), oks, ok)
    case EvChange(refused, st, oks, ok) => Afterwards(StreamChange(t, 0, refused, st), oks, ok)
  }

  // ---- The outgoing index ------------------------------------------------

  /** Slot and stream name each other, and a closed slot names none. */
  predicate OutExact(t: Tables) {
    && Sized(t) && t.oIndex[0] == -1
    && (forall s, c :: 1 <= s < STREAMS && 0 <= c < CHANNELS ==> (t.oIndex[s] == c <==> t.chans[c].oStream == s))
    && (forall c :: 0 <= c < CHANNELS && t.chans[c].state == Closed ==> t.chans[c].oStream == 0)
  }

  lemma InitOut(even: bool)
    ensures OutExact(Init(even))
  {
  }

  /** t' is t with slot c replaced and the outgoing index untouched. */
  lemma RewriteOut(t: Tables, t': Tables, c: nat)
    requires OutExact(t) && Sized(t') && c < CHANNELS && t'.chans == t.chans[c := t'.chans[c]] && t'.oIndex == t.oIndex
    requires t'.chans[c].oStream == t.chans[c].oStream && (t'.chans[c].state == Closed ==> t.chans[c].oStream == 0)
    ensures OutExact(t')
  {
  }

  /** t' is t with slot c, which had no outgoing stream, now owning the free stream s. */
  lemma PlaceOut(t: Tables, t': Tables, c: nat, s: nat)
    requires OutExact(t) && Sized(t') && c < CHANNELS && 1 <= s < STREAMS
    requires t.chans[c].oStream == 0 && t.oIndex[s] == -1
    requires t'.chans == t.chans[c := t'.chans[c]] && t'.oIndex == t.oIndex[s := c]
    requires t'.chans[c].oStream == s && t'.chans[c].state != Closed
    ensures OutExact(t')
  {
  }

  lemma OpenOut(t: Tables, p: Params, st: Status, sent: Sent)
    requires OutExact(t) && (st.OutStreams? ==> st.n >= 1)
    ensures OutExact(OpenChannel(t, p, st, sent).t)
  {
    var c, s, t' := FreeSlot(t.chans, 0), FreeStream(t, st), OpenChannel(t, p, st, sent).t;
    if Openable(p) && c != -1 {
      if s == 0 || sent == Failure {
        RewriteOut(t, t', c);
      } else {
        PlaceOut(t, t', c, s);
      }
    }
  }

  lemma AcceptOut(t: Tables, s: nat, p: Params, st: Status, sent: Sent)
    requires OutExact(t) && s < STREAMS
    ensures OutExact(HandleOpenRequest(t, s, p, st, sent).t)
  {
    var c, t' := FreeSlot(t.chans, 0), HandleOpenRequest(t, s, p, st, sent).t;
    if t' != t {
      if s == 0 || sent == Failure {
        RewriteOut(t, t', c);
      } else {
        PlaceOut(t, t', c, s);
      }
    }
  }

  lemma AckOut(t: Tables, s: nat)
    requires OutExact(t)
    ensures OutExact(HandleAck(t, s))
  {
    if HandleAck(t, s) != t {
      RewriteOut(t, HandleAck(t, s), t.iIndex[s]);
    }
  }

  lemma MessageOut(t: Tables, w: Wire, st: Status, sent: Sent)
    requires OutExact(t) && w.stream < STREAMS
    ensures OutExact(HandleMessage(t, w, st, sent).t)
  {
    AckOut(t, w.stream);
    if |w.bytes| >= FIXED_SIZE {
      AcceptOut(t, w.stream, Decode(w.bytes), st, sent);
    }
  }

  lemma CloseOut(t: Tables, c: nat, ok: bool)
    requires OutExact(t) && c < CHANNELS
    ensures OutExact(CloseChannel(t, c, ok))
  {
    if t.chans[c].state == Open {
      RewriteOut(t, CloseChannel(t, c, ok), c);
    }
  }

  lemma ResetIncomingOut(t: Tables, s: nat)
    requires OutExact(t)
    ensures OutExact(ResetIncoming(t, s))
  {
    if s < STREAMS && t.iIndex[s] != -1 {
      RewriteOut(t, ResetIncoming(t, s), t.iIndex[s]);
    }
  }

  lemma ResetOutgoingOut(t: Tables, s: nat)
    requires OutExact(t)
    ensures OutExact(ResetOutgoing(t, s))
  {
  }

  lemma ResetStreamOut(t: Tables, s: nat, incoming: bool, outgoing: bool)
    requires OutExact(t)
    ensures OutExact(ResetStream(t, s, incoming, outgoing))
  {
    ResetIncomingOut(t, s);
    ResetOutgoingOut(if incoming then ResetIncoming(t, s) else t, s);
  }

  lemma {:induction false} ResetEventOut(t: Tables, streams: seq<nat>, incoming: bool, outgoing: bool)
    requires OutExact(t)
    ensures OutExact(ResetEvent(t, streams, incoming, outgoing))
    decreases |streams|
  {
    if streams == [] {
    } else {
      ResetStreamOut(t, streams[0], incoming, outgoing);
      ResetEventOut(ResetStream(t, streams[0], incoming, outgoing), streams[1..], incoming, outgoing);
    }
  }

  /** One turn of the loop over slots, with its result. */
  lemma StreamChangeUnfolds(t: Tables, c: nat, refused: bool, st: Status, r: (Tables, bool))
    requires Sized(t) && c < CHANNELS && (st.OutStreams? ==> st.n >= 1) && r == ChangeSlot(t, c, refused, st)
    ensures StreamChange(t, c, refused, st) == if r.1 then StreamChange(r.0, c + 1, refused, st) else r.0
  {
  }

  lemma ChangeSlotOut(t: Tables, c: nat, refused: bool, st: Status, r: (Tables, bool))
    requires OutExact(t) && c < CHANNELS && (st.OutStreams? ==> st.n >= 1) && r == ChangeSlot(t, c, refused, st)
    ensures OutExact(r.0)
  {
  }

  lemma {:induction false} StreamChangeOut(t: Tables, c: nat, refused: bool, st: Status)
    requires OutExact(t) && c <= CHANNELS && (st.OutStreams? ==> st.n >= 1)
    ensures OutExact(StreamChange(t, c, refused, st))
    decreases CHANNELS - c
  {
    if c == CHANNELS {
    } else {
      var r := ChangeSlot(t, c, refused, st);
      ChangeSlotOut(t, c, refused, st, r);
      StreamChangeUnfolds(t, c, refused, st, r);
      if r.1 {
        StreamChangeOut(r.0, c + 1, refused, st);
      }
    }
  }

  /** Sending deferred messages changes flags only. */
  predicate FlagsOnly(t: Tables, t': Tables) {
    && |t'.chans| == |t.chans| && t' == t.(chans := t'.chans)
    && forall c :: 0 <= c < |t.chans| ==>
         t'.chans[c].(sendReq := t.chans[c].sendReq, sendAck := t.chans[c].sendAck) == t.chans[c]
  }

  lemma {:induction false} DeferredFlagsOnly(t: Tables, c: nat, oks: seq<(bool, bool)>)
    requires Sized(t) && c <= CHANNELS && |oks| == CHANNELS
    ensures FlagsOnly(t, SendDeferred(t, c, oks).0)
    decreases CHANNELS - c
  {
    if c == CHANNELS {
    } else {
      var t1 := SetChan(t, c, DeferredSlot(t.chans[c], oks[c].0, oks[c].1).0);
      DeferredFlagsOnly(t1, c + 1, oks);
    }
  }

  lemma FlagsOut(t: Tables, t': Tables)
    requires OutExact(t) && FlagsOnly(t, t')
    ensures OutExact(t')
  {
    assert forall c :: 0 <= c < CHANNELS ==>
        && t'.chans[c].oStream == t.chans[c].oStream && t'.chans[c].iStream == t.chans[c].iStream
        && t'.chans[c].state == t.chans[c].state;
  }

  lemma AfterwardsOut(t: Tables, oks: seq<(bool, bool)>, ok: bool)
    requires OutExact(t) && |oks| == CHANNELS
    ensures OutExact(Afterwards(t, oks, ok))
  {
    DeferredFlagsOnly(t, 0, oks);
    FlagsOut(t, SendDeferred(t, 0, oks).0);
  }

  lemma OutStep(t: Tables, ev: Event)
    requires OutExact(t) && EnvOk(ev)
    ensures OutExact(Apply(t, ev))
  {
    match ev
    case EvOpen(p, st, sent) => OpenOut(t, p, st, sent);
    case EvClose(c, ok) => CloseOut(t, c, ok);
    case EvMessage(w, st, sent) => MessageOut(t, w, st, sent);
    case EvReset(streams, incoming, outgoing, refused, oks, ok) =>
      ResetEventOut(t, streams, incoming, outgoing);
      AfterwardsOut(if refused then t else ResetEvent(t, streams, incoming, outgoing), oks, ok);
    case EvChange(refused, st, oks, ok) =>
      StreamChangeOut(t, 0, refused, st);
      AfterwardsOut(StreamChange(t, 0, refused, st), oks, ok);
  }

  // ---- The incoming index ------------------------------------------------

  /** An index entry names a slot that names it; a closed slot names no incoming stream; and
      an open or closing slot still owns a direction. */
  predicate InOk(t: Tables) {
    && Sized(t)
    && (forall s :: 1 <= s < STREAMS && t.iIndex[s] != -1 ==> t.chans[t.iIndex[s]].iStream == s)
    && (forall c :: 0 <= c < CHANNELS ==> SlotOk(t.chans[c]))
  }

  predicate SlotOk(ch: Channel) {
    && (ch.state == Closed ==> ch.iStream == 0)
    && (ch.state == Open || ch.state == Closing ==> ch.iStream != 0 || ch.oStream != 0)
  }

  /** The indexes agree on every stream but 0. */
  predicate SameIndex(a: seq<int>, b: seq<int>)
    requires |a| == STREAMS && |b| == STREAMS
  {
    forall s :: 1 <= s < STREAMS ==> a[s] == b[s]
  }

  /** Slot c keeps, gives up, or (being free) takes up an incoming stream. */
  lemma RewriteIn(t: Tables, t': Tables, c: nat)
    requires InOk(t) && Sized(t') && c < CHANNELS && t'.chans == t.chans[c := t'.chans[c]] && SlotOk(t'.chans[c])
    requires SameIndex(t'.iIndex, t.iIndex) && t'.chans[c].iStream == t.chans[c].iStream
    ensures InOk(t')
  {
  }

  lemma DropIn(t: Tables, t': Tables, c: nat)
    requires InOk(t) && Sized(t') && c < CHANNELS && t'.chans == t.chans[c := t'.chans[c]] && SlotOk(t'.chans[c])
    requires SameIndex(t'.iIndex, t.iIndex[t.chans[c].iStream := -1]) && t'.chans[c].iStream == 0
    ensures InOk(t')
  {
  }

  lemma PlaceIn(t: Tables, t': Tables, c: nat, s: nat)
    requires InOk(t) && Sized(t') && c < CHANNELS && t'.chans == t.chans[c := t'.chans[c]] && SlotOk(t'.chans[c])
    requires 1 <= s < STREAMS && t.chans[c].iStream == 0 && t'.iIndex == t.iIndex[s := c] && t'.chans[c].iStream == s
    ensures InOk(t')
  {
  }

  /** The send in open_channel is reached, and fails for good. */
  predicate OpenFails(t: Tables, p: Params, st: Status, sent: Sent)
    requires Sized(t) && (st.OutStreams? ==> st.n >= 1)
  {
    Openable(p) && FreeSlot(t.chans, 0) != -1 && FreeStream(t, st) != 0 && sent == Failure
  }

  lemma FailedOpenIs(t: Tables, p: Params, st: Status, c: nat, s: nat, t': Tables)
    requires Sized(t) && (st.OutStreams? ==> st.n >= 1) && OpenFails(t, p, st, Failure)
    requires c == FreeSlot(t.chans, 0) && s == FreeStream(t, st) && t' == OpenChannel(t, p, st, Failure).t
    ensures t'.iIndex == t.iIndex[s := c] && t'.oIndex == t.oIndex && t'.chans[c].iStream == s
    ensures t'.chans == t.chans[c := t'.chans[c]] && t'.chans[c].state == Closed
  {
  }

  function DropFirst(b: Bytes, n: nat): Bytes {
    if n <= |b| then b[n..] else []
  }

  /** The slot of a channel asked for: the request's, connecting, or, after a send that fails
      for good, closed, with its texts and its incoming stream left in it. */
  lemma AskedIs(t: Tables, c: nat, s: nat, p: Params, sent: Sent, o: Out)
    requires Sized(t) && c < CHANNELS && s < STREAMS && Openable(p) && o == ConnectSlot(t, c, s, p, sent)
    ensures var ch, failed := o.t.chans[c], s != 0 && sent == Failure;
            && o.slot == (if failed then -1 else c)
            && o.t.chans == t.chans[c := ch] && o.t.even == t.even && o.t.resets == t.resets
            && ch.labelText == p.labelText + DropFirst(t.chans[c].labelText, |p.labelText|)
            && ch.protocol == p.protocol + DropFirst(t.chans[c].protocol, |p.protocol|)
            && ch.iStream == s && !ch.sendAck
            && if failed
               then && ch.state == Closed && ch.oStream == 0 && !ch.unordered && ch.policy == PrNone
                    && ch.value == 0 && !ch.sendReq
               else && ch.state == Connecting && ch.oStream == s && ch.unordered == p.unordered
                    && ch.policy == p.policy && ch.value == p.value
                    && (ch.sendReq <==> s != 0 && sent == Again)
    ensures o.wire != [] <==> s != 0 && sent == SentOk
  {
  }

  /** Which channels can be asked for: texts of at most 128 bytes, a known policy, a 32-bit
      value, and none without a policy. All others are refused without a trace, and so is
      any if no slot is left; the rest get the first closed slot. */
  lemma OpensIff(t: Tables, p: Params, st: Status, sent: Sent, o: Out, c: int)
    requires Sized(t) && (st.OutStreams? ==> st.n >= 1) && o == OpenChannel(t, p, st, sent)
    requires c == FreeSlot(t.chans, 0)
    ensures if |p.labelText| <= 128 && |p.protocol| <= 128 && p.policy in {PrNone, PrTtl, PrRtx}
               && p.value < 4294967296 && (p.policy != PrNone || p.value == 0) && c != -1
            then && (o.slot == if FreeStream(t, st) != 0 && sent == Failure then -1 else c)
                 && o.t.chans[c].labelText == p.labelText + DropFirst(t.chans[c].labelText, |p.labelText|)
                 && (o.slot == c <==> o.t.chans[c].state == Connecting)
            else o == Out(t, [], -1)
  {
    if Openable(p) && c != -1 {
      AskedIs(t, c, FreeStream(t, st), p, sent, o);
    }
  }

  /** Opening a channel keeps the incoming side in order exactly when its request does not
      fail for good: the failure path frees the slot but leaves its stream behind. */
  lemma OpenIn(t: Tables, p: Params, st: Status, sent: Sent)
    requires InOk(t) && (st.OutStreams? ==> st.n >= 1)
    ensures InOk(OpenChannel(t, p, st, sent).t) <==> !OpenFails(t, p, st, sent)
  {
    var c, s, t' := FreeSlot(t.chans, 0), FreeStream(t, st), OpenChannel(t, p, st, sent).t;
    if Openable(p) && c != -1 {
      if s == 0 {
        RewriteIn(t, t', c);
      } else if sent == Failure {
        FailedOpenIs(t, p, st, c, s, t');
        assert !SlotOk(t'.chans[c]);
      } else {
        PlaceIn(t, t', c, s);
      }
    }
  }

  lemma {:induction false} FirstFreeSlot(chans: seq<Channel>, chans': seq<Channel>, i: nat, c: nat)
    requires i <= c < |chans| == |chans'| && FreeSlot(chans, i) == c
    requires (forall k :: 0 <= k < c ==> chans'[k] == chans[k]) && chans'[c].state == Closed
    ensures FreeSlot(chans', i) == c
    decreases c - i
  {
    if i == c {
    } else {
      FirstFreeSlot(chans, chans', i + 1, c);
    }
  }

  lemma SlotTaken(t: Tables, c: nat, s: nat, p: Params, st: Status, sent: Sent)
    requires Sized(t) && FreeSlot(t.chans, 0) == c && 1 <= s < STREAMS && t.iIndex[s] == -1 && t.oIndex[s] == -1
    requires st.OutStreams? && s <= st.n && sent != Failure
    ensures var t' := HandleOpenRequest(t, s, p, st, sent).t; t'.iIndex == t.iIndex[s := c] && t'.chans[c].iStream == s
  {
  }

  /** What that leads to: the freed slot is handed to the next request of the peer, and the
      index then has stream s lead to a slot that uses another stream. */
  lemma FailedOpenMisleads(t: Tables, p: Params, st: Status, s': nat, p': Params, st': Status, sent': Sent)
    requires OutExact(t) && (st.OutStreams? ==> st.n >= 1) && OpenFails(t, p, st, Failure)
    requires 1 <= s' < STREAMS && s' != FreeStream(t, st) && t.iIndex[s'] == -1 && t.oIndex[s'] == -1
    requires st'.OutStreams? && s' <= st'.n && sent' != Failure
    ensures var s := FreeStream(t, st);
            var t' := HandleOpenRequest(OpenChannel(t, p, st, Failure).t, s', p', st', sent').t;
            t'.iIndex[s] != -1 && t'.chans[t'.iIndex[s]].iStream == s' != s
  {
    var c, t1 := FreeSlot(t.chans, 0), OpenChannel(t, p, st, Failure).t;
    FailedOpenIs(t, p, st, c, FreeStream(t, st), t1);
    FirstFreeSlot(t.chans, t1.chans, 0, c);
    SlotTaken(t1, c, s', p', st', sent');
  }

  /** Accepting a request keeps the incoming side in order exactly when it did not come in on
      stream 0, which gives the channel no stream at all. */
  lemma AcceptIn(t: Tables, s: nat, p: Params, st: Status, sent: Sent)
    requires InOk(t) && s < STREAMS
    ensures InOk(HandleOpenRequest(t, s, p, st, sent).t) <==> !(s == 0 && Accepts(t, 0, st))
  {
    if Accepts(t, s, st) {
      var c, t' := FreeSlot(t.chans, 0), HandleOpenRequest(t, s, p, st, sent).t;
      if s == 0 {
        assert !SlotOk(t'.chans[c]);
      } else if sent == Failure {
        RewriteIn(t, t', c);
      } else {
        PlaceIn(t, t', c, s);
      }
    }
  }

  /** Stream 0 leads to a channel that still waits for its streams. */
  predicate WaitsOnZero(t: Tables)
    requires Sized(t)
  {
    t.iIndex[0] != -1 && (var ch := t.chans[t.iIndex[0]]; ch.state == Connecting && ch.iStream == ch.oStream == 0)
  }

  /** An acknowledgement does exactly when it does not open a channel without streams. */
  lemma AckIn(t: Tables, s: nat)
    requires InOk(t)
    ensures InOk(HandleAck(t, s)) <==> !(s == 0 && WaitsOnZero(t))
  {
    if s == 0 && WaitsOnZero(t) {
      assert !SlotOk(HandleAck(t, s).chans[t.iIndex[0]]);
    } else if HandleAck(t, s) != t {
      RewriteIn(t, HandleAck(t, s), t.iIndex[s]);
    }
  }

  /** A message on stream 0 that opens a channel, as a request or as an acknowledgement. */
  predicate OpensOnZero(t: Tables, w: Wire, st: Status)
    requires Sized(t)
  {
    && w.stream == 0
    && (if !w.control then WaitsOnZero(t)
        else if w.bytes == [] then false
        else if w.bytes[0] == OPEN_REQUEST && |w.bytes| >= FIXED_SIZE then Accepts(t, 0, st)
        else w.bytes[0] == OPEN_ACK && WaitsOnZero(t))
  }

  lemma MessageIn(t: Tables, w: Wire, st: Status, sent: Sent)
    requires InOk(t) && w.stream < STREAMS
    ensures InOk(HandleMessage(t, w, st, sent).t) <==> !OpensOnZero(t, w, st)
  {
    AckIn(t, w.stream);
    if |w.bytes| >= FIXED_SIZE {
      AcceptIn(t, w.stream, Decode(w.bytes), st, sent);
    }
  }

  lemma CloseIn(t: Tables, c: nat, ok: bool)
    requires InOk(t) && c < CHANNELS
    ensures InOk(CloseChannel(t, c, ok))
  {
    if t.chans[c].state == Open {
      RewriteIn(t, CloseChannel(t, c, ok), c);
    }
  }

  lemma ResetIncomingIn(t: Tables, s: nat)
    requires InOk(t)
    ensures InOk(ResetIncoming(t, s))
  {
    if s < STREAMS && t.iIndex[s] != -1 {
      DropIn(t, ResetIncoming(t, s), t.iIndex[s]);
    }
  }

  lemma ResetOutgoingIn(t: Tables, s: nat)
    requires InOk(t)
    ensures InOk(ResetOutgoing(t, s))
  {
    if s < STREAMS && t.oIndex[s] != -1 {
      RewriteIn(t, ResetOutgoing(t, s), t.oIndex[s]);
    }
  }

  lemma {:induction false} ResetEventIn(t: Tables, streams: seq<nat>, incoming: bool, outgoing: bool)
    requires InOk(t)
    ensures InOk(ResetEvent(t, streams, incoming, outgoing))
    decreases |streams|
  {
    if streams == [] {
    } else {
      ResetIncomingIn(t, streams[0]);
      ResetOutgoingIn(if incoming then ResetIncoming(t, streams[0]) else t, streams[0]);
      ResetEventIn(ResetStream(t, streams[0], incoming, outgoing), streams[1..], incoming, outgoing);
    }
  }

  lemma ChangeSlotIn(t: Tables, c: nat, refused: bool, st: Status)
    requires InOk(t) && c < CHANNELS && (st.OutStreams? ==> st.n >= 1)
    ensures InOk(ChangeSlot(t, c, refused, st).0)
  {
    var t' := ChangeSlot(t, c, refused, st).0;
    if t' != t {
      if refused {
        DropIn(t, t', c);
      } else {
        RewriteIn(t, t', c);
      }
    }
  }

  lemma {:induction false} StreamChangeIn(t: Tables, c: nat, refused: bool, st: Status)
    requires InOk(t) && c <= CHANNELS && (st.OutStreams? ==> st.n >= 1)
    ensures InOk(StreamChange(t, c, refused, st))
    decreases CHANNELS - c
  {
    if c == CHANNELS {
    } else {
      ChangeSlotIn(t, c, refused, st);
      var r := ChangeSlot(t, c, refused, st);
      if r.1 {
        StreamChangeIn(r.0, c + 1, refused, st);
      }
    }
  }

  lemma FlagsIn(t: Tables, t': Tables)
    requires InOk(t) && FlagsOnly(t, t')
    ensures InOk(t')
  {
    assert forall c :: 0 <= c < CHANNELS ==>
        && t'.chans[c].oStream == t.chans[c].oStream && t'.chans[c].iStream == t.chans[c].iStream
        && t'.chans[c].state == t.chans[c].state;
  }

  lemma AfterwardsIn(t: Tables, oks: seq<(bool, bool)>, ok: bool)
    requires InOk(t) && |oks| == CHANNELS
    ensures InOk(Afterwards(t, oks, ok))
  {
    DeferredFlagsOnly(t, 0, oks);
    FlagsIn(t, SendDeferred(t, 0, oks).0);
  }

  /** No open request fails for good, and the peer opens no channel on stream 0. */
  predicate PeerOk(t: Tables, ev: Event)
    requires Sized(t) && EnvOk(ev)
  {
    && (ev.EvOpen? ==> !OpenFails(t, ev.p, ev.st, ev.sent))
    && (ev.EvMessage? ==> !OpensOnZero(t, ev.w, ev.st))
  }

  /** An operation or event keeps the incoming side in order if and only if it is none of these. */
  lemma InStep(t: Tables, ev: Event)
    requires InOk(t) && EnvOk(ev)
    ensures InOk(Apply(t, ev)) <==> PeerOk(t, ev)
  {
    match ev
    case EvOpen(p, st, sent) => OpenIn(t, p, st, sent);
    case EvClose(c, ok) => CloseIn(t, c, ok);
    case EvMessage(w, st, sent) => MessageIn(t, w, st, sent);
    case EvReset(streams, incoming, outgoing, refused, oks, ok) =>
      ResetEventIn(t, streams, incoming, outgoing);
      AfterwardsIn(if refused then t else ResetEvent(t, streams, incoming, outgoing), oks, ok);
    case EvChange(refused, st, oks, ok) =>
      StreamChangeIn(t, 0, refused, st);
      AfterwardsIn(StreamChange(t, 0, refused, st), oks, ok);
  }

  // ---- The pending resets ------------------------------------------------

  predicate Distinct(xs: seq<nat>) {
    forall i, j :: 0 <= i < j < |xs| ==> xs[i] != xs[j]
  }

  /** The queued resets are pairwise distinct stream ids. */
  predicate ResetsOk(t: Tables) {
    Distinct(t.resets) && forall s :: s in t.resets ==> s < STREAMS
  }

  /** Pigeonhole: n numbers below n leave no room for another. */
  lemma {:induction false} DistinctFits(xs: seq<nat>, n: nat)
    requires Distinct(xs) && forall x :: x in xs ==> x < n
    ensures |xs| <= n
  {
    if xs == [] {
    } else {
      assert xs[0] in xs;
      if n - 1 in xs {
        var k :| 0 <= k < |xs| && xs[k] == n - 1;
        var ys := xs[..k] + xs[k + 1..];
        assert forall y :: y in ys ==> y in xs && y != n - 1;
        DistinctFits(ys, n - 1);
      } else {
        DistinctFits(xs, n - 1);
      }
    }
  }

  /** Queueing a reset stays within the buffer, even if it was never emptied. */
  lemma QueueFits(t: Tables, s: nat)
    requires ResetsOk(t) && s < STREAMS
    ensures ResetsOk(QueueReset(t, s))
    ensures s !in t.resets ==> |t.resets| < STREAMS
  {
    if s !in t.resets {
      var xs := t.resets + [s];
      assert Distinct(xs) && forall x :: x in xs ==> x < STREAMS;
      DistinctFits(xs, STREAMS);
    }
  }

  lemma {:induction false} ResetEventQueue(t: Tables, streams: seq<nat>, incoming: bool, outgoing: bool)
    requires Sized(t) && ResetsOk(t)
    ensures ResetsOk(ResetEvent(t, streams, incoming, outgoing))
    decreases |streams|
  {
    if streams == [] {
    } else {
      forall c | 0 <= c < CHANNELS {
        QueueFits(t, t.chans[c].oStream);
      }
      assert ResetsOk(ResetIncoming(t, streams[0]));
      ResetEventQueue(ResetStream(t, streams[0], incoming, outgoing), streams[1..], incoming, outgoing);
    }
  }

  lemma ChangeSlotQueue(t: Tables, c: nat, refused: bool, st: Status, r: (Tables, bool))
    requires Sized(t) && c < CHANNELS && (st.OutStreams? ==> st.n >= 1) && r == ChangeSlot(t, c, refused, st)
    ensures r.0.resets == t.resets
  {
  }

  lemma {:induction false} StreamChangeQueue(t: Tables, c: nat, refused: bool, st: Status)
    requires Sized(t) && c <= CHANNELS && (st.OutStreams? ==> st.n >= 1)
    ensures StreamChange(t, c, refused, st).resets == t.resets
    decreases CHANNELS - c
  {
    if c == CHANNELS {
    } else {
      var r := ChangeSlot(t, c, refused, st);
      ChangeSlotQueue(t, c, refused, st, r);
      StreamChangeUnfolds(t, c, refused, st, r);
      if r.1 {
        StreamChangeQueue(r.0, c + 1, refused, st);
      }
    }
  }

  lemma AfterwardsQueue(t: Tables, oks: seq<(bool, bool)>, ok: bool)
    requires Sized(t) && ResetsOk(t) && |oks| == CHANNELS
    ensures ResetsOk(Afterwards(t, oks, ok))
  {
    DeferredFlagsOnly(t, 0, oks);
  }

  lemma QueueStep(t: Tables, ev: Event)
    requires Sized(t) && ResetsOk(t) && EnvOk(ev)
    ensures ResetsOk(Apply(t, ev))
  {
    match ev
    case EvOpen(_, _, _) =>
    case EvClose(c, ok) => QueueFits(t, t.chans[c].oStream);
    case EvMessage(_, _, _) =>
    case EvReset(streams, incoming, outgoing, refused, oks, ok) =>
      ResetEventQueue(t, streams, incoming, outgoing);
      AfterwardsQueue(if refused then t else ResetEvent(t, streams, incoming, outgoing), oks, ok);
    case EvChange(refused, st, oks, ok) =>
      StreamChangeQueue(t, 0, refused, st);
      AfterwardsQueue(StreamChange(t, 0, refused, st), oks, ok);
  }

  // ---- When a channel closes ---------------------------------------------

  lemma ChangeSlotSpares(t: Tables, c: nat, refused: bool, st: Status, d: nat)
    requires Sized(t) && c < CHANNELS && d < CHANNELS && (st.OutStreams? ==> st.n >= 1)
    requires t.chans[d].state != Connecting
    ensures ChangeSlot(t, c, refused, st).0.chans[d] == t.chans[d]
  {
  }

  lemma {:induction false} StreamChangeSpares(t: Tables, c: nat, refused: bool, st: Status, d: nat)
    requires Sized(t) && c <= CHANNELS && d < CHANNELS && (st.OutStreams? ==> st.n >= 1)
    requires t.chans[d].state != Connecting
    ensures StreamChange(t, c, refused, st).chans[d] == t.chans[d]
    decreases CHANNELS - c
  {
    if c == CHANNELS {
    } else {
      ChangeSlotSpares(t, c, refused, st, d);
      var r := ChangeSlot(t, c, refused, st);
      if r.1 {
        StreamChangeSpares(r.0, c + 1, refused, st, d);
      }
    }
  }

  lemma AfterwardsSpares(t: Tables, oks: seq<(bool, bool)>, ok: bool, d: nat)
    requires Sized(t) && |oks| == CHANNELS && d < CHANNELS
    ensures Afterwards(t, oks, ok).chans[d].state == t.chans[d].state
  {
    DeferredFlagsOnly(t, 0, oks);
  }

  lemma MessageSpares(t: Tables, w: Wire, st: Status, sent: Sent, d: nat)
    requires Sized(t) && w.stream < STREAMS && d < CHANNELS
    requires t.chans[d].state == Open || t.chans[d].state == Closing
    ensures HandleMessage(t, w, st, sent).t.chans[d] == t.chans[d]
  {
  }

  /** An open or closing channel is closed by nothing but a stream reset that was granted. */
  lemma OnlyResetsClose(t: Tables, ev: Event, d: nat)
    requires Sized(t) && EnvOk(ev) && d < CHANNELS
    requires t.chans[d].state == Open || t.chans[d].state == Closing
    requires Apply(t, ev).chans[d].state == Closed
    ensures ev.EvReset? && !ev.refused
  {
    match ev
    case EvOpen(_, _, _) =>
    case EvClose(_, _) =>
    case EvMessage(w, st, sent) => MessageSpares(t, w, st, sent, d);
    case EvReset(_, _, _, _, oks, ok) => AfterwardsSpares(t, oks, ok, d);
    case EvChange(refused, st, oks, ok) =>
      StreamChangeSpares(t, 0, refused, st, d);
      AfterwardsSpares(StreamChange(t, 0, refused, st), oks, ok, d);
  }

  // ---- A stream that comes late ------------------------------------------

  /** A connecting slot that got its outgoing stream from a stream-change event, which gives it
      no incoming one: nothing the peer sends on that stream leads to the slot. */
  predicate Deaf(t: Tables, c: nat) {
    && Sized(t) && c < CHANNELS && t.chans[c].state == Connecting
    && t.chans[c].oStream != 0 && t.chans[c].iStream == 0
    && forall s :: 1 <= s < STREAMS ==> t.iIndex[s] != c
  }

  /** A channel opened when no stream was left is deaf from the moment it gets one. */
  lemma LateStreamIsDeaf(t: Tables, c: nat, st: Status)
    requires InOk(t) && c < CHANNELS && st.OutStreams? && st.n >= 1 && FreeStream(t, st) != 0
    requires t.chans[c].state == Connecting && t.chans[c].iStream == t.chans[c].oStream == 0
    ensures var t' := ChangeSlot(t, c, false, st).0;
            Deaf(t', c) && t'.chans[c].oStream == FreeStream(t, st) && t'.iIndex == t.iIndex
  {
  }

  /** An acknowledgement, or data that stands for one. */
  predicate Acknowledges(w: Wire) {
    !w.control || (w.bytes != [] && w.bytes[0] == OPEN_ACK)
  }

  lemma DeafAck(t: Tables, s: nat, c: nat, t': Tables)
    requires Deaf(t, c) && s < STREAMS && t' == HandleAck(t, s)
    ensures if s == 0 && t.iIndex[0] == c then t'.chans[c].state == Open else Deaf(t', c) && t'.chans[c] == t.chans[c]
  {
  }

  lemma DeafRequest(t: Tables, s: nat, p: Params, st: Status, sent: Sent, c: nat, t': Tables)
    requires Deaf(t, c) && s < STREAMS && t' == HandleOpenRequest(t, s, p, st, sent).t
    ensures Deaf(t', c) && t'.chans[c] == t.chans[c]
  {
  }

  lemma DeafMessage(t: Tables, w: Wire, st: Status, sent: Sent, c: nat, t': Tables)
    requires Deaf(t, c) && w.stream < STREAMS && t' == HandleMessage(t, w, st, sent).t
    ensures if w.stream == 0 && t.iIndex[0] == c && Acknowledges(w) then t'.chans[c].state == Open
            else Deaf(t', c) && t'.chans[c] == t.chans[c]
  {
    DeafAck(t, w.stream, c, HandleAck(t, w.stream));
    if |w.bytes| >= FIXED_SIZE {
      var p := Decode(w.bytes);
      DeafRequest(t, w.stream, p, st, sent, c, HandleOpenRequest(t, w.stream, p, st, sent).t);
    }
  }

  lemma DeafOpen(t: Tables, p: Params, st: Status, sent: Sent, c: nat, t': Tables)
    requires Deaf(t, c) && (st.OutStreams? ==> st.n >= 1) && t' == OpenChannel(t, p, st, sent).t
    ensures Deaf(t', c) && t'.chans[c] == t.chans[c]
  {
  }

  lemma DeafIncoming(t: Tables, s: nat, c: nat, t': Tables)
    requires Deaf(t, c) && t' == ResetIncoming(t, s)
    ensures Deaf(t', c) && t'.chans[c] == t.chans[c]
  {
  }

  lemma DeafOutgoing(t: Tables, s: nat, c: nat, t': Tables)
    requires Deaf(t, c) && OutExact(t) && s != t.chans[c].oStream && t' == ResetOutgoing(t, s)
    ensures Deaf(t', c) && t'.chans[c] == t.chans[c]
  {
  }

  /** Resets leave the slot deaf unless its own stream is reset. */
  lemma {:induction false} DeafResets(t: Tables, streams: seq<nat>, incoming: bool, outgoing: bool, c: nat)
    requires Deaf(t, c) && OutExact(t) && (outgoing ==> t.chans[c].oStream !in streams)
    ensures var t' := ResetEvent(t, streams, incoming, outgoing); Deaf(t', c) && t'.chans[c] == t.chans[c]
    decreases |streams|
  {
    if streams == [] {
    } else {
      var t1 := if incoming then ResetIncoming(t, streams[0]) else t;
      var t2 := if outgoing then ResetOutgoing(t1, streams[0]) else t1;
      DeafIncoming(t, streams[0], c, ResetIncoming(t, streams[0]));
      ResetStreamOut(t, streams[0], incoming, false);
      ResetStreamOut(t, streams[0], incoming, outgoing);
      if outgoing {
        DeafOutgoing(t1, streams[0], c, t2);
      }
      DeafResets(t2, streams[1..], incoming, outgoing, c);
    }
  }

  lemma DeafSlot(t: Tables, d: nat, refused: bool, st: Status, r: (Tables, bool), c: nat)
    requires Deaf(t, c) && d < CHANNELS && (st.OutStreams? ==> st.n >= 1) && r == ChangeSlot(t, d, refused, st)
    ensures Deaf(r.0, c) && r.0.chans[c] == t.chans[c]
  {
  }

  lemma {:induction false} DeafChange(t: Tables, d: nat, refused: bool, st: Status, c: nat)
    requires Deaf(t, c) && d <= CHANNELS && (st.OutStreams? ==> st.n >= 1)
    ensures var t' := StreamChange(t, d, refused, st); Deaf(t', c) && t'.chans[c] == t.chans[c]
    decreases CHANNELS - d
  {
    if d == CHANNELS {
    } else {
      var r := ChangeSlot(t, d, refused, st);
      DeafSlot(t, d, refused, st, r, c);
      StreamChangeUnfolds(t, d, refused, st, r);
      if r.1 {
        DeafChange(r.0, d + 1, refused, st, c);
      }
    }
  }

  lemma DeafAfterwards(t: Tables, oks: seq<(bool, bool)>, ok: bool, c: nat)
    requires Deaf(t, c) && |oks| == CHANNELS
    ensures var t' := Afterwards(t, oks, ok); Deaf(t', c) && t'.chans[c].oStream == t.chans[c].oStream
  {
    DeferredFlagsOnly(t, 0, oks);
  }

  /** The events that reach a deaf slot: an acknowledgement on stream 0, if the slot was the
      last to be opened without a stream, and a reset of its own stream. */
  predicate Reaches(t: Tables, ev: Event, c: nat)
    requires Deaf(t, c)
  {
    || (ev.EvMessage? && ev.w.stream == 0 && t.iIndex[0] == c && Acknowledges(ev.w))
    || (ev.EvReset? && !ev.refused && ev.outgoing && t.chans[c].oStream in ev.streams)
  }

  /** A deaf slot waits for ever, unless one of those events reaches it. */
  lemma DeafStep(t: Tables, ev: Event, c: nat)
    requires OutExact(t) && Deaf(t, c) && EnvOk(ev) && !Reaches(t, ev, c)
    ensures Deaf(Apply(t, ev), c) && Apply(t, ev).chans[c].oStream == t.chans[c].oStream
  {
    match ev
    case EvOpen(p, st, sent) => DeafOpen(t, p, st, sent, c, Apply(t, ev));
    case EvClose(_, _) =>
    case EvMessage(w, st, sent) => DeafMessage(t, w, st, sent, c, Apply(t, ev));
    case EvReset(streams, incoming, outgoing, refused, oks, ok) =>
      if !refused {
        DeafResets(t, streams, incoming, outgoing, c);
      }
      DeafAfterwards(if refused then t else ResetEvent(t, streams, incoming, outgoing), oks, ok, c);
    case EvChange(refused, st, oks, ok) =>
      DeafChange(t, 0, refused, st, c);
      DeafAfterwards(StreamChange(t, 0, refused, st), oks, ok, c);
  }

  lemma IncomingOpensNothing(t: Tables, s: nat, c: nat)
    requires Sized(t) && c < CHANNELS
    ensures ResetIncoming(t, s).chans[c].state == Open ==> t.chans[c].state == Open
  {
  }

  lemma OutgoingOpensNothing(t: Tables, s: nat, c: nat)
    requires Sized(t) && c < CHANNELS
    ensures ResetOutgoing(t, s).chans[c].state == Open ==> t.chans[c].state == Open
  {
  }

  lemma {:induction false} ResetsOpenNothing(t: Tables, streams: seq<nat>, incoming: bool, outgoing: bool, c: nat)
    requires Sized(t) && c < CHANNELS
    ensures ResetEvent(t, streams, incoming, outgoing).chans[c].state == Open ==> t.chans[c].state == Open
    decreases |streams|
  {
    if streams == [] {
    } else {
      var t1 := if incoming then ResetIncoming(t, streams[0]) else t;
      IncomingOpensNothing(t, streams[0], c);
      OutgoingOpensNothing(t1, streams[0], c);
      ResetsOpenNothing(if outgoing then ResetOutgoing(t1, streams[0]) else t1, streams[1..], incoming, outgoing, c);
    }
  }

  /** It is opened by an acknowledgement on stream 0 if that leads to it, and by nothing else. */
  lemma DeafOpensIff(t: Tables, ev: Event, c: nat)
    requires OutExact(t) && Deaf(t, c) && EnvOk(ev)
    ensures Apply(t, ev).chans[c].state == Open
            <==> ev.EvMessage? && ev.w.stream == 0 && t.iIndex[0] == c && Acknowledges(ev.w)
  {
    if !Reaches(t, ev, c) {
      DeafStep(t, ev, c);
    } else if ev.EvMessage? {
      DeafMessage(t, ev.w, ev.st, ev.sent, c, Apply(t, ev));
    } else {
      ResetsOpenNothing(t, ev.streams, ev.incoming, ev.outgoing, c);
      AfterwardsSpares(ResetEvent(t, ev.streams, ev.incoming, ev.outgoing), ev.oks, ev.ok, c);
    }
  }

  // ---- Whole runs --------------------------------------------------------

  function Run(t: Tables, evs: seq<Event>): (t': Tables)
    requires Sized(t) && forall ev :: ev in evs ==> EnvOk(ev)
    ensures Sized(t')
    decreases |evs|
  {
    if evs == [] then t else Run(Apply(t, evs[0]), evs[1..])
  }

  /** A run in which no open request fails for good and the peer opens nothing on stream 0. */
  predicate PeerRun(t: Tables, evs: seq<Event>)
    requires Sized(t) && forall ev :: ev in evs ==> EnvOk(ev)
    decreases |evs|
  {
    evs == [] || (PeerOk(t, evs[0]) && PeerRun(Apply(t, evs[0]), evs[1..]))
  }

  /** Nothing on stream 0, and no reset of stream s. */
  predicate Misses(ev: Event, s: nat) {
    && (ev.EvMessage? ==> ev.w.stream != 0)
    && (ev.EvReset? && !ev.refused && ev.outgoing ==> s !in ev.streams)
  }

  /** Whatever the peer sends on the streams in use, a deaf channel never opens. */
  lemma {:induction false} DeafAlong(t: Tables, evs: seq<Event>, c: nat)
    requires OutExact(t) && Deaf(t, c)
    requires forall ev :: ev in evs ==> EnvOk(ev) && Misses(ev, t.chans[c].oStream)
    ensures Deaf(Run(t, evs), c)
    decreases |evs|
  {
    if evs == [] {
    } else {
      assert evs[0] in evs;
      DeafStep(t, evs[0], c);
      OutStep(t, evs[0]);
      DeafAlong(Apply(t, evs[0]), evs[1..], c);
    }
  }

  lemma {:induction false} OutAlong(t: Tables, evs: seq<Event>)
    requires OutExact(t) && ResetsOk(t) && forall ev :: ev in evs ==> EnvOk(ev)
    ensures OutExact(Run(t, evs)) && ResetsOk(Run(t, evs))
    decreases |evs|
  {
    if evs == [] {
    } else {
      OutStep(t, evs[0]);
      QueueStep(t, evs[0]);
      OutAlong(Apply(t, evs[0]), evs[1..]);
    }
  }

  lemma {:induction false} InAlong(t: Tables, evs: seq<Event>)
    requires InOk(t) && (forall ev :: ev in evs ==> EnvOk(ev)) && PeerRun(t, evs)
    ensures InOk(Run(t, evs))
    decreases |evs|
  {
    if evs == [] {
    } else {
      InStep(t, evs[0]);
      InAlong(Apply(t, evs[0]), evs[1..]);
    }
  }

  /** The outgoing index is exact in every reachable state, failed sends included: stream s
      is indexed to slot c if and only if slot c owns s, no two slots share a stream, and
      closed slots own none. */
  lemma {:induction false} OutgoingIndexExact(even: bool, evs: seq<Event>)
    requires forall ev :: ev in evs ==> EnvOk(ev)
    ensures var t := Run(Init(even), evs);
            && (forall s, c :: 1 <= s < STREAMS && 0 <= c < CHANNELS ==>
                  (t.oIndex[s] == c <==> t.chans[c].oStream == s))
            && (forall c, d :: 0 <= c < d < CHANNELS && t.chans[c].oStream == t.chans[d].oStream ==>
                  t.chans[c].oStream == 0)
            && (forall c :: 0 <= c < CHANNELS && t.chans[c].state == Closed ==> t.chans[c].oStream == 0)
  {
    OutAlong(Init(even), evs);
    var t := Run(Init(even), evs);
    assert forall c :: 0 <= c < CHANNELS && t.chans[c].oStream != 0 ==> t.oIndex[t.chans[c].oStream] == c;
  }

  /** The reset buffer never overflows, even if no reset request ever succeeds. */
  lemma {:induction false} ResetBufferFits(even: bool, evs: seq<Event>)
    requires forall ev :: ev in evs ==> EnvOk(ev)
    ensures |Run(Init(even), evs).resets| <= STREAMS && Distinct(Run(Init(even), evs).resets)
  {
    InitOut(even);
    OutAlong(Init(even), evs);
    DistinctFits(Run(Init(even), evs).resets, STREAMS);
  }

  /** Ownership. With a well-behaved peer, an index entry names the slot that names it, and in
      every reachable state a slot that is not still connecting is closed exactly when it
      owns no stream in either direction: it closes with the release of its last one. */
  lemma {:induction false} ClosedExactlyWhenStreamless(even: bool, evs: seq<Event>, c: nat)
    requires (forall ev :: ev in evs ==> EnvOk(ev)) && PeerRun(Init(even), evs) && c < CHANNELS
    ensures var t := Run(Init(even), evs);
            && (forall s :: 1 <= s < STREAMS && t.iIndex[s] != -1 ==> t.chans[t.iIndex[s]].iStream == s)
            && (t.chans[c].state != Connecting ==>
                  (t.chans[c].state == Closed <==> t.chans[c].iStream == 0 && t.chans[c].oStream == 0))
  {
    InitOut(even);
    OutAlong(Init(even), evs);
    InAlong(Init(even), evs);
  }
}
