/** What becomes of a channel's slot: what a closed one holds, who is served when the
    association gets more streams, and what the deferred sends put on the wire. */
module DceSlots {
  import opened DceCodec
  import opened Dce
  import opened DceTables

  // ---- Deferred sends --------------------------------------------------------------

  /** The sends `ok` of a slot's request and acknowledgement take away the flags of those that
      got through, and nothing else. */
  predicate Discharged(ch: Channel, ok: (bool, bool), ch': Channel) {
    && ch' == ch.(sendReq := ch'.sendReq, sendAck := ch'.sendAck)
    && (ch'.sendReq <==> ch.sendReq && !(ok.0 && Sendable(ParamsOf(ch))))
    && (ch'.sendAck <==> ch.sendAck && !ok.1)
  }

  /** The message w is due for a slot, and its send gets through. */
  predicate Due(ch: Channel, ok: (bool, bool), w: Wire) {
    && w.control && w.stream == ch.oStream
    && (|| (ch.sendReq && ok.0 && Sendable(ParamsOf(ch)) && w.bytes == Encode(ParamsOf(ch)))
        || (ch.sendAck && ok.1 && w.bytes == [2]))
  }

  lemma SlotDeferred(ch: Channel, ok: (bool, bool), d: (Channel, seq<Wire>))
    requires d == DeferredSlot(ch, ok.0, ok.1)
    ensures Discharged(ch, ok, d.0)
    ensures forall w :: w in d.1 <==> Due(ch, ok, w)
  {
  }

  lemma {:induction false} DeferredUnfolds(t: Tables, c: nat, oks: seq<(bool, bool)>, d: (Channel, seq<Wire>),
                                           t1: Tables,
                        r1: (Tables, seq<Wire>))
    requires Sized(t) && c < CHANNELS && |oks| == CHANNELS && d == DeferredSlot(t.chans[c], oks[c].0, oks[c].1)
    requires t1 == SetChan(t, c, d.0) && Sized(t1) && r1 == SendDeferred(t1, c + 1, oks)
    ensures SendDeferred(t, c, oks) == (r1.0, d.1 + r1.1)
  {
  }

  lemma DueFrom(t: Tables, t1: Tables, c: nat, oks: seq<(bool, bool)>, w: Wire)
    requires Sized(t) && Sized(t1) && c < CHANNELS && |oks| == CHANNELS && t1.chans == t.chans[c := t1.chans[c]]
    ensures (exists k :: c <= k < CHANNELS && Due(t.chans[k], oks[k], w))
            <==> (Due(t.chans[c], oks[c], w) || exists k :: c + 1 <= k < CHANNELS && Due(t1.chans[k], oks[k], w))
  {
    if k :| c + 1 <= k < CHANNELS && Due(t1.chans[k], oks[k], w) {
      assert Due(t.chans[k], oks[k], w);
    }
    if k :| c + 1 <= k < CHANNELS && Due(t.chans[k], oks[k], w) {
      assert Due(t1.chans[k], oks[k], w);
    }
  }

  /** send_deferred_messages puts exactly the messages that are due on the wire, and forgets
      exactly those. */
  lemma {:induction false} DeferredSends(t: Tables, c: nat, oks: seq<(bool, bool)>, r: (Tables, seq<Wire>))
    requires Sized(t) && c <= CHANNELS && |oks| == CHANNELS && r == SendDeferred(t, c, oks)
    ensures r.0 == t.(chans := r.0.chans)
    ensures forall d :: 0 <= d < c ==> r.0.chans[d] == t.chans[d]
    ensures forall d :: c <= d < CHANNELS ==> Discharged(t.chans[d], oks[d], r.0.chans[d])
    ensures forall w :: w in r.1 <==> exists d :: c <= d < CHANNELS && Due(t.chans[d], oks[d], w)
    decreases CHANNELS - c
  {
    if c == CHANNELS {
    } else {
      var d := DeferredSlot(t.chans[c], oks[c].0, oks[c].1);
      var t1 := SetChan(t, c, d.0);
      var r1 := SendDeferred(t1, c + 1, oks);
      SlotDeferred(t.chans[c], oks[c], d);
      DeferredUnfolds(t, c, oks, d, t1, r1);
      DeferredSends(t1, c + 1, oks, r1);
      forall w ensures w in r.1 <==> exists k :: c <= k < CHANNELS && Due(t.chans[k], oks[k], w) {
        DueFrom(t, t1, c, oks, w);
      }
    }
  }

  // ---- More streams ---------------------------------------------------------------

  /** Opened, but without an outgoing stream so far. */
  predicate Waiting(ch: Channel) {
    ch.state == Connecting && ch.oStream == 0
  }

  /** Slot d has been given an outgoing stream that was free and is the engine's to use. */
  predicate Served(t: Tables, t': Tables, d: nat, st: Status)
    requires Sized(t) && Sized(t') && d < CHANNELS
  {
    var s := t'.chans[d].oStream;
    && 1 <= s < STREAMS && s < Limit(st) && OwnParity(t.even, s) && t.oIndex[s] == -1 && t'.oIndex[s] == d
    && t'.chans[d] == t.chans[d].(oStream := s, sendReq := t.chans[d].sendReq || t.chans[d].iStream == 0)
  }

  lemma SlotServed(t: Tables, c: nat, st: Status, r: (Tables, bool))
    requires Sized(t) && c < CHANNELS && (st.OutStreams? ==> st.n >= 1) && r == ChangeSlot(t, c, false, st)
    ensures r.0 == t.(chans := t.chans[c := r.0.chans[c]], oIndex := r.0.oIndex)
    ensures r.1 <==> !Waiting(t.chans[c]) || FreeStream(t, st) != 0
    ensures if Waiting(t.chans[c]) && r.1
            then Served(t, r.0, c, st) && r.0.oIndex == t.oIndex[r.0.chans[c].oStream := c]
            else r.0 == t
  {
  }

  /** What one slot's turn leaves alone. */
  lemma SlotKeeps(t: Tables, c: nat, st: Status, r: (Tables, bool))
    requires Sized(t) && c < CHANNELS && (st.OutStreams? ==> st.n >= 1) && r == ChangeSlot(t, c, false, st)
    ensures r.0 == t.(chans := r.0.chans, oIndex := r.0.oIndex)
    ensures forall d :: 0 <= d < CHANNELS && (d != c || !Waiting(t.chans[d])) ==> r.0.chans[d] == t.chans[d]
    ensures forall s :: 0 <= s < STREAMS && t.oIndex[s] != -1 ==> r.0.oIndex[s] == t.oIndex[s]
    ensures Waiting(r.0.chans[c]) ==> !r.1
    ensures !r.1 ==> r.0 == t && FreeStream(t, st) == 0
  {
  }

  lemma {:induction false} ChangeKeeps(t: Tables, c: nat, st: Status, t': Tables)
    requires Sized(t) && c <= CHANNELS && (st.OutStreams? ==> st.n >= 1) && t' == StreamChange(t, c, false, st)
    ensures t' == t.(chans := t'.chans, oIndex := t'.oIndex)
    ensures forall d :: 0 <= d < CHANNELS && (d < c || !Waiting(t.chans[d])) ==> t'.chans[d] == t.chans[d]
    ensures forall s :: 0 <= s < STREAMS && t.oIndex[s] != -1 ==> t'.oIndex[s] == t.oIndex[s]
    decreases CHANNELS - c
  {
    if c == CHANNELS {
    } else {
      var r := ChangeSlot(t, c, false, st);
      SlotKeeps(t, c, st, r);
      StreamChangeUnfolds(t, c, false, st, r);
      if r.1 {
        ChangeKeeps(r.0, c + 1, st, t');
      }
    }
  }

  lemma {:induction false} ChangeStops(t: Tables, c: nat, st: Status, t': Tables, d: nat)
    requires Sized(t) && c <= d < CHANNELS && (st.OutStreams? ==> st.n >= 1) && t' == StreamChange(t, c, false, st)
    requires Waiting(t'.chans[d])
    ensures FreeStream(t', st) == 0 && forall k :: d <= k < CHANNELS ==> t'.chans[k] == t.chans[k]
    decreases CHANNELS - c
  {
    var r := ChangeSlot(t, c, false, st);
    SlotKeeps(t, c, st, r);
    StreamChangeUnfolds(t, c, false, st, r);
    if r.1 {
      ChangeKeeps(r.0, c + 1, st, t');
      ChangeStops(r.0, c + 1, st, t', d);
    }
  }

  /** What slot c was given stays given while later slots are served ... */
  lemma ServedStays(t: Tables, t1: Tables, t': Tables, c: nat, st: Status)
    requires Sized(t) && Sized(t1) && Sized(t') && c < CHANNELS && Served(t, t1, c, st)
    requires t'.chans[c] == t1.chans[c]
    requires forall s :: 0 <= s < STREAMS && t1.oIndex[s] != -1 ==> t'.oIndex[s] == t1.oIndex[s]
    ensures Served(t, t', c, st)
  {
  }

  /** ... and what they are given was free before. */
  lemma ServedLater(t: Tables, t1: Tables, t': Tables, c: nat, d: nat, st: Status)
    requires Sized(t) && Sized(t1) && Sized(t') && c < d < CHANNELS && Served(t1, t', d, st)
    requires t1 == t.(chans := t.chans[c := t1.chans[c]], oIndex := t1.oIndex)
    requires t1.oIndex == t.oIndex || t1.oIndex == t.oIndex[t1.chans[c].oStream := c]
    ensures Served(t, t', d, st)
  {
  }

  /** When the association gets more streams, every channel that waits for one is given a free
      one of the engine's parity, in the order of the slots, until none is left; a request
      not yet announced is due then, and nothing else changes. */
  lemma {:induction false} ChangeServes(t: Tables, c: nat, st: Status, t': Tables, d: nat)
    requires Sized(t) && c <= d < CHANNELS && (st.OutStreams? ==> st.n >= 1) && t' == StreamChange(t, c, false, st)
    ensures t' == t.(chans := t'.chans, oIndex := t'.oIndex)
    ensures if !Waiting(t.chans[d]) then t'.chans[d] == t.chans[d]
            else if !Waiting(t'.chans[d]) then Served(t, t', d, st)
            else FreeStream(t', st) == 0 && forall k :: d <= k < CHANNELS ==> t'.chans[k] == t.chans[k]
    decreases CHANNELS - c
  {
    ChangeKeeps(t, c, st, t');
    if Waiting(t'.chans[d]) {
      ChangeStops(t, c, st, t', d);
    } else if Waiting(t.chans[d]) {
      var r := ChangeSlot(t, c, false, st);
      SlotServed(t, c, st, r);
      StreamChangeUnfolds(t, c, false, st, r);
      if r.1 && c < d {
        ChangeServes(r.0, c + 1, st, t', d);
        ServedLater(t, r.0, t', c, d, st);
      } else if r.1 {
        ChangeKeeps(r.0, c + 1, st, t');
        ServedStays(t, r.0, t', c, st);
      }
    }
  }

  /** A slot as it is before anyone has used it, but for its texts. */
  predicate Vacant(ch: Channel) {
    ch == Channel(Closed, 0, 0, false, PrNone, 0, false, false, ch.labelText, ch.protocol)
  }

  lemma SlotRefused(t: Tables, c: nat, st: Status, r: (Tables, bool))
    requires Sized(t) && c < CHANNELS && (st.OutStreams? ==> st.n >= 1) && r == ChangeSlot(t, c, true, st)
    ensures r.1 && r.0 == t.(chans := t.chans[c := r.0.chans[c]], iIndex := r.0.iIndex)
    ensures if Waiting(t.chans[c])
            then && Vacant(r.0.chans[c]) && r.0.chans[c].labelText == t.chans[c].labelText
                 && (r.0.iIndex == if t.chans[c].iStream != 0 then t.iIndex[t.chans[c].iStream := -1] else t.iIndex)
            else r.0 == t
  {
  }

  /** When the association is refused more streams, every channel that waits for one is closed,
      and no other slot changes ... */
  lemma {:induction false} RefusalCloses(t: Tables, c: nat, st: Status, t': Tables, d: nat)
    requires Sized(t) && c <= CHANNELS && (st.OutStreams? ==> st.n >= 1) && t' == StreamChange(t, c, true, st)
    requires d < CHANNELS
    ensures t' == t.(chans := t'.chans, iIndex := t'.iIndex)
    ensures if d >= c && Waiting(t.chans[d])
            then Vacant(t'.chans[d]) && t'.chans[d].labelText == t.chans[d].labelText
            else t'.chans[d] == t.chans[d]
    decreases CHANNELS - c
  {
    if c == CHANNELS {
    } else {
      var r := ChangeSlot(t, c, true, st);
      SlotRefused(t, c, st, r);
      StreamChangeUnfolds(t, c, true, st, r);
      RefusalCloses(r.0, c + 1, st, t', d);
    }
  }

  /** A slot from c on waits, and has the incoming stream s. */
  predicate WaitsOn(t: Tables, c: nat, s: nat)
    requires Sized(t)
  {
    exists d :: c <= d < CHANNELS && Waiting(t.chans[d]) && t.chans[d].iStream == s
  }

  lemma WaitsOnFrom(t: Tables, t1: Tables, c: nat, s: nat)
    requires Sized(t) && Sized(t1) && c < CHANNELS && t1.chans == t.chans[c := t1.chans[c]]
    ensures WaitsOn(t, c, s) <==> WaitsOn(t1, c + 1, s) || (Waiting(t.chans[c]) && t.chans[c].iStream == s)
  {
    assert forall d :: c + 1 <= d < CHANNELS ==> t1.chans[d] == t.chans[d];
  }

  /** ... and exactly their incoming streams are forgotten. */
  lemma {:induction false} RefusalForgets(t: Tables, c: nat, st: Status, t': Tables, s: nat)
    requires Sized(t) && c <= CHANNELS && (st.OutStreams? ==> st.n >= 1) && t' == StreamChange(t, c, true, st)
    requires s < STREAMS
    ensures t'.iIndex[s] == if s != 0 && WaitsOn(t, c, s) then -1 else t.iIndex[s]
    decreases CHANNELS - c
  {
    if c == CHANNELS {
    } else {
      var r := ChangeSlot(t, c, true, st);
      SlotRefused(t, c, st, r);
      StreamChangeUnfolds(t, c, true, st, r);
      RefusalForgets(r.0, c + 1, st, t', s);
      WaitsOnFrom(t, r.0, c, s);
    }
  }

  /** A channel opened when no stream was left announces itself to the peer in the very
      notification that gives it one, if the request can be sent; it is given one unless
      there are still too few. */
  lemma {:induction false} LateRequestGoesOut(t: Tables, st: Status, oks: seq<(bool, bool)>, t1: Tables,
                                              r: (Tables, seq<Wire>), d: nat)
    requires Sized(t) && d < CHANNELS && |oks| == CHANNELS && (st.OutStreams? ==> st.n >= 1)
    requires Waiting(t.chans[d]) && t.chans[d].iStream == 0
    requires t1 == StreamChange(t, 0, false, st) && r == SendDeferred(t1, 0, oks)
    ensures r.0.chans[d].oStream == 0 ==> FreeStream(t1, st) == 0
    ensures r.0.chans[d].oStream != 0 && oks[d].0 && Sendable(ParamsOf(t.chans[d])) ==>
              && Wire(r.0.chans[d].oStream, true, Encode(ParamsOf(t.chans[d]))) in r.1
              && !r.0.chans[d].sendReq
    ensures r.0.chans[d].oStream != 0 && !(oks[d].0 && Sendable(ParamsOf(t.chans[d]))) ==> r.0.chans[d].sendReq
  {
    ChangeServes(t, 0, st, t1, d);
    DeferredSends(t1, 0, oks, r);
    assert Discharged(t1.chans[d], oks[d], r.0.chans[d]);
    if t1.chans[d].oStream != 0 && oks[d].0 && Sendable(ParamsOf(t.chans[d])) {
      assert Due(t1.chans[d], oks[d], Wire(t1.chans[d].oStream, true, Encode(ParamsOf(t1.chans[d]))));
    }
  }

  // ---- Closed slots ---------------------------------------------------------------

  /** A closed slot is back to its defaults, but for its texts and, after a request that
      failed for good, its incoming stream. */
  predicate Cleared(ch: Channel) {
    ch.state == Closed ==>
      ch.oStream == 0 && !ch.unordered && ch.policy == PrNone && ch.value == 0 && !ch.sendReq && !ch.sendAck
  }

  predicate AllCleared(t: Tables) {
    OutExact(t) && forall c :: 0 <= c < CHANNELS ==> Cleared(t.chans[c])
  }

  /** At most one slot is rewritten, and cleared if closed. */
  predicate OneCleared(t: Tables, t': Tables)
    requires Sized(t) && Sized(t')
  {
    t'.chans == t.chans
    || exists c :: 0 <= c < CHANNELS && t'.chans == t.chans[c := t'.chans[c]] && Cleared(t'.chans[c])
  }

  lemma OneClears(t: Tables, t': Tables)
    requires AllCleared(t) && OutExact(t') && OneCleared(t, t')
    ensures AllCleared(t')
  {
  }

  lemma AcceptClears(t: Tables, s: nat, p: Params, st: Status, sent: Sent)
    requires Sized(t) && s < STREAMS
    ensures OneCleared(t, HandleOpenRequest(t, s, p, st, sent).t)
  {
    var t' := HandleOpenRequest(t, s, p, st, sent).t;
    if Accepts(t, s, st) {
      assert Cleared(t'.chans[FreeSlot(t.chans, 0)]);
    }
  }

  lemma AckClears(t: Tables, s: nat)
    requires Sized(t)
    ensures OneCleared(t, HandleAck(t, s))
  {
    if HandleAck(t, s) != t {
      assert Cleared(HandleAck(t, s).chans[t.iIndex[s]]);
    }
  }

  lemma MessageClears(t: Tables, w: Wire, st: Status, sent: Sent)
    requires Sized(t) && w.stream < STREAMS
    ensures OneCleared(t, HandleMessage(t, w, st, sent).t)
  {
    AckClears(t, w.stream);
    if |w.bytes| >= FIXED_SIZE {
      AcceptClears(t, w.stream, Decode(w.bytes), st, sent);
    }
  }

  lemma OpenClears(t: Tables, p: Params, st: Status, sent: Sent)
    requires Sized(t) && (st.OutStreams? ==> st.n >= 1)
    ensures OneCleared(t, OpenChannel(t, p, st, sent).t)
  {
    var c := FreeSlot(t.chans, 0);
    if Openable(p) && c != -1 {
      AskedIs(t, c, FreeStream(t, st), p, sent, OpenChannel(t, p, st, sent));
      assert Cleared(OpenChannel(t, p, st, sent).t.chans[c]);
    }
  }

  lemma ResetIncomingClears(t: Tables, s: nat)
    requires AllCleared(t)
    ensures AllCleared(ResetIncoming(t, s))
  {
    ResetIncomingOut(t, s);
    if s < STREAMS && t.iIndex[s] != -1 {
      assert Cleared(ResetIncoming(t, s).chans[t.iIndex[s]]);
      OneClears(t, ResetIncoming(t, s));
    }
  }

  lemma ResetOutgoingClears(t: Tables, s: nat)
    requires AllCleared(t)
    ensures AllCleared(ResetOutgoing(t, s))
  {
    ResetOutgoingOut(t, s);
    if s < STREAMS && t.oIndex[s] != -1 {
      assert Cleared(ResetOutgoing(t, s).chans[t.oIndex[s]]);
      OneClears(t, ResetOutgoing(t, s));
    }
  }

  lemma {:induction false} ResetEventClears(t: Tables, streams: seq<nat>, incoming: bool, outgoing: bool)
    requires AllCleared(t)
    ensures AllCleared(ResetEvent(t, streams, incoming, outgoing))
    decreases |streams|
  {
    if streams == [] {
    } else {
      ResetIncomingClears(t, streams[0]);
      ResetOutgoingClears(if incoming then ResetIncoming(t, streams[0]) else t, streams[0]);
      ResetEventClears(ResetStream(t, streams[0], incoming, outgoing), streams[1..], incoming, outgoing);
    }
  }

  lemma {:induction false} StreamChangeClears(t: Tables, refused: bool, st: Status, t': Tables)
    requires AllCleared(t) && (st.OutStreams? ==> st.n >= 1) && t' == StreamChange(t, 0, refused, st)
    ensures AllCleared(t')
  {
    StreamChangeOut(t, 0, refused, st);
    forall d | 0 <= d < CHANNELS ensures Cleared(t'.chans[d]) {
      if refused {
        RefusalCloses(t, 0, st, t', d);
      } else {
        ChangeServes(t, 0, st, t', d);
      }
    }
  }

  lemma AfterwardsClears(t: Tables, oks: seq<(bool, bool)>, ok: bool)
    requires AllCleared(t) && |oks| == CHANNELS
    ensures AllCleared(Afterwards(t, oks, ok))
  {
    AfterwardsOut(t, oks, ok);
    var r := SendDeferred(t, 0, oks);
    DeferredSends(t, 0, oks, r);
    forall d | 0 <= d < CHANNELS ensures Cleared(Afterwards(t, oks, ok).chans[d]) {
      assert Discharged(t.chans[d], oks[d], r.0.chans[d]) && Cleared(t.chans[d]);
    }
  }

  /** Whatever happens, a closed slot keeps nothing of the channel it held but texts and, after
      a failed request, the incoming stream. */
  lemma ClearedStep(t: Tables, ev: Event)
    requires AllCleared(t) && EnvOk(ev)
    ensures AllCleared(Apply(t, ev))
  {
    OutStep(t, ev);
    match ev
    case EvOpen(p, st, sent) =>
      OpenClears(t, p, st, sent);
      OneClears(t, Apply(t, ev));
    case EvClose(c, ok) =>
    case EvMessage(w, st, sent) =>
      MessageClears(t, w, st, sent);
      OneClears(t, Apply(t, ev));
    case EvReset(streams, incoming, outgoing, refused, oks, ok) =>
      ResetEventClears(t, streams, incoming, outgoing);
      AfterwardsClears(if refused then t else ResetEvent(t, streams, incoming, outgoing), oks, ok);
    case EvChange(refused, st, oks, ok) =>
      StreamChangeClears(t, refused, st, StreamChange(t, 0, refused, st));
      AfterwardsClears(StreamChange(t, 0, refused, st), oks, ok);
  }

  lemma {:induction false} ClearedAlong(t: Tables, evs: seq<Event>)
    requires AllCleared(t) && forall ev :: ev in evs ==> EnvOk(ev)
    ensures AllCleared(Run(t, evs))
    decreases |evs|
  {
    if evs == [] {
    } else {
      ClearedStep(t, evs[0]);
      ClearedAlong(Apply(t, evs[0]), evs[1..]);
    }
  }

  /** In every reachable state, failed sends included, a closed slot has no outgoing stream, no
      reliability settings and nothing left to send: the next channel finds none of the last. */
  lemma {:induction false} ClosedIsCleared(even: bool, evs: seq<Event>)
    requires forall ev :: ev in evs ==> EnvOk(ev)
    ensures forall c :: 0 <= c < CHANNELS && Run(Init(even), evs).chans[c].state == Closed ==>
              var ch := Run(Init(even), evs).chans[c];
              ch == FREE_SLOT.(iStream := ch.iStream, labelText := ch.labelText, protocol := ch.protocol)
  {
    InitOut(even);
    ClearedAlong(Init(even), evs);
    var t := Run(Init(even), evs);
    forall c | 0 <= c < CHANNELS && t.chans[c].state == Closed
      ensures t.chans[c] == FREE_SLOT.(iStream := t.chans[c].iStream, labelText := t.chans[c].labelText,
                                       protocol := t.chans[c].protocol)
    {
      assert Cleared(t.chans[c]);
    }
  }
}
