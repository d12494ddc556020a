/** Closing channels between two engines. A channel that is closed has its outgoing stream
    reset; the other end, hearing of that, resets its own; and each end releases a direction
    when it hears that the reset has been performed (section 6.7 of RFC 8831). */
module DceClosing {
  import opened DceCodec
  import opened Dce
  import opened DceTables
  import DceHandshake
  import DceCompletes

  /** One engine, the outgoing streams whose reset the association has accepted, and those
      whose reset the other end has heard of and this one has not. */
  datatype Half = Half(t: Tables, asked: set<nat>, done: set<nat>)

  datatype Pair = Pair(a: Half, b: Half)

  /** What one end can do or hear; `oks` are the deferred sends, and `ok` says that the
      association accepts the resets queued by then. */
  datatype Move =
    | DoClose(c: nat, ok: bool)
    | HearReset(s: nat, oks: seq<(bool, bool)>, ok: bool)
    | HearDone(s: nat, oks: seq<(bool, bool)>, ok: bool)
    | HearOther(oks: seq<(bool, bool)>, ok: bool)

  datatype Act = Act(first: bool, move: Move)

  /** A reset is heard by the other end once it is accepted, and then by its own. */
  predicate Enabled(x: Half, y: Half, m: Move)
    requires Sized(x.t)
  {
    match m
    case DoClose(c, _) => c < CHANNELS && x.t.chans[c].state == Open
    case HearReset(s, oks, _) => s in y.asked && |oks| == CHANNELS
    case HearDone(s, oks, _) => s in x.done && |oks| == CHANNELS
    case HearOther(oks, _) => |oks| == CHANNELS
  }

  /** The event x's tables undergo. */
  function EventOf(m: Move): Event {
    match m
    case DoClose(c, ok) => EvClose(c, ok)
    case HearReset(s, oks, ok) => EvReset([s], true, false, false, oks, ok)
    case HearDone(s, oks, ok) => EvReset([s], false, true, false, oks, ok)
    case HearOther(oks, ok) => EvReset([], false, false, true, oks, ok)
  }

  /** The resets that have been queued when the association is asked. */
  function QueuedBy(t: Tables, m: Move): set<nat>
    requires Sized(t)
  {
    var queue := match m
      case DoClose(c, _) => if c < CHANNELS then QueueReset(t, t.chans[c].oStream).resets else t.resets
      case HearReset(s, _, _) => ResetIncoming(t, s).resets
      case _ => t.resets;
    set s | s in queue
  }

  /** Both ends after x's move. */
  function Moved(x: Half, y: Half, m: Move): Pair
    requires Sized(x.t)
  {
    if !Enabled(x, y, m) then Pair(x, y) else
    var x1 := Half(Apply(x.t, EventOf(m)), if m.ok then x.asked + QueuedBy(x.t, m) else x.asked, x.done);
    match m
    case HearReset(s, _, _) => Pair(x1, y.(asked := y.asked - {s}, done := y.done + {s}))
    case HearDone(s, _, _) => Pair(x1.(done := x1.done - {s}), y)
    case _ => Pair(x1, y)
  }

  // ---- The invariant -------------------------------------------------------

  /** A slot not in use has no stream, a connecting or open one the same in both directions,
      and a closing one at least one direction; nothing is deferred. */
  predicate SlotFine(ch: Channel) {
    && !ch.sendReq && !ch.sendAck
    && match ch.state
       case Closed => ch.iStream == ch.oStream == 0
       case Connecting => ch.iStream == ch.oStream != 0
       case Open => ch.iStream == ch.oStream != 0
       case Closing =>
         (ch.iStream != 0 || ch.oStream != 0) && (ch.iStream == 0 || ch.oStream == 0 || ch.iStream == ch.oStream)
  }

  /** Both indexes are exact, and a stream in use in both directions is in one slot. */
  predicate TableFine(t: Tables) {
    && OutExact(t) && t.iIndex[0] == -1
    && (forall s, c :: 1 <= s < STREAMS && 0 <= c < CHANNELS ==> (t.iIndex[s] == c <==> t.chans[c].iStream == s))
    && (forall s :: 1 <= s < STREAMS && t.iIndex[s] != -1 && t.oIndex[s] != -1 ==> t.iIndex[s] == t.oIndex[s])
    && (forall c :: 0 <= c < CHANNELS ==> SlotFine(t.chans[c]))
  }

  predicate InRange(s: nat) {
    1 <= s < STREAMS
  }

  predicate HalfFine(x: Half) {
    && TableFine(x.t)
    && (forall s :: s in x.t.resets ==> InRange(s)) && (forall s :: s in x.asked ==> InRange(s))
    && (forall s :: s in x.done ==> InRange(s))
  }

  /** The direction from x to y on stream s: unused; open; to be reset, with the reset either
      queued or accepted; or heard of by y. */
  predicate DirOk(x: Half, y: Half, s: nat)
    requires Sized(x.t) && Sized(y.t) && s < STREAMS
  {
    var c, live := x.t.oIndex[s], y.t.iIndex[s] != -1;
    var queued, asked, done := s in x.t.resets, s in x.asked, s in x.done;
    if c == -1 then !live && !queued && !asked && !done
    else if x.t.chans[c].state != Closing then live && !queued && !asked && !done
    else if live then !done && queued != asked
    else done && !queued && !asked
  }

  /** A stream open at both ends has the same parameters at both. */
  predicate Agree(x: Half, y: Half, s: nat)
    requires Sized(x.t) && Sized(y.t) && s < STREAMS
  {
    var c, d := x.t.oIndex[s], y.t.oIndex[s];
    c != -1 && d != -1 && x.t.chans[c].state == Open && y.t.chans[d].state == Open ==>
      ParamsOf(x.t.chans[c]) == ParamsOf(y.t.chans[d])
  }

  predicate Dirs(x: Half, y: Half, s: nat)
    requires Sized(x.t) && Sized(y.t) && s < STREAMS
  {
    DirOk(x, y, s) && DirOk(y, x, s)
  }

  predicate OnStream(x: Half, y: Half, s: nat)
    requires Sized(x.t) && Sized(y.t) && s < STREAMS
  {
    Dirs(x, y, s) && Agree(x, y, s)
  }

  predicate NoneConnects(t: Tables) {
    forall c :: 0 <= c < |t.chans| ==> t.chans[c].state != Connecting
  }

  predicate Inv(x: Half, y: Half) {
    && HalfFine(x) && HalfFine(y) && NoneConnects(x.t) && NoneConnects(y.t)
    && forall s :: 1 <= s < STREAMS ==> OnStream(x, y, s)
  }

  lemma InvSwaps(x: Half, y: Half)
    requires Inv(x, y)
    ensures Inv(y, x)
  {
    forall s | 1 <= s < STREAMS ensures OnStream(y, x, s) {
      assert OnStream(x, y, s);
    }
  }

  // ---- One move ------------------------------------------------------------

  /** Nothing about stream s has changed at x. */
  predicate Same(x: Half, x': Half, s: nat)
    requires Sized(x.t) && Sized(x'.t) && s < STREAMS
  {
    && x'.t.oIndex[s] == x.t.oIndex[s] && x'.t.iIndex[s] == x.t.iIndex[s]
    && (x.t.oIndex[s] != -1 ==> x'.t.chans[x.t.oIndex[s]] == x.t.chans[x.t.oIndex[s]])
    && (s in x'.t.resets <==> s in x.t.resets) && (s in x'.asked <==> s in x.asked) && (s in x'.done <==> s in x.done)
  }

  lemma OneStream(x: Half, y: Half, x': Half, y': Half, r: nat)
    requires Inv(x, y) && HalfFine(x') && HalfFine(y') && 1 <= r < STREAMS && OnStream(x', y', r)
    requires NoneConnects(x'.t) && NoneConnects(y'.t)
    requires forall s :: 1 <= s < STREAMS && s != r ==> Same(x, x', s) && Same(y, y', s)
    ensures Inv(x', y')
  {
    forall s | 1 <= s < STREAMS ensures OnStream(x', y', s) {
      assert OnStream(x, y, s);
      assert s != r ==> Same(x, x', s) && Same(y, y', s);
    }
  }

  /** The association accepts everything queued, or nothing. */
  function Request(x: Half, ok: bool): Half {
    Half(RequestResets(x.t, ok), if ok then x.asked + (set s | s in x.t.resets) else x.asked, x.done)
  }

  lemma RequestKeeps(x: Half, y: Half, ok: bool)
    requires Inv(x, y)
    ensures Inv(Request(x, ok), y)
  {
    forall s | 1 <= s < STREAMS ensures OnStream(Request(x, ok), y, s) {
      assert OnStream(x, y, s);
    }
  }

  /** v is slot c or nothing. */
  predicate Either(v: int, c: int) {
    v == c || v == -1
  }

  predicate Touches(ch: Channel, s: nat) {
    (ch.iStream == 0 || ch.iStream == s) && (ch.oStream == 0 || ch.oStream == s)
  }

  /** Slot c, which has to do with stream s only, changes; so do the entries of s. */
  predicate ChangesAt(t: Tables, t': Tables, c: nat, s: nat, ch: Channel, i: int, o: int)
    requires Sized(t) && c < CHANNELS && s < STREAMS
  {
    && Either(t.iIndex[s], c) && Either(t.oIndex[s], c) && Either(i, c) && Either(o, c)
    && Touches(t.chans[c], s) && Touches(ch, s) && (i == c <==> ch.iStream == s) && (o == c <==> ch.oStream == s)
    && t'.chans == t.chans[c := ch] && t'.iIndex == t.iIndex[s := i] && t'.oIndex == t.oIndex[s := o]
  }

  lemma OutAt(t: Tables, t': Tables, c: nat, s: nat, ch: Channel, i: int, o: int)
    requires TableFine(t) && c < CHANNELS && 1 <= s < STREAMS && SlotFine(ch) && ChangesAt(t, t', c, s, ch, i, o)
    ensures OutExact(t')
  {
  }

  lemma InAt(t: Tables, t': Tables, c: nat, s: nat, ch: Channel, i: int, o: int)
    requires TableFine(t) && c < CHANNELS && 1 <= s < STREAMS && ChangesAt(t, t', c, s, ch, i, o) && Sized(t')
    ensures forall r, d :: 1 <= r < STREAMS && 0 <= d < CHANNELS ==> (t'.iIndex[r] == d <==> t'.chans[d].iStream == r)
  {
  }

  lemma TableAt(t: Tables, t': Tables, c: nat, s: nat, ch: Channel, i: int, o: int)
    requires TableFine(t) && c < CHANNELS && 1 <= s < STREAMS && SlotFine(ch) && ChangesAt(t, t', c, s, ch, i, o)
    ensures TableFine(t')
  {
    OutAt(t, t', c, s, ch, i, o);
    InAt(t, t', c, s, ch, i, o);
  }

  /** No other stream leads to the slot. */
  lemma SameElsewhere(x: Half, x': Half, c: nat, s: nat)
    requires TableFine(x.t) && TableFine(x'.t) && c < CHANNELS && 1 <= s < STREAMS
    requires x'.t.chans == x.t.chans[c := x'.t.chans[c]] && Touches(x.t.chans[c], s)
    requires x'.t.iIndex == x.t.iIndex[s := x'.t.iIndex[s]] && x'.t.oIndex == x.t.oIndex[s := x'.t.oIndex[s]]
    requires forall r :: r != s ==> (r in x'.t.resets <==> r in x.t.resets)
    requires forall r :: r != s ==> (r in x'.asked <==> r in x.asked) && (r in x'.done <==> r in x.done)
    ensures forall r :: 1 <= r < STREAMS && r != s ==> Same(x, x', r)
  {
  }

  /** Closing, before the association is asked. */
  function CloseHere(x: Half, c: nat): Half
    requires Sized(x.t) && c < CHANNELS
  {
    x.(t := SetChan(QueueReset(x.t, x.t.chans[c].oStream), c, x.t.chans[c].(state := Closing)))
  }

  lemma CloseTable(x: Half, c: nat, s: nat, x': Half)
    requires HalfFine(x) && c < CHANNELS && x.t.chans[c].state == Open
    requires s == x.t.chans[c].oStream && x' == CloseHere(x, c)
    ensures 1 <= s < STREAMS && Touches(x.t.chans[c], s) && HalfFine(x')
  {
    assert SlotFine(x.t.chans[c]) && x.t.oIndex[s] == c && x.t.iIndex[s] == c;
    TableAt(x.t, x'.t, c, s, x.t.chans[c].(state := Closing), c, c);
  }

  lemma CloseKeeps(x: Half, y: Half, c: nat)
    requires Inv(x, y) && c < CHANNELS && x.t.chans[c].state == Open
    ensures Inv(CloseHere(x, c), y)
  {
    var s, x' := x.t.chans[c].oStream, CloseHere(x, c);
    CloseTable(x, c, s, x');
    assert x.t.oIndex[s] == c && OnStream(x, y, s);
    SameElsewhere(x, x', c, s);
    OneStream(x, y, x', y, s);
  }

  /** A slot has to do with one stream only. */
  lemma OneSlot(t: Tables, c: nat, s: nat)
    requires TableFine(t) && c < CHANNELS && 1 <= s < STREAMS && (t.iIndex[s] == c || t.oIndex[s] == c)
    ensures Either(t.iIndex[s], c) && Either(t.oIndex[s], c) && Touches(t.chans[c], s)
    ensures t.chans[c].state != Closed
  {
    assert SlotFine(t.chans[c]);
  }

  /** The slot after its incoming direction has been reset. */
  function Unheard(ch: Channel): Channel {
    var ch1 := ch.(iStream := 0);
    if ch1.oStream == 0 then Released(ch1) else if ch1.state == Open then ch1.(state := Closing) else ch1
  }

  lemma ResetIs(t: Tables, s: nat, c: nat, t': Tables)
    requires Sized(t) && 1 <= s < STREAMS && t.iIndex[s] == c < CHANNELS && t.chans[c].iStream == s
    requires t' == ResetIncoming(t, s)
    ensures t'.chans == t.chans[c := Unheard(t.chans[c])] && t'.iIndex == t.iIndex[s := -1] && t'.oIndex == t.oIndex
    ensures t'.resets == if t.chans[c].state == Open && t.chans[c].oStream != 0
                         then QueueReset(t, t.chans[c].oStream).resets else t.resets
    ensures t'.even == t.even
  {
  }

  /** The slot that hears of a reset on stream s, if there is one, is not still connecting. */
  predicate CanHear(t: Tables, s: nat)
    requires Sized(t) && s < STREAMS
  {
    t.iIndex[s] != -1 ==> t.chans[t.iIndex[s]].state != Connecting
  }

  lemma ResetTable(t: Tables, s: nat)
    requires TableFine(t) && 1 <= s < STREAMS && CanHear(t, s)
    ensures TableFine(ResetIncoming(t, s))
  {
    var c := t.iIndex[s];
    if c != -1 {
      assert t.chans[c].iStream == s;
      ResetIs(t, s, c, ResetIncoming(t, s));
      OneSlot(t, c, s);
      assert SlotFine(t.chans[c]);
      TableAt(t, ResetIncoming(t, s), c, s, Unheard(t.chans[c]), -1, t.oIndex[s]);
    }
  }

  /** The slot after its outgoing direction has been reset. */
  function Unsent(ch: Channel): Channel {
    var ch1 := ch.(oStream := 0);
    if ch1.iStream == 0 then Released(ch1) else ch1
  }

  /** Only a closing slot has its outgoing direction reset. */
  lemma DoneTable(t: Tables, s: nat)
    requires TableFine(t) && 1 <= s < STREAMS && (t.oIndex[s] != -1 ==> t.chans[t.oIndex[s]].state == Closing)
    ensures TableFine(ResetOutgoing(t, s))
  {
    var c := t.oIndex[s];
    if c != -1 {
      assert t.chans[c].oStream == s;
      OneSlot(t, c, s);
      assert SlotFine(t.chans[c]);
      TableAt(t, ResetOutgoing(t, s), c, s, Unsent(t.chans[c]), t.iIndex[s], -1);
    }
  }

  function Heard(y: Half, s: nat): Half {
    y.(asked := y.asked - {s}, done := y.done + {s})
  }

  lemma ResetHalf(x: Half, s: nat, c: nat, x': Half)
    requires HalfFine(x) && 1 <= s < STREAMS && x.t.iIndex[s] == c && CanHear(x.t, s)
    requires x' == x.(t := ResetIncoming(x.t, s))
    ensures HalfFine(x') && (NoneConnects(x.t) ==> NoneConnects(x'.t))
    ensures forall r :: 1 <= r < STREAMS && r != s ==> Same(x, x', r)
  {
    ResetTable(x.t, s);
    OneSlot(x.t, c, s);
    assert SlotFine(x.t.chans[c]);
    ResetIs(x.t, s, c, x'.t);
    SameElsewhere(x, x', c, s);
  }

  lemma ResetOnStream(x: Half, y: Half, s: nat, c: nat, x': Half)
    requires HalfFine(x) && HalfFine(y) && 1 <= s < STREAMS && Dirs(x, y, s) && CanHear(x.t, s)
    requires s in y.asked && x.t.iIndex[s] == c && x' == x.(t := ResetIncoming(x.t, s)) && Sized(x'.t)
    ensures Dirs(x', Heard(y, s), s) && (x'.t.oIndex[s] != -1 ==> x'.t.chans[x'.t.oIndex[s]].state == Closing)
  {
    OneSlot(x.t, c, s);
    assert SlotFine(x.t.chans[c]);
    ResetIs(x.t, s, c, x'.t);
  }

  lemma ResetKeeps(x: Half, y: Half, s: nat)
    requires Inv(x, y) && s in y.asked
    ensures Inv(x.(t := ResetIncoming(x.t, s)), Heard(y, s))
  {
    assert InRange(s) && OnStream(x, y, s);
    var x' := x.(t := ResetIncoming(x.t, s));
    ResetHalf(x, s, x.t.iIndex[s], x');
    ResetOnStream(x, y, s, x.t.iIndex[s], x');
    OneStream(x, y, x', Heard(y, s), s);
  }

  lemma DoneKeeps(x: Half, y: Half, s: nat)
    requires Inv(x, y) && s in x.done
    ensures Inv(x.(t := ResetOutgoing(x.t, s), done := x.done - {s}), y)
  {
    assert InRange(s) && OnStream(x, y, s);
    DoneTable(x.t, s);
    OneStream(x, y, x.(t := ResetOutgoing(x.t, s), done := x.done - {s}), y, s);
  }

  // ---- Runs ----------------------------------------------------------------

  predicate NoFlags(t: Tables) {
    forall c :: 0 <= c < |t.chans| ==> !t.chans[c].sendReq && !t.chans[c].sendAck
  }

  lemma {:induction false} NothingDeferred(t: Tables, c: nat, oks: seq<(bool, bool)>)
    requires Sized(t) && c <= CHANNELS && |oks| == CHANNELS && NoFlags(t)
    ensures SendDeferred(t, c, oks).0 == t
    decreases CHANNELS - c
  {
    if c == CHANNELS {
    } else {
      var d := DeferredSlot(t.chans[c], oks[c].0, oks[c].1);
      assert d.0 == t.chans[c];
      assert t.chans[c := t.chans[c]] == t.chans;
      assert SetChan(t, c, d.0) == t;
      NothingDeferred(t, c + 1, oks);
    }
  }

  lemma FineHasNoFlags(t: Tables)
    requires TableFine(t)
    ensures NoFlags(t)
  {
    forall c | 0 <= c < CHANNELS ensures !t.chans[c].sendReq && !t.chans[c].sendAck {
      assert SlotFine(t.chans[c]);
    }
  }

  /** One stream listed, one direction reset, nothing deferred. */
  lemma EventIs(t: Tables, s: nat, incoming: bool, oks: seq<(bool, bool)>, ok: bool, t1: Tables)
    requires Sized(t) && |oks| == CHANNELS && TableFine(t1)
    requires t1 == if incoming then ResetIncoming(t, s) else ResetOutgoing(t, s)
    ensures Apply(t, EvReset([s], incoming, !incoming, false, oks, ok)) == RequestResets(t1, ok)
  {
    assert [s][1..] == [];
    assert ResetEvent(t, [s], incoming, !incoming) == t1;
    FineHasNoFlags(t1);
    NothingDeferred(t1, 0, oks);
  }

  lemma CloseMoves(x: Half, y: Half, c: nat, ok: bool)
    requires Sized(x.t) && c < CHANNELS && x.t.chans[c].state == Open
    ensures Moved(x, y, DoClose(c, ok)) == Pair(Request(CloseHere(x, c), ok), y)
  {
  }

  lemma ResetMoves(x: Half, y: Half, s: nat, oks: seq<(bool, bool)>, ok: bool)
    requires HalfFine(x) && s in y.asked && 1 <= s < STREAMS && CanHear(x.t, s) && |oks| == CHANNELS
    ensures Moved(x, y, HearReset(s, oks, ok)) == Pair(Request(x.(t := ResetIncoming(x.t, s)), ok), Heard(y, s))
  {
    ResetTable(x.t, s);
    EventIs(x.t, s, true, oks, ok, ResetIncoming(x.t, s));
  }

  lemma DoneMoves(x: Half, y: Half, s: nat, oks: seq<(bool, bool)>, ok: bool)
    requires HalfFine(x) && s in x.done && 1 <= s < STREAMS && |oks| == CHANNELS
    requires x.t.oIndex[s] != -1 ==> x.t.chans[x.t.oIndex[s]].state == Closing
    ensures Moved(x, y, HearDone(s, oks, ok))
            == Pair(Request(x.(t := ResetOutgoing(x.t, s), done := x.done - {s}), ok), y)
  {
    DoneTable(x.t, s);
    EventIs(x.t, s, false, oks, ok, ResetOutgoing(x.t, s));
  }

  lemma OtherMoves(x: Half, y: Half, oks: seq<(bool, bool)>, ok: bool)
    requires TableFine(x.t) && |oks| == CHANNELS
    ensures Moved(x, y, HearOther(oks, ok)) == Pair(Request(x, ok), y)
  {
    FineHasNoFlags(x.t);
    NothingDeferred(x.t, 0, oks);
  }

  lemma DoneIsClosing(x: Half, y: Half, s: nat)
    requires Inv(x, y) && s in x.done
    ensures 1 <= s < STREAMS && x.t.oIndex[s] != -1 && x.t.chans[x.t.oIndex[s]].state == Closing
  {
    assert InRange(s) && OnStream(x, y, s);
  }

  lemma MoveKeeps(x: Half, y: Half, m: Move)
    requires Inv(x, y)
    ensures var q := Moved(x, y, m); Inv(q.a, q.b)
  {
    if Enabled(x, y, m) {
      match m
      case DoClose(c, ok) =>
        CloseMoves(x, y, c, ok);
        CloseKeeps(x, y, c);
        RequestKeeps(CloseHere(x, c), y, ok);
      case HearReset(s, oks, ok) =>
        ResetMoves(x, y, s, oks, ok);
        ResetKeeps(x, y, s);
        RequestKeeps(x.(t := ResetIncoming(x.t, s)), Heard(y, s), ok);
      case HearDone(s, oks, ok) =>
        DoneIsClosing(x, y, s);
        DoneMoves(x, y, s, oks, ok);
        DoneKeeps(x, y, s);
        RequestKeeps(x.(t := ResetOutgoing(x.t, s), done := x.done - {s}), y, ok);
      case HearOther(oks, ok) =>
        OtherMoves(x, y, oks, ok);
        RequestKeeps(x, y, ok);
    }
  }

  lemma MovedSized(x: Half, y: Half, m: Move)
    requires Sized(x.t) && Sized(y.t)
    ensures var q := Moved(x, y, m); Sized(q.a.t) && Sized(q.b.t)
  {
  }

  function Step(p: Pair, a: Act): (q: Pair)
    requires Sized(p.a.t) && Sized(p.b.t)
    ensures Sized(q.a.t) && Sized(q.b.t)
  {
    MovedSized(p.a, p.b, a.move);
    MovedSized(p.b, p.a, a.move);
    if a.first then Moved(p.a, p.b, a.move) else var q := Moved(p.b, p.a, a.move); Pair(q.b, q.a)
  }

  function Run(p: Pair, acts: seq<Act>): (q: Pair)
    requires Sized(p.a.t) && Sized(p.b.t)
    ensures Sized(q.a.t) && Sized(q.b.t)
    decreases |acts|
  {
    if acts == [] then p else Run(Step(p, acts[0]), acts[1..])
  }

  lemma StepKeeps(p: Pair, a: Act)
    requires Inv(p.a, p.b)
    ensures Inv(Step(p, a).a, Step(p, a).b)
  {
    if a.first {
      MoveKeeps(p.a, p.b, a.move);
    } else {
      InvSwaps(p.a, p.b);
      MoveKeeps(p.b, p.a, a.move);
      var q := Moved(p.b, p.a, a.move);
      InvSwaps(q.a, q.b);
    }
  }

  lemma {:induction false} InvAlong(p: Pair, acts: seq<Act>)
    requires Inv(p.a, p.b)
    ensures Inv(Run(p, acts).a, Run(p, acts).b)
    decreases |acts|
  {
    if acts == [] {
    } else {
      StepKeeps(p, acts[0]);
      InvAlong(Step(p, acts[0]), acts[1..]);
    }
  }

  // ---- Completion ----------------------------------------------------------

  /** No reset is queued, accepted or waiting to be heard of. */
  predicate AtRest(x: Half) {
    x.t.resets == [] && x.asked == {} && x.done == {}
  }

  /** Stream s is unknown to x in both directions. */
  predicate Free(x: Half, s: nat)
    requires Sized(x.t) && s < STREAMS
  {
    x.t.oIndex[s] == x.t.iIndex[s] == -1
  }

  /** Stream s is an open channel at both ends, with the same parameters. */
  predicate OpenAtBoth(x: Half, y: Half, s: nat)
    requires Sized(x.t) && Sized(y.t) && s < STREAMS
  {
    var c, d := x.t.oIndex[s], y.t.oIndex[s];
    && c != -1 && c == x.t.iIndex[s] && d != -1 && d == y.t.iIndex[s]
    && x.t.chans[c].state == Open && y.t.chans[d].state == Open && ParamsOf(x.t.chans[c]) == ParamsOf(y.t.chans[d])
  }

  lemma RestIsWhole(x: Half, y: Half, s: nat)
    requires Inv(x, y) && AtRest(x) && AtRest(y) && 1 <= s < STREAMS
    ensures (Free(x, s) && Free(y, s)) || OpenAtBoth(x, y, s)
  {
    assert OnStream(x, y, s);
    var c, d := x.t.oIndex[s], y.t.oIndex[s];
    if c != -1 {
      OneSlot(x.t, c, s);
      assert SlotFine(x.t.chans[c]);
    }
    if d != -1 {
      OneSlot(y.t, d, s);
      assert SlotFine(y.t.chans[d]);
    }
  }

  /** At rest, a free stream of the own parity can be chosen, and the one that will be chosen
      is free in both directions at both ends. */
  lemma RestChooses(x: Half, y: Half, s: nat)
    requires Inv(x, y) && AtRest(x) && AtRest(y) && 1 <= s < STREAMS && Free(x, s) && OwnParity(x.t.even, s)
    ensures var r := FreeStream(x.t, OutStreams(STREAMS)); 1 <= r <= s && Free(x, r) && Free(y, r)
  {
    RestIsWhole(x, y, FreeStream(x.t, OutStreams(STREAMS)));
  }

  lemma HandedTable(x: DceHandshake.End, y: DceHandshake.End)
    requires DceHandshake.Joint(x, y) && DceCompletes.Quiet(x) && DceCompletes.Complete(x, y)
    ensures TableFine(x.t)
  {
    forall c | 0 <= c < CHANNELS ensures SlotFine(x.t.chans[c]) {
    }
  }

  lemma HandedStream(x: DceHandshake.End, y: DceHandshake.End, s: nat)
    requires DceHandshake.Joint(x, y) && 1 <= s < STREAMS
    requires DceCompletes.Complete(x, y) && DceCompletes.Complete(y, x)
    ensures OnStream(Half(x.t, {}, {}), Half(y.t, {}, {}), s)
  {
    assert DceHandshake.OnStream(x, y, s);
  }

  lemma HandOver(x: DceHandshake.End, y: DceHandshake.End)
    requires DceCompletes.Live(x, y) && DceCompletes.Quiet(x) && DceCompletes.Quiet(y)
    ensures Inv(Half(x.t, {}, {}), Half(y.t, {}, {}))
  {
    DceCompletes.LiveSymmetric(x, y);
    DceCompletes.QuietIsComplete(x, y);
    DceCompletes.QuietIsComplete(y, x);
    HandedTable(x, y);
    HandedTable(y, x);
    forall s | 1 <= s < STREAMS ensures OnStream(Half(x.t, {}, {}), Half(y.t, {}, {}), s) {
      HandedStream(x, y, s);
    }
  }

  predicate OpenOn(x: Half, s: nat)
    requires Sized(x.t) && s < STREAMS
  {
    x.t.oIndex[s] != -1 && x.t.chans[x.t.oIndex[s]].state == Open
  }

  /** t' has no channel on a stream that t has not, and none open that was not. */
  predicate OpensNothing(t: Tables, t': Tables) {
    && Sized(t) && Sized(t')
    && (forall s :: 0 <= s < STREAMS ==> Either(t'.oIndex[s], t.oIndex[s]))
    && (forall c :: 0 <= c < CHANNELS && t'.chans[c].state == Open ==> t.chans[c].state == Open)
  }

  lemma ResetOpensNothing(t: Tables, s: nat)
    requires Sized(t)
    ensures OpensNothing(t, ResetIncoming(t, s))
  {
  }

  lemma DoneOpensNothing(t: Tables, s: nat)
    requires Sized(t)
    ensures OpensNothing(t, ResetOutgoing(t, s))
  {
  }

  lemma CloseOpensNothing(x: Half, c: nat)
    requires Sized(x.t) && c < CHANNELS
    ensures OpensNothing(x.t, CloseHere(x, c).t)
  {
  }

  lemma MoveOpensNothing(x: Half, y: Half, m: Move)
    requires Inv(x, y)
    ensures OpensNothing(x.t, Moved(x, y, m).a.t)
  {
    if Enabled(x, y, m) {
      match m
      case DoClose(c, ok) =>
        CloseMoves(x, y, c, ok);
        CloseOpensNothing(x, c);
      case HearReset(r, oks, ok) =>
        ResetMoves(x, y, r, oks, ok);
        ResetOpensNothing(x.t, r);
      case HearDone(r, oks, ok) =>
        DoneIsClosing(x, y, r);
        DoneMoves(x, y, r, oks, ok);
        DoneOpensNothing(x.t, r);
      case HearOther(oks, ok) => OtherMoves(x, y, oks, ok);
    }
  }

  lemma StepOpensNothing(p: Pair, a: Act)
    requires Inv(p.a, p.b)
    ensures OpensNothing(p.a.t, Step(p, a).a.t) && OpensNothing(p.b.t, Step(p, a).b.t)
  {
    if a.first {
      MoveOpensNothing(p.a, p.b, a.move);
    } else {
      InvSwaps(p.a, p.b);
      MoveOpensNothing(p.b, p.a, a.move);
    }
  }

  lemma {:induction false} ClosedAlong(p: Pair, acts: seq<Act>, s: nat)
    requires Inv(p.a, p.b) && 1 <= s < STREAMS && (!OpenOn(p.a, s) || !OpenOn(p.b, s))
    ensures !OpenOn(Run(p, acts).a, s) || !OpenOn(Run(p, acts).b, s)
    decreases |acts|
  {
    if acts == [] {
    } else {
      StepKeeps(p, acts[0]);
      StepOpensNothing(p, acts[0]);
      ClosedAlong(Step(p, acts[0]), acts[1..], s);
    }
  }

  /** The two ends once a handshake run has come to rest. */
  function Handed(p: DceHandshake.Pair): Pair {
    Pair(Half(p.a.t, {}, {}), Half(p.b.t, {}, {}))
  }

  /** Those ends are in order. */
  lemma HandedIsFine(even: bool, opens: seq<DceHandshake.Act>)
    requires forall a :: a in opens ==> DceCompletes.Supplied(a.move)
    ensures var p := DceHandshake.Run(DceHandshake.Pair(DceHandshake.Start(even), DceHandshake.Start(!even)), opens);
            DceCompletes.Quiet(p.a) && DceCompletes.Quiet(p.b) ==> Inv(Handed(p).a, Handed(p).b)
  {
    DceHandshake.StartJoint(even);
    DceCompletes.LiveAlong(DceHandshake.Pair(DceHandshake.Start(even), DceHandshake.Start(!even)), opens);
    var p := DceHandshake.Run(DceHandshake.Pair(DceHandshake.Start(even), DceHandshake.Start(!even)), opens);
    if DceCompletes.Quiet(p.a) && DceCompletes.Quiet(p.b) {
      HandOver(p.a, p.b);
    }
  }

  /** Closing completes. From two ends in order (as after any handshake run that came to rest),
      channels are closed and resets heard of in any order, with reset requests that may fail.
      Whenever nothing is outstanding, each stream is open at both ends with equal parameters
      or unknown to both, and the latter if it was not open at both ends to begin with. */
  lemma {:induction false} ClosingCompletes(p: Pair, acts: seq<Act>, s: nat)
    requires Inv(p.a, p.b) && 1 <= s < STREAMS
    ensures var q := Run(p, acts);
            AtRest(q.a) && AtRest(q.b) ==>
              && ((Free(q.a, s) && Free(q.b, s)) || OpenAtBoth(q.a, q.b, s))
              && (!OpenOn(p.a, s) || !OpenOn(p.b, s) ==> Free(q.a, s) && Free(q.b, s))
  {
    InvAlong(p, acts);
    var q := Run(p, acts);
    if AtRest(q.a) && AtRest(q.b) {
      RestIsWhole(q.a, q.b, s);
      if !OpenOn(p.a, s) || !OpenOn(p.b, s) {
        ClosedAlong(p, acts, s);
      }
    }
  }

  lemma {:induction false} RunSplits(p: Pair, before: seq<Act>, after: seq<Act>)
    requires Sized(p.a.t) && Sized(p.b.t)
    ensures Run(p, before + after) == Run(Run(p, before), after)
    decreases |before|
  {
    if before == [] {
      assert before + after == after;
    } else {
      assert (before + after)[1..] == before[1..] + after;
      RunSplits(Step(p, before[0]), before[1..], after);
    }
  }

  lemma {:induction false} RunStarts(p: Pair, a: Act, after: seq<Act>)
    requires Sized(p.a.t) && Sized(p.b.t)
    ensures Run(p, [a] + after) == Run(Step(p, a), after)
  {
    assert ([a] + after)[1..] == after;
  }

  /** A run in three parts. */
  lemma {:induction false} RunThrough(p: Pair, before: seq<Act>, a: Act, after: seq<Act>, q: Pair)
    requires Sized(p.a.t) && Sized(p.b.t) && q == Run(p, before)
    ensures Run(p, before + [a] + after) == Run(Step(q, a), after)
  {
    assert before + [a] + after == before + ([a] + after);
    RunSplits(p, before, [a] + after);
    RunStarts(q, a, after);
  }

  lemma CloseEnds(x: Half, y: Half, c: nat, ok: bool, s: nat, x': Half)
    requires TableFine(x.t) && 1 <= s < STREAMS && c < CHANNELS && x.t.chans[c].state == Open
    requires x.t.chans[c].oStream == s && x' == Moved(x, y, DoClose(c, ok)).a && Sized(x'.t)
    ensures !OpenOn(x', s)
  {
    CloseMoves(x, y, c, ok);
    assert x.t.oIndex[s] == c;
  }

  /** The move by which an end closes its channel on stream s. */
  predicate ClosesOn(q: Pair, a: Act, s: nat)
    requires Sized(q.a.t) && Sized(q.b.t)
  {
    && a.move.DoClose? && a.move.c < CHANNELS
    && var ch := (if a.first then q.a else q.b).t.chans[a.move.c]; ch.state == Open && ch.oStream == s
  }

  lemma CloseEndsStream(q: Pair, a: Act, s: nat)
    requires Inv(q.a, q.b) && 1 <= s < STREAMS && ClosesOn(q, a, s)
    ensures !OpenOn(Step(q, a).a, s) || !OpenOn(Step(q, a).b, s)
  {
    if a.first {
      CloseEnds(q.a, q.b, a.move.c, a.move.ok, s, Step(q, a).a);
    } else {
      CloseEnds(q.b, q.a, a.move.c, a.move.ok, s, Step(q, a).b);
    }
  }

  lemma {:induction false} ForgottenFrom(p: Pair, before: seq<Act>, a: Act, after: seq<Act>, s: nat)
    requires Inv(p.a, p.b) && 1 <= s < STREAMS && ClosesOn(Run(p, before), a, s)
    ensures var end := Run(p, before + [a] + after);
            AtRest(end.a) && AtRest(end.b) ==> Free(end.a, s) && Free(end.b, s)
  {
    InvAlong(p, before);
    var q := Run(p, before);
    StepKeeps(q, a);
    CloseEndsStream(q, a, s);
    RunThrough(p, before, a, after, q);
    ClosingCompletes(Step(q, a), after, s);
  }

  /** A channel's end. Channels are opened by any handshake run that comes to rest; then
      channels are closed and resets heard of in any order. If at some point either end
      closes its channel on stream s, then whenever nothing is outstanding after that the
      stream is unknown to both ends. */
  lemma ClosedIsForgotten(even: bool, opens: seq<DceHandshake.Act>, before: seq<Act>, a: Act, after: seq<Act>, s: nat)
    requires (forall o :: o in opens ==> DceCompletes.Supplied(o.move)) && 1 <= s < STREAMS
    requires var p := DceHandshake.Run(DceHandshake.Pair(DceHandshake.Start(even), DceHandshake.Start(!even)), opens);
             DceCompletes.Quiet(p.a) && DceCompletes.Quiet(p.b) && ClosesOn(Run(Handed(p), before), a, s)
    ensures var p := DceHandshake.Run(DceHandshake.Pair(DceHandshake.Start(even), DceHandshake.Start(!even)), opens);
            var end := Run(Handed(p), before + [a] + after);
            AtRest(end.a) && AtRest(end.b) ==> Free(end.a, s) && Free(end.b, s)
  {
    HandedIsFine(even, opens);
    var p := DceHandshake.Run(DceHandshake.Pair(DceHandshake.Start(even), DceHandshake.Start(!even)), opens);
    ForgottenFrom(Handed(p), before, a, after, s);
  }

  // ---- Reusing a stream too early -------------------------------------------

  /** A closing slot that no stream leads to. */
  predicate Leaked(t: Tables, c: nat) {
    c < |t.chans| && t.chans[c].state == Closing && c !in t.iIndex && c !in t.oIndex
  }

  lemma CloseIsAsked(x: Half, y: Half, s: nat, c: nat, x1: Half)
    requires Inv(x, y) && 1 <= s < STREAMS && OpenAtBoth(x, y, s) && c == x.t.oIndex[s]
    requires x1 == Moved(x, y, DoClose(c, true)).a
    ensures Inv(x1, y) && s in x1.asked && x1.t.iIndex[s] == c && Moved(x, y, DoClose(c, true)).b == y
    ensures x1.t.oIndex == x.t.oIndex && x1.t.even == x.t.even
  {
    CloseMoves(x, y, c, true);
    MoveKeeps(x, y, DoClose(c, true));
    assert x.t.chans[c].oStream == s;
  }

  lemma ResetIsDone(x: Half, y: Half, s: nat, oks: seq<(bool, bool)>, ok: bool, q: Pair)
    requires Inv(x, y) && s in x.asked && |oks| == CHANNELS && q == Moved(y, x, HearReset(s, oks, ok))
    ensures Inv(q.b, q.a) && q.b == Heard(x, s)
  {
    InvSwaps(x, y);
    ResetMoves(y, x, s, oks, ok);
    MoveKeeps(y, x, HearReset(s, oks, ok));
    InvSwaps(q.a, q.b);
  }

  lemma DoneIsHalfway(x: Half, y: Half, s: nat, oks: seq<(bool, bool)>, ok: bool, x': Half)
    requires Inv(x, y) && s in x.done && |oks| == CHANNELS && x' == Moved(x, y, HearDone(s, oks, ok)).a
    ensures InRange(s) && Inv(x', y) && x'.t.iIndex == x.t.iIndex
    ensures x'.t.oIndex == x.t.oIndex[s := -1] && x'.t.even == x.t.even
  {
    DoneIsClosing(x, y, s);
    DoneMoves(x, y, s, oks, ok);
    MoveKeeps(x, y, HearDone(s, oks, ok));
  }

  lemma StillNoEntry(xs: seq<int>, s: nat, d: int, e: int)
    requires s < |xs| && xs[s] != e && e >= 0 && e !in xs[s := d]
    ensures e !in xs
  {
    forall i | 0 <= i < |xs| ensures xs[i] != e {
      assert i != s ==> xs[s := d][i] == xs[i];
    }
  }

  /** Stream s is the only way to the closing slot c. */
  predicate OnlyWay(t: Tables, s: nat, c: int)
    requires Sized(t) && s < STREAMS
  {
    && c != -1 && t.iIndex[s] == c && t.chans[c].state == Closing && t.chans[c].oStream == 0
    && forall r :: 0 <= r < STREAMS && r != s ==> t.iIndex[r] != c
  }

  /** With the incoming side in order only stream 0 can be another way. */
  lemma OnlyWayIs(t: Tables, s: nat, c: int)
    requires InOk(t) && 1 <= s < STREAMS && c == t.iIndex[s]
    ensures OnlyWay(t, s, c)
            <==> c != -1 && t.chans[c].state == Closing && t.chans[c].oStream == 0 && t.iIndex[0] != c
  {
  }

  /** What opening a channel does to the indexes, however its send goes. */
  lemma OpenIndexes(t: Tables, p: Params, st: Status, sent: Sent, s: nat, d: nat, t': Tables)
    requires OutExact(t) && (st.OutStreams? ==> st.n >= 1) && Openable(p)
    requires s == FreeStream(t, st) && d == FreeSlot(t.chans, 0) && t' == OpenChannel(t, p, st, sent).t
    ensures t.chans[d].state == Closed && t.oIndex[s] == -1
    ensures t'.chans == t.chans[d := t'.chans[d]] && t'.chans[d].state in {Connecting, Closed}
    ensures t'.iIndex == t.iIndex[s := d] && (t'.oIndex == t.oIndex || t'.oIndex == t.oIndex[s := d])
  {
  }

  lemma LosesWay(t: Tables, t': Tables, s: nat, c: nat, d: nat)
    requires OutExact(t) && Sized(t') && s < STREAMS && d < CHANNELS && OnlyWay(t, s, c) && t.chans[d].state == Closed
    requires t'.chans == t.chans[d := t'.chans[d]] && t'.iIndex == t.iIndex[s := d]
    requires t'.oIndex == t.oIndex || t'.oIndex == t.oIndex[s := d]
    ensures !Leaked(t, c) && Leaked(t', c)
  {
    assert c in t.iIndex;
  }

  lemma LostWay(t: Tables, t': Tables, s: nat, e: nat, d: nat)
    requires OutExact(t) && Sized(t') && s < STREAMS && d < CHANNELS && t.oIndex[s] == -1
    requires t'.chans == t.chans[d := t'.chans[d]] && t'.chans[d].state != Closing && t'.iIndex == t.iIndex[s := d]
    requires t'.oIndex == t.oIndex || t'.oIndex == t.oIndex[s := d]
    requires !Leaked(t, e) && Leaked(t', e)
    ensures OnlyWay(t, s, e)
  {
    if t'.oIndex == t.oIndex[s := d] {
      StillNoEntry(t.oIndex, s, d, e);
    }
    assert t.oIndex[t.chans[e].oStream] != e;
    if t.iIndex[s] != e {
      StillNoEntry(t.iIndex, s, d, e);
    }
    forall r | 0 <= r < STREAMS && r != s ensures t.iIndex[r] != e {
      assert t'.iIndex[r] == t.iIndex[r];
    }
  }

  /** Opening a channel leaks a slot if and only if the stream chosen, or stream 0 if there is
      none to choose, is the only way to a closing slot; however its send goes. */
  lemma OpenLeaksIff(t: Tables, p: Params, st: Status, sent: Sent)
    requires OutExact(t) && (st.OutStreams? ==> st.n >= 1)
    ensures (exists c: nat :: !Leaked(t, c) && Leaked(OpenChannel(t, p, st, sent).t, c))
            <==> Openable(p) && FreeSlot(t.chans, 0) != -1 && OnlyWay(t, FreeStream(t, st), t.iIndex[FreeStream(t, st)])
  {
    var s, d, t' := FreeStream(t, st), FreeSlot(t.chans, 0), OpenChannel(t, p, st, sent).t;
    if Openable(p) && d != -1 {
      OpenIndexes(t, p, st, sent, s, d, t');
      if OnlyWay(t, s, t.iIndex[s]) {
        LosesWay(t, t', s, t.iIndex[s], d);
      } else {
        forall e: nat | Leaked(t', e) ensures Leaked(t, e) {
          if !Leaked(t, e) {
            LostWay(t, t', s, e, d);
          }
        }
      }
    }
  }

  /** The end that closed its channel on stream s, once the other end has heard of the reset and
      this one knows, while the other's own reset is still to come. */
  function Halfway(x: Half, y: Half, s: nat, c: nat, oks: seq<(bool, bool)>, ok: bool, ok': bool): Pair
    requires Sized(x.t) && Sized(y.t)
  {
    MovedSized(x, y, DoClose(c, true));
    var x1 := Moved(x, y, DoClose(c, true)).a;
    MovedSized(y, x1, HearReset(s, oks, ok));
    var q := Moved(y, x1, HearReset(s, oks, ok));
    Moved(q.b, q.a, HearDone(s, oks, ok'))
  }

  /** At that point the stream looks free and still leads to the closing slot. */
  lemma HalfwayLooksFree(x: Half, y: Half, s: nat, c: nat, oks: seq<(bool, bool)>, ok: bool, ok': bool)
    requires Inv(x, y) && 1 <= s < STREAMS && OpenAtBoth(x, y, s) && c == x.t.oIndex[s] && |oks| == CHANNELS
    ensures var q := Halfway(x, y, s, c, oks, ok, ok');
            && Inv(q.a, q.b) && q.a.t.iIndex[s] == c
            && q.a.t.oIndex == x.t.oIndex[s := -1] && q.a.t.even == x.t.even
  {
    var x1 := Moved(x, y, DoClose(c, true)).a;
    CloseIsAsked(x, y, s, c, x1);
    var q := Moved(y, x1, HearReset(s, oks, ok));
    ResetIsDone(x1, y, s, oks, ok, q);
    DoneIsHalfway(q.b, q.a, s, oks, ok', Moved(q.b, q.a, HearDone(s, oks, ok')).a);
    DoneChangesOne(q.b, q.a, s, oks, ok');
  }

  lemma DoneChangesOne(x: Half, y: Half, s: nat, oks: seq<(bool, bool)>, ok: bool)
    requires Inv(x, y) && s in x.done && |oks| == CHANNELS
    ensures Moved(x, y, HearDone(s, oks, ok)).b == y
  {
    DoneIsClosing(x, y, s);
    DoneMoves(x, y, s, oks, ok);
  }

  /** The stream of a slot in use. */
  function StreamOf(ch: Channel): nat {
    if ch.iStream != 0 then ch.iStream else ch.oStream
  }

  lemma OneEach(t: Tables, c: nat, d: nat)
    requires TableFine(t) && c < d < CHANNELS && t.chans[c].state != Closed && t.chans[d].state != Closed
    ensures StreamOf(t.chans[c]) != StreamOf(t.chans[d]) && StreamOf(t.chans[c]) != 0 && StreamOf(t.chans[d]) != 0
  {
    assert SlotFine(t.chans[c]) && SlotFine(t.chans[d]);
    var s := StreamOf(t.chans[c]);
    assert t.iIndex[s] == c || t.oIndex[s] == c;
    OneSlot(t, c, s);
  }

  /** Ten slots in use would need ten streams out of nine, so there is always room. */
  lemma RoomLeft(t: Tables)
    requires TableFine(t)
    ensures FreeSlot(t.chans, 0) != -1
  {
    if FreeSlot(t.chans, 0) == -1 {
      var xs := seq(CHANNELS, c requires 0 <= c < CHANNELS => StreamOf(t.chans[c])) + [0];
      forall c, d | 0 <= c < d < CHANNELS ensures xs[c] != xs[d] && xs[c] != 0 && xs[d] != 0 {
        OneEach(t, c, d);
      }
      assert Distinct(xs) && forall x :: x in xs ==> x < STREAMS;
      DistinctFits(xs, STREAMS);
    }
  }

  lemma FirstIsChosen(t: Tables, s: nat)
    requires Sized(t) && 1 <= s < STREAMS && OwnParity(t.even, s) && t.oIndex[s] == -1
    requires forall r :: 1 <= r < s && OwnParity(t.even, r) ==> t.oIndex[r] != -1
    ensures FreeStream(t, OutStreams(STREAMS)) == s
  {
  }

  lemma HalfwayIsOnlyWay(t: Tables, s: nat, c: nat)
    requires TableFine(t) && 1 <= s < STREAMS && t.iIndex[s] == c && t.oIndex[s] == -1
    ensures OnlyWay(t, s, c)
  {
    OneSlot(t, c, s);
    assert SlotFine(t.chans[c]) && t.chans[c].iStream == s;
  }

  /** A stream that leads to a slot in one direction only, and would be chosen next: opening a
      channel, however its send goes, loses that slot. */
  lemma ReuseLeaks(t: Tables, s: nat, c: nat, p: Params, sent: Sent)
    requires TableFine(t) && 1 <= s < STREAMS && t.iIndex[s] == c && t.oIndex[s] == -1 && Openable(p)
    requires OwnParity(t.even, s) && forall r :: 1 <= r < s && OwnParity(t.even, r) ==> t.oIndex[r] != -1
    ensures !Leaked(t, c) && Leaked(OpenChannel(t, p, OutStreams(STREAMS), sent).t, c)
  {
    FirstIsChosen(t, s);
    RoomLeft(t);
    HalfwayIsOnlyWay(t, s, c);
    var t' := OpenChannel(t, p, OutStreams(STREAMS), sent).t;
    OpenIndexes(t, p, OutStreams(STREAMS), sent, s, FreeSlot(t.chans, 0), t');
    LosesWay(t, t', s, c, FreeSlot(t.chans, 0));
  }

  /** So an end that closes its channel on s, the streams before it being taken, and opens
      another one halfway loses the old slot. */
  lemma EarlyReuseLeaks(x: Half, y: Half, s: nat, c: nat, oks: seq<(bool, bool)>, ok: bool, ok': bool,
                        p: Params, sent: Sent)
    requires Inv(x, y) && 1 <= s < STREAMS && OpenAtBoth(x, y, s) && c == x.t.oIndex[s] && |oks| == CHANNELS
    requires OwnParity(x.t.even, s) && (forall r :: 1 <= r < s && OwnParity(x.t.even, r) ==> x.t.oIndex[r] != -1)
    requires Openable(p)
    ensures var t := Halfway(x, y, s, c, oks, ok, ok').a.t;
            !Leaked(t, c) && Leaked(OpenChannel(t, p, OutStreams(STREAMS), sent).t, c)
  {
    HalfwayLooksFree(x, y, s, c, oks, ok, ok');
    ReuseLeaks(Halfway(x, y, s, c, oks, ok, ok').a.t, s, c, p, sent);
  }

  lemma LeakMessage(t: Tables, w: Wire, st: Status, sent: Sent, c: nat)
    requires Sized(t) && w.stream < STREAMS && Leaked(t, c)
    ensures Leaked(HandleMessage(t, w, st, sent).t, c)
  {
  }

  lemma LeakReset(t: Tables, s: nat, c: nat)
    requires Sized(t) && Leaked(t, c)
    ensures Leaked(ResetIncoming(t, s), c)
    ensures Leaked(ResetOutgoing(t, s), c)
  {
  }

  lemma {:induction false} LeakResets(t: Tables, streams: seq<nat>, incoming: bool, outgoing: bool, c: nat)
    requires Sized(t) && Leaked(t, c)
    ensures Leaked(ResetEvent(t, streams, incoming, outgoing), c)
    decreases |streams|
  {
    if streams == [] {
    } else {
      var t1 := if incoming then ResetIncoming(t, streams[0]) else t;
      LeakReset(t, streams[0], c);
      LeakReset(t1, streams[0], c);
      LeakResets(ResetStream(t, streams[0], incoming, outgoing), streams[1..], incoming, outgoing, c);
    }
  }

  lemma LeakSlot(t: Tables, d: nat, refused: bool, st: Status, r: (Tables, bool), c: nat)
    requires Sized(t) && d < CHANNELS && (st.OutStreams? ==> st.n >= 1) && Leaked(t, c)
    requires r == ChangeSlot(t, d, refused, st)
    ensures Leaked(r.0, c)
  {
  }

  lemma {:induction false} LeakChange(t: Tables, d: nat, refused: bool, st: Status, c: nat)
    requires Sized(t) && d <= CHANNELS && (st.OutStreams? ==> st.n >= 1) && Leaked(t, c)
    ensures Leaked(StreamChange(t, d, refused, st), c)
    decreases CHANNELS - d
  {
    if d == CHANNELS {
    } else {
      var r := ChangeSlot(t, d, refused, st);
      LeakSlot(t, d, refused, st, r, c);
      StreamChangeUnfolds(t, d, refused, st, r);
      if r.1 {
        LeakChange(r.0, d + 1, refused, st, c);
      }
    }
  }

  lemma LeakAfterwards(t: Tables, oks: seq<(bool, bool)>, ok: bool, c: nat)
    requires Sized(t) && |oks| == CHANNELS && Leaked(t, c)
    ensures Leaked(Afterwards(t, oks, ok), c)
  {
    DeferredFlagsOnly(t, 0, oks);
  }

  /** A leaked slot is never recovered: the tables have one channel fewer from then on. */
  lemma LeakStep(t: Tables, ev: Event, c: nat)
    requires Sized(t) && EnvOk(ev) && Leaked(t, c)
    ensures Leaked(Apply(t, ev), c)
  {
    match ev
    case EvOpen(_, _, _) =>
    case EvClose(_, _) =>
    case EvMessage(w, st, sent) => LeakMessage(t, w, st, sent, c);
    case EvReset(streams, incoming, outgoing, refused, oks, ok) =>
      LeakResets(t, streams, incoming, outgoing, c);
      LeakAfterwards(if refused then t else ResetEvent(t, streams, incoming, outgoing), oks, ok, c);
    case EvChange(refused, st, oks, ok) =>
      LeakChange(t, 0, refused, st, c);
      LeakAfterwards(StreamChange(t, 0, refused, st), oks, ok, c);
  }

  lemma {:induction false} LeakAlong(t: Tables, evs: seq<Event>, c: nat)
    requires Sized(t) && (forall ev :: ev in evs ==> EnvOk(ev)) && Leaked(t, c)
    ensures Leaked(DceTables.Run(t, evs), c)
    decreases |evs|
  {
    if evs == [] {
    } else {
      LeakStep(t, evs[0], c);
      LeakAlong(Apply(t, evs[0]), evs[1..], c);
    }
  }
}
