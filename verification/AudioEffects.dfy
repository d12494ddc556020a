/** The pitch and pace effects as users of the time-scale buffer: the rates, lags and frame
    lengths each of them feeds it, for every strength. */
module AudioEffects {
  import opened TimeScale

  datatype Effect = PitchUp | PitchDown | PaceUp | PaceDown

  /** An effect's settings: rates in kHz, the resampling ratio, and the samples inserted and
      extracted per 10 ms frame. */
  datatype Setup = Setup(fs: nat, fsIn: nat, up: nat, down: nat, inLen: nat, outLen: nat)

  function Clamp(strength: int): nat {
    if strength < 0 then 0 else if strength > 3 then 3 else strength
  }

  function Ratio(e: Effect, strength: int): (r: (nat, nat))
    ensures 1 <= r.1 <= 2 * r.0 <= 3 * r.1 && (r.0 == r.1 <==> e.PaceUp? || e.PaceDown?)
  {
    match e
    case PitchUp => [(9, 10), (4, 5), (7, 10), (3, 5)][Clamp(strength)]
    case PitchDown => [(9, 8), (5, 4), (11, 8), (3, 2)][Clamp(strength)]
    case _ => (1, 1)
  }

  /** How much the pace effects change the length. */
  function Shift(e: Effect, strength: int): (r: real)
    ensures 0.2 <= r <= 1.8 && (e.PitchUp? || e.PitchDown? ==> r == 1.0)
  {
    match e
    case PaceUp => 1.0 - 0.2 * (Clamp(strength) + 1) as real
    case PaceDown => 1.0 + 0.2 * (Clamp(strength) + 1) as real
    case _ => 1.0
  }

  /** Resampling x samples, or a rate of x. */
  function Resampled(x: nat, up: nat, down: nat): nat
    requires down >= 1
  {
    var y: nat := x * up;
    y / down
  }

  /** The create functions, and the frame lengths of the process functions. */
  function Create(e: Effect, fsHz: nat, strength: int): Setup {
    var fs, r := fsHz / 1000, Ratio(e, strength);
    Setup(fs, Resampled(fsHz, r.0, r.1) / 1000, r.0, r.1, Resampled(10 * fs, r.0, r.1),
          Stretched(10 * fs, Shift(e, strength)))
  }

  function Stretched(x: nat, f: real): nat
    requires f >= 0.0
  {
    (x as real * f).Floor
  }

  /** A lag at 16 kHz in samples of the resampled signal. */
  function PitchLag(su: Setup, lag: nat): nat
    requires su.down >= 1
  {
    var x: nat := su.fs * lag;
    Resampled(x, su.up, 16 * su.down)
  }

  /** find_min_max_pitch over the first i subframes. */
  function MinLag(su: Setup, lags: seq<nat>, i: nat): nat
    requires i <= |lags| && su.down >= 1
  {
    if i == 0 then 1000 else
    var m, p := MinLag(su, lags, i - 1), PitchLag(su, lags[i - 1]);
    if p < m then p else m
  }

  function MaxLag(su: Setup, lags: seq<nat>, i: nat): nat
    requires i <= |lags| && su.down >= 1
  {
    if i == 0 then 0 else
    var m, p := MaxLag(su, lags, i - 1), PitchLag(su, lags[i - 1]);
    if p > m then p else m
  }

  /** One 10 ms frame: the samples to insert, what the pitch estimator says, and the
      correlations the extraction will find. */
  datatype Frame = Frame(samples: seq<int>, lags: seq<nat>, voiced: bool, nc: int -> Score)

  const SUBFRAMES: nat := 4

  /** SILK's pitch lags at 16 kHz, as section 4.2.7.6.1 of RFC 6716 bounds them in voiced
      frames; in others they are not read, and may be anything. */
  predicate FrameOk(su: Setup, f: Frame) {
    && |f.samples| == su.inLen && |f.lags| == SUBFRAMES
    && (f.voiced ==> forall i :: 0 <= i < SUBFRAMES ==> 32 <= f.lags[i] <= 288)
  }

  function LagOf(su: Setup, f: Frame): Lag
    requires |f.lags| == SUBFRAMES && su.down >= 1
  {
    Search(f.nc, if f.voiced then MinLag(su, f.lags, SUBFRAMES) else 1000,
           if f.voiced then MaxLag(su, f.lags, SUBFRAMES) else 0, f.voiced, su.fsIn)
  }

  // ---- The tables ----------------------------------------------------------

  /** Strengths from 0 to 3: pitch up by ten to nine, eight, seven or six, pitch down by eight to
      nine, ten, eleven or twelve, and pace up or down by one to four fifths. */
  lemma EffectTable(e: Effect, s: int)
    requires 0 <= s <= 3
    ensures var (up, down) := Ratio(e, s);
            match e
            case PitchUp => 10 * up == (9 - s) * down
            case PitchDown => 8 * up == (9 + s) * down
            case _ => up == down
    ensures match e
            case PaceUp => 5.0 * Shift(e, s) == (4 - s) as real
            case PaceDown => 5.0 * Shift(e, s) == (6 + s) as real
            case _ => Shift(e, s) == 1.0
  {
  }

  /** Any other strength is the nearest of those. */
  lemma StrengthIsClamped(e: Effect, s: int)
    ensures s < 0 ==> Ratio(e, s) == Ratio(e, 0) && Shift(e, s) == Shift(e, 0)
    ensures s > 3 ==> Ratio(e, s) == Ratio(e, 3) && Shift(e, s) == Shift(e, 3)
  {
  }

  /** The lengths and rates that follow: 10 ms of input give 10 ms resampled, and 10 ms times the
      pace of output. */
  lemma CreateTable(e: Effect, fsHz: nat, s: int)
    requires 0 <= s <= 3
    ensures var su, fs := Create(e, fsHz, s), fsHz / 1000;
            && su.fs == fs && (su.up, su.down) == Ratio(e, s) && su.down >= 1
            && su.inLen * su.down <= 10 * fs * su.up < su.inLen * su.down + su.down
            && (match e
                case PaceUp => 5 * su.outLen <= 10 * fs * (4 - s) < 5 * su.outLen + 5
                case PaceDown => 5 * su.outLen <= 10 * fs * (6 + s) < 5 * su.outLen + 5
                case _ => su.outLen == 10 * fs)
            && su.fsIn == (fsHz * su.up) / su.down / 1000
  {
    EffectTable(e, s);
    var su, fs := Create(e, fsHz, s), fsHz / 1000;
    DivBounds(10 * fs * su.up, su.down);
    StretchedIs(10 * fs, Shift(e, s), su.outLen);
    Product(10 * fs, 4 - s);
    Product(10 * fs, 6 + s);
  }

  lemma StretchedIs(x: nat, f: real, n: nat)
    requires f >= 0.0 && n == Stretched(x, f)
    ensures 5.0 * n as real <= x as real * (5.0 * f) < 5.0 * n as real + 5.0
  {
    assert x as real * (5.0 * f) == 5.0 * (x as real * f);
  }

  // ---- The bounds --------------------------------------------------------

  /** What every effect's settings come to. */
  predicate Bounded(su: Setup) {
    && 2 <= su.fs <= 48 && 1 <= su.down <= 2 * su.up <= 3 * su.down
    && su.fs <= 10 * su.fsIn && su.outLen + 10 * su.fsIn <= 42 * su.fs
    && 2 * su.fs <= su.inLen <= 15 * su.fs
    && (if su.up == su.down then su.outLen <= 18 * su.fs else su.outLen == 10 * su.fs)
  }

  lemma Grows(a: nat, b: int, c: int)
    requires b <= c
    ensures a * b <= a * c
  {
    assert a * (c - b) >= 0;
  }

  lemma Cancels(a: int, b: int, d: nat)
    requires a * d < b * d
    ensures a < b
  {
    if a >= b {
      Grows(d, b, a);
      assert false;
    }
  }

  lemma DivBounds(y: nat, d: nat)
    requires d >= 1
    ensures y / d * d <= y < (y / d + 1) * d
  {
    assert y == d * (y / d) + y % d;
  }

  lemma QuotientLow(x: nat, up: nat, down: nat, q: nat)
    requires 1 <= down <= 2 * up && x * up < (q + 1) * down
    ensures x <= 2 * q + 1
  {
    Grows(x, down, 2 * up);
    assert x * (2 * up) == 2 * (x * up);
    assert (2 * q + 2) * down == 2 * ((q + 1) * down);
    Cancels(x, 2 * q + 2, down);
  }

  lemma QuotientHigh(x: nat, up: nat, down: nat, q: nat)
    requires 1 <= down && 2 * up <= 3 * down && q * down <= x * up
    ensures 2 * q <= 3 * x
  {
    Grows(x, 2 * up, 3 * down);
    assert x * (2 * up) == 2 * (x * up);
    assert (3 * x + 1) * down == x * (3 * down) + down;
    assert (2 * q) * down == 2 * (q * down);
    Cancels(2 * q, 3 * x + 1, down);
  }

  lemma ResampledBounds(x: nat, up: nat, down: nat)
    requires 1 <= down <= 2 * up <= 3 * down
    ensures x <= 2 * Resampled(x, up, down) + 1 && 2 * Resampled(x, up, down) <= 3 * x
  {
    var y: nat := x * up;
    DivBounds(y, down);
    QuotientLow(x, up, down, y / down);
    QuotientHigh(x, up, down, y / down);
  }

  lemma ResampledSame(x: nat, k: nat)
    requires k >= 1
    ensures Resampled(x, k, k) == x
  {
    Quotient(x * k, k, x);
  }

  lemma Quotient(y: nat, d: nat, p: nat)
    requires d >= 1 && p * d <= y < (p + 1) * d
    ensures y / d == p
  {
    DivBounds(y, d);
    Cancels(p, y / d + 1, d);
    Cancels(y / d, p + 1, d);
  }

  lemma StretchedBounds(x: nat, f: real)
    requires 0.0 <= f <= 1.8
    ensures 5 * Stretched(x, f) <= 9 * x && (f == 1.0 ==> Stretched(x, f) == x)
  {
    assert x as real * f <= x as real * 1.8;
  }

  lemma BoundedFrom(su: Setup, fsHz: nat, y: nat)
    requires 2000 <= fsHz < 49000 && su.fs == fsHz / 1000 && su.fsIn == y / 1000
    requires fsHz <= 2 * y + 1 && 2 * y <= 3 * fsHz && (su.up == su.down ==> y == fsHz)
    requires 10 * su.fs <= 2 * su.inLen + 1 && 2 * su.inLen <= 30 * su.fs
    requires 1 <= su.down <= 2 * su.up <= 3 * su.down
    requires if su.up == su.down then su.outLen <= 18 * su.fs else su.outLen == 10 * su.fs
    ensures Bounded(su)
  {
  }

  /** Every effect at every strength and rate is within bounds. */
  lemma CreateIsBounded(e: Effect, fsHz: nat, strength: int)
    requires 2000 <= fsHz < 49000
    ensures Bounded(Create(e, fsHz, strength))
  {
    var r := Ratio(e, strength);
    ResampledBounds(fsHz, r.0, r.1);
    ResampledSame(fsHz, r.1);
    ResampledBounds(10 * (fsHz / 1000), r.0, r.1);
    StretchedBounds(10 * (fsHz / 1000), Shift(e, strength));
    BoundedFrom(Create(e, fsHz, strength), fsHz, Resampled(fsHz, r.0, r.1));
  }

  lemma SixteenthOf(y: nat, d: nat)
    requires d >= 1
    ensures y / (16 * d) == y / d / 16
  {
    var q, p := y / d, y / d / 16;
    DivBounds(y, d);
    Grows(d, 16 * p, q);
    Grows(d, q + 1, 16 * p + 16);
    assert p * (16 * d) == d * (16 * p);
    assert (p + 1) * (16 * d) == d * (16 * p + 16);
    Quotient(y, 16 * d, p);
  }

  lemma PitchLagBounds(su: Setup, lag: nat)
    requires Bounded(su) && 32 <= lag <= 288
    ensures su.fs <= PitchLag(su, lag) <= 27 * su.fs && (su.up == su.down ==> PitchLag(su, lag) <= 18 * su.fs)
  {
    Grows(su.fs, 32, lag);
    Grows(su.fs, lag, 288);
    ResampledBounds(su.fs * lag, su.up, su.down);
    ResampledSame(su.fs * lag, su.down);
    SixteenthOf(su.fs * lag * su.up, su.down);
  }

  lemma {:induction false} LagRange(su: Setup, lags: seq<nat>, i: nat)
    requires Bounded(su) && i <= |lags| && forall j :: 0 <= j < |lags| ==> 32 <= lags[j] <= 288
    ensures MinLag(su, lags, i) >= su.fs
    ensures MaxLag(su, lags, i) <= 27 * su.fs && (su.up == su.down ==> MaxLag(su, lags, i) <= 18 * su.fs)
  {
    if i == 0 {
    } else {
      LagRange(su, lags, i - 1);
      PitchLagBounds(su, lags[i - 1]);
    }
  }

  /** Whatever lag the search settles on, the extraction's demands are met. */
  lemma FrameFits(su: Setup, f: Frame)
    requires Bounded(su) && FrameOk(su, f)
    ensures Fits(su.fsIn, su.fs, LagOf(su, f).d, su.outLen)
  {
    if f.voiced {
      LagRange(su, f.lags, SUBFRAMES);
    }
    SearchIsBest(f.nc, MinLag(su, f.lags, SUBFRAMES), MaxLag(su, f.lags, SUBFRAMES), Lag(-1, -1.0));
  }

  /** find_min_max_pitch gives the exact range of the four lags, except that it never reports
      a minimum above 1000. */
  lemma {:induction false} LagRangeExact(su: Setup, lags: seq<nat>, i: nat)
    requires su.down >= 1 && i <= |lags|
    ensures forall j :: 0 <= j < i ==> MinLag(su, lags, i) <= PitchLag(su, lags[j]) <= MaxLag(su, lags, i)
    ensures MinLag(su, lags, i) == 1000 || exists j :: 0 <= j < i && PitchLag(su, lags[j]) == MinLag(su, lags, i)
    ensures MaxLag(su, lags, i) == 0 || exists j :: 0 <= j < i && PitchLag(su, lags[j]) == MaxLag(su, lags, i)
    ensures MinLag(su, lags, i) <= 1000
  {
    if i == 0 {
    } else {
      LagRangeExact(su, lags, i - 1);
      assert PitchLag(su, lags[i - 1]) == PitchLag(su, lags[i - 1]);
    }
  }

  /** A lag at 16 kHz, resampled and rounded down. */
  lemma PitchLagIs(su: Setup, lag: nat)
    requires su.down >= 1
    ensures var p := PitchLag(su, lag);
            p * (16 * su.down) <= su.fs * lag * su.up < p * (16 * su.down) + 16 * su.down
  {
    DivBounds(su.fs * lag * su.up, 16 * su.down);
  }

  /** The lag a frame is worked with: of a voiced one, the search over all lags from its
      smallest to its largest; of an unvoiced one, 10 ms. */
  lemma FrameLag(su: Setup, f: Frame, lo: nat, hi: nat, i: nat, j: nat)
    requires su.down >= 1 && |f.lags| == SUBFRAMES && i < SUBFRAMES && j < SUBFRAMES
    requires forall k :: 0 <= k < SUBFRAMES ==> lo <= PitchLag(su, f.lags[k]) <= hi
    requires lo == PitchLag(su, f.lags[i]) && hi == PitchLag(su, f.lags[j]) && lo <= 1000
    ensures f.voiced ==> LagOf(su, f) == Search(f.nc, lo, hi, true, su.fsIn)
    ensures !f.voiced ==> LagOf(su, f) == Lag(10 * su.fsIn, 0.1)
  {
    LagRangeExact(su, f.lags, SUBFRAMES);
  }

  // ---- Runs --------------------------------------------------------------

  /** Where the buffer is between frames: nothing processed yet, or between 3 ms and 66 ms queued. */
  predicate Ready(su: Setup, t: Tape) {
    Sound(t) && t.n <= 66 * su.fs
  }

  /** One frame: insert, then extract. */
  function ProcessFrame(su: Setup, t: Tape, f: Frame): (r: (Tape, seq<int>))
    requires Bounded(su) && FrameOk(su, f) && Ready(su, t)
    ensures Ready(su, r.0) && r.0.n >= 3 * su.fs && |r.1| == su.outLen
  {
    FrameFits(su, f);
    var t1, lag := Append(t, f.samples), LagOf(su, f);
    (Extract(t1, su.fsIn, su.fs, lag, su.outLen), Delivered(t1, su.fsIn, su.fs, lag, su.outLen))
  }

  function Process(su: Setup, t: Tape, frames: seq<Frame>): (r: (Tape, seq<int>))
    requires Bounded(su) && Ready(su, t) && forall f :: f in frames ==> FrameOk(su, f)
    ensures Ready(su, r.0)
    decreases |frames|
  {
    if frames == [] then (t, []) else
    var k := |frames| - 1;
    assert frames[k] in frames && forall f :: f in frames[..k] ==> f in frames;
    var r := Process(su, t, frames[..k]);
    var r' := ProcessFrame(su, r.0, frames[k]);
    (r'.0, r.1 + r'.1)
  }

  lemma {:induction false} ProcessLength(su: Setup, t: Tape, frames: seq<Frame>)
    requires Bounded(su) && Ready(su, t) && forall f :: f in frames ==> FrameOk(su, f)
    ensures |Process(su, t, frames).1| == |frames| * su.outLen
    decreases |frames|
  {
    if frames == [] {
    } else {
      var k := |frames| - 1;
      assert frames[k] in frames && forall f :: f in frames[..k] ==> f in frames;
      ProcessLength(su, t, frames[..k]);
      OneMore(su, t, frames);
      OneMoreFrame(k, su.outLen);
    }
  }

  lemma OneMore(su: Setup, t: Tape, frames: seq<Frame>)
    requires Bounded(su) && Ready(su, t) && frames != [] && forall f :: f in frames ==> FrameOk(su, f)
    ensures forall f :: f in frames[..|frames| - 1] ==> FrameOk(su, f)
    ensures |Process(su, t, frames).1| == |Process(su, t, frames[..|frames| - 1]).1| + su.outLen
  {
    assert forall f :: f in frames[..|frames| - 1] ==> f in frames;
  }

  lemma OneMoreFrame(k: nat, len: nat)
    ensures k * len + len == (k + 1) * len
  {
  }

  // ---- Samples stay 16-bit -------------------------------------------------

  predicate Int16(xs: seq<int>) {
    forall i :: 0 <= i < |xs| ==> -32768 <= xs[i] <= 32767
  }

  lemma FadesInt16(xs: seq<int>, ys: seq<int>)
    requires |xs| == |ys| && Int16(xs) && Int16(ys)
    ensures Int16(Fades(xs, ys))
  {
    forall i | 0 <= i < |xs| ensures -32768 <= Fades(xs, ys)[i] <= 32767 {
      FadesBetween(xs, ys, i);
    }
  }

  lemma RemoveInt16(t: Tape, fs: nat, d: nat, overlap: nat)
    requires Sound(t) && RemoveFits(t.n, fs, d, overlap) && Int16(t.cells)
    ensures Int16(RemoveOne(t, fs, d, overlap).cells)
  {
    if d <= t.n {
      var p := RemoveFrom(t.n, fs, d, overlap);
      FadesInt16(t.cells[p..p + 2 * fs], t.cells[p + d..p + d + 2 * fs]);
      OverwriteInt16(t.cells, p, Removed(t, fs, d, p));
    }
  }

  lemma OverwriteInt16(cells: seq<int>, p: nat, xs: seq<int>)
    requires p + |xs| <= |cells| && Int16(cells) && Int16(xs)
    ensures Int16(Overwrite(cells, p, xs))
  {
  }

  lemma SpanInt16(cells: seq<int>, a: int, b: int)
    requires |cells| == SIZE && a <= b && Int16(cells)
    ensures Int16(Span(cells, a, b))
  {
  }

  lemma JoinInt16(xs: seq<int>, ys: seq<int>)
    requires Int16(xs) && Int16(ys)
    ensures Int16(xs + ys)
  {
  }

  lemma InsertedInt16(t: Tape, fs: nat, d: nat, p: nat, us: seq<int>, vs: seq<int>, ws: seq<int>)
    requires Sound(t) && fs <= d && p + 2 * fs <= t.n && Int16(t.cells)
    requires us == t.cells[p..p + 2 * fs] && vs == Span(t.cells, p - d, p - d + 2 * fs)
    requires ws == Span(t.cells, p - d + 2 * fs, t.n)
    ensures Int16(Inserted(t, fs, d, p))
  {
    SpanInt16(t.cells, p - d, p - d + 2 * fs);
    SpanInt16(t.cells, p - d + 2 * fs, t.n);
    FadesInt16(us, vs);
    JoinInt16(Fades(us, vs), ws);
  }

  lemma InsertInt16(t: Tape, fs: nat, d: nat, overlap: nat)
    requires Sound(t) && InsertFits(t.n, fs, d, overlap) && Int16(t.cells)
    ensures Int16(InsertOne(t, fs, d, overlap).cells)
  {
    var p := InsertFrom(t.n, fs, d, overlap);
    InsertedInt16(t, fs, d, p, t.cells[p..p + 2 * fs], Span(t.cells, p - d, p - d + 2 * fs),
                  Span(t.cells, p - d + 2 * fs, t.n));
    OverwriteInt16(t.cells, p, Inserted(t, fs, d, p));
  }

  lemma {:induction false} ShrinkInt16(t: Tape, fs: nat, d: nat, overlap: nat)
    requires Sound(t) && 1 <= fs <= overlap && 1 <= d <= 43 * fs && Int16(t.cells)
    ensures Int16(Shrink(t, fs, d, overlap).cells)
    decreases t.n
  {
    if t.n <= 45 * fs {
    } else {
      RemoveInt16(t, fs, d, overlap);
      ShrinkInt16(RemoveOne(t, fs, d, overlap), fs, d, overlap);
    }
  }

  lemma {:induction false} StretchInt16(t: Tape, fs: nat, d: nat, overlap: nat, count: nat)
    requires Sound(t) && 1 <= fs <= d && fs <= overlap && t.n >= 2 * fs && t.n + count * d < SIZE && Int16(t.cells)
    ensures Int16(Stretch(t, fs, d, overlap, count).cells)
    decreases count
  {
    if count == 0 {
    } else {
      OneMorePeriod(count - 1, d);
      var t1 := Stretch(t, fs, d, overlap, count - 1);
      StretchInt16(t, fs, d, overlap, count - 1);
      assert t1.n + d == t.n + count * d;
      InsertInt16(t1, fs, d, overlap);
    }
  }

  lemma {:induction false} FillInt16(t: Tape, fs: nat, d: nat, need: nat)
    requires Sound(t) && 1 <= fs <= d && t.n >= 2 * fs && need + d <= SIZE && Int16(t.cells)
    ensures Int16(Fill(t, fs, d, need).cells)
    decreases if t.n < need then need - t.n else 0
  {
    if t.n >= need {
    } else {
      InsertInt16(t, fs, d, fs);
      FillInt16(InsertOne(t, fs, d, fs), fs, d, need);
    }
  }

  lemma AdjustInt16(t: Tape, fsIn: nat, fs: nat, lag: Lag, k: nat)
    requires Sound(t) && Fits(fsIn, fs, lag.d, k) && t.n >= 2 * fs && Int16(t.cells)
    ensures Int16(Adjust(t, fsIn, fs, lag, k).cells)
  {
    if t.n > 45 * fs {
      ShrinkInt16(t, fs, lag.d, 20 * fsIn);
    } else {
      RepeatsFit(t.n, fs, lag);
      StretchInt16(t, fs, lag.d, 20 * fsIn, Repeats(t.n, fs, lag));
      FillInt16(Expand(t, fsIn, fs, lag, k), fs, lag.d, k + 3 * fs);
    }
  }

  /** The last frame of a run comes after the others. */
  lemma {:induction false} ProcessLast(su: Setup, t: Tape, frames: seq<Frame>, k: nat)
    requires Bounded(su) && Ready(su, t) && |frames| == k + 1 && forall f :: f in frames ==> FrameOk(su, f)
    ensures (forall f :: f in frames[..k] ==> FrameOk(su, f)) && frames[k] in frames
    ensures var r := Process(su, t, frames[..k]);
            var q := ProcessFrame(su, r.0, frames[k]);
            Process(su, t, frames) == (q.0, r.1 + q.1)
  {
    assert frames[k] in frames && forall f :: f in frames[..k] ==> f in frames;
  }

  lemma {:induction false} ProcessInt16(su: Setup, t: Tape, frames: seq<Frame>)
    requires Bounded(su) && Ready(su, t) && (forall f :: f in frames ==> FrameOk(su, f) && Int16(f.samples))
    requires Int16(t.cells)
    ensures Int16(Process(su, t, frames).0.cells) && Int16(Process(su, t, frames).1)
    decreases |frames|
  {
    if frames == [] {
    } else {
      var k := |frames| - 1;
      ProcessLast(su, t, frames, k);
      assert forall f :: f in frames[..k] ==> f in frames;
      ProcessInt16(su, t, frames[..k]);
      var r := Process(su, t, frames[..k]);
      FrameInt16(su, r.0, frames[k]);
      JoinInt16(r.1, ProcessFrame(su, r.0, frames[k]).1);
    }
  }

  lemma FrameInt16(su: Setup, t: Tape, f: Frame)
    requires Bounded(su) && Ready(su, t) && FrameOk(su, f) && Int16(f.samples) && Int16(t.cells)
    ensures Int16(ProcessFrame(su, t, f).0.cells) && Int16(ProcessFrame(su, t, f).1)
  {
    FrameFits(su, f);
    OverwriteInt16(t.cells, t.n, f.samples);
    var t1 := Append(t, f.samples);
    AdjustInt16(t1, su.fsIn, su.fs, LagOf(su, f), su.outLen);
  }

  /** The effects, over any run: whatever the rate, strength, lags and signal, each frame gives
      exactly its share of output, 3 ms stay queued after it, the queue never exceeds 81 ms
      and so never fills the ring, and every sample stays 16-bit. */
  lemma {:induction false} EffectsAlwaysDeliver(e: Effect, fsHz: nat, strength: int, cells: seq<int>,
                                                frames: seq<Frame>)
    requires 2000 <= fsHz < 49000 && |cells| == SIZE && Int16(cells)
    requires var su := Create(e, fsHz, strength); forall f :: f in frames ==> FrameOk(su, f) && Int16(f.samples)
    ensures var su := Create(e, fsHz, strength);
            && Bounded(su)
            && (var r := Process(su, Tape(cells, 0), frames);
                && |r.1| == |frames| * su.outLen && Int16(r.1) && r.0.n + su.inLen <= 81 * su.fs < SIZE
                && (frames != [] ==> r.0.n >= 3 * su.fs))
  {
    CreateIsBounded(e, fsHz, strength);
    var su := Create(e, fsHz, strength);
    ProcessLength(su, Tape(cells, 0), frames);
    ProcessInt16(su, Tape(cells, 0), frames);
  }
}
