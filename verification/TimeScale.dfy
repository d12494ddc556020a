/** The time-scale buffer as a value: a tape of 2^14 cells seen from the read position, of
    which the first n are queued. Cells beyond are what earlier reads left behind. */
module TimeScale {

  const SIZE: nat := 16384

  datatype Tape = Tape(cells: seq<int>, n: nat)

  predicate Sound(t: Tape) {
    |t.cells| == SIZE && t.n < SIZE
  }

  function Queue(t: Tape): seq<int>
    requires Sound(t)
  {
    t.cells[..t.n]
  }

  /** Cells a up to b; a negative position is one before the read position. */
  function Span(cells: seq<int>, a: int, b: int): seq<int>
    requires |cells| == SIZE && a <= b
  {
    seq(b - a, i requires 0 <= i => cells[(a + i) % SIZE])
  }

  function Overwrite(cells: seq<int>, p: nat, xs: seq<int>): seq<int>
    requires p + |xs| <= |cells|
  {
    cells[..p] + xs + cells[p + |xs|..]
  }

  /** A C conversion to integer. */
  function Truncate(x: real): int {
    if x >= 0.0 then x.Floor else -(-x).Floor
  }

  function Mix(a: real, b: real, up: real): real {
    a * (1.0 - up) + b * up
  }

  /** Sample i of a linear crossfade of the given length from one source to the other. */
  function Fade(a: int, b: int, i: nat, len: nat): int
    requires i < len
  {
    Truncate(Mix(a as real, b as real, (i + 1) as real / len as real))
  }

  function Fades(xs: seq<int>, ys: seq<int>): seq<int>
    requires |xs| == |ys|
  {
    seq(|xs|, i requires 0 <= i < |xs| => Fade(xs[i], ys[i], i, |xs|))
  }

  /** Where remove_one starts its crossfade, with the overlap it settles for. */
  function RemoveFrom(n: nat, fs: nat, d: nat, overlap: nat): (p: nat)
    requires RemoveFits(n, fs, d, overlap) && d <= n
    ensures p + d + 2 * fs <= n
  {
    n - d - fs - if n < 2 * overlap + d then (n - d) / 2 else overlap
  }

  /** The overlap fits: the crossfade of 2 * fs samples has room on both sides of the cut. */
  predicate RemoveFits(n: nat, fs: nat, d: nat, overlap: nat) {
    fs >= 1 && overlap >= fs && (d <= n ==> n - d >= 2 * fs)
  }

  /** The samples a removal writes, from p on. */
  function Removed(t: Tape, fs: nat, d: nat, p: nat): (xs: seq<int>)
    requires Sound(t) && p + d + 2 * fs <= t.n
    ensures |xs| == t.n - d - p
  {
    Fades(t.cells[p..p + 2 * fs], t.cells[p + d..p + d + 2 * fs]) + t.cells[p + d + 2 * fs..t.n]
  }

  /** time_scale_remove_one: cut out one period of d samples. */
  function RemoveOne(t: Tape, fs: nat, d: nat, overlap: nat): (t': Tape)
    requires Sound(t) && RemoveFits(t.n, fs, d, overlap)
    ensures Sound(t') && t'.n == if d > t.n then t.n else t.n - d
  {
    if d > t.n then t else
    var p := RemoveFrom(t.n, fs, d, overlap);
    Tape(Overwrite(t.cells, p, Removed(t, fs, d, p)), t.n - d)
  }

  predicate InsertFits(n: nat, fs: nat, d: nat, overlap: nat) {
    1 <= fs <= d && overlap >= fs && n >= 2 * fs && n + d < SIZE
  }

  /** Where insert_one starts its crossfade. */
  function InsertFrom(n: nat, fs: nat, d: nat, overlap: nat): (p: nat)
    requires InsertFits(n, fs, d, overlap)
    ensures p + 2 * fs <= n
  {
    n - fs - if n < overlap + fs then n - fs else overlap
  }

  /** The samples an insertion writes, from p on. */
  function Inserted(t: Tape, fs: nat, d: nat, p: nat): (xs: seq<int>)
    requires Sound(t) && fs <= d && p + 2 * fs <= t.n
    ensures |xs| == t.n + d - p
  {
    Fades(t.cells[p..p + 2 * fs], Span(t.cells, p - d, p - d + 2 * fs)) + Span(t.cells, p - d + 2 * fs, t.n)
  }

  /** time_scale_insert_one: repeat one period of d samples. */
  function InsertOne(t: Tape, fs: nat, d: nat, overlap: nat): (t': Tape)
    requires Sound(t) && InsertFits(t.n, fs, d, overlap)
    ensures Sound(t') && t'.n == t.n + d
  {
    var p := InsertFrom(t.n, fs, d, overlap);
    Tape(Overwrite(t.cells, p, Inserted(t, fs, d, p)), t.n + d)
  }

  /** time_scale_insert, the samples. */
  function Append(t: Tape, xs: seq<int>): (t': Tape)
    requires Sound(t) && t.n + |xs| < SIZE
    ensures Sound(t') && Queue(t') == Queue(t) + xs
  {
    Tape(Overwrite(t.cells, t.n, xs), t.n + |xs|)
  }

  /** Reading k samples turns the tape. */
  function Take(t: Tape, k: nat): (t': Tape)
    requires Sound(t) && k <= t.n
    ensures Sound(t') && Queue(t) == Queue(t)[..k] + Queue(t')
  {
    Tape(t.cells[k..] + t.cells[..k], t.n - k)
  }

  // ---- Splices -----------------------------------------------------------

  predicate Between(x: int, a: int, b: int) {
    a <= x <= b || b <= x <= a
  }

  lemma TruncateBetween(x: real, a: int, b: int)
    requires a as real <= x <= b as real
    ensures a <= Truncate(x) <= b
  {
  }

  lemma Scaled(x: real, up: real)
    requires 0.0 <= up <= 1.0 && 0.0 <= x
    ensures 0.0 <= x * up <= x
  {
    assert x * (1.0 - up) >= 0.0;
    assert x * (1.0 - up) == x - x * up;
  }

  lemma MixForm(a: real, b: real, up: real)
    ensures a * (1.0 - up) + b * up == a + (b - a) * up
  {
    assert a * (1.0 - up) == a - a * up;
    assert (b - a) * up == b * up - a * up;
  }

  lemma MixForm'(a: real, b: real, up: real)
    ensures a * (1.0 - up) + b * up == a - (a - b) * up
  {
    assert a * (1.0 - up) == a - a * up;
    assert (a - b) * up == a * up - b * up;
  }

  lemma MixRises(a: real, b: real, up: real)
    requires 0.0 <= up <= 1.0 && a <= b
    ensures a <= Mix(a, b, up) <= b
  {
    MixForm(a, b, up);
    Scaled(b - a, up);
  }

  lemma MixFalls(a: real, b: real, up: real)
    requires 0.0 <= up <= 1.0 && b <= a
    ensures b <= Mix(a, b, up) <= a
  {
    MixForm'(a, b, up);
    Scaled(a - b, up);
  }

  lemma FadeWeight(i: nat, len: nat)
    requires i < len
    ensures 0.0 <= (i + 1) as real / len as real <= 1.0
    ensures i == len - 1 ==> (i + 1) as real / len as real == 1.0
  {
  }

  /** Every crossfaded sample lies between its two sources, and the last is the second. */
  lemma FadeBetween(a: int, b: int, i: nat, len: nat)
    requires i < len
    ensures Between(Fade(a, b, i, len), a, b)
  {
    FadeWeight(i, len);
    var up := (i + 1) as real / len as real;
    if a <= b {
      MixRises(a as real, b as real, up);
      TruncateBetween(Mix(a as real, b as real, up), a, b);
    } else {
      MixFalls(a as real, b as real, up);
      TruncateBetween(Mix(a as real, b as real, up), b, a);
    }
  }

  lemma FadeEnds(a: int, b: int, len: nat)
    requires len >= 1
    ensures Fade(a, b, len - 1, len) == b
  {
    FadeWeight(len - 1, len);
    assert Mix(a as real, b as real, 1.0) == b as real;
    TruncateBetween(b as real, b, b);
  }

  /** Sample i of len is the weighted mean of a and b, with i + 1 parts of b, cut towards zero. */
  predicate IsFade(x: int, a: int, b: int, i: nat, len: nat) {
    var w := a * (len - (i + 1)) + b * (i + 1);
    if w >= 0 then x * len <= w < x * len + len else x * len - len < w <= x * len
  }

  /** A conversion to integer cuts towards zero. */
  lemma TruncateIs(x: real)
    ensures if x >= 0.0 then Truncate(x) as real <= x < Truncate(x) as real + 1.0
            else Truncate(x) as real - 1.0 < x <= Truncate(x) as real
    ensures (x >= 0.0 ==> Truncate(x) >= 0) && (x <= 0.0 ==> Truncate(x) <= 0)
  {
  }

  /** The mean times the length is the weighted sum. */
  lemma MixScaled(a: int, b: int, i: nat, len: nat)
    requires i < len
    ensures Mix(a as real, b as real, (i + 1) as real / len as real) * len as real
            == (a * (len - (i + 1)) + b * (i + 1)) as real
  {
    var up := (i + 1) as real / len as real;
    assert up * len as real == (i + 1) as real;
    assert (1.0 - up) * len as real == (len - (i + 1)) as real;
    assert Mix(a as real, b as real, up) * len as real
        == a as real * ((1.0 - up) * len as real) + b as real * (up * len as real);
    assert (a * (len - (i + 1))) as real == a as real * (len - (i + 1)) as real;
    assert (b * (i + 1)) as real == b as real * (i + 1) as real;
  }

  lemma Scales(x: real, y: real, l: real)
    requires l > 0.0
    ensures (x < y ==> x * l < y * l) && (x <= y ==> x * l <= y * l)
  {
    assert (y - x) * l == y * l - x * l;
    if x < y {
      assert (y - x) * l > 0.0;
    }
  }

  lemma Product(a: int, b: int)
    ensures (a * b) as real == a as real * b as real
  {
  }

  lemma ScaledLow(x: real, t: int, w: int, len: nat)
    requires len >= 1 && x * len as real == w as real && t as real <= x
    ensures t * len <= w
  {
    Product(t, len);
    Scales(t as real, x, len as real);
  }

  lemma ScaledHigh(x: real, t: int, w: int, len: nat)
    requires len >= 1 && x * len as real == w as real && x < t as real
    ensures w < t * len
  {
    Product(t, len);
    Scales(x, t as real, len as real);
  }

  lemma ScaledBounds(x: real, t: int, w: int, len: nat)
    requires len >= 1 && x * len as real == w as real
    requires if x >= 0.0 then t as real <= x < t as real + 1.0 else t as real - 1.0 < x <= t as real
    ensures if w >= 0 then t * len <= w < t * len + len else t * len - len < w <= t * len
  {
    if x >= 0.0 {
      ScaledLow(x, 0, w, len);
      ScaledLow(x, t, w, len);
      ScaledHigh(x, t + 1, w, len);
      assert (t + 1) * len == t * len + len;
    } else {
      ScaledHigh(x, 0, w, len);
      ScaledHigh(-x, 1 - t, -w, len);
      ScaledLow(-x, -t, -w, len);
      assert (1 - t) * len == len - t * len && (-t) * len == -(t * len);
    }
  }

  lemma FadeIs(a: int, b: int, i: nat, len: nat)
    requires i < len
    ensures IsFade(Fade(a, b, i, len), a, b, i, len)
  {
    var x := Mix(a as real, b as real, (i + 1) as real / len as real);
    TruncateIs(x);
    MixScaled(a, b, i, len);
    ScaledBounds(x, Truncate(x), a * (len - (i + 1)) + b * (i + 1), len);
  }

  lemma FadesBetween(xs: seq<int>, ys: seq<int>, i: nat)
    requires |xs| == |ys| && i < |xs|
    ensures Between(Fades(xs, ys)[i], xs[i], ys[i])
    ensures i == |xs| - 1 ==> Fades(xs, ys)[i] == ys[i]
    ensures IsFade(Fades(xs, ys)[i], xs[i], ys[i], i, |xs|)
  {
    FadeIs(xs[i], ys[i], i, |xs|);
    FadeBetween(xs[i], ys[i], i, |xs|);
    FadeEnds(xs[i], ys[i], |xs|);
  }

  lemma OverwriteAt(cells: seq<int>, p: nat, xs: seq<int>, k: nat)
    requires p + |xs| <= |cells| && k < |cells|
    ensures Overwrite(cells, p, xs)[k] == if p <= k < p + |xs| then xs[k - p] else cells[k]
  {
  }

  lemma RemovedAt(t: Tape, fs: nat, d: nat, p: nat, i: nat, xs: seq<int>)
    requires Sound(t) && p + d + 2 * fs <= t.n && xs == Removed(t, fs, d, p) && i < t.n - d - p
    ensures i < 2 * fs ==> Between(xs[i], t.cells[p + i], t.cells[p + i + d])
    ensures i < 2 * fs ==> IsFade(xs[i], t.cells[p + i], t.cells[p + i + d], i, 2 * fs)
    ensures 2 * fs - 1 <= i ==> xs[i] == t.cells[p + i + d]
  {
    if i < 2 * fs {
      FadesBetween(t.cells[p..p + 2 * fs], t.cells[p + d..p + d + 2 * fs], i);
    }
  }

  function Min(a: int, b: int): int {
    if a <= b then a else b
  }

  /** Where the splices are: a removal is crossfaded around the given distance from its end,
      or around the middle if less than twice that is left, and an insertion begins 1 ms before the
      given distance from the end, or as early as it can. */
  lemma SplicesAt(n: nat, fs: nat, d: nat, overlap: nat)
    ensures RemoveFits(n, fs, d, overlap) && d <= n ==>
              RemoveFrom(n, fs, d, overlap) + fs == n - d - Min(overlap, (n - d) / 2)
    ensures InsertFits(n, fs, d, overlap) ==> InsertFrom(n, fs, d, overlap) + fs == n - Min(overlap, n - fs)
  {
  }

  /** Removing splices the queue at p: a prefix stays, then come 2 * fs samples that fade from
      the sample that was there to the one d later and reach it, and from then on the queue
      d later. */
  lemma RemoveSplices(t: Tape, fs: nat, d: nat, overlap: nat, k: nat)
    requires Sound(t) && RemoveFits(t.n, fs, d, overlap) && d <= t.n && k < t.n - d
    ensures var q, q', p := Queue(t), Queue(RemoveOne(t, fs, d, overlap)), RemoveFrom(t.n, fs, d, overlap);
            && (k < p ==> q'[k] == q[k])
            && (p <= k < p + 2 * fs ==> Between(q'[k], q[k], q[k + d]) && IsFade(q'[k], q[k], q[k + d], k - p, 2 * fs))
            && (p + 2 * fs - 1 <= k ==> q'[k] == q[k + d])
  {
    var p := RemoveFrom(t.n, fs, d, overlap);
    var xs := Removed(t, fs, d, p);
    OverwriteAt(t.cells, p, xs, k);
    if p <= k {
      RemovedAt(t, fs, d, p, k - p, xs);
    }
  }

  lemma SpanAt(cells: seq<int>, a: int, b: int, i: nat)
    requires |cells| == SIZE && a <= b && i < b - a
    ensures Span(cells, a, b)[i] == cells[(a + i) % SIZE]
  {
  }

  lemma InsertedAt(t: Tape, fs: nat, d: nat, p: nat, i: nat)
    requires Sound(t) && fs <= d && p + 2 * fs <= t.n && i < t.n + d - p
    ensures i < 2 * fs ==> Between(Inserted(t, fs, d, p)[i], t.cells[p + i], t.cells[(p - d + i) % SIZE])
    ensures i < 2 * fs ==> IsFade(Inserted(t, fs, d, p)[i], t.cells[p + i], t.cells[(p - d + i) % SIZE], i, 2 * fs)
    ensures 2 * fs - 1 <= i ==> Inserted(t, fs, d, p)[i] == t.cells[(p - d + i) % SIZE]
  {
    var xs, ys := t.cells[p..p + 2 * fs], Span(t.cells, p - d, p - d + 2 * fs);
    if i < 2 * fs {
      FadesBetween(xs, ys, i);
      SpanAt(t.cells, p - d, p - d + 2 * fs, i);
    } else {
      SpanAt(t.cells, p - d + 2 * fs, t.n, i - 2 * fs);
    }
  }

  lemma InsertedFrom(t: Tape, fs: nat, d: nat, p: nat, k: nat)
    requires Sound(t) && fs <= d && p + 2 * fs <= t.n && p <= k < t.n + d
    ensures k < p + 2 * fs ==> Between(Inserted(t, fs, d, p)[k - p], t.cells[k], t.cells[(k - d) % SIZE])
    ensures k < p + 2 * fs ==>
              IsFade(Inserted(t, fs, d, p)[k - p], t.cells[k], t.cells[(k - d) % SIZE], k - p, 2 * fs)
    ensures p + 2 * fs - 1 <= k ==> Inserted(t, fs, d, p)[k - p] == t.cells[(k - d) % SIZE]
  {
    InsertedAt(t, fs, d, p, k - p);
    assert p - d + (k - p) == k - d;
  }

  /** Inserting splices the queue at p: a prefix stays, then come 2 * fs samples that fade from
      the sample that was there to the one d earlier and reach it, and from then on the tape
      d earlier, up to the old end. */
  lemma InsertSplices(t: Tape, fs: nat, d: nat, overlap: nat, k: nat)
    requires Sound(t) && InsertFits(t.n, fs, d, overlap) && k < t.n + d
    ensures var q, q', p := Queue(t), Queue(InsertOne(t, fs, d, overlap)), InsertFrom(t.n, fs, d, overlap);
            && (k < p ==> q'[k] == q[k])
            && (p <= k < p + 2 * fs ==> Between(q'[k], q[k], t.cells[(k - d) % SIZE])
                                        && IsFade(q'[k], q[k], t.cells[(k - d) % SIZE], k - p, 2 * fs))
            && (p + 2 * fs - 1 <= k ==> q'[k] == t.cells[(k - d) % SIZE])
  {
    var p := InsertFrom(t.n, fs, d, overlap);
    OverwriteAt(t.cells, p, Inserted(t, fs, d, p), k);
    if p <= k {
      InsertedFrom(t, fs, d, p, k);
    }
  }

  // ---- Extraction --------------------------------------------------------

  /** The normalised correlation at a lag; there is none where a signal has no energy. */
  datatype Score = NoScore | Score(v: real)

  datatype Lag = Lag(d: int, nc: real)

  function Better(nc: int -> Score, d: int, best: Lag): Lag {
    if nc(d).Score? && nc(d).v > best.nc then Lag(d, nc(d).v) else best
  }

  /** The search of time_scale_extract over the lags from d on. */
  function SearchFrom(nc: int -> Score, d: int, maxL: int, best: Lag): Lag
    decreases maxL + 1 - d
  {
    if d > maxL then best else SearchFrom(nc, d + 1, maxL, Better(nc, d, best))
  }

  /** The lag time_scale_extract works with: the best pitch lag of a voiced frame, or 10 ms. */
  function Search(nc: int -> Score, minL: int, maxL: int, voiced: bool, fsIn: nat): Lag {
    var best := if voiced then SearchFrom(nc, minL, maxL, Lag(-1, -1.0)) else Lag(-1, -1.0);
    if best.d == -1 then Lag(10 * fsIn, 0.1) else best
  }

  /** The first while loop: remove periods until at most 45 ms are queued. */
  function Shrink(t: Tape, fs: nat, d: nat, overlap: nat): (t': Tape)
    requires Sound(t) && 1 <= fs <= overlap && 1 <= d <= 43 * fs
    ensures Sound(t') && t'.n <= 45 * fs && (t.n > 45 * fs ==> t'.n > 45 * fs - d)
    decreases t.n
  {
    if t.n > 45 * fs then Shrink(RemoveOne(t, fs, d, overlap), fs, d, overlap) else t
  }

  lemma OneMorePeriod(k: nat, d: nat)
    ensures (k + 1) * d == k * d + d
  {
  }

  /** The counted loop: repeat a period `count` times. */
  function Stretch(t: Tape, fs: nat, d: nat, overlap: nat, count: nat): (t': Tape)
    requires Sound(t) && 1 <= fs <= d && fs <= overlap && t.n >= 2 * fs && t.n + count * d < SIZE
    ensures Sound(t') && t'.n == t.n + count * d
    decreases count
  {
    if count == 0 then t else
    OneMorePeriod(count - 1, d);
    InsertOne(Stretch(t, fs, d, overlap, count - 1), fs, d, overlap)
  }

  /** The second while loop: repeat periods until `need` samples are queued. */
  function Fill(t: Tape, fs: nat, d: nat, need: nat): (t': Tape)
    requires Sound(t) && 1 <= fs <= d && t.n >= 2 * fs && need + d <= SIZE
    ensures Sound(t') && t'.n >= need && (t.n >= need ==> t' == t) && (t.n < need ==> t'.n < need + d)
    decreases if t.n < need then need - t.n else 0
  {
    if t.n < need then Fill(InsertOne(t, fs, d, fs), fs, d, need) else t
  }

  /** 10 ms worth of periods, to the nearest. */
  function Periods(fs: nat, d: nat): nat
    requires d >= 1
  {
    (10.0 * fs as real / d as real + 0.5).Floor
  }

  predicate Expands(n: nat, fs: nat, nc: real)
    requires fs >= 1
  {
    n < 35 * fs && nc > 0.75 - (35 * fs - n) as real * (0.015 / fs as real)
  }

  /** What extraction needs of its rates, its lag and the number of samples asked for. */
  predicate Fits(fsIn: nat, fs: nat, d: int, k: nat) {
    1 <= fs <= 20 * fsIn && fs <= d && d + k <= 42 * fs && 66 * fs < SIZE
  }

  /** m is 10 ms worth of periods of d samples, to the nearest. */
  predicate Nearest(m: nat, fs: nat, d: nat) {
    2 * (m * d) <= 20 * fs + d < 2 * (m * d) + 2 * d
  }

  lemma TenMs(fs: nat, d: nat, x: real)
    requires d >= 1 && x == 10.0 * fs as real / d as real + 0.5
    ensures (2.0 * x) * d as real == (20 * fs + d) as real
  {
    var y, l := 10.0 * fs as real / d as real, d as real;
    assert y * l == 10.0 * fs as real;
    assert (2.0 * (y + 0.5)) * l == 2.0 * (y * l) + l;
  }

  lemma PeriodsAreNearest(fs: nat, d: nat)
    requires d >= 1
    ensures Nearest(Periods(fs, d), fs, d)
  {
    var x, m := 10.0 * fs as real / d as real + 0.5, Periods(fs, d);
    TenMs(fs, d, x);
    ScaledLow(2.0 * x, 2 * m, 20 * fs + d, d);
    ScaledHigh(2.0 * x, 2 * m + 2, 20 * fs + d, d);
    assert (2 * m + 2) * d == 2 * (m * d) + 2 * d && (2 * m) * d == 2 * (m * d);
  }

  lemma PeriodsBound(fs: nat, d: nat)
    requires d >= 1
    ensures 2 * (Periods(fs, d) * d) <= 20 * fs + d
  {
    PeriodsAreNearest(fs, d);
  }

  /** How many periods are repeated up front. */
  function Repeats(n: nat, fs: nat, lag: Lag): nat
    requires fs >= 1 && lag.d >= 1
  {
    if Expands(n, fs, lag.nc) then Periods(fs, lag.d) else 0
  }

  lemma RepeatsFit(n: nat, fs: nat, lag: Lag)
    requires n <= 45 * fs && 1 <= lag.d <= 42 * fs && fs >= 1
    ensures n <= n + Repeats(n, fs, lag) * lag.d <= 66 * fs
  {
    PeriodsBound(fs, lag.d);
  }

  /** time_scale_extract when at most 45 ms are queued: repeat periods if the frame is
      periodic enough ... */
  function Expand(t: Tape, fsIn: nat, fs: nat, lag: Lag, k: nat): (t': Tape)
    requires Sound(t) && Fits(fsIn, fs, lag.d, k) && 2 * fs <= t.n <= 45 * fs
    ensures Sound(t') && t.n <= t'.n <= 66 * fs
  {
    RepeatsFit(t.n, fs, lag);
    var m := Repeats(t.n, fs, lag);
    Stretch(t, fs, lag.d, 20 * fsIn, m)
  }

  /** ... and in any case until there is enough to read, with 3 ms to spare. */
  function Lengthen(t: Tape, fsIn: nat, fs: nat, lag: Lag, k: nat): (t': Tape)
    requires Sound(t) && Fits(fsIn, fs, lag.d, k) && 2 * fs <= t.n <= 45 * fs
    ensures Sound(t') && k + 3 * fs <= t'.n <= 66 * fs
  {
    Fill(Expand(t, fsIn, fs, lag, k), fs, lag.d, k + 3 * fs)
  }

  /** time_scale_extract up to the reading. */
  function Adjust(t: Tape, fsIn: nat, fs: nat, lag: Lag, k: nat): (t': Tape)
    requires Sound(t) && Fits(fsIn, fs, lag.d, k) && t.n >= 2 * fs
    ensures Sound(t')
  {
    if t.n > 45 * fs then Shrink(t, fs, lag.d, 20 * fsIn)
    else Lengthen(t, fsIn, fs, lag, k)
  }

  /** After adjusting there is enough to read, with 3 ms left over, and not too much. */
  lemma AdjustBounds(t: Tape, fsIn: nat, fs: nat, lag: Lag, k: nat)
    requires Sound(t) && Fits(fsIn, fs, lag.d, k) && t.n >= 2 * fs
    ensures k + 3 * fs <= Adjust(t, fsIn, fs, lag, k).n <= 66 * fs
  {
  }

  lemma NearestIsOne(m: nat, m': nat, fs: nat, d: nat)
    requires d >= 1 && Nearest(m, fs, d) && Nearest(m', fs, d)
    ensures m == m'
  {
    if m < m' {
      Multiples(m + 1, m', d);
    } else if m' < m {
      Multiples(m' + 1, m, d);
    }
  }

  lemma Multiples(a: nat, b: nat, d: nat)
    requires a <= b
    ensures a * d <= b * d && (a >= 1 ==> a * d == (a - 1) * d + d)
  {
    assert (b - a) * d >= 0;
  }

  /** The frame is periodic enough to be stretched: its correlation exceeds 0.75, less 0.015 for
      every millisecond that the queue is short of 35. */
  predicate Periodic(n: nat, fs: nat, nc: real) {
    nc * fs as real > 0.75 * fs as real - 0.015 * (35 * fs - n) as real
  }

  lemma ExpandsIff(n: nat, fs: nat, nc: real)
    requires fs >= 1
    ensures Expands(n, fs, nc) <==> n < 35 * fs && Periodic(n, fs, nc)
  {
    var f, x := fs as real, (35 * fs - n) as real * (0.015 / fs as real);
    assert x * f == (35 * fs - n) as real * ((0.015 / f) * f);
    assert (0.015 / f) * f == 0.015;
    if nc > 0.75 - x {
      assert nc * f > (0.75 - x) * f;
    }
    if nc * f > 0.75 * f - x * f {
      assert (nc - (0.75 - x)) * f > 0.0;
    }
  }

  /** What extraction does to a queue of at most 45 ms. A short queue of a periodic frame is
      stretched by 10 ms worth of periods, to the nearest; then periods are repeated until
      there is enough to read. A frame that is not, or a queue that is not short, is left
      alone if there is enough. */
  lemma {:induction false} AdjustStretchesIff(t: Tape, fsIn: nat, fs: nat, lag: Lag, k: nat, m: nat)
    requires Sound(t) && Fits(fsIn, fs, lag.d, k) && 2 * fs <= t.n <= 45 * fs && Nearest(m, fs, lag.d)
    ensures t.n < 35 * fs && Periodic(t.n, fs, lag.nc) ==>
              && t.n + m * lag.d < SIZE
              && Adjust(t, fsIn, fs, lag, k)
                 == Fill(Stretch(t, fs, lag.d, 20 * fsIn, m), fs, lag.d, k + 3 * fs)
    ensures !(t.n < 35 * fs && Periodic(t.n, fs, lag.nc)) ==>
              Adjust(t, fsIn, fs, lag, k) == Fill(t, fs, lag.d, k + 3 * fs)
    ensures !(t.n < 35 * fs && Periodic(t.n, fs, lag.nc)) && k + 3 * fs <= t.n ==> Adjust(t, fsIn, fs, lag, k) == t
  {
    ExpandsIff(t.n, fs, lag.nc);
    PeriodsAreNearest(fs, lag.d);
    NearestIsOne(m, Periods(fs, lag.d), fs, lag.d);
    RepeatsFit(t.n, fs, lag);
  }

  /** m periods fewer, and no more than needed. */
  lemma {:induction false} ShrinkCounts(t: Tape, fs: nat, d: nat, overlap: nat) returns (m: nat)
    requires Sound(t) && 1 <= fs <= overlap && 1 <= d <= 43 * fs
    ensures Shrink(t, fs, d, overlap).n == t.n - m * d
    ensures m > 0 ==> t.n - (m - 1) * d > 45 * fs
    decreases t.n
  {
    if t.n <= 45 * fs {
      m := 0;
    } else {
      var r := ShrinkCounts(RemoveOne(t, fs, d, overlap), fs, d, overlap);
      m := r + 1;
      OneMorePeriod(r, d);
      if r > 0 {
        OneMorePeriod(r - 1, d);
      }
    }
  }

  /** m periods more, and no more than needed. */
  lemma {:induction false} FillCounts(t: Tape, fs: nat, d: nat, need: nat) returns (m: nat)
    requires Sound(t) && 1 <= fs <= d && t.n >= 2 * fs && need + d <= SIZE
    ensures Fill(t, fs, d, need).n == t.n + m * d
    ensures m > 0 ==> t.n + (m - 1) * d < need
    decreases if t.n < need then need - t.n else 0
  {
    if t.n >= need {
      m := 0;
    } else {
      var r := FillCounts(InsertOne(t, fs, d, fs), fs, d, need);
      m := r + 1;
      OneMorePeriod(r, d);
      if r > 0 {
        OneMorePeriod(r - 1, d);
      }
    }
  }

  /** time_scale_extract: the tape it leaves ... */
  function Extract(t: Tape, fsIn: nat, fs: nat, lag: Lag, k: nat): (t': Tape)
    requires Sound(t) && Fits(fsIn, fs, lag.d, k) && t.n >= 2 * fs
    ensures Sound(t') && 3 * fs <= t'.n <= 66 * fs - k
  {
    AdjustBounds(t, fsIn, fs, lag, k);
    Take(Adjust(t, fsIn, fs, lag, k), k)
  }

  /** ... and the samples it delivers. */
  function Delivered(t: Tape, fsIn: nat, fs: nat, lag: Lag, k: nat): (xs: seq<int>)
    requires Sound(t) && Fits(fsIn, fs, lag.d, k) && t.n >= 2 * fs
    ensures |xs| == k && xs + Queue(Extract(t, fsIn, fs, lag, k)) == Queue(Adjust(t, fsIn, fs, lag, k))
  {
    AdjustBounds(t, fsIn, fs, lag, k);
    Queue(Adjust(t, fsIn, fs, lag, k))[..k]
  }

  /** The search finds the first lag of maximal score, or falls back on 10 ms exactly when no
      lag scores above -1. */
  lemma {:induction false} SearchIsBest(nc: int -> Score, d: int, maxL: int, best: Lag)
    ensures var r := SearchFrom(nc, d, maxL, best);
            && r.nc >= best.nc && (forall e :: d <= e <= maxL && nc(e).Score? ==> nc(e).v <= r.nc)
            && (r == best || (d <= r.d <= maxL && nc(r.d) == Score(r.nc) && r.nc > best.nc
                              && forall e :: d <= e < r.d && nc(e).Score? ==> nc(e).v < r.nc))
    decreases maxL + 1 - d
  {
    if d > maxL {
    } else {
      SearchIsBest(nc, d + 1, maxL, Better(nc, d, best));
    }
  }

  lemma SearchFinds(nc: int -> Score, minL: int, maxL: int, fsIn: nat)
    requires minL >= 0
    ensures var r := Search(nc, minL, maxL, true, fsIn);
            if exists e :: minL <= e <= maxL && nc(e).Score? && nc(e).v > -1.0
            then minL <= r.d <= maxL && nc(r.d) == Score(r.nc)
                 && (forall e :: minL <= e <= maxL && nc(e).Score? ==> nc(e).v <= r.nc)
                 && (forall e :: minL <= e < r.d && nc(e).Score? ==> nc(e).v < r.nc)
            else r == Lag(10 * fsIn, 0.1)
  {
    SearchIsBest(nc, minL, maxL, Lag(-1, -1.0));
  }

  /** An unvoiced frame has a lag of 10 ms and hardly any correlation. */
  lemma SearchUnvoiced(nc: int -> Score, minL: int, maxL: int, fsIn: nat)
    ensures Search(nc, minL, maxL, false, fsIn) == Lag(10 * fsIn, 0.1)
  {
  }
}
