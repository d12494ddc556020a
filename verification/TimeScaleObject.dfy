/** The time-scale buffer as the program keeps it: a ring of 2^14 samples edited in place.
    Its view is the tape that starts at the read position. */
module TimeScaleObject {
  import opened TimeScale

  function Rotate(s: seq<int>, r: nat): seq<int>
    requires r <= |s|
  {
    s[r..] + s[..r]
  }

  /** The ring index of tape position k. */
  function Ring(r: nat, k: int): nat {
    (r + k) % SIZE
  }

  lemma RotateAt(s: seq<int>, r: nat, k: int)
    requires |s| == SIZE && r < SIZE
    ensures Rotate(s, r)[k % SIZE] == s[(r + k) % SIZE]
  {
    var j := k % SIZE;
    assert (r + k) % SIZE == if r + j < SIZE then r + j else r + j - SIZE;
  }

  lemma RotateStep(s: seq<int>, r: nat, i: nat)
    requires |s| == SIZE && r < SIZE && i < SIZE
    ensures Rotate(s, (r + i) % SIZE) == Rotate(Rotate(s, r), i)
  {
    var r' := (r + i) % SIZE;
    assert r' == if r + i < SIZE then r + i else r + i - SIZE;
  }

  /** Writing through the ring is writing on the tape. */
  lemma RotateUpdate(s: seq<int>, r: nat, k: nat, x: int)
    requires |s| == SIZE && r < SIZE && k < SIZE
    ensures Rotate(s[(r + k) % SIZE := x], r) == Rotate(s, r)[k := x]
  {
    var j := (r + k) % SIZE;
    assert j == if r + k < SIZE then r + k else r + k - SIZE;
  }

  lemma OverwriteOne(cells: seq<int>, p: nat, xs: seq<int>, x: int)
    requires p + |xs| < |cells|
    ensures Overwrite(cells, p, xs)[p + |xs| := x] == Overwrite(cells, p, xs + [x])
  {
  }

  /** The stretch us lies in a copy at offset o. */
  predicate Holds(xs: seq<int>, o: nat, us: seq<int>) {
    o + |us| <= |xs| && forall i :: 0 <= i < |us| ==> us[i] == xs[o + i]
  }

  /** Positions counted from the write index and from the read index agree. */
  lemma FromWrite(r: nat, w: nat, n: nat, x: int)
    requires r < SIZE && w < SIZE && n == (w - r) % SIZE
    ensures (w + x) % SIZE == (r + n + x) % SIZE
  {
    assert n == w - r || n == w - r + SIZE;
    if n == w - r + SIZE {
      assert (w + x + SIZE) % SIZE == (w + x) % SIZE;
    }
  }

  lemma Next(a: int)
    ensures (a % SIZE + 1) % SIZE == (a + 1) % SIZE
  {
  }

  lemma Distance(r: nat, n: nat)
    requires r < SIZE && n < SIZE
    ensures ((r + n) % SIZE - r) % SIZE == n
  {
  }

  class Buffer {
    const buf: array<int>
    var readIdx: nat
    var writeIdx: nat
    const fsIn: nat
    const fsOut: nat
    var maxL: int
    var minL: int
    var voiced: bool

    ghost predicate Valid()
      reads this
    {
      buf.Length == SIZE && readIdx < SIZE && writeIdx < SIZE
    }

    ghost function Cells(): (s: seq<int>)
      requires Valid()
      reads this, buf
      ensures |s| == SIZE
    {
      Rotate(buf[..], readIdx)
    }

    /** The view. */
    ghost function View(): (t: Tape)
      requires Valid()
      reads this, buf
      ensures Sound(t)
    {
      Tape(Cells(), (writeIdx - readIdx) % SIZE)
    }

    /** time_scale_init on a zeroed structure */
    constructor (fsInHz: nat, fsOutHz: nat)
      ensures Valid() && fresh(buf) && View().n == 0
      ensures fsIn == fsInHz / 1000 && fsOut == fsOutHz / 1000
    {
      buf := new int[SIZE](_ => 0);
      readIdx, writeIdx := 0, 0;
      fsIn, fsOut := fsInHz / 1000, fsOutHz / 1000;
      maxL, minL, voiced := 0, 0, false;
    }

    /** One assignment to the ring and the step of its index: the next sample of an edit that
        starts at tape position p and has got as far as `done`. */
    method Put(idx: nat, x: int, ghost base: seq<int>, ghost p: nat, ghost done: seq<int>) returns (next: nat)
      requires Valid() && |base| == SIZE && p + |done| < SIZE
      requires idx == Ring(readIdx, p + |done|) && Cells() == Overwrite(base, p, done)
      modifies buf
      ensures Cells() == Overwrite(base, p, done + [x])
      ensures next == Ring(readIdx, p + |done| + 1)
    {
      RotateUpdate(buf[..], readIdx, p + |done|, x);
      OverwriteOne(base, p, done, x);
      Next(readIdx + p + |done|);
      buf[idx] := x;
      next := (idx + 1) % SIZE;
    }

    /** The copying loops: `len` samples from tape position a on. */
    method Copy(from: nat, len: nat, ghost a: int, ghost b: int) returns (tmp: array<int>)
      requires Valid() && from == Ring(readIdx, a) && a + len == b
      ensures fresh(tmp) && tmp[..] == Span(Cells(), a, b)
    {
      tmp := new int[len];
      var idx := from;
      for i := 0 to len
        invariant idx == Ring(readIdx, a + i)
        invariant tmp[..i] == Span(Cells(), a, b)[..i]
      {
        RotateAt(buf[..], readIdx, a + i);
        Next(readIdx + a + i);
        tmp[i] := buf[idx];
        idx := (idx + 1) % SIZE;
      }
    }

    /** The crossfade loops: fade from us to vs, each found in a copy, writing from tape position p. */
    method PutFades(start: nat, xs: array<int>, xo: nat, ys: array<int>, yo: nat,
                    ghost us: seq<int>, ghost vs: seq<int>, ghost base: seq<int>, ghost p: nat)
      returns (idx: nat)
      requires Valid() && xs != buf && ys != buf && start == Ring(readIdx, p) && Cells() == base
      requires |us| == |vs| == 2 * fsOut && p + 2 * fsOut <= SIZE
      requires Holds(xs[..], xo, us) && Holds(ys[..], yo, vs)
      modifies buf
      ensures Cells() == Overwrite(base, p, Fades(us, vs))
      ensures idx == Ring(readIdx, p + |us|)
    {
      ghost var fades := Fades(us, vs);
      idx := start;
      assert fades[..0] == [] && Overwrite(base, p, []) == base;
      for i := 0 to 2 * fsOut
        invariant idx == Ring(readIdx, p + i)
        invariant Cells() == Overwrite(base, p, fades[..i])
      {
        assert fades[..i + 1] == fades[..i] + [fades[i]];
        assert us[i] == xs[xo + i] && vs[i] == ys[yo + i];
        idx := Put(idx, Fade(xs[xo + i], ys[yo + i], i, 2 * fsOut), base, p, fades[..i]);
      }
      assert fades[..2 * fsOut] == fades;
    }

    /** The loops that write ws, found in a copy, after what is already done. */
    method PutAll(start: nat, xs: array<int>, xo: nat, len: nat, ghost ws: seq<int>,
                  ghost base: seq<int>, ghost p: nat, ghost done: seq<int>)
      returns (idx: nat)
      requires Valid() && xs != buf && |base| == SIZE && p + |done| + len <= SIZE
      requires |ws| == len && Holds(xs[..], xo, ws)
      requires start == Ring(readIdx, p + |done|) && Cells() == Overwrite(base, p, done)
      modifies buf
      ensures Cells() == Overwrite(base, p, done + ws)
      ensures idx == Ring(readIdx, p + |done + ws|)
    {
      idx := start;
      assert done + ws[..0] == done;
      for i := 0 to len
        invariant idx == Ring(readIdx, p + |done| + i)
        invariant Cells() == Overwrite(base, p, done + ws[..i])
      {
        assert done + ws[..i + 1] == done + ws[..i] + [ws[i]];
        assert ws[i] == xs[xo + i];
        idx := Put(idx, xs[xo + i], base, p, done + ws[..i]);
      }
      assert ws[..len] == ws;
    }

    /** The index `back` samples behind the write index. */
    method Behind(back: int) returns (idx: nat)
      requires Valid()
      ensures idx == Ring(readIdx, View().n - back)
    {
      FromWrite(readIdx, writeIdx, View().n, -back);
      idx := (writeIdx - back) % SIZE;
    }

    /** buf_smpls */
    method Samples() returns (n: nat)
      requires Valid()
      ensures n == View().n
    {
      n := (writeIdx - readIdx) % SIZE;
    }

    method MoveWrite(idx: nat, ghost n: nat)
      requires Valid() && n < SIZE && idx == Ring(readIdx, n)
      modifies `writeIdx
      ensures Valid() && View() == Tape(old(Cells()), n)
    {
      Distance(readIdx, n);
      writeIdx := idx;
    }

    /** The reading half of time_scale_remove_one: two copies d apart, and where to write. */
    method ReadRemoval(d: nat, len: nat, ghost p: nat, ghost t: Tape)
      returns (buf1: array<int>, buf2: array<int>, start: nat)
      requires Valid() && t == View() && fsOut <= len && p + d + fsOut + len == t.n && 2 * len + d <= t.n
      ensures fresh(buf1) && fresh(buf2) && buf1.Length == buf2.Length == 2 * len && start == Ring(readIdx, p)
      ensures buf1[..] == Span(t.cells, t.n - 2 * len, t.n) && buf2[..] == Span(t.cells, t.n - d - 2 * len, t.n - d)
    {
      var from1 := Behind(2 * len);
      var from2 := Behind(2 * len + d);
      buf1 := Copy(from1, 2 * len, t.n - 2 * len, t.n);
      buf2 := Copy(from2, 2 * len, t.n - d - 2 * len, t.n - d);
      start := Behind(len + fsOut + d);
    }

    /** The writing half: a crossfade and what follows it. */
    method WriteRemoval(start: nat, buf1: array<int>, buf2: array<int>, len: nat,
                        ghost us: seq<int>, ghost vs: seq<int>, ghost ws: seq<int>, ghost all: seq<int>,
                        ghost base: seq<int>, ghost p: nat, ghost m: nat)
      requires Valid() && buf1 != buf && buf2 != buf && fsOut <= len && buf1.Length == buf2.Length == 2 * len
      requires |us| == |vs| == 2 * fsOut && |ws| == len - fsOut && all == Fades(us, vs) + ws && m == p + |all| < SIZE
      requires Holds(buf2[..], len - fsOut, us) && Holds(buf1[..], len - fsOut, vs) && Holds(buf1[..], len + fsOut, ws)
      requires start == Ring(readIdx, p) && Cells() == base
      modifies buf, `writeIdx
      ensures Valid() && View() == Tape(Overwrite(base, p, all), m)
    {
      var idx := PutFades(start, buf2, len - fsOut, buf1, len - fsOut, us, vs, base, p);
      idx := PutAll(idx, buf1, len + fsOut, len - fsOut, ws, base, p, Fades(us, vs));
      MoveWrite(idx, m);
    }

    method RemoveAt(d: nat, len: nat, ghost p: nat, ghost t: Tape)
      requires Valid() && t == View() && fsOut <= len && p + d + fsOut + len == t.n && 2 * len + d <= t.n
      modifies buf, `writeIdx
      ensures Valid() && View() == Tape(Overwrite(t.cells, p, Removed(t, fsOut, d, p)), t.n - d)
    {
      ghost var fs, q, m := fsOut, p + d, t.n - d;
      ghost var us, vs, ws := t.cells[p..p + 2 * fs], t.cells[q..q + 2 * fs], t.cells[q + 2 * fs..t.n];
      ghost var all := Fades(us, vs) + ws;
      assert all == Removed(t, fs, d, p) && p + |all| == m;
      var buf1, buf2, start := ReadRemoval(d, len, p, t);
      LaterCopy(t, fs, len, q, buf1[..], vs, ws);
      EarlierCopy(t, fs, m, p, len, buf2[..], us);
      WriteRemoval(start, buf1, buf2, len, us, vs, ws, all, t.cells, p, m);
    }

    /** time_scale_remove_one */
    method RemoveOne(d: nat, overlap: nat)
      requires Valid() && RemoveFits(View().n, fsOut, d, overlap)
      modifies buf, `writeIdx
      ensures Valid() && View() == TimeScale.RemoveOne(old(View()), fsOut, d, overlap)
    {
      var n := Samples();
      if d <= n {
        var len := if n < 2 * overlap + d then (n - d) / 2 else overlap;
        RemoveAt(d, len, RemoveFrom(n, fsOut, d, overlap), View());
      }
    }

    /** The reading half of time_scale_insert_one. */
    method ReadInsertion(d: nat, len: nat, ghost p: nat, ghost t: Tape)
      returns (buf1: array<int>, buf2: array<int>, start: nat)
      requires Valid() && t == View() && fsOut <= len && fsOut <= d && p + fsOut + len == t.n
      ensures fresh(buf1) && fresh(buf2) && buf1.Length == len + fsOut && buf2.Length == d + fsOut
      ensures start == Ring(readIdx, p)
      ensures buf1[..] == Span(t.cells, p, t.n) && buf2[..] == Span(t.cells, p - d, p + fsOut)
    {
      start := Behind(len + fsOut);
      var from2 := Behind(len + d + fsOut);
      buf1 := Copy(start, len + fsOut, p, t.n);
      buf2 := Copy(from2, d + fsOut, p - d, p + fsOut);
    }

    /** The writing half: a crossfade, the rest of the repeated period, and the old end. */
    method WriteInsertion(start: nat, buf1: array<int>, buf2: array<int>, len: nat, d: nat, ghost us: seq<int>,
                          ghost vs: seq<int>, ghost ws: seq<int>, ghost zs: seq<int>, ghost all: seq<int>,
                          ghost base: seq<int>, ghost p: nat, ghost m: nat)
      requires Valid() && buf1 != buf && buf2 != buf && fsOut <= len && fsOut <= d
      requires buf1.Length == len + fsOut && buf2.Length == d + fsOut
      requires |us| == |vs| == 2 * fsOut && |ws| == d - fsOut && |zs| == len
      requires all == Fades(us, vs) + (ws + zs) && m == p + |all| < SIZE
      requires Holds(buf1[..], 0, us) && Holds(buf2[..], 0, vs)
      requires Holds(buf2[..], 2 * fsOut, ws) && Holds(buf1[..], fsOut, zs)
      requires start == Ring(readIdx, p) && Cells() == base
      modifies buf, `writeIdx
      ensures Valid() && View() == Tape(Overwrite(base, p, all), m)
    {
      var idx := PutFades(start, buf1, 0, buf2, 0, us, vs, base, p);
      idx := PutAll(idx, buf2, 2 * fsOut, d - fsOut, ws, base, p, Fades(us, vs));
      idx := PutAll(idx, buf1, fsOut, len, zs, base, p, Fades(us, vs) + ws);
      InsertJoins(Fades(us, vs), ws, zs);
      MoveWrite(idx, m);
    }

    method InsertAt(d: nat, len: nat, ghost p: nat, ghost t: Tape)
      requires Valid() && t == View() && 1 <= fsOut <= len && fsOut <= d && p + fsOut + len == t.n && t.n + d < SIZE
      modifies buf, `writeIdx
      ensures Valid() && View() == Tape(Overwrite(t.cells, p, Inserted(t, fsOut, d, p)), t.n + d)
    {
      ghost var fs, all := fsOut, Inserted(t, fsOut, d, p);
      ghost var us, vs := t.cells[p..p + 2 * fs], Span(t.cells, p - d, p - d + 2 * fs);
      ghost var ws, zs := Span(t.cells, p - d + 2 * fs, p + fs), Span(t.cells, p + fs, t.n);
      InsertedParts(t, fs, d, p, us, vs, ws, zs);
      var buf1, buf2, start := ReadInsertion(d, len, p, t);
      InsertionCopies(t, fs, d, p, buf1[..], buf2[..], us, vs, ws, zs);
      WriteInsertion(start, buf1, buf2, len, d, us, vs, ws, zs, all, t.cells, p, t.n + d);
    }

    /** time_scale_insert_one */
    method InsertOne(d: nat, overlap: nat)
      requires Valid() && InsertFits(View().n, fsOut, d, overlap)
      modifies buf, `writeIdx
      ensures Valid() && View() == TimeScale.InsertOne(old(View()), fsOut, d, overlap)
    {
      var n := Samples();
      var len := if n < overlap + fsOut then n - fsOut else overlap;
      InsertAt(d, len, InsertFrom(n, fsOut, d, overlap), View());
    }

    /** time_scale_insert */
    method Insert(xs: array<int>, from: nat, len: nat, maxL: int, minL: int, voiced: bool)
      requires Valid() && xs != buf && from + len <= xs.Length && View().n + len < SIZE
      modifies buf, `writeIdx, `maxL, `minL, `voiced
      ensures Valid() && View() == Append(old(View()), xs[from..from + len])
      ensures this.maxL == maxL && this.minL == minL && this.voiced == voiced
    {
      ghost var t := View();
      this.maxL, this.minL, this.voiced := maxL, minL, voiced;
      FromWrite(readIdx, writeIdx, t.n, 0);
      assert Overwrite(t.cells, t.n, []) == t.cells;
      var idx := PutAll(writeIdx, xs, from, len, xs[from..from + len], t.cells, t.n, []);
      assert [] + xs[from..from + len] == xs[from..from + len];
      MoveWrite(idx, t.n + len);
    }

    /** The search over lags in time_scale_extract; nc gives each lag's correlation. */
    method BestLag(nc: int -> Score) returns (lag: Lag)
      ensures lag == Search(nc, minL, maxL, voiced, fsIn)
    {
      lag := Lag(-1, -1.0);
      if voiced {
        var d := minL;
        while d < maxL + 1
          invariant SearchFrom(nc, d, maxL, lag) == SearchFrom(nc, minL, maxL, Lag(-1, -1.0))
        {
          if nc(d).Score? && nc(d).v > lag.nc {
            lag := Lag(d, nc(d).v);
          }
          d := d + 1;
        }
      }
      if lag.d == -1 {
        lag := Lag(10 * fsIn, 0.1);
      }
    }

    /** The loop that removes periods. */
    method ShrinkQueue(d: nat)
      requires Valid() && 1 <= fsOut <= 20 * fsIn && 1 <= d <= 43 * fsOut
      modifies buf, `writeIdx
      ensures Valid() && View() == Shrink(old(View()), fsOut, d, 20 * fsIn)
    {
      ghost var t := View();
      var n := Samples();
      while n > 45 * fsOut
        invariant Valid() && n == View().n
        invariant Shrink(View(), fsOut, d, 20 * fsIn) == Shrink(t, fsOut, d, 20 * fsIn)
        decreases n
      {
        RemoveOne(d, 20 * fsIn);
        n := Samples();
      }
    }

    /** The counted loop that repeats periods. */
    method StretchQueue(d: nat, count: nat)
      requires Valid() && 1 <= fsOut <= d && fsOut <= 20 * fsIn && View().n >= 2 * fsOut && View().n + count * d < SIZE
      modifies buf, `writeIdx
      ensures Valid() && View() == Stretch(old(View()), fsOut, d, 20 * fsIn, count)
    {
      ghost var t := View();
      for i := 0 to count
        invariant Valid() && t.n + i * d < SIZE && View() == Stretch(t, fsOut, d, 20 * fsIn, i)
      {
        Fewer(i + 1, count, d);
        InsertOne(d, 20 * fsIn);
      }
    }

    /** The loop that repeats periods until enough is queued. */
    method FillQueue(d: nat, need: nat, ghost t: Tape)
      requires Valid() && t == View() && 1 <= fsOut <= d && t.n >= 2 * fsOut && need + d <= SIZE
      modifies buf, `writeIdx
      ensures Valid() && View() == Fill(t, fsOut, d, need)
    {
      var n := Samples();
      while n < need
        invariant Valid() && n == View().n >= 2 * fsOut
        invariant Fill(View(), fsOut, d, need) == Fill(t, fsOut, d, need)
      {
        InsertOne(d, fsOut);
        n := Samples();
      }
    }

    /** time_scale_extract when at most 45 ms are queued. */
    method ExpandQueue(lag: Lag, n: nat, ghost k: nat, ghost t: Tape)
      requires Valid() && t == View() && n == t.n && Fits(fsIn, fsOut, lag.d, k) && 2 * fsOut <= n <= 45 * fsOut
      modifies buf, `writeIdx
      ensures Valid() && View() == Expand(t, fsIn, fsOut, lag, k)
    {
      RepeatsFit(n, fsOut, lag);
      if Expands(n, fsOut, lag.nc) {
        StretchQueue(lag.d, Periods(fsOut, lag.d));
      }
    }

    method LengthenQueue(lag: Lag, n: nat, k: nat, ghost t: Tape)
      requires Valid() && t == View() && n == t.n && Fits(fsIn, fsOut, lag.d, k) && 2 * fsOut <= n <= 45 * fsOut
      modifies buf, `writeIdx
      ensures Valid() && View() == Lengthen(t, fsIn, fsOut, lag, k)
    {
      ExpandQueue(lag, n, k, t);
      ghost var t1 := View();
      FillQueue(lag.d, k + 3 * fsOut, t1);
      LengthenIs(t, t1, View(), fsIn, fsOut, lag, k);
    }

    /** time_scale_extract up to the reading. */
    method Settle(lag: Lag, k: nat)
      requires Valid() && Fits(fsIn, fsOut, lag.d, k) && View().n >= 2 * fsOut
      modifies buf, `writeIdx
      ensures Valid() && View() == Adjust(old(View()), fsIn, fsOut, lag, k)
    {
      var n := Samples();
      if n > 45 * fsOut {
        ShrinkQueue(lag.d);
      } else {
        LengthenQueue(lag, n, k, View());
      }
    }

    /** time_scale_extract */
    method Extract(out: array<int>, at: nat, k: nat, nc: int -> Score)
      requires Valid() && out != buf && at + k <= out.Length && View().n >= 2 * fsOut
      requires Fits(fsIn, fsOut, Search(nc, minL, maxL, voiced, fsIn).d, k)
      modifies buf, `writeIdx, `readIdx, out
      ensures Valid() && (var lag := old(Search(nc, minL, maxL, voiced, fsIn));
              && View() == TimeScale.Extract(old(View()), fsIn, fsOut, lag, k)
              && out[..] == old(out[..at]) + Delivered(old(View()), fsIn, fsOut, lag, k) + old(out[at + k..]))
    {
      var lag := BestLag(nc);
      ExtractWith(lag, out, at, k, View());
    }

    method ExtractWith(lag: Lag, out: array<int>, at: nat, k: nat, ghost t: Tape)
      requires Valid() && t == View() && out != buf && at + k <= out.Length && t.n >= 2 * fsOut
      requires Fits(fsIn, fsOut, lag.d, k)
      modifies buf, `writeIdx, `readIdx, out
      ensures Valid() && View() == TimeScale.Extract(t, fsIn, fsOut, lag, k)
      ensures out[..] == old(out[..at]) + Delivered(t, fsIn, fsOut, lag, k) + old(out[at + k..])
    {
      AdjustBounds(t, fsIn, fsOut, lag, k);
      Settle(lag, k);
      Read(out, at, k, Adjust(t, fsIn, fsOut, lag, k));
    }

    method ReadOne(ghost cells: seq<int>, ghost r0: nat, ghost i: nat) returns (x: int)
      requires buf.Length == SIZE && r0 < SIZE && i < SIZE && readIdx == Ring(r0, i) && cells == Rotate(buf[..], r0)
      modifies `readIdx
      ensures readIdx == Ring(r0, i + 1) && x == cells[i]
    {
      RotateAt(buf[..], r0, i);
      Next(r0 + i);
      x := buf[readIdx];
      readIdx := (readIdx + 1) % SIZE;
    }

    /** The reading loop. */
    method Read(out: array<int>, at: nat, k: nat, ghost t: Tape)
      requires Valid() && t == View() && out != buf && at + k <= out.Length && k <= t.n
      modifies `readIdx, out
      ensures Valid() && View() == Take(t, k)
      ensures out[..] == old(out[..at]) + Queue(t)[..k] + old(out[at + k..])
    {
      ghost var r0 := readIdx;
      TakeIs(buf[..], r0, writeIdx, k);
      ReadLoop(out, at, k, t.cells, r0);
    }

    method ReadLoop(out: array<int>, at: nat, k: nat, ghost cells: seq<int>, ghost r0: nat)
      requires buf.Length == SIZE && r0 < SIZE && readIdx == r0 && cells == Rotate(buf[..], r0)
      requires out != buf && at + k <= out.Length && k < SIZE
      modifies `readIdx, out
      ensures readIdx == Ring(r0, k) && out[..] == old(out[..at]) + cells[..k] + old(out[at + k..])
    {
      for i := 0 to k
        invariant readIdx == Ring(r0, i)
        invariant forall j :: 0 <= j < out.Length ==> out[j] == if at <= j < at + i then cells[j - at] else old(out[j])
      {
        var x := ReadOne(cells, r0, i);
        out[at + i] := x;
      }
    }
  }

  lemma {:induction false} LengthenIs(t: Tape, t1: Tape, t2: Tape, fsIn: nat, fs: nat, lag: Lag, k: nat)
    requires Sound(t) && Fits(fsIn, fs, lag.d, k) && 2 * fs <= t.n <= 45 * fs && Sound(t1) && t1.n >= 2 * fs
    ensures t1 == Expand(t, fsIn, fs, lag, k) && t2 == Fill(t1, fs, lag.d, k + 3 * fs) ==>
              t2 == Lengthen(t, fsIn, fs, lag, k)
  {
  }

  lemma TakeIs(s: seq<int>, r: nat, w: nat, k: nat)
    requires |s| == SIZE && r < SIZE && w < SIZE && k <= (w - r) % SIZE
    ensures Tape(Rotate(s, Ring(r, k)), (w - Ring(r, k)) % SIZE) == Take(Tape(Rotate(s, r), (w - r) % SIZE), k)
  {
    RotateStep(s, r, k);
    Nearer(r, w, k);
  }

  lemma Fewer(i: nat, count: nat, d: nat)
    requires 1 <= i <= count
    ensures (i - 1) * d + d == i * d <= count * d
  {
  }

  lemma Nearer(r: nat, w: nat, k: nat)
    requires r < SIZE && w < SIZE && k <= (w - r) % SIZE
    ensures (w - (r + k) % SIZE) % SIZE == (w - r) % SIZE - k
  {
  }

  lemma LaterCopy(t: Tape, fs: nat, len: nat, q: nat, xs: seq<int>, vs: seq<int>, ws: seq<int>)
    requires Sound(t) && fs <= len && q + fs + len == t.n && 2 * len <= t.n && xs == Span(t.cells, t.n - 2 * len, t.n)
    requires vs == t.cells[q..q + 2 * fs] && ws == t.cells[q + 2 * fs..t.n]
    ensures Holds(xs, len - fs, vs) && Holds(xs, len + fs, ws)
  {
    SliceHolds(t.cells, t.n - 2 * len, t.n, xs, len - fs, q, q + 2 * fs, vs);
    SliceHolds(t.cells, t.n - 2 * len, t.n, xs, len + fs, q + 2 * fs, t.n, ws);
  }

  lemma EarlierCopy(t: Tape, fs: nat, m: nat, p: nat, len: nat, ys: seq<int>, us: seq<int>)
    requires Sound(t) && fs <= len && p + fs + len == m <= t.n && 2 * len <= m && ys == Span(t.cells, m - 2 * len, m)
    requires us == t.cells[p..p + 2 * fs]
    ensures Holds(ys, len - fs, us)
  {
    SliceHolds(t.cells, m - 2 * len, m, ys, len - fs, p, p + 2 * fs, us);
  }

  lemma InsertionCopies(t: Tape, fs: nat, d: nat, p: nat, xs: seq<int>, ys: seq<int>,
                        us: seq<int>, vs: seq<int>, ws: seq<int>, zs: seq<int>)
    requires Sound(t) && fs <= d && p + 2 * fs <= t.n
    requires xs == Span(t.cells, p, t.n) && ys == Span(t.cells, p - d, p + fs)
    requires us == t.cells[p..p + 2 * fs] && vs == Span(t.cells, p - d, p - d + 2 * fs)
    requires ws == Span(t.cells, p - d + 2 * fs, p + fs) && zs == Span(t.cells, p + fs, t.n)
    ensures Holds(xs, 0, us) && Holds(ys, 0, vs) && Holds(ys, 2 * fs, ws) && Holds(xs, fs, zs)
  {
    SliceHolds(t.cells, p, t.n, xs, 0, p, p + 2 * fs, us);
    SpanHolds(t.cells, p - d, p + fs, ys, 0, p - d, p - d + 2 * fs, vs);
    SpanHolds(t.cells, p - d, p + fs, ys, 2 * fs, p - d + 2 * fs, p + fs, ws);
    SpanHolds(t.cells, p, t.n, xs, fs, p + fs, t.n, zs);
  }

  lemma InsertedParts(t: Tape, fs: nat, d: nat, p: nat, us: seq<int>, vs: seq<int>, ws: seq<int>, zs: seq<int>)
    requires Sound(t) && fs <= d && p + 2 * fs <= t.n
    requires us == t.cells[p..p + 2 * fs] && vs == Span(t.cells, p - d, p - d + 2 * fs)
    requires ws == Span(t.cells, p - d + 2 * fs, p + fs) && zs == Span(t.cells, p + fs, t.n)
    ensures |us| == |vs| == 2 * fs && |ws| == d - fs && |zs| == t.n - p - fs
    ensures Inserted(t, fs, d, p) == Fades(us, vs) + (ws + zs)
  {
    SpanJoin(t.cells, p - d + 2 * fs, p + fs, t.n);
  }

  lemma InsertJoins(a: seq<int>, b: seq<int>, c: seq<int>)
    ensures a + b + c == a + (b + c)
  {
  }

  /** A span of the tape lies in any copy that covers it. */
  lemma SpanHolds(cells: seq<int>, a: int, b: int, xs: seq<int>, o: nat, c: int, e: int, us: seq<int>)
    requires |cells| == SIZE && a + o == c <= e <= b && xs == Span(cells, a, b) && us == Span(cells, c, e)
    ensures Holds(xs, o, us)
  {
    forall i | 0 <= i < |us| ensures us[i] == xs[o + i] {
      assert c + i == a + (o + i);
    }
  }

  lemma SpanIsSlice(cells: seq<int>, a: nat, b: nat)
    requires |cells| == SIZE && a <= b <= SIZE
    ensures Span(cells, a, b) == cells[a..b]
  {
    forall i | 0 <= i < b - a ensures Span(cells, a, b)[i] == cells[a..b][i] {
      assert (a + i) % SIZE == a + i;
    }
  }

  lemma SliceHolds(cells: seq<int>, a: int, b: int, xs: seq<int>, o: nat, c: nat, e: nat, us: seq<int>)
    requires |cells| == SIZE && a + o == c <= e <= b <= SIZE && xs == Span(cells, a, b) && us == cells[c..e]
    ensures Holds(xs, o, us)
  {
    SpanIsSlice(cells, c, e);
    SpanHolds(cells, a, b, xs, o, c, e, us);
  }

  lemma SpanJoin(cells: seq<int>, a: int, b: int, c: int)
    requires |cells| == SIZE && a <= b <= c
    ensures Span(cells, a, b) + Span(cells, b, c) == Span(cells, a, c)
  {
    forall k | 0 <= k < c - a ensures (Span(cells, a, b) + Span(cells, b, c))[k] == Span(cells, a, c)[k] {
      if k >= b - a {
        assert b + (k - (b - a)) == a + k;
      }
    }
  }
}
