/** A pitch or pace effect with its time-scale buffer, processing frames in place. */
module AudioEffectsObject {
  import opened TimeScale
  import opened TimeScaleObject
  import opened AudioEffects

  /** The loop of find_min_max_pitch. */
  method FindMinMaxPitch(su: Setup, lags: seq<nat>, voiced: bool) returns (minL: nat, maxL: nat)
    requires |lags| == SUBFRAMES && su.down >= 1
    ensures minL == if voiced then MinLag(su, lags, SUBFRAMES) else 1000
    ensures maxL == if voiced then MaxLag(su, lags, SUBFRAMES) else 0
  {
    minL, maxL := 1000, 0;
    if voiced {
      for i := 0 to |lags|
        invariant minL == MinLag(su, lags, i) && maxL == MaxLag(su, lags, i)
      {
        var pitchL := PitchLag(su, lags[i]);
        if pitchL > maxL {
          maxL := pitchL;
        }
        if pitchL < minL {
          minL := pitchL;
        }
      }
    }
  }

  lemma FrameIs(su: Setup, t: Tape, f: Frame, t1: Tape, lag: Lag)
    requires Bounded(su) && FrameOk(su, f) && Ready(su, t) && t1 == Append(t, f.samples) && lag == LagOf(su, f)
    ensures t1.n >= 2 * su.fs && Fits(su.fsIn, su.fs, lag.d, su.outLen)
    ensures ProcessFrame(su, t, f)
            == (Extract(t1, su.fsIn, su.fs, lag, su.outLen), Delivered(t1, su.fsIn, su.fs, lag, su.outLen))
  {
    FrameFits(su, f);
  }

  class Shifter {
    const su: Setup
    const tscale: Buffer

    ghost predicate Valid()
      reads this, tscale
    {
      tscale.Valid() && Bounded(su) && tscale.fsIn == su.fsIn && tscale.fsOut == su.fs
    }

    ghost function View(): (t: Tape)
      requires tscale.Valid()
      reads this, tscale, tscale.buf
    {
      tscale.View()
    }

    /** create_pitch_up_shift and its three siblings */
    constructor (e: Effect, fsHz: nat, strength: int)
      requires 2000 <= fsHz < 49000
      ensures Valid() && fresh(tscale) && fresh(tscale.buf) && su == Create(e, fsHz, strength) && View().n == 0
    {
      CreateIsBounded(e, fsHz, strength);
      var r := Ratio(e, strength);
      su := Create(e, fsHz, strength);
      tscale := new Buffer(Resampled(fsHz, r.0, r.1), fsHz);
    }

    /** time_scale_insert as the process loops call it; the frame's samples are what was read
        or resampled. */
    method InsertFrame(f: Frame, ghost t: Tape)
      requires Valid() && t == View() && FrameOk(su, f) && Ready(su, t)
      modifies tscale, tscale.buf
      ensures Valid() && View() == Append(t, f.samples)
      ensures Search(f.nc, tscale.minL, tscale.maxL, tscale.voiced, tscale.fsIn) == LagOf(su, f)
    {
      var minL, maxL := FindMinMaxPitch(su, f.lags, f.voiced);
      var tmp := new int[|f.samples|](i requires 0 <= i < |f.samples| => f.samples[i]);
      assert tmp[0..|f.samples|] == f.samples;
      tscale.Insert(tmp, 0, |f.samples|, maxL, minL, f.voiced);
    }

    /** One turn of the process loops. */
    method ProcessFrame(f: Frame, out: array<int>, at: nat, ghost t: Tape)
      requires Valid() && t == View() && FrameOk(su, f) && Ready(su, t)
      requires out != tscale.buf && at + su.outLen <= out.Length
      modifies tscale, tscale.buf, out
      ensures Valid() && View() == AudioEffects.ProcessFrame(su, t, f).0
      ensures out[..] == old(out[..at]) + AudioEffects.ProcessFrame(su, t, f).1 + old(out[at + su.outLen..])
    {
      ghost var t1, lag := Append(t, f.samples), LagOf(su, f);
      FrameIs(su, t, f, t1, lag);
      InsertFrame(f, t);
      ExtractFrame(f, out, at, t1, lag);
    }

    method ExtractFrame(f: Frame, out: array<int>, at: nat, ghost t1: Tape, ghost lag: Lag)
      requires Valid() && t1 == View() && t1.n >= 2 * su.fs && Fits(su.fsIn, su.fs, lag.d, su.outLen)
      requires lag == Search(f.nc, tscale.minL, tscale.maxL, tscale.voiced, tscale.fsIn)
      requires out != tscale.buf && at + su.outLen <= out.Length
      modifies tscale, tscale.buf, out
      ensures Valid() && View() == Extract(t1, su.fsIn, su.fs, lag, su.outLen)
      ensures out[..] == old(out[..at]) + Delivered(t1, su.fsIn, su.fs, lag, su.outLen) + old(out[at + su.outLen..])
    {
      tscale.Extract(out, at, su.outLen, f.nc);
    }

    /** pitch_shift_process and pace_shift_process */
    method Process(frames: seq<Frame>, out: array<int>)
      requires Valid() && Ready(su, View()) && (forall f :: f in frames ==> FrameOk(su, f))
      requires out != tscale.buf && |frames| * su.outLen <= out.Length
      modifies tscale, tscale.buf, out
      ensures Valid() && Done(old(View()), frames, View(), out[..], |frames| * su.outLen)
    {
      ghost var t := View();
      var at: nat := 0;
      for i := 0 to |frames|
        invariant Valid() && Upto(t, frames, i, View(), out[..], at) && at == i * su.outLen
      {
        Share(i, |frames|, su.outLen);
        at := Turn(frames, i, out, at, t);
      }
      assert frames[..|frames|] == frames;
    }

    method Turn(frames: seq<Frame>, i: nat, out: array<int>, at: nat, ghost t: Tape) returns (at': nat)
      requires Valid() && out != tscale.buf && i < |frames| && at + su.outLen <= out.Length
      requires (forall f :: f in frames ==> FrameOk(su, f)) && Upto(t, frames, i, View(), out[..], at)
      modifies tscale, tscale.buf, out
      ensures Valid() && at' == at + su.outLen && Upto(t, frames, i + 1, View(), out[..], at')
    {
      NextFrame(frames, i);
      ghost var was, t0 := out[..], View();
      ProcessFrame(frames[i], out, at, t0);
      Extends(t, frames[..i], frames[i], frames[..i + 1], t0, was, View(), out[..], at);
      at' := at + su.outLen;
    }

    /** The first i frames have been processed, and their output fills the first `at` samples. */
    ghost predicate Upto(t: Tape, frames: seq<Frame>, i: nat, t': Tape, out: seq<int>, at: nat) {
      i <= |frames| && Done(t, frames[..i], t', out, at)
    }

    ghost predicate Done(t: Tape, frames: seq<Frame>, t': Tape, out: seq<int>, at: nat) {
      && Bounded(su) && Ready(su, t) && (forall f :: f in frames ==> FrameOk(su, f)) && at <= |out|
      && AudioEffects.Process(su, t, frames) == (t', out[..at])
    }

    lemma Extends(t: Tape, before: seq<Frame>, f: Frame, after: seq<Frame>,
                  t0: Tape, was: seq<int>, t': Tape, out: seq<int>, at: nat)
      requires Bounded(su) && FrameOk(su, f) && after == before + [f] && at + su.outLen <= |was| && Ready(su, t0)
      requires var q := AudioEffects.ProcessFrame(su, t0, f);
               t' == q.0 && out == was[..at] + q.1 + was[at + su.outLen..]
      ensures Done(t, before, t0, was, at) ==> Done(t, after, t', out, at + su.outLen)
    {
      assert after[..|after| - 1] == before;
      assert was[..at] + AudioEffects.ProcessFrame(su, t0, f).1 == out[..at + su.outLen];
    }
  }

  lemma NextFrame(frames: seq<Frame>, i: nat)
    requires i < |frames|
    ensures frames[..i + 1] == frames[..i] + [frames[i]] && frames[i] in frames
  {
  }

  lemma Share(i: nat, n: nat, len: nat)
    requires i < n
    ensures i * len + len == (i + 1) * len <= n * len
  {
    Grows(len, i + 1, n);
  }
}
