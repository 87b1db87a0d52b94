/** Queues whose ticks increase inside one half-window, and what the session's
    interpolator returns on them. */
module Timeline {
  import opened Words
  import opened StreamContract
  import opened StreamSession

  /** Ticks increase strictly and lie within 2^31 ms of `base`. */
  ghost predicate Ordered(base: u32, samples: seq<Setpoint>) {
    && (forall i :: 0 <= i < |samples| ==> Since(base, samples[i].tick) < TWO_31)
    && (forall i, j :: 0 <= i < j < |samples| ==> Since(base, samples[i].tick) < Since(base, samples[j].tick))
  }

  /** Index i is where the trajectory covers `tick`: a sample at it, or the
      start of the segment around it. */
  ghost predicate Covers(base: u32, samples: seq<Setpoint>, i: nat, tick: u32) {
    && i < |samples|
    && (samples[i].tick == tick
        || (i + 1 < |samples| && Since(base, samples[i].tick) < Since(base, tick) < Since(base, samples[i + 1].tick)))
  }

  function PointAt(samples: seq<Setpoint>, i: nat, tick: u32): Vec
    requires i < |samples|
    requires samples[i].tick == tick || (i + 1 < |samples| && samples[i].tick != samples[i + 1].tick)
  {
    if samples[i].tick == tick then samples[i].pos
    else LerpVec(samples[i].pos, samples[i + 1].pos,
                 Sub32(tick, samples[i].tick), Sub32(samples[i + 1].tick, samples[i].tick))
  }

  /** On an ordered queue the scan finds the covering index. */
  lemma {:induction false} ScanFinds(base: u32, samples: seq<Setpoint>, i: nat, tick: u32, from: nat)
    requires Ordered(base, samples) && Since(base, tick) < TWO_31
    requires Covers(base, samples, i, tick) && from <= i
    ensures samples[i].tick == tick || samples[i].tick != samples[i + 1].tick
    ensures InterpolateFrom(samples, tick, from) == Some(PointAt(samples, i, tick))
    decreases i - from
  {
    if from < i {
      HalfWindow(base, tick, samples[from].tick);
      HalfWindow(base, samples[from + 1].tick, tick);
      assert Since(base, samples[from].tick) < Since(base, samples[i].tick);
      ScanFinds(base, samples, i, tick, from + 1);
    } else if samples[i].tick != tick {
      HalfWindow(base, tick, samples[i].tick);
      HalfWindow(base, samples[i + 1].tick, tick);
    }
  }

  /** Every tick from the first sample to the last is covered. */
  lemma {:induction false} CoverExists(base: u32, samples: seq<Setpoint>, tick: u32, n: nat) returns (i: nat)
    requires Ordered(base, samples) && 0 < n <= |samples|
    requires Since(base, samples[0].tick) <= Since(base, tick) <= Since(base, samples[n - 1].tick)
    ensures i < n && Covers(base, samples, i, tick)
    ensures i == n - 1 ==> samples[i].tick == tick
  {
    i := n - 1;
    if Since(base, tick) < Since(base, samples[n - 1].tick) {
      if Since(base, samples[n - 2].tick) < Since(base, tick) {
        i := n - 2;
      } else {
        i := CoverExists(base, samples, tick, n - 1);
      }
    }
  }

  /** The interpolator answers exactly from the first sample to the last. */
  lemma InterpolateAnswers(base: u32, samples: seq<Setpoint>, tick: u32)
    requires Ordered(base, samples) && Since(base, tick) < TWO_31
    ensures Interpolate(samples, tick).Some? <==>
              |samples| > 0 && Since(base, samples[0].tick) <= Since(base, tick) <= Since(base,
                  samples[|samples| - 1].tick)
  {
    if |samples| > 0 && Since(base, samples[0].tick) <= Since(base, tick) <= Since(base, samples[|samples| - 1].tick) {
      var i := CoverExists(base, samples, tick, |samples|);
      ScanFinds(base, samples, i, tick, 0);
    } else {
      ScanMisses(base, samples, tick, 0);
    }
  }

  lemma {:induction false} ScanMisses(base: u32, samples: seq<Setpoint>, tick: u32, from: nat)
    requires Ordered(base, samples) && Since(base, tick) < TWO_31
    requires |samples| == 0 || Since(base, tick) < Since(base, samples[0].tick)
             || Since(base, samples[|samples| - 1].tick) < Since(base, tick)
    ensures InterpolateFrom(samples, tick, from).None?
    decreases |samples| - from
  {
    if from < |samples| {
      assert Since(base, samples[0].tick) <= Since(base, samples[from].tick) <= Since(base,
          samples[|samples| - 1].tick);
      if from + 1 < |samples| {
        assert Since(base, samples[from + 1].tick) <= Since(base, samples[|samples| - 1].tick);
        HalfWindow(base, tick, samples[from].tick);
        HalfWindow(base, samples[from + 1].tick, tick);
      }
      ScanMisses(base, samples, tick, from + 1);
    }
  }

  /** What a prefix of the queue answers, the whole queue answers too. */
  lemma {:induction false} PrefixAnswers(samples: seq<Setpoint>, n: nat, tick: u32, from: nat)
    requires n <= |samples| && InterpolateFrom(samples[..n], tick, from).Some?
    ensures InterpolateFrom(samples, tick, from) == InterpolateFrom(samples[..n], tick, from)
    decreases n - from
  {
    if from < n && samples[from].tick != tick
       && !(from + 1 < n && TickAfter(tick, samples[from].tick) && TickAfter(samples[from + 1].tick, tick)) {
      PrefixAnswers(samples, n, tick, from + 1);
    }
  }

  lemma OrderedSlice(base: u32, samples: seq<Setpoint>, lo: nat, hi: nat)
    requires Ordered(base, samples) && lo <= hi <= |samples|
    ensures Ordered(base, samples[lo..hi])
  {
  }

  /** Appending after the tail keeps the order. */
  lemma OrderedConcat(base: u32, a: seq<Setpoint>, b: seq<Setpoint>)
    requires Ordered(base, a) && Ordered(base, b)
    requires |a| > 0 && |b| > 0 ==> Since(base, a[|a| - 1].tick) < Since(base, b[0].tick)
    ensures Ordered(base, a + b)
  {
    var c := a + b;
    forall i, j | 0 <= i < j < |c|
      ensures Since(base, c[i].tick) < Since(base, c[j].tick)
    {
      if i < |a| <= j {
        assert Since(base, a[i].tick) <= Since(base, a[|a| - 1].tick);
        assert Since(base, b[0].tick) <= Since(base, b[j - |a|].tick);
      }
    }
  }

  /** On an ordered queue the samples kept by a cut are exactly those before it. */
  lemma RetainedExact(base: u32, samples: seq<Setpoint>, tick: u32)
    requires Ordered(base, samples) && Since(base, tick) < TWO_31
    ensures forall k :: 0 <= k < |samples| ==>
              (k < RetainedFrom(samples, tick, 0) <==> Since(base, samples[k].tick) < Since(base, tick))
  {
    var n := RetainedFrom(samples, tick, 0);
    forall k | 0 <= k < |samples|
      ensures k < n <==> Since(base, samples[k].tick) < Since(base, tick)
    {
      HalfWindow(base, tick, samples[k].tick);
      if n <= k {
        HalfWindow(base, tick, samples[n].tick);
      }
    }
  }
}
